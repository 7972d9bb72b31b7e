/**
 * Running an expanded program on one thread: what the sink receives and
 * what the two gates are afterwards. `Run` and `Step` are the reference
 * semantics; `Exec` runs the same program on a `TraceState` through its
 * `ScopeEntry` and `ScopeExit` methods and is proved to agree with them.
 */
module TraceRun {
  import opened TraceEvents
  import opened TraceMacro
  import opened LttngTracepoint

  /** The gates after the program and the events it emitted. */
  datatype Outcome = Outcome(gates: Gates, log: seq<Event>)

  function Run(ops: seq<Op>, g: Gates): Outcome
    decreases ops
  {
    if ops == [] then Outcome(g, [])
    else
      var first := Step(ops[0], g);
      var rest := Run(ops[1..], first.gates);
      Outcome(rest.gates, first.log + rest.log)
  }

  /**
   * One op. A scope checks the gates once when it opens and once more, on
   * the gates as they are then, when it closes. An override saves the gate
   * it sets and writes the saved value back when its body is done.
   */
  function Step(op: Op, g: Gates): Outcome
    decreases op
  {
    match op
    case Scope(id, _, body) =>
      var inner := Run(body, g);
      Outcome(inner.gates, Emission(g, Entry(id)) + inner.log + Emission(inner.gates, Exit(id)))
    case Override(level, value, body) =>
      var saved := Read(g, level);
      var inner := Run(body, Write(g, level, value));
      Outcome(Write(inner.gates, level, saved), inner.log)
    case Start(id, _) => Outcome(g, Emission(g, Entry(id)))
    case End(id, _) => Outcome(g, Emission(g, Exit(id)))
    case Mark(level, id, _) => Outcome(g, Emission(g, MarkEvent(level, id)))
    case Counter(series, value) => Outcome(g, Emission(g, CounterEvent(series, value)))
    case UserCode(_) => Outcome(g, [])
  }

  /** No explicit start or end anywhere: every scope comes from an RAII object. */
  predicate RaiiOnly(ops: seq<Op>)
    decreases ops
  {
    forall k :: 0 <= k < |ops| ==> RaiiOnlyOp(ops[k])
  }

  predicate RaiiOnlyOp(op: Op)
    decreases op
  {
    match op
    case Scope(_, _, body) => RaiiOnly(body)
    case Override(_, _, body) => RaiiOnly(body)
    case Start(_, _) => false
    case End(_, _) => false
    case _ => true
  }

  /** Nothing in the program overrides `level` to true. */
  predicate NeverEnables(ops: seq<Op>, level: GateLevel)
    decreases ops
  {
    forall k :: 0 <= k < |ops| ==> NeverEnablesOp(ops[k], level)
  }

  predicate NeverEnablesOp(op: Op, level: GateLevel)
    decreases op
  {
    match op
    case Scope(_, _, body) => NeverEnables(body, level)
    case Override(l, value, body) => (l == level ==> !value) && NeverEnables(body, level)
    case _ => true
  }

  /**
   * Every override restores exactly the value it saved, so at any nesting
   * depth the gates after a program are the gates before it.
   */
  lemma {:induction false} RunRestoresGates(ops: seq<Op>, g: Gates)
    ensures Run(ops, g).gates == g
    decreases ops
  {
    if ops != [] {
      StepRestoresGates(ops[0], g);
      RunRestoresGates(ops[1..], g);
    }
  }

  lemma {:induction false} StepRestoresGates(op: Op, g: Gates)
    ensures Step(op, g).gates == g
    decreases op
  {
    match op
    case Scope(_, _, body) => RunRestoresGates(body, g);
    case Override(level, value, body) =>
      RunRestoresGates(body, Write(g, level, value));
      assert Write(Write(g, level, value), level, Read(g, level)) == g by {
        match level
        case ThreadGate =>
        case ProcessGate =>
      }
    case _ =>
  }

  /** Running `a + b` runs `a`, then `b` from the gates `a` left. */
  lemma {:induction false} RunAppend(a: seq<Op>, b: seq<Op>, g: Gates)
    ensures Run(a + b, g).log == Run(a, g).log + Run(b, Run(a, g).gates).log
    ensures Run(a + b, g).gates == Run(b, Run(a, g).gates).gates
    decreases a
  {
    if a == [] {
      assert a + b == b;
    } else {
      assert (a + b)[0] == a[0];
      assert (a + b)[1..] == a[1..] + b;
      RunAppend(a[1..], b, Step(a[0], g).gates);
    }
  }

  /** Since the gates come back, a concatenation's log is the two logs one after the other. */
  lemma RunConcat(a: seq<Op>, b: seq<Op>, g: Gates)
    ensures Run(a + b, g).log == Run(a, g).log + Run(b, g).log
  {
    RunAppend(a, b, g);
    RunRestoresGates(a, g);
  }

  /**
   * Programs built from RAII objects alone emit a well-nested log: since the
   * gates are back to their value at a scope's opening when it closes, the
   * exit check agrees with the entry check.
   */
  lemma {:induction false} RunWellNested(ops: seq<Op>, g: Gates)
    requires RaiiOnly(ops)
    ensures WellNested(Run(ops, g).log)
    decreases ops
  {
    if ops != [] {
      var first := Step(ops[0], g);
      StepWellNested(ops[0], g);
      StepRestoresGates(ops[0], g);
      assert RaiiOnly(ops[1..]) by {
        forall k | 0 <= k < |ops[1..]| ensures RaiiOnlyOp(ops[1..][k]) {
          assert ops[1..][k] == ops[k + 1];
        }
      }
      RunWellNested(ops[1..], g);
      PendingAppend(first.log, Run(ops[1..], g).log, []);
    }
  }

  lemma {:induction false} StepWellNested(op: Op, g: Gates)
    requires RaiiOnlyOp(op)
    ensures WellNested(Step(op, g).log)
    decreases op
  {
    match op
    case Scope(id, _, body) =>
      RunWellNested(body, g);
      RunRestoresGates(body, g);
      var inner := Run(body, g).log;
      if g.process && g.thread {
        WrapWellNested(id, inner);
      } else {
        assert Step(op, g).log == inner;
      }
    case Override(level, value, body) =>
      RunWellNested(body, Write(g, level, value));
    case Mark(_, _, _) =>
    case Counter(_, _) =>
    case UserCode(_) =>
  }

  /**
   * A gate that is off and that nothing in the program turns on silences
   * the program completely: with the AND rule, either gate alone suffices.
   */
  lemma {:induction false} GateOffSilent(ops: seq<Op>, g: Gates, level: GateLevel)
    requires !Read(g, level) && NeverEnables(ops, level)
    ensures Run(ops, g) == Outcome(g, [])
    decreases ops
  {
    if ops != [] {
      StepGateOffSilent(ops[0], g, level);
      assert NeverEnables(ops[1..], level) by {
        forall k | 0 <= k < |ops[1..]| ensures NeverEnablesOp(ops[1..][k], level) {
          assert ops[1..][k] == ops[k + 1];
        }
      }
      GateOffSilent(ops[1..], g, level);
    }
  }

  lemma {:induction false} StepGateOffSilent(op: Op, g: Gates, level: GateLevel)
    requires !Read(g, level) && NeverEnablesOp(op, level)
    ensures Step(op, g) == Outcome(g, [])
    decreases op
  {
    match op
    case Scope(_, _, body) => GateOffSilent(body, g, level);
    case Override(l, value, body) =>
      var g' := Write(g, l, value);
      assert !Read(g', level);
      GateOffSilent(body, g', level);
      assert Write(g', l, Read(g, l)) == g by {
        match l
        case ThreadGate =>
        case ProcessGate =>
      }
    case _ =>
  }

  /**
   * The exit is decided by the gates at exit time. An explicit start and
   * end around a thread override that turns tracing off: the entry reaches
   * the sink, the exit does not.
   */
  lemma ExitRechecksGates(ids: IdScheme, name: string)
    ensures
      var id := ids.nameId(name);
      var ops := TraceScopeStart(ids, true, name, []) + TracingConfigThreadStateRaii(false, TraceScopeEnd(ids, true, name, []));
      Run(ops, Gates(true, true)).log == [Entry(id)]
  {
    var id := ids.nameId(name);
    var on := Gates(true, true);
    var body := [End(id, name)];
    assert TraceScopeEnd(ids, true, name, []) == body;
    assert Run(body, Gates(true, false)).log == [];
    assert Step(Override(ThreadGate, false, body), on).log == [];
    assert TraceScopeStart(ids, true, name, []) == [Start(id, name)];
    RunConcat([Start(id, name)], [Override(ThreadGate, false, body)], on);
  }

  /** Running one more op of a block adds that op's events. */
  lemma RunPrefix(ops: seq<Op>, i: nat, g: Gates)
    requires i < |ops|
    ensures Run(ops[..i + 1], g).log == Run(ops[..i], g).log + Step(ops[i], g).log
  {
    assert ops[..i + 1] == ops[..i] + [ops[i]];
    RunConcat(ops[..i], [ops[i]], g);
    assert Run([ops[i]], g).log == Step(ops[i], g).log;
  }

  /** Runs one op through the tracepoint functions of `st`. */
  method ExecOp(st: TraceState, op: Op)
    modifies st
    ensures st.Current() == old(st.Current())
    ensures st.log == old(st.log) + Step(op, old(st.Current())).log
    decreases op
  {
    ghost var g := st.Current();
    StepRestoresGates(op, g);
    match op
    case Scope(id, _, body) =>
      st.ScopeEntry(id);
      Exec(st, body);
      RunRestoresGates(body, g);
      st.ScopeExit(id);
    case Override(level, value, body) =>
      // the configuration object saves the flag it sets, and its destructor writes it back
      match level {
        case ThreadGate =>
          var saved := st.thread;
          st.thread := value;
          Exec(st, body);
          st.thread := saved;
        case ProcessGate =>
          var saved := st.process;
          st.process := value;
          Exec(st, body);
          st.process := saved;
      }
    case Start(id, _) => st.ScopeEntry(id);
    case End(id, _) => st.ScopeExit(id);
    case Mark(level, id, _) => st.Mark(level, id);
    case Counter(series, value) => st.Count(series, value);
    case UserCode(_) =>
  }

  /** Runs a block op by op; the gates are as they were when it returns. */
  method Exec(st: TraceState, ops: seq<Op>)
    modifies st
    ensures st.Current() == old(st.Current())
    ensures st.log == old(st.log) + Run(ops, old(st.Current())).log
    decreases ops
  {
    ghost var g := st.Current();
    for i := 0 to |ops|
      invariant st.Current() == g
      invariant st.log == old(st.log) + Run(ops[..i], g).log
    {
      ExecOp(st, ops[i]);
      RunPrefix(ops, i, g);
    }
    assert ops[..|ops|] == ops;
  }
}
