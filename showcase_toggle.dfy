/**
 * The toggle showcase: `a` calls `b`, `b` calls `c`, `c` calls `fooBarBuz`,
 * each traced with TRACE_PRETTY_FUNCTION; `fooBarBuz` turns its thread's
 * tracing back on first, and `this_disables_tracepoints_and_calls_a` turns
 * it off before calling `a`. The main loop calls `a` and then
 * `this_disables_tracepoints_and_calls_a` forever.
 *
 * Each function is the program its body expands to; a call is the callee's
 * program in place, so the callee's RAII objects end where its own block
 * ends. Sleeps and console output are code that emits nothing.
 */
module ShowcaseToggle {
  import opened TraceEvents
  import opened TraceMacro
  import opened TraceRun
  import opened MacroLaws
  import opened LttngTracepoint

  const SourceFile: string := "showcase_toggle_tracepoints.cpp"

  function At(line: nat): Location
  {
    Location(SourceFile, line)
  }

  // the lines the five TRACE_PRETTY_FUNCTION() calls stand on
  const FooBarBuzLine: nat := 45
  const CLine: nat := 52
  const BLine: nat := 62
  const ALine: nat := 73
  const DisablesLine: nat := 82

  function Sleep(): Op { UserCode("sleep_for") }
  function Print(): Op { UserCode("cout") }

  function FooBarBuz(ids: IdScheme): seq<Op>
  {
    TracingConfigThreadStateRaii(true,
      TracePrettyFunction(ids, "void fooBarBuz()", At(FooBarBuzLine),
        [Sleep()]))
  }

  function C(ids: IdScheme): seq<Op>
  {
    TracePrettyFunction(ids, "void c()", At(CLine),
      [Sleep(), Print()] + FooBarBuz(ids) + [Sleep()])
  }

  /** `b` ends with an explicit TRACE_SCOPE_END("void b()",) that has no matching start. */
  function B(ids: IdScheme, profile: bool): seq<Op>
  {
    TracePrettyFunction(ids, "void b()", At(BLine),
      [Print(), Sleep()] + C(ids) + [Sleep()] + TraceScopeEnd(ids, profile, "void b()", []))
  }

  function A(ids: IdScheme, profile: bool): seq<Op>
  {
    TracePrettyFunction(ids, "void a()", At(ALine),
      [Print(), Sleep()] + B(ids, profile) + [Sleep()])
  }

  /** The scope is opened first and the override second, so the override ends first. */
  function ThisDisablesTracepointsAndCallsA(ids: IdScheme, profile: bool): seq<Op>
  {
    TracePrettyFunction(ids, "void this_disables_tracepoints_and_calls_a()", At(DisablesLine),
      TracingConfigThreadStateRaii(false,
        A(ids, profile)))
  }

  /** One pass of the main loop. */
  function LoopIteration(ids: IdScheme, profile: bool): seq<Op>
  {
    A(ids, profile) + ThisDisablesTracepointsAndCallsA(ids, profile) + [Sleep()]
  }

  function IdAt(ids: IdScheme, line: nat): TraceId
  {
    ids.locationId(At(line))
  }

  /** The events of one traced function with `inner` between its entry and its exit. */
  function Traced(g: Gates, id: TraceId, inner: seq<Event>): seq<Event>
  {
    Emission(g, Entry(id)) + inner + Emission(g, Exit(id))
  }

  function FooBarBuzLog(ids: IdScheme, g: Gates): seq<Event>
  {
    if g.process then [Entry(IdAt(ids, FooBarBuzLine)), Exit(IdAt(ids, FooBarBuzLine))] else []
  }

  /** The unmatched end in `b`, as it reaches the sink. */
  function BEndLog(ids: IdScheme, profile: bool, g: Gates): seq<Event>
  {
    if profile then Emission(g, Exit(ids.nameId("void b()"))) else []
  }

  /** Code that emits nothing. */
  predicate Silent(ops: seq<Op>)
  {
    forall k :: 0 <= k < |ops| ==> ops[k].UserCode?
  }

  lemma {:induction false} SilentRun(ops: seq<Op>, g: Gates)
    requires Silent(ops)
    ensures Run(ops, g) == Outcome(g, [])
    decreases ops
  {
    if ops != [] {
      assert Silent(ops[1..]) by {
        forall k | 0 <= k < |ops[1..]| ensures ops[1..][k].UserCode? {
          assert ops[1..][k] == ops[k + 1];
        }
      }
      SilentRun(ops[1..], g);
    }
  }

  /**
   * A function traced with TRACE_PRETTY_FUNCTION whose other statements,
   * around `mid`, emit nothing: its entry, `mid`'s events, its exit.
   */
  lemma TracedBody(ids: IdScheme, name: string, line: nat, pre: seq<Op>, mid: seq<Op>, post: seq<Op>, g: Gates)
    requires Silent(pre) && Silent(post)
    ensures Run(TracePrettyFunction(ids, name, At(line), pre + mid + post), g).log == Traced(g, IdAt(ids, line), Run(mid, g).log)
  {
    ScopeRaiiBrackets(ids, name, At(line), pre + mid + post, g);
    SilentAround(pre, mid, post, g);
  }

  /** Statements that emit nothing around `mid` add nothing to its log. */
  lemma SilentAround(pre: seq<Op>, mid: seq<Op>, post: seq<Op>, g: Gates)
    requires Silent(pre) && Silent(post)
    ensures Run(pre + mid + post, g).log == Run(mid, g).log
  {
    RunConcat(pre, mid, g);
    RunConcat(pre + mid, post, g);
    SilentRun(pre, g);
    SilentRun(post, g);
  }

  /**
   * `fooBarBuz` shows up whatever the thread gate was, because it sets the
   * thread gate before its scope opens; the process gate still rules it.
   */
  lemma FooBarBuzAlwaysTraced(ids: IdScheme, g: Gates)
    ensures Run(FooBarBuz(ids), g) == Outcome(g, FooBarBuzLog(ids, g))
  {
    var on := Gates(g.process, true);
    var scope := TracePrettyFunction(ids, "void fooBarBuz()", At(FooBarBuzLine), [Sleep()]);
    TracedBody(ids, "void fooBarBuz()", FooBarBuzLine, [], [Sleep()], [], on);
    assert [] + [Sleep()] + [] == [Sleep()];
    SilentRun([Sleep()], on);
    ThreadOverride(true, scope, g);
  }

  lemma CTrace(ids: IdScheme, g: Gates)
    ensures Run(C(ids), g).log == Traced(g, IdAt(ids, CLine), FooBarBuzLog(ids, g))
  {
    TracedBody(ids, "void c()", CLine, [Sleep(), Print()], FooBarBuz(ids), [Sleep()], g);
    FooBarBuzAlwaysTraced(ids, g);
  }

  lemma BTrace(ids: IdScheme, profile: bool, g: Gates)
    ensures Run(B(ids, profile), g).log ==
              Traced(g, IdAt(ids, BLine), Run(C(ids), g).log + BEndLog(ids, profile, g))
  {
    var end := TraceScopeEnd(ids, profile, "void b()", []);
    var pre, mid := [Print(), Sleep()], C(ids) + [Sleep()] + end;
    assert pre + C(ids) + [Sleep()] + end == pre + mid + [];
    TracedBody(ids, "void b()", BLine, pre, mid, [], g);
    RunConcat(C(ids), [Sleep()], g);
    RunConcat(C(ids) + [Sleep()], end, g);
    SilentRun([Sleep()], g);
    if profile {
      assert end == [End(ids.nameId("void b()"), "void b()")];
    } else {
      UnprofiledIsNoOp(ids, "void b()", [], g);
    }
  }

  lemma ATrace(ids: IdScheme, profile: bool, g: Gates)
    ensures Run(A(ids, profile), g).log == Traced(g, IdAt(ids, ALine), Run(B(ids, profile), g).log)
  {
    TracedBody(ids, "void a()", ALine, [Print(), Sleep()], B(ids, profile), [Sleep()], g);
  }

  /** The full trace of `a` under any gates, in either build. */
  lemma ALog(ids: IdScheme, profile: bool, g: Gates)
    ensures Run(A(ids, profile), g).log ==
              Traced(g, IdAt(ids, ALine),
                Traced(g, IdAt(ids, BLine),
                  Traced(g, IdAt(ids, CLine), FooBarBuzLog(ids, g)) + BEndLog(ids, profile, g)))
  {
    ATrace(ids, profile, g);
    BTrace(ids, profile, g);
    CTrace(ids, g);
  }

  /** The events of `a` with both gates on, in the default build. */
  function AEnabledLog(ids: IdScheme): seq<Event>
  {
    var a, b, c, f := IdAt(ids, ALine), IdAt(ids, BLine), IdAt(ids, CLine), IdAt(ids, FooBarBuzLine);
    [Entry(a), Entry(b), Entry(c), Entry(f), Exit(f), Exit(c), Exit(b), Exit(a)]
  }

  /**
   * With both gates on, `a` shows all four functions, nested as they call
   * each other; `TRACE_SCOPE_END` in `b` adds nothing without TRACE_PROFILE.
   */
  lemma AFullyTraced(ids: IdScheme)
    ensures Run(A(ids, false), Gates(true, true)) == Outcome(Gates(true, true), AEnabledLog(ids))
    ensures WellNested(AEnabledLog(ids))
  {
    var on := Gates(true, true);
    ALog(ids, false, on);
    RunRestoresGates(A(ids, false), on);
    var a, b, c, f := IdAt(ids, ALine), IdAt(ids, BLine), IdAt(ids, CLine), IdAt(ids, FooBarBuzLine);
    var fLog := [Entry(f)] + [] + [Exit(f)];
    var cLog := [Entry(c)] + fLog + [Exit(c)];
    var bLog := [Entry(b)] + cLog + [Exit(b)];
    var aLog := [Entry(a)] + bLog + [Exit(a)];
    assert aLog == AEnabledLog(ids);
    assert WellNested([]);
    WrapWellNested(f, []);
    WrapWellNested(c, fLog);
    WrapWellNested(b, cLog);
    WrapWellNested(a, bLog);
  }

  /**
   * With the thread gate off, `a`, `b` and `c` are not seen; only
   * `fooBarBuz`, which turns the gate back on, is.
   */
  lemma AUnderDisabledThread(ids: IdScheme, profile: bool)
    ensures
      var f := IdAt(ids, FooBarBuzLine);
      Run(A(ids, profile), Gates(true, false)).log == [Entry(f), Exit(f)]
  {
    ALog(ids, profile, Gates(true, false));
  }

  /**
   * `this_disables_tracepoints_and_calls_a` under any gates: its own scope
   * opens before the override and closes after it is undone, so it is
   * checked against the caller's gates; of `a`'s tree only `fooBarBuz` can
   * show up, and only if the process gate is on.
   */
  lemma DisablesLog(ids: IdScheme, profile: bool, g: Gates)
    ensures Run(ThisDisablesTracepointsAndCallsA(ids, profile), g)
              == Outcome(g, Traced(g, IdAt(ids, DisablesLine), FooBarBuzLog(ids, g)))
  {
    var inner := TracingConfigThreadStateRaii(false, A(ids, profile));
    ScopeRaiiBrackets(ids, "void this_disables_tracepoints_and_calls_a()", At(DisablesLine), inner, g);
    ThreadOverride(false, A(ids, profile), g);
    ALog(ids, profile, Gates(g.process, false));
  }

  /** With both gates on: its own entry and exit, and `fooBarBuz` inside. */
  lemma DisablesTrace(ids: IdScheme, profile: bool)
    ensures
      var d, f := IdAt(ids, DisablesLine), IdAt(ids, FooBarBuzLine);
      Run(ThisDisablesTracepointsAndCallsA(ids, profile), Gates(true, true))
        == Outcome(Gates(true, true), [Entry(d), Entry(f), Exit(f), Exit(d)])
  {
    DisablesLog(ids, profile, Gates(true, true));
  }

  /** One pass of the main loop under any gates, default build. */
  lemma IterationLog(ids: IdScheme, g: Gates)
    ensures Run(LoopIteration(ids, false), g)
              == Outcome(g, Run(A(ids, false), g).log + Traced(g, IdAt(ids, DisablesLine), FooBarBuzLog(ids, g)))
  {
    var disables := ThisDisablesTracepointsAndCallsA(ids, false);
    DisablesLog(ids, false, g);
    RunConcat(A(ids, false), disables, g);
    RunConcat(A(ids, false) + disables, [Sleep()], g);
    SilentRun([Sleep()], g);
    RunRestoresGates(LoopIteration(ids, false), g);
  }

  /**
   * One pass of the main loop with both gates on: `a`'s full tree, then the
   * disabling function with only `fooBarBuz` inside, and the gates are as
   * before, so the next pass is traced in the same way.
   */
  lemma IterationTrace(ids: IdScheme)
    ensures
      var d, f := IdAt(ids, DisablesLine), IdAt(ids, FooBarBuzLine);
      Run(LoopIteration(ids, false), Gates(true, true))
        == Outcome(Gates(true, true), AEnabledLog(ids) + [Entry(d), Entry(f), Exit(f), Exit(d)])
  {
    IterationLog(ids, Gates(true, true));
    AFullyTraced(ids);
  }

  /** Two passes emit the trace of one pass twice. */
  lemma NextIterationTracedAgain(ids: IdScheme)
    ensures
      var once := Run(LoopIteration(ids, false), Gates(true, true)).log;
      Run(LoopIteration(ids, false) + LoopIteration(ids, false), Gates(true, true)).log == once + once
  {
    RunConcat(LoopIteration(ids, false), LoopIteration(ids, false), Gates(true, true));
  }

  /**
   * Built with TRACE_PROFILE, the explicit end in `b` reaches the sink with
   * no start to pair with: `a`'s trace has one exit more than it has
   * entries and is not well nested.
   */
  lemma ProfiledBuildUnbalanced(ids: IdScheme)
    ensures Entries(Run(A(ids, true), Gates(true, true)).log) + 1 == Exits(Run(A(ids, true), Gates(true, true)).log)
    ensures !WellNested(Run(A(ids, true), Gates(true, true)).log)
  {
    var on := Gates(true, true);
    ALog(ids, true, on);
    var a, b, c, f, n := IdAt(ids, ALine), IdAt(ids, BLine), IdAt(ids, CLine), IdAt(ids, FooBarBuzLine), ids.nameId("void b()");
    var fLog := [Entry(f)] + [] + [Exit(f)];
    var cLog := [Entry(c)] + fLog + [Exit(c)];
    var bLog := [Entry(b)] + (cLog + [Exit(n)]) + [Exit(b)];
    var aLog := [Entry(a)] + bLog + [Exit(a)];
    assert Run(A(ids, true), on).log == aLog;
    WrapCounts(f, []);
    WrapCounts(c, fLog);
    CountsAppend(cLog, [Exit(n)]);
    assert [Exit(n)][1..] == [];
    WrapCounts(b, cLog + [Exit(n)]);
    WrapCounts(a, bLog);
    if WellNested(aLog) {
      WellNestedBalanced(aLog);
    }
  }

  /**
   * One pass of the main loop on a thread's trace state, in the default
   * build: with both gates on the sink gets the pass's full trace; with
   * only the thread gate off, `fooBarBuz` twice; with the process gate
   * off, nothing. The gates are left as they were.
   */
  method MainLoopIteration(st: TraceState, ids: IdScheme)
    modifies st
    ensures st.process == old(st.process) && st.thread == old(st.thread)
    ensures old(st.process && st.thread) ==>
              st.log == old(st.log) + AEnabledLog(ids)
                        + [Entry(IdAt(ids, DisablesLine)), Entry(IdAt(ids, FooBarBuzLine)),
                           Exit(IdAt(ids, FooBarBuzLine)), Exit(IdAt(ids, DisablesLine))]
    ensures old(st.process && !st.thread) ==>
              st.log == old(st.log) + [Entry(IdAt(ids, FooBarBuzLine)), Exit(IdAt(ids, FooBarBuzLine)),
                                       Entry(IdAt(ids, FooBarBuzLine)), Exit(IdAt(ids, FooBarBuzLine))]
    ensures !old(st.process) ==> st.log == old(st.log)
  {
    ghost var g := st.Current();
    Exec(st, LoopIteration(ids, false));
    IterationByGates(ids, g);
  }

  /** The sink's share of one default-build pass, case by case on the gates. */
  lemma IterationByGates(ids: IdScheme, g: Gates)
    ensures g.process && g.thread ==>
              Run(LoopIteration(ids, false), g).log == AEnabledLog(ids)
                + [Entry(IdAt(ids, DisablesLine)), Entry(IdAt(ids, FooBarBuzLine)),
                   Exit(IdAt(ids, FooBarBuzLine)), Exit(IdAt(ids, DisablesLine))]
    ensures g.process && !g.thread ==>
              Run(LoopIteration(ids, false), g).log == [Entry(IdAt(ids, FooBarBuzLine)), Exit(IdAt(ids, FooBarBuzLine)),
                                                         Entry(IdAt(ids, FooBarBuzLine)), Exit(IdAt(ids, FooBarBuzLine))]
    ensures !g.process ==> Run(LoopIteration(ids, false), g).log == []
  {
    IterationLog(ids, g);
    if g.process && g.thread {
      AFullyTraced(ids);
    } else {
      ALog(ids, false, g);
    }
  }
}
