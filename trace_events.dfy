/**
 * The values that flow through the emission path: tracepoint ids, the two
 * enable gates, the events a sink receives, and the rule that decides
 * whether an event reaches the sink at all.
 */
module TraceEvents {

  /** A tracepoint id is an `unsigned int`: 32 bits wide. */
  type TraceId = x: int | 0 <= x < 0x1_0000_0000

  datatype Option<T> = None | Some(value: T)

  /** The level a mark event is recorded at. */
  datatype MarkLevel = Global | Process | Thread

  /** Which of the two gates an override acts on. */
  datatype GateLevel = ThreadGate | ProcessGate

  /** The process-wide flag and the calling thread's flag. */
  datatype Gates = Gates(process: bool, thread: bool)

  function Read(g: Gates, level: GateLevel): bool
  {
    match level
    case ThreadGate => g.thread
    case ProcessGate => g.process
  }

  /** Sets one gate and leaves the other one as it was. */
  function Write(g: Gates, level: GateLevel, value: bool): (r: Gates)
    ensures Read(r, level) == value
    ensures forall other: GateLevel :: other != level ==> Read(r, other) == Read(g, other)
  {
    match level
    case ThreadGate => g.(thread := value)
    case ProcessGate => g.(process := value)
  }

  /** What the sink receives. */
  datatype Event =
    | Entry(id: TraceId)
    | Exit(id: TraceId)
    | MarkEvent(level: MarkLevel, id: TraceId)
    | CounterEvent(series: string, value: int)

  /**
   * The gate check in front of every emission: the event is forwarded
   * exactly when both the process flag and the thread flag are set, and
   * otherwise nothing is forwarded.
   */
  function Emission(g: Gates, e: Event): (r: seq<Event>)
    ensures |r| <= 1
    ensures r != [] <==> g.process && g.thread
    ensures forall k :: 0 <= k < |r| ==> r[k] == e
  {
    if g.process && g.thread then [e] else []
  }

  /**
   * Reads a log left to right with a stack of the scopes still open
   * (innermost last): an Entry opens a scope, an Exit must close the
   * innermost open scope with the same id, marks and counters are neutral.
   * None means an Exit did not match.
   */
  function Pending(log: seq<Event>, open: seq<TraceId>): Option<seq<TraceId>>
  {
    if log == [] then Some(open)
    else
      match log[0]
      case Entry(id) => Pending(log[1..], open + [id])
      case Exit(id) =>
        if open != [] && open[|open| - 1] == id then Pending(log[1..], open[..|open| - 1])
        else None
      case MarkEvent(_, _) => Pending(log[1..], open)
      case CounterEvent(_, _) => Pending(log[1..], open)
  }

  /** Every Entry is closed by a matching Exit, innermost first. */
  predicate WellNested(log: seq<Event>)
  {
    Pending(log, []) == Some([])
  }

  function Entries(log: seq<Event>): nat
  {
    if log == [] then 0 else (if log[0].Entry? then 1 else 0) + Entries(log[1..])
  }

  function Exits(log: seq<Event>): nat
  {
    if log == [] then 0 else (if log[0].Exit? then 1 else 0) + Exits(log[1..])
  }

  /** Reading a concatenation is reading the first part, then the second from where it left off. */
  lemma {:induction false} PendingAppend(a: seq<Event>, b: seq<Event>, open: seq<TraceId>)
    ensures Pending(a + b, open) ==
              match Pending(a, open)
              case None => None
              case Some(rest) => Pending(b, rest)
  {
    if a == [] {
      assert a + b == b;
    } else {
      assert (a + b)[0] == a[0];
      assert (a + b)[1..] == a[1..] + b;
      match a[0]
      case Entry(id) => PendingAppend(a[1..], b, open + [id]);
      case Exit(id) =>
        if open != [] && open[|open| - 1] == id {
          PendingAppend(a[1..], b, open[..|open| - 1]);
        }
      case MarkEvent(_, _) => PendingAppend(a[1..], b, open);
      case CounterEvent(_, _) => PendingAppend(a[1..], b, open);
    }
  }

  /** Scopes already open below do not change how a log is read. */
  lemma {:induction false} PendingBelow(log: seq<Event>, below: seq<TraceId>, open: seq<TraceId>, rest: seq<TraceId>)
    requires Pending(log, open) == Some(rest)
    ensures Pending(log, below + open) == Some(below + rest)
  {
    if log != [] {
      match log[0]
      case Entry(id) =>
        assert below + open + [id] == below + (open + [id]);
        PendingBelow(log[1..], below, open + [id], rest);
      case Exit(id) =>
        var all := below + open;
        assert all[|all| - 1] == open[|open| - 1];
        assert all[..|all| - 1] == below + open[..|open| - 1];
        PendingBelow(log[1..], below, open[..|open| - 1], rest);
      case MarkEvent(_, _) => PendingBelow(log[1..], below, open, rest);
      case CounterEvent(_, _) => PendingBelow(log[1..], below, open, rest);
    }
  }

  /** Each Entry pushes one id and each matched Exit pops one. */
  lemma {:induction false} PendingCounts(log: seq<Event>, open: seq<TraceId>, rest: seq<TraceId>)
    requires Pending(log, open) == Some(rest)
    ensures |open| + Entries(log) == |rest| + Exits(log)
  {
    if log != [] {
      match log[0]
      case Entry(id) => PendingCounts(log[1..], open + [id], rest);
      case Exit(id) => PendingCounts(log[1..], open[..|open| - 1], rest);
      case MarkEvent(_, _) => PendingCounts(log[1..], open, rest);
      case CounterEvent(_, _) => PendingCounts(log[1..], open, rest);
    }
  }

  /** A well-nested log has as many entries as exits. */
  lemma WellNestedBalanced(log: seq<Event>)
    requires WellNested(log)
    ensures Entries(log) == Exits(log)
  {
    PendingCounts(log, [], []);
  }

  lemma {:induction false} CountsAppend(a: seq<Event>, b: seq<Event>)
    ensures Entries(a + b) == Entries(a) + Entries(b)
    ensures Exits(a + b) == Exits(a) + Exits(b)
  {
    if a == [] {
      assert a + b == b;
    } else {
      assert (a + b)[0] == a[0];
      assert (a + b)[1..] == a[1..] + b;
      CountsAppend(a[1..], b);
    }
  }

  /** Wrapping a well-nested log in one more entry and exit keeps it well nested. */
  lemma WrapWellNested(id: TraceId, inner: seq<Event>)
    requires WellNested(inner)
    ensures WellNested([Entry(id)] + inner + [Exit(id)])
  {
    assert [Entry(id)] + inner + [Exit(id)] == [Entry(id)] + (inner + [Exit(id)]);
    assert Pending([Entry(id)], []) == Some([id]) by {
      assert [Entry(id)][1..] == [];
      assert [] + [id] == [id];
    }
    PendingAppend([Entry(id)], inner + [Exit(id)], []);
    PendingBelow(inner, [id], [], []);
    assert [id] + [] == [id];
    PendingAppend(inner, [Exit(id)], [id]);
    assert Pending([Exit(id)], [id]) == Some([]) by {
      assert [Exit(id)][1..] == [];
    }
  }

  /** Wrapping a log in an entry and an exit adds one of each. */
  lemma WrapCounts(id: TraceId, inner: seq<Event>)
    ensures Entries([Entry(id)] + inner + [Exit(id)]) == Entries(inner) + 1
    ensures Exits([Entry(id)] + inner + [Exit(id)]) == Exits(inner) + 1
  {
    CountsAppend([Entry(id)], inner);
    CountsAppend([Entry(id)] + inner, [Exit(id)]);
    assert [Entry(id)][1..] == [] && [Exit(id)][1..] == [];
  }
}
