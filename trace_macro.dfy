/**
 * The public instrumentation macros, each as a function from its arguments
 * to the short program it expands to.
 *
 * A macro that declares an RAII object (a traced scope, a gate override)
 * governs the rest of the enclosing C++ block: its constructor runs where
 * the macro stands and its destructor at the end of that block. The
 * functions for those macros therefore take the rest of the block, `rest`,
 * and return one op whose body it is.
 */
module TraceMacro {
  import opened TraceEvents

  /** A source position: the file and the line a macro is written on. */
  datatype Location = Location(file: string, line: nat)

  /**
   * How ids are derived. `nameId` stands for the compile-time CRC of a name
   * string, `runtimeNameId` for the CRC the RUNTIME_ macros compute at run
   * time, and `locationId` for the id made from the file name and line. All
   * three are left uninterpreted, so nothing here depends on which hash is
   * used, on its being free of collisions, or on the two name hashes
   * agreeing.
   */
  datatype IdScheme = IdScheme(nameId: string -> TraceId, runtimeNameId: string -> TraceId, locationId: Location -> TraceId)

  /** The program a block of instrumented code expands to. */
  datatype Op =
      /** A scope tracepoint object: entry when built, exit when destroyed. */
    | Scope(id: TraceId, name: string, body: seq<Op>)
      /** A gate override object: sets one gate, restores it when destroyed. */
    | Override(gate: GateLevel, enable: bool, body: seq<Op>)
      /** An explicit scope start, as `scope_entry(id)`. */
    | Start(id: TraceId, name: string)
      /** An explicit scope end, as `scope_exit(id)`. */
    | End(id: TraceId, name: string)
    | Mark(level: MarkLevel, id: TraceId, name: string)
    | Counter(series: string, value: int)
      /** Code that emits nothing itself (sleeps, console output). */
    | UserCode(what: string)

  // TRACE_SCOPE_RAII(name): a traced scope whose id comes from the location.
  function TraceScopeRaii(ids: IdScheme, name: string, loc: Location, rest: seq<Op>): seq<Op>
  {
    [Scope(ids.locationId(loc), name, rest)]
  }

  // TRACE_PRETTY_FUNCTION(): the same, named by the enclosing function's signature.
  function TracePrettyFunction(ids: IdScheme, prettyFunction: string, loc: Location, rest: seq<Op>): seq<Op>
  {
    TraceScopeRaii(ids, prettyFunction, loc, rest)
  }

  // TRACE_SCOPE_START(name, wait_fun): only in a TRACE_PROFILE build, the
  // wait code and then the start event with the name's id.
  function TraceScopeStart(ids: IdScheme, profile: bool, name: string, waitFun: seq<Op>): seq<Op>
  {
    if profile then waitFun + [Start(ids.nameId(name), name)] else []
  }

  // TRACE_SCOPE_END(name, wait_fun): only in a TRACE_PROFILE build, the end
  // event with the name's id and then the wait code.
  function TraceScopeEnd(ids: IdScheme, profile: bool, name: string, waitFun: seq<Op>): seq<Op>
  {
    if profile then [End(ids.nameId(name), name)] + waitFun else []
  }

  // RUNTIME_TRACE_SCOPE_START(name, wait_fun): as TRACE_SCOPE_START, with the
  // id computed at run time from a name that need not be a literal.
  function RuntimeTraceScopeStart(ids: IdScheme, profile: bool, name: string, waitFun: seq<Op>): seq<Op>
  {
    if profile then waitFun + [Start(ids.runtimeNameId(name), name)] else []
  }

  // RUNTIME_TRACE_SCOPE_END(name, wait_fun): the end event with the run-time id.
  function RuntimeTraceScopeEnd(ids: IdScheme, profile: bool, name: string, waitFun: seq<Op>): seq<Op>
  {
    if profile then [End(ids.runtimeNameId(name), name)] + waitFun else []
  }

  // TRACING_CONFIG_THREAD_PROCESS_STATE_RAII(process, value): the internal
  // form both public gate overrides expand to.
  function TracingConfigThreadProcessStateRaii(isProcess: bool, value: bool, rest: seq<Op>): seq<Op>
  {
    [Override(if isProcess then ProcessGate else ThreadGate, value, rest)]
  }

  // TRACING_CONFIG_THREAD_STATE_RAII(value).
  function TracingConfigThreadStateRaii(value: bool, rest: seq<Op>): seq<Op>
  {
    TracingConfigThreadProcessStateRaii(false, value, rest)
  }

  // TRACING_CONFIG_PROCESS_STATE_RAII(value).
  function TracingConfigProcessStateRaii(value: bool, rest: seq<Op>): seq<Op>
  {
    TracingConfigThreadProcessStateRaii(true, value, rest)
  }

  // TRACE_MARK_EVENT_NAMED_ID(level, name, id): the internal form of the marks.
  function TraceMarkEventNamedId(level: MarkLevel, name: string, id: TraceId): seq<Op>
  {
    [Mark(level, id, name)]
  }

  function TraceMarkEventGlobal(ids: IdScheme, name: string): seq<Op>
  {
    TraceMarkEventNamedId(Global, name, ids.nameId(name))
  }

  function TraceMarkEventProcess(ids: IdScheme, name: string): seq<Op>
  {
    TraceMarkEventNamedId(Process, name, ids.nameId(name))
  }

  function TraceMarkEventThread(ids: IdScheme, name: string): seq<Op>
  {
    TraceMarkEventNamedId(Thread, name, ids.nameId(name))
  }

  /**
   * The series key of a counter: the literal concatenation `name "/" series`,
   * so it is the name, one slash, and the series name, in that order.
   */
  function CounterKey(name: string, series: string): (key: string)
    ensures |key| == |name| + 1 + |series|
    ensures key[..|name|] == name && key[|name|] == '/' && key[|name| + 1..] == series
  {
    name + "/" + series
  }

  // TRACE_COUNT_SERIES(name, series_name, value).
  function TraceCountSeries(name: string, series: string, value: int): seq<Op>
  {
    [Counter(CounterKey(name, series), value)]
  }

  // TRACE_COUNT(name, value): one series with the empty name.
  function TraceCount(name: string, value: int): seq<Op>
  {
    TraceCountSeries(name, "", value)
  }

  /**
   * For counter names without a slash, the key determines both the counter
   * name and the series name.
   */
  lemma CounterKeyInjective(n1: string, s1: string, n2: string, s2: string)
    requires '/' !in n1 && '/' !in n2
    requires CounterKey(n1, s1) == CounterKey(n2, s2)
    ensures n1 == n2 && s1 == s2
  {
  }

  /** TRACE_COUNT(name, v) keys its sample `name + "/"`. */
  lemma TraceCountKey(name: string, value: int)
    ensures TraceCount(name, value) == [Counter(name + "/", value)]
  {
    assert CounterKey(name, "") == name + "/";
  }
}
