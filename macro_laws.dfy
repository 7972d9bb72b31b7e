/**
 * What each instrumentation macro does to the sink and to the gates when
 * its expansion is run, stated for every gate setting.
 */
module MacroLaws {
  import opened TraceEvents
  import opened TraceMacro
  import opened TraceRun

  /**
   * TRACE_SCOPE_RAII: an entry with the location's id, then whatever the
   * rest of the block emits, then the exit with the same id, each behind the
   * gate check; the gates are left as they were.
   */
  lemma ScopeRaiiBrackets(ids: IdScheme, name: string, loc: Location, rest: seq<Op>, g: Gates)
    ensures
      var id := ids.locationId(loc);
      Run(TraceScopeRaii(ids, name, loc, rest), g)
        == Outcome(g, Emission(g, Entry(id)) + Run(rest, g).log + Emission(g, Exit(id)))
  {
    RunRestoresGates(rest, g);
  }

  /**
   * TRACE_PRETTY_FUNCTION is TRACE_SCOPE_RAII with another name: the name
   * goes to the name registry only, so the two emit the same events.
   */
  lemma PrettyFunctionLikeScopeRaii(ids: IdScheme, prettyFunction: string, name: string, loc: Location, rest: seq<Op>, g: Gates)
    ensures Run(TracePrettyFunction(ids, prettyFunction, loc, rest), g) == Run(TraceScopeRaii(ids, name, loc, rest), g)
  {
    ScopeRaiiBrackets(ids, prettyFunction, loc, rest, g);
    ScopeRaiiBrackets(ids, name, loc, rest, g);
  }

  /**
   * An explicit start and end with one id around `body`, with wait code
   * before the start and after the end.
   */
  lemma StartEndBracket(id: TraceId, name: string, waitStart: seq<Op>, body: seq<Op>, waitEnd: seq<Op>, g: Gates)
    ensures
      Run(waitStart + [Start(id, name)] + body + ([End(id, name)] + waitEnd), g)
        == Outcome(g, Run(waitStart, g).log + Emission(g, Entry(id)) + Run(body, g).log
                      + Emission(g, Exit(id)) + Run(waitEnd, g).log)
  {
    var start := waitStart + [Start(id, name)];
    var end := [End(id, name)] + waitEnd;
    assert Run([Start(id, name)], g).log == Emission(g, Entry(id));
    assert Run([End(id, name)], g).log == Emission(g, Exit(id));
    RunConcat(waitStart, [Start(id, name)], g);
    RunConcat([End(id, name)], waitEnd, g);
    RunConcat(start, body, g);
    RunConcat(start + body, end, g);
    RunRestoresGates(start + body + end, g);
  }

  /**
   * In a TRACE_PROFILE build an explicit start and end of the same name
   * bracket the code between them with one id: the start's wait code runs
   * before the entry, the end's wait code after the exit.
   */
  lemma ProfiledStartEnd(ids: IdScheme, name: string, waitStart: seq<Op>, body: seq<Op>, waitEnd: seq<Op>, g: Gates)
    ensures
      var id := ids.nameId(name);
      Run(TraceScopeStart(ids, true, name, waitStart) + body + TraceScopeEnd(ids, true, name, waitEnd), g)
        == Outcome(g, Run(waitStart, g).log + Emission(g, Entry(id)) + Run(body, g).log
                      + Emission(g, Exit(id)) + Run(waitEnd, g).log)
  {
    StartEndBracket(ids.nameId(name), name, waitStart, body, waitEnd, g);
  }

  /**
   * The run-time forms, in a TRACE_PROFILE build, bracket the code between
   * a start and an end of one name with one id, the run-time one, with no
   * assumption on how it relates to the compile-time id.
   */
  lemma ProfiledRuntimeStartEnd(ids: IdScheme, name: string, waitStart: seq<Op>, body: seq<Op>, waitEnd: seq<Op>, g: Gates)
    ensures
      var id := ids.runtimeNameId(name);
      Run(RuntimeTraceScopeStart(ids, true, name, waitStart) + body + RuntimeTraceScopeEnd(ids, true, name, waitEnd), g)
        == Outcome(g, Run(waitStart, g).log + Emission(g, Entry(id)) + Run(body, g).log
                      + Emission(g, Exit(id)) + Run(waitEnd, g).log)
  {
    StartEndBracket(ids.runtimeNameId(name), name, waitStart, body, waitEnd, g);
  }

  /**
   * When the run-time CRC of a name equals its compile-time CRC, the
   * run-time forms emit exactly what the literal forms do.
   */
  lemma RuntimeFormsAgree(ids: IdScheme, profile: bool, name: string, waitFun: seq<Op>, g: Gates)
    requires ids.runtimeNameId == ids.nameId
    ensures Run(RuntimeTraceScopeStart(ids, profile, name, waitFun), g) == Run(TraceScopeStart(ids, profile, name, waitFun), g)
    ensures Run(RuntimeTraceScopeEnd(ids, profile, name, waitFun), g) == Run(TraceScopeEnd(ids, profile, name, waitFun), g)
  {
  }

  /**
   * Without TRACE_PROFILE the explicit forms do nothing at all: no event,
   * and the wait code, whatever it would emit, is not run.
   */
  lemma UnprofiledIsNoOp(ids: IdScheme, name: string, waitFun: seq<Op>, g: Gates)
    ensures Run(TraceScopeStart(ids, false, name, waitFun), g) == Outcome(g, [])
    ensures Run(TraceScopeEnd(ids, false, name, waitFun), g) == Outcome(g, [])
    ensures Run(RuntimeTraceScopeStart(ids, false, name, waitFun), g) == Outcome(g, [])
    ensures Run(RuntimeTraceScopeEnd(ids, false, name, waitFun), g) == Outcome(g, [])
  {
  }

  /**
   * TRACING_CONFIG_THREAD_STATE_RAII runs the rest of the block with only
   * the thread gate changed and restores it; the process gate is not touched.
   */
  lemma ThreadOverride(value: bool, rest: seq<Op>, g: Gates)
    ensures Run(TracingConfigThreadStateRaii(value, rest), g) == Outcome(g, Run(rest, Gates(g.process, value)).log)
  {
    RunRestoresGates(rest, Gates(g.process, value));
  }

  /** TRACING_CONFIG_PROCESS_STATE_RAII: the same on the process gate alone. */
  lemma ProcessOverride(value: bool, rest: seq<Op>, g: Gates)
    ensures Run(TracingConfigProcessStateRaii(value, rest), g) == Outcome(g, Run(rest, Gates(value, g.thread)).log)
  {
    RunRestoresGates(rest, Gates(value, g.thread));
  }

  /** The three marks carry the name's id and differ only in their level. */
  lemma MarkLevels(ids: IdScheme, name: string, g: Gates)
    ensures Run(TraceMarkEventGlobal(ids, name), g) == Outcome(g, Emission(g, MarkEvent(Global, ids.nameId(name))))
    ensures Run(TraceMarkEventProcess(ids, name), g) == Outcome(g, Emission(g, MarkEvent(Process, ids.nameId(name))))
    ensures Run(TraceMarkEventThread(ids, name), g) == Outcome(g, Emission(g, MarkEvent(Thread, ids.nameId(name))))
  {
  }

  /** A counter sample goes out under the key `name/series`; TRACE_COUNT uses `name/`. */
  lemma CounterSamples(name: string, series: string, value: int, g: Gates)
    ensures Run(TraceCountSeries(name, series, value), g) == Outcome(g, Emission(g, CounterEvent(name + "/" + series, value)))
    ensures Run(TraceCount(name, value), g) == Outcome(g, Emission(g, CounterEvent(name + "/", value)))
  {
    assert name + "/" + "" == name + "/";
  }
}
