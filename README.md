# Scalopus trace gates and emission, in Dafny

Scalopus instruments a process with scope tracepoints, marks and counters.
Every emission passes the same gate: a process-wide flag and a per-thread
flag, both of which must be on. Scoped RAII overrides can switch either
flag for a block and put the old value back when the block ends. This
project models one thread of that machinery:

- `trace_events.dfy` (`TraceEvents`): 32-bit tracepoint ids and the two
  gates (`Gates`). The events the sink receives (`Event`). The AND rule
  (`Emission`). A stack reading of logs that defines when a log is
  well nested (`Pending`, `WellNested`).
- `lttng_tracepoint.dfy` (`LttngTracepoint`): class `TraceState`. It holds
  the two flags and an append-only `log` that stands for the LTTng sink.
  `ScopeEntry`, `ScopeExit`, `Mark` and `Count` are its methods.
- `trace_macro.dfy` (`TraceMacro`): each public macro as a function. Its
  result is the program (`seq<Op>`) the macro expands to. An RAII macro
  takes `rest`, the remainder of its C++ block, which becomes the body of
  the op it returns. The `TRACE_PROFILE` build switch is a `profile: bool`
  argument. Ids come from an `IdScheme` argument, which is uninterpreted.
- `trace_run.dfy` (`TraceRun`): `Run` and `Step` are the pure reference
  semantics. They give the events a program emits and the gates it leaves.
  A scope checks the gates again when it closes, against whatever the gates
  are at that moment. `Exec` and `ExecOp` run the same program on a
  `TraceState` through its methods, and are proved to agree with `Run`.
  Overrides there save a flag and restore it. The laws proved: the gates
  are restored at any nesting depth; programs made only of RAII objects
  emit well-nested logs; a gate that is off and never turned on silences
  a program.
- `macro_laws.dfy` (`MacroLaws`): what each macro's expansion does when
  run, for every gate setting.
- `showcase_toggle.dfy` (`ShowcaseToggle`): the toggle showcase.
  `fooBarBuz`, `c`, `b`, `a` and `this_disables_tracepoints_and_calls_a`
  are programs built from the macro functions, with one pass of the main
  loop. Lemmas prove the traces the source comments promise.
  `MainLoopIteration` runs one pass on a `TraceState`.

One might expect a scope's exit to be emitted exactly when its entry was,
using the gate values seen at entry. `scope_exit` in
`lttng_tracepoint.cpp` instead checks both flags again at exit time and
keeps nothing from the entry. `Step` does the same. `TraceRun.RunWellNested`
shows that this makes no difference for scopes and overrides that are
all RAII, because the gates are back to their entry value when a scope
closes. `TraceRun.ExitRechecksGates` shows a case where it does make a
difference: an explicit start, then a thread override to off around the
explicit end. The entry reaches the sink and the exit does not.

In a `TRACE_PROFILE` build with both gates on, the
`TRACE_SCOPE_END("void b()",)` in the showcase's `b` emits an end that has
no matching start. `ShowcaseToggle.ProfiledBuildUnbalanced` proves that
`a`'s trace then has one more exit than it has entries, so it is not well
nested.

The comment on `TRACE_COUNT` in `trace_macro.h` speaks of one series
called `count`, but the macro passes the empty series name, so the key is
`name + "/"`. The model follows the code (`TraceMacro.TraceCountKey`).

## Model

| member | source | states |
|---|---|---|
| `TraceEvents.Emission` | scalopus_tracing/src/lttng/lttng_tracepoint.cpp:44-48 | at most one event is forwarded; one is forwarded exactly when both the process and the thread flag are set, and it is the event given |
| `TraceEvents.Write` | scalopus_tracing/include/scalopus_tracing/trace_macro.h:96-100 | an override writes the value to the gate it names and leaves the other gate as it was |
| `TraceEvents.WellNestedBalanced` | scalopus_tracing/src/lttng/lttng_tracepoint.cpp:40-60 | a well-nested log has as many scope entries as scope exits |
| `LttngTracepoint.TraceState.constructor` | scalopus_tracing/src/lttng/lttng_tracepoint.cpp:42-43 | a thread's trace state starts with the given process and thread flags and an empty sink |
| `LttngTracepoint.TraceState.ScopeEntry` | scalopus_tracing/src/lttng/lttng_tracepoint.cpp:40-49 | appends exactly `Entry(id)` when both flags are set and leaves the log unchanged otherwise; neither flag changes |
| `LttngTracepoint.TraceState.ScopeExit` | scalopus_tracing/src/lttng/lttng_tracepoint.cpp:51-60 | appends exactly `Exit(id)` when both flags are set at exit time and leaves the log unchanged otherwise; neither flag changes |
| `LttngTracepoint.TraceState.Mark` | scalopus_tracing/include/scalopus_tracing/trace_macro.h:102-105 | a mark at its level goes to the sink behind the same AND check; the flags do not change |
| `LttngTracepoint.TraceState.Count` | scalopus_tracing/include/scalopus_tracing/trace_macro.h:107-111 | a counter sample goes to the sink behind the same AND check; the flags do not change |
| `TraceMacro.TraceScopeRaii` | scalopus_tracing/include/scalopus_tracing/trace_macro.h:49 | expands to one scope op with the location's id whose body is the rest of the block; its meaning is proved in `MacroLaws.ScopeRaiiBrackets` |
| `TraceMacro.TracePrettyFunction` | scalopus_tracing/include/scalopus_tracing/trace_macro.h:52 | expands as `TRACE_SCOPE_RAII` named by the function signature; its meaning is proved in `MacroLaws.PrettyFunctionLikeScopeRaii` |
| `TraceMacro.TraceScopeStart` | scalopus_tracing/include/scalopus_tracing/trace_macro.h:56-62 | with `TRACE_PROFILE`, expands to the wait code, then a start with the name's compile-time id; otherwise to nothing; its meaning is proved in `MacroLaws.ProfiledStartEnd` and `MacroLaws.UnprofiledIsNoOp` |
| `TraceMacro.TraceScopeEnd` | scalopus_tracing/include/scalopus_tracing/trace_macro.h:66-72 | with `TRACE_PROFILE`, expands to an end with the name's compile-time id, then the wait code; otherwise to nothing; its meaning is proved in `MacroLaws.ProfiledStartEnd` and `MacroLaws.UnprofiledIsNoOp` |
| `TraceMacro.RuntimeTraceScopeStart` | scalopus_tracing/include/scalopus_tracing/trace_macro.h:80-86 | as `TraceScopeStart` with the run-time id; its meaning is proved in `MacroLaws.ProfiledRuntimeStartEnd`, `MacroLaws.RuntimeFormsAgree` and `MacroLaws.UnprofiledIsNoOp` |
| `TraceMacro.RuntimeTraceScopeEnd` | scalopus_tracing/include/scalopus_tracing/trace_macro.h:88-94 | as `TraceScopeEnd` with the run-time id; its meaning is proved in `MacroLaws.ProfiledRuntimeStartEnd`, `MacroLaws.RuntimeFormsAgree` and `MacroLaws.UnprofiledIsNoOp` |
| `TraceMacro.TracingConfigThreadProcessStateRaii` | scalopus_tracing/include/scalopus_tracing/trace_macro.h:97-100 | expands to one override op on the process gate or the thread gate, whose body is the rest of the block; its meaning is proved in `MacroLaws.ThreadOverride` and `MacroLaws.ProcessOverride` |
| `TraceMacro.TracingConfigThreadStateRaii` | scalopus_tracing/include/scalopus_tracing/trace_macro.h:97 | the internal override form on the thread gate; its meaning is proved in `MacroLaws.ThreadOverride` |
| `TraceMacro.TracingConfigProcessStateRaii` | scalopus_tracing/include/scalopus_tracing/trace_macro.h:100 | the internal override form on the process gate; its meaning is proved in `MacroLaws.ProcessOverride` |
| `TraceMacro.TraceMarkEventNamedId` | scalopus_tracing/include/scalopus_tracing/trace_macro.h:103-105 | expands to one mark op at the given level with the given id |
| `TraceMacro.TraceMarkEventGlobal` | scalopus_tracing/include/scalopus_tracing/trace_macro.h:103 | a mark at level GLOBAL with the name's id; its meaning is proved in `MacroLaws.MarkLevels` |
| `TraceMacro.TraceMarkEventProcess` | scalopus_tracing/include/scalopus_tracing/trace_macro.h:104 | a mark at level PROCESS with the name's id; its meaning is proved in `MacroLaws.MarkLevels` |
| `TraceMacro.TraceMarkEventThread` | scalopus_tracing/include/scalopus_tracing/trace_macro.h:105 | a mark at level THREAD with the name's id; its meaning is proved in `MacroLaws.MarkLevels` |
| `TraceMacro.TraceCountSeries` | scalopus_tracing/include/scalopus_tracing/trace_macro.h:108 | expands to one counter op keyed `CounterKey(name, series)`; its meaning is proved in `MacroLaws.CounterSamples` |
| `TraceMacro.TraceCount` | scalopus_tracing/include/scalopus_tracing/trace_macro.h:111 | `TRACE_COUNT_SERIES` with the empty series; its meaning is proved in `TraceMacro.TraceCountKey` and `MacroLaws.CounterSamples` |
| `TraceRun.Run` | scalopus_examples/src/showcase_toggle_tracepoints.cpp:105-111 | runs a block's statements in order, each from the gates the one before left; its laws are `TraceRun.RunAppend`, `TraceRun.RunConcat` and `TraceRun.RunRestoresGates` |
| `TraceRun.Step` | scalopus_tracing/src/lttng/lttng_tracepoint.cpp:40-60 | a scope's entry is checked on the gates at construction and its exit again on the gates at destruction; an override saves its gate, sets it for its body and writes the saved value back; its laws are `TraceRun.StepRestoresGates`, `TraceRun.StepWellNested` and `TraceRun.ExitRechecksGates` |
| `TraceMacro.CounterKey` | scalopus_tracing/include/scalopus_tracing/trace_macro.h:108 | the series key is the counter name, one `/`, then the series name |
| `TraceMacro.CounterKeyInjective` | scalopus_tracing/include/scalopus_tracing/trace_macro.h:108 | for counter names without `/`, equal keys mean equal counter names and equal series names |
| `TraceMacro.TraceCountKey` | scalopus_tracing/include/scalopus_tracing/trace_macro.h:111 | `TRACE_COUNT(name, v)` expands to a single sample keyed `name + "/"` |
| `TraceRun.RunRestoresGates` | scalopus_tracing/include/scalopus_tracing/trace_macro.h:96-100 | after any program, at any nesting depth of overrides, both gates hold the values they had before it |
| `TraceRun.StepRestoresGates` | scalopus_tracing/include/scalopus_tracing/trace_macro.h:96-100 | after any single op, including an override with its whole body, both gates hold their earlier values |
| `TraceRun.RunAppend` | scalopus_examples/src/showcase_toggle_tracepoints.cpp:105-111 | running statements one after another emits the first part's events, then the second part's from the gates the first part left |
| `TraceRun.RunConcat` | scalopus_examples/src/showcase_toggle_tracepoints.cpp:105-111 | because gates are restored, a sequence of statements emits the concatenation of their logs |
| `TraceRun.RunWellNested` | scalopus_tracing/src/lttng/lttng_tracepoint.cpp:40-60 | a program made only of RAII scopes and overrides emits a well-nested log under any gates, although the exit check is made again at exit |
| `TraceRun.StepWellNested` | scalopus_tracing/src/lttng/lttng_tracepoint.cpp:40-60 | the same for a single RAII scope or override |
| `TraceRun.GateOffSilent` | scalopus_tracing/src/lttng/lttng_tracepoint.cpp:44-47 | when a gate is off and no override in the program turns it on, the program emits nothing and the gates are unchanged, whatever the other gate is |
| `TraceRun.ExitRechecksGates` | scalopus_tracing/src/lttng/lttng_tracepoint.cpp:51-60 | an explicit start, then an explicit end inside a thread-off override: the entry is emitted and the exit is not, because the exit does not consult the entry |
| `TraceRun.ExecOp` | scalopus_tracing/include/scalopus_tracing/trace_macro.h:49-100 | running one op on a trace state through `ScopeEntry`/`ScopeExit` appends what `Step` says and restores the gates |
| `TraceRun.Exec` | scalopus_tracing/include/scalopus_tracing/trace_macro.h:49-100 | running a block on a trace state appends what `Run` says and leaves both flags as they were |
| `MacroLaws.ScopeRaiiBrackets` | scalopus_tracing/include/scalopus_tracing/trace_macro.h:46-49 | `TRACE_SCOPE_RAII` emits a gated entry with the location's id, then the rest of the block's events, then a gated exit with the same id |
| `MacroLaws.PrettyFunctionLikeScopeRaii` | scalopus_tracing/include/scalopus_tracing/trace_macro.h:49-52 | `TRACE_PRETTY_FUNCTION` emits the same as `TRACE_SCOPE_RAII` at the same location, whatever the names |
| `MacroLaws.ProfiledStartEnd` | scalopus_tracing/include/scalopus_tracing/trace_macro.h:54-72 | with `TRACE_PROFILE`, start and end of one name emit entry and exit with the same name-derived id; the start's wait code runs before the entry and the end's wait code after the exit |
| `MacroLaws.ProfiledRuntimeStartEnd` | scalopus_tracing/include/scalopus_tracing/trace_macro.h:80-92 | with `TRACE_PROFILE`, `RUNTIME_` start and end of one name emit entry and exit with the same run-time id; the start's wait code runs before the entry and the end's wait code after the exit |
| `MacroLaws.RuntimeFormsAgree` | scalopus_tracing/include/scalopus_tracing/trace_macro.h:54-94 | when the run-time CRC equals the compile-time CRC, the `RUNTIME_` start and end emit what the literal forms emit, in both builds |
| `MacroLaws.UnprofiledIsNoOp` | scalopus_tracing/include/scalopus_tracing/trace_macro.h:56-94 | without `TRACE_PROFILE`, all four explicit forms emit nothing, do not run the wait code and leave the gates unchanged |
| `MacroLaws.ThreadOverride` | scalopus_tracing/include/scalopus_tracing/trace_macro.h:96-97 | the thread override runs the rest of the block with only the thread gate changed, then restores it |
| `MacroLaws.ProcessOverride` | scalopus_tracing/include/scalopus_tracing/trace_macro.h:99-100 | the process override runs the rest of the block with only the process gate changed, then restores it |
| `MacroLaws.MarkLevels` | scalopus_tracing/include/scalopus_tracing/trace_macro.h:102-105 | the three mark macros emit a gated mark with the name's id, at level GLOBAL, PROCESS or THREAD |
| `MacroLaws.CounterSamples` | scalopus_tracing/include/scalopus_tracing/trace_macro.h:107-111 | a counter series sample is emitted, gated, under `name + "/" + series`; `TRACE_COUNT` uses `name + "/"` |
| `ShowcaseToggle.FooBarBuz` | scalopus_examples/src/showcase_toggle_tracepoints.cpp:41-47 | the thread override to on, then `TRACE_PRETTY_FUNCTION` and a sleep; its trace is proved in `ShowcaseToggle.FooBarBuzAlwaysTraced` |
| `ShowcaseToggle.C` | scalopus_examples/src/showcase_toggle_tracepoints.cpp:50-57 | `TRACE_PRETTY_FUNCTION`, then a sleep, console output, the call to `fooBarBuz` and a sleep; its trace is proved in `ShowcaseToggle.CTrace` |
| `ShowcaseToggle.B` | scalopus_examples/src/showcase_toggle_tracepoints.cpp:60-68 | `TRACE_PRETTY_FUNCTION`, console output, a sleep, the call to `c`, a sleep and the explicit end; its trace is proved in `ShowcaseToggle.BTrace` |
| `ShowcaseToggle.A` | scalopus_examples/src/showcase_toggle_tracepoints.cpp:71-78 | `TRACE_PRETTY_FUNCTION`, console output, a sleep, the call to `b` and a sleep; its trace is proved in `ShowcaseToggle.ATrace` and `ShowcaseToggle.ALog` |
| `ShowcaseToggle.ThisDisablesTracepointsAndCallsA` | scalopus_examples/src/showcase_toggle_tracepoints.cpp:80-85 | `TRACE_PRETTY_FUNCTION`, then the thread override to off around the call to `a`; its trace is proved in `ShowcaseToggle.DisablesLog` |
| `ShowcaseToggle.LoopIteration` | scalopus_examples/src/showcase_toggle_tracepoints.cpp:105-111 | one pass of the loop: `a`, the disabling function, a sleep; its trace is proved in `ShowcaseToggle.IterationLog` |
| `ShowcaseToggle.FooBarBuzAlwaysTraced` | scalopus_examples/src/showcase_toggle_tracepoints.cpp:40-47 | under any thread gate, `fooBarBuz` emits its entry and exit when the process gate is on, and nothing otherwise; the gates come back unchanged |
| `ShowcaseToggle.CTrace` | scalopus_examples/src/showcase_toggle_tracepoints.cpp:49-57 | `c` emits its gated entry, then `fooBarBuz`'s events, then its gated exit |
| `ShowcaseToggle.BTrace` | scalopus_examples/src/showcase_toggle_tracepoints.cpp:59-68 | `b` emits its gated entry, then `c`'s events, then the explicit end (only with `TRACE_PROFILE`), then its gated exit |
| `ShowcaseToggle.ATrace` | scalopus_examples/src/showcase_toggle_tracepoints.cpp:70-78 | `a` emits its gated entry, then `b`'s events, then its gated exit |
| `ShowcaseToggle.ALog` | scalopus_examples/src/showcase_toggle_tracepoints.cpp:41-78 | the full trace of `a` under any gates and in either build |
| `ShowcaseToggle.AFullyTraced` | scalopus_examples/src/showcase_toggle_tracepoints.cpp:41-78 | with both gates on, `a` emits entries for `a`, `b`, `c`, `fooBarBuz` and the exits in reverse order; the log is well nested |
| `ShowcaseToggle.AUnderDisabledThread` | scalopus_examples/src/showcase_toggle_tracepoints.cpp:49-78 | with the process gate on and the thread gate off, `a` emits only `fooBarBuz`'s entry and exit, in either build |
| `ShowcaseToggle.DisablesLog` | scalopus_examples/src/showcase_toggle_tracepoints.cpp:80-85 | `this_disables_tracepoints_and_calls_a` emits its own gated entry and exit around `fooBarBuz`'s events and no event of `a`, `b` or `c`, under any gates |
| `ShowcaseToggle.DisablesTrace` | scalopus_examples/src/showcase_toggle_tracepoints.cpp:80-85 | with both gates on it emits exactly its entry, `fooBarBuz`'s entry and exit, and its exit, and the gates come back on |
| `ShowcaseToggle.IterationLog` | scalopus_examples/src/showcase_toggle_tracepoints.cpp:105-111 | one default-build pass of the loop emits `a`'s trace and then the disabling function's trace, and restores the gates |
| `ShowcaseToggle.IterationTrace` | scalopus_examples/src/showcase_toggle_tracepoints.cpp:105-111 | in the default build with both gates on, one pass emits the full `a` tree, then the disabling function around `fooBarBuz`, and leaves both gates on |
| `ShowcaseToggle.NextIterationTracedAgain` | scalopus_examples/src/showcase_toggle_tracepoints.cpp:105-111 | in the default build with both gates on, two passes emit the one-pass trace twice, so the `a` of the next pass is traced again |
| `ShowcaseToggle.ProfiledBuildUnbalanced` | scalopus_examples/src/showcase_toggle_tracepoints.cpp:67 | built with `TRACE_PROFILE` and with both gates on, `a`'s trace has one more exit than it has entries and is not well nested |
| `ShowcaseToggle.IterationByGates` | scalopus_examples/src/showcase_toggle_tracepoints.cpp:80-111 | one default-build pass emits the full trace with both gates on, `fooBarBuz`'s pair twice with only the thread gate off, and nothing with the process gate off |
| `ShowcaseToggle.MainLoopIteration` | scalopus_examples/src/showcase_toggle_tracepoints.cpp:105-111 | one default-build pass on a trace state appends the full trace (both gates on), `fooBarBuz` twice (thread off) or nothing (process off), and restores both flags |

## Left out

- Atomics and thread-local storage: the model is one thread, run in order,
  with plain boolean flags. Another thread changing the process flag between
  a scope's entry and exit is not modelled.
- The LTTng `tracepoint(...)` call is a foreign sink. It becomes an append
  to `TraceState.log`. Timestamps and thread or process ids of events are
  not modelled.
- Tracepoint ids: `compile_time_crc.hpp` and `run_time_crc.h` are not part
  of this model. Compile-time name ids, run-time name ids and location
  ids are the three uninterpreted functions of `IdScheme`. No
  lemma claims they are free of collisions; `MacroLaws.RuntimeFormsAgree`
  states its agreement with the literal forms only under the hypothesis
  that the run-time CRC equals the compile-time CRC.
- The name registry (`static_string_tracker.h`) is not part of this model.
  Ops carry their name, and the sink ignores it.
- `scope_trace_raii.h` and `trace_configuration_raii.h` are not part of
  this model. Their behaviour comes from the macro comments: entry at
  construction and exit at end of scope; save the flag, set it, and restore
  it at end of scope. Only normal block exit is modelled. Exceptions are not.
- The back ends of marks and counters are not part of this model.
  `TraceState.Mark` and `TraceState.Count` are assumed to sit behind the
  same AND check as scope events. Counter values are unbounded integers.
- `wait_fun` is any program (`seq<Op>`). Its own effects outside tracing
  are not modelled. The macros paste it into the caller's block as text;
  the model takes wait code to be self-contained, so RAII objects declared
  in it are closed at its end, not at the end of the enclosing block.
- `TRACE_THREAD_NAME` (process and thread naming) is left out.
- `catapult_server.h` is left out: it wraps a web server, a worker thread
  and a logger.
- In the showcase's `main`, the transport setup, endpoint registration and
  `setProcessName` are left out. Sleeps and console output are `UserCode`
  ops that emit nothing. The endless loop is modelled as one pass, plus a
  lemma about two passes in a row.
- Default flag values come from `TraceConfigurator`, which is not part of
  this model. The `TraceState` constructor takes them as arguments.
