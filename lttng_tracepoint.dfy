/**
 * The LTTng back end of the scope tracepoints: one thread's view of the
 * process flag and its own thread flag, and the sink the `tracepoint(...)`
 * call writes to, kept as an append-only log.
 */
module LttngTracepoint {
  import opened TraceEvents

  class TraceState {
    /** The process-wide enable flag. */
    var process: bool
    /** This thread's enable flag. */
    var thread: bool
    /** Everything the LTTng sink has received, oldest first. */
    ghost var log: seq<Event>

    function Current(): Gates
      reads this
    {
      Gates(process, thread)
    }

    constructor (process: bool, thread: bool)
      ensures this.process == process && this.thread == thread
      ensures log == []
    {
      this.process := process;
      this.thread := thread;
      log := [];
    }

    /**
     * `scope_entry(id)`: forwards `Entry(id)` when both flags are set and
     * returns without touching the sink otherwise. The flags are only read.
     */
    method ScopeEntry(id: TraceId)
      modifies this`log
      ensures process == old(process) && thread == old(thread)
      ensures process && thread ==> log == old(log) + [Entry(id)]
      ensures !(process && thread) ==> log == old(log)
    {
      if !(process && thread) {
        return;
      }
      log := log + [Entry(id)];
    }

    /**
     * `scope_exit(id)`: the same check, made again at exit time; nothing
     * about the matching entry is remembered.
     */
    method ScopeExit(id: TraceId)
      modifies this`log
      ensures process == old(process) && thread == old(thread)
      ensures process && thread ==> log == old(log) + [Exit(id)]
      ensures !(process && thread) ==> log == old(log)
    {
      if !(process && thread) {
        return;
      }
      log := log + [Exit(id)];
    }

    /** A mark event at one of the three levels, behind the same gate check. */
    method Mark(level: MarkLevel, id: TraceId)
      modifies this`log
      ensures process == old(process) && thread == old(thread)
      ensures log == old(log) + Emission(Current(), MarkEvent(level, id))
    {
      if process && thread {
        log := log + [MarkEvent(level, id)];
      }
    }

    /** A counter sample for one series, behind the same gate check. */
    method Count(series: string, value: int)
      modifies this`log
      ensures process == old(process) && thread == old(thread)
      ensures log == old(log) + Emission(Current(), CounterEvent(series, value))
    {
      if process && thread {
        log := log + [CounterEvent(series, value)];
      }
    }
  }
}
