/**
 * The theoretical-step log of irh.verification.transparency: a second,
 * independent `TransparencyEngine` that records one INFO entry per
 * computational step, but only while its verbosity is positive, and a
 * module-level instance created when the module is loaded.
 *
 * The clock is the parameter `now`; the lines printed to the console are
 * not modelled.
 */
module TheoreticalStepLog {
  import opened Wrappers
  import opened Payloads

  datatype LogEntry = LogEntry(timestamp: nat, level: string, message: string, context: Payload)

  /** The text of a step: the action, then the manuscript and the equation it follows. */
  function StepMessage(action: string, manuscriptRef: string, equationRef: string): (msg: string)
    ensures |msg| == 17 + |action| + |manuscriptRef| + |equationRef|
    ensures msg[..10] == "Computing " && msg[10..10 + |action|] == action
    ensures msg[10 + |action|..15 + |action|] == " per "
    ensures msg[15 + |action|..15 + |action| + |manuscriptRef|] == manuscriptRef
    ensures msg[15 + |action| + |manuscriptRef|..17 + |action| + |manuscriptRef|] == ", "
    ensures msg[|msg| - |equationRef|..] == equationRef
  {
    "Computing " + action + " per " + manuscriptRef + ", " + equationRef
  }

  /** The message the engine test expects. */
  lemma StepMessageExample()
    ensures StepMessage("TestAction", "Doc1", "Eq1") == "Computing TestAction per Doc1, Eq1"
  {
  }

  class TransparencyEngine {
    var verbosity: int
    var logs: seq<LogEntry>

    constructor (verbosity: int)
      ensures this.verbosity == verbosity && logs == []
    {
      this.verbosity := verbosity;
      logs := [];
    }

    /**
     * `log_theoretical_step`: with a positive verbosity one INFO entry is
     * appended (the details, or an empty context when there are none);
     * otherwise nothing changes.
     */
    method LogTheoreticalStep(action: string, manuscriptRef: string, equationRef: string,
                              details: Option<Payload>, now: nat)
      modifies this
      ensures verbosity == old(verbosity)
      ensures old(verbosity) > 0 ==>
        logs == old(logs) + [LogEntry(now, "INFO", StepMessage(action, manuscriptRef, equationRef), OrEmpty(details))]
      ensures old(verbosity) <= 0 ==> logs == old(logs)
    {
      if verbosity > 0 {
        var msg := "Computing " + action + " per " + manuscriptRef + ", " + equationRef;
        logs := logs + [LogEntry(now, "INFO", msg, OrEmpty(details))];
      }
    }
  }

  /** The module's `_engine`, created with the default verbosity 1 when the module loads. */
  class StepLogModule {
    const engine: TransparencyEngine

    constructor ()
      ensures fresh(engine) && engine.verbosity == 1 && engine.logs == []
    {
      engine := new TransparencyEngine(1);
    }

    /** `get_transparency_engine`: always the one module-level instance. */
    method GetTransparencyEngine() returns (e: TransparencyEngine)
      ensures e == engine
    {
      e := engine;
    }
  }

  /**
   * The engine test: after clearing the shared engine, one logged step
   * leaves exactly one entry with the expected message and its details as
   * context.
   */
  method ClearedEngineLogsOneStep(m: StepLogModule, now: nat) returns (entry: LogEntry)
    requires m.engine.verbosity > 0
    modifies m.engine
    ensures |m.engine.logs| == 1 && entry == m.engine.logs[0]
    ensures entry.message == "Computing TestAction per Doc1, Eq1"
    ensures "key" in entry.context && entry.context["key"] == Str("value")
  {
    var engine := m.GetTransparencyEngine();
    engine.logs := [];
    engine.LogTheoreticalStep("TestAction", "Doc1", "Eq1", Some(map["key" := Str("value")]), now);
    StepMessageExample();
    entry := engine.logs[0];
  }
}
