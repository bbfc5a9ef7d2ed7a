/**
 * The runtime transparency engine of src/logging/transparency_engine.py: an
 * append-only list of `TransparencyLog` records, each logged together with
 * a one-line message, three convenience loggers that fix the level and the
 * payload shape, and a lazily created process-wide engine.
 *
 * The clock (`datetime.now()`) is the parameter `now`, the text Python
 * prints for a dictionary is the parameter `render`, and the logger itself
 * is replaced by the message each call returns.
 */
module RuntimeTransparency {
  import opened Wrappers
  import opened Text
  import opened Payloads

  /** One record: when, at which level, which operation, with its optional context. */
  datatype TransparencyLog = TransparencyLog(
    timestamp: nat,
    level: string,
    operation: string,
    theoreticalRef: Option<string>,
    formula: Option<string>,
    inputs: Payload,
    outputs: Payload,
    metadata: Payload)

  /** The truth value of an optional string: present and non-empty. */
  predicate Given(s: Option<string>) {
    s.Some? && s.value != ""
  }

  /** The parts of the message, in their fixed order; each optional part only when given. */
  function MessageParts(operation: string, theoreticalRef: Option<string>, formula: Option<string>,
                        inputs: Option<Payload>, outputs: Option<Payload>, metadata: Option<Payload>,
                        render: Payload -> string): (parts: seq<string>)
  {
    ["Operation: " + operation]
      + (if Given(theoreticalRef) then ["Reference: " + theoreticalRef.value] else [])
      + (if Given(formula) then ["Formula: " + formula.value] else [])
      + (if Truthy(inputs) then ["Inputs: " + render(inputs.value)] else [])
      + (if Truthy(outputs) then ["Outputs: " + render(outputs.value)] else [])
      + (if Truthy(metadata) then ["Metadata: " + render(metadata.value)] else [])
  }

  /** The number of optional parts given. */
  function GivenCount(theoreticalRef: Option<string>, formula: Option<string>,
                      inputs: Option<Payload>, outputs: Option<Payload>, metadata: Option<Payload>): nat
  {
    (if Given(theoreticalRef) then 1 else 0) + (if Given(formula) then 1 else 0)
      + (if Truthy(inputs) then 1 else 0) + (if Truthy(outputs) then 1 else 0)
      + (if Truthy(metadata) then 1 else 0)
  }

  /** The message always starts with the operation and has one part per given argument. */
  lemma MessageShape(operation: string, theoreticalRef: Option<string>, formula: Option<string>,
                     inputs: Option<Payload>, outputs: Option<Payload>, metadata: Option<Payload>,
                     render: Payload -> string)
    ensures var parts := MessageParts(operation, theoreticalRef, formula, inputs, outputs, metadata, render);
      && |parts| == 1 + GivenCount(theoreticalRef, formula, inputs, outputs, metadata)
      && parts[0] == "Operation: " + operation
    ensures var message := Join(MessageParts(operation, theoreticalRef, formula, inputs, outputs, metadata, render), " | ");
      |"Operation: " + operation| <= |message| && message[..|"Operation: " + operation|] == "Operation: " + operation
  {
    var parts := MessageParts(operation, theoreticalRef, formula, inputs, outputs, metadata, render);
    JoinStartsWithFirst(parts, " | ");
  }

  /** With nothing optional given, the message is the operation alone. */
  lemma MessageBare(operation: string, render: Payload -> string)
    ensures Join(MessageParts(operation, None, None, None, None, None, render), " | ") == "Operation: " + operation
    ensures Join(MessageParts(operation, Some(""), Some(""), Some(map[]), Some(map[]), Some(map[]), render), " | ")
         == "Operation: " + operation
  {
  }

  /** With everything given, all six parts appear in the fixed order, separated by " | ". */
  lemma MessageFull(operation: string, r: string, f: string, i: Payload, o: Payload, m: Payload, render: Payload -> string)
    requires r != "" && f != "" && i != map[] && o != map[] && m != map[]
    ensures Join(MessageParts(operation, Some(r), Some(f), Some(i), Some(o), Some(m), render), " | ")
         == ("Operation: " + operation) + " | " + ("Reference: " + r) + " | " + ("Formula: " + f)
            + " | " + ("Inputs: " + render(i)) + " | " + ("Outputs: " + render(o)) + " | " + ("Metadata: " + render(m))
  {
    var sep := " | ";
    var p1 := ["Operation: " + operation];
    var p2 := p1 + ["Reference: " + r];
    var p3 := p2 + ["Formula: " + f];
    var p4 := p3 + ["Inputs: " + render(i)];
    var p5 := p4 + ["Outputs: " + render(o)];
    JoinAppend(p1, "Reference: " + r, sep);
    JoinAppend(p2, "Formula: " + f, sep);
    JoinAppend(p3, "Inputs: " + render(i), sep);
    JoinAppend(p4, "Outputs: " + render(o), sep);
    JoinAppend(p5, "Metadata: " + render(m), sep);
    assert MessageParts(operation, Some(r), Some(f), Some(i), Some(o), Some(m), render) == p5 + ["Metadata: " + render(m)];
  }

  /** The export of one record: the timestamp in ISO form, everything else carried over. */
  datatype ExportedLog = ExportedLog(
    timestamp: string,
    level: string,
    operation: string,
    theoreticalRef: Option<string>,
    formula: Option<string>,
    inputs: Payload,
    outputs: Payload,
    metadata: Payload)

  function Export(log: TransparencyLog, isoformat: nat -> string): (e: ExportedLog)
    ensures e.timestamp == isoformat(log.timestamp)
    ensures e.level == log.level && e.operation == log.operation
    ensures e.theoreticalRef == log.theoreticalRef && e.formula == log.formula
    ensures e.inputs == log.inputs && e.outputs == log.outputs && e.metadata == log.metadata
  {
    ExportedLog(isoformat(log.timestamp), log.level, log.operation, log.theoreticalRef, log.formula,
      log.inputs, log.outputs, log.metadata)
  }

  /** A result's message starts with the operation and then the result, whatever the extra keywords. */
  lemma ResultMessage(operation: string, result: Datum, kwargs: Payload, render: Payload -> string)
    ensures var message := Join(MessageParts(operation, None, None, None, Some(map["result" := result]), Some(kwargs), render), " | ");
      var lead := "Operation: " + operation + " | Outputs: " + render(map["result" := result]);
      |lead| <= |message| && message[..|lead|] == lead
  {
    var sep := " | ";
    var p1 := ["Operation: " + operation];
    var out := "Outputs: " + render(map["result" := result]);
    assert "result" in map["result" := result];
    JoinAppend(p1, out, sep);
    var lead := Join(p1 + [out], sep);
    assert lead == "Operation: " + operation + " | Outputs: " + render(map["result" := result]);
    if Truthy(Some(kwargs)) {
      var meta := "Metadata: " + render(kwargs);
      JoinAppend(p1 + [out], meta, sep);
      assert MessageParts(operation, None, None, None, Some(map["result" := result]), Some(kwargs), render) == p1 + [out] + [meta];
      assert (lead + sep + meta)[..|lead|] == lead;
    } else {
      assert MessageParts(operation, None, None, None, Some(map["result" := result]), Some(kwargs), render) == p1 + [out];
    }
  }

  class TransparencyEngine {
    var logs: seq<TransparencyLog>

    constructor ()
      ensures logs == []
    {
      logs := [];
    }

    /**
     * `log_computation`: appends one record (absent dictionaries stored as
     * empty ones) and returns the message handed to the logger.
     */
    method LogComputation(operation: string, theoreticalRef: Option<string>, formula: Option<string>,
                          inputs: Option<Payload>, outputs: Option<Payload>, metadata: Option<Payload>,
                          level: string, now: nat, render: Payload -> string)
      returns (message: string)
      modifies this
      ensures logs == old(logs) + [TransparencyLog(now, level, operation, theoreticalRef, formula,
                                                   OrEmpty(inputs), OrEmpty(outputs), OrEmpty(metadata))]
      ensures message == Join(MessageParts(operation, theoreticalRef, formula, inputs, outputs, metadata, render), " | ")
    {
      var logEntry := TransparencyLog(now, level, operation, theoreticalRef, formula,
        OrEmpty(inputs), OrEmpty(outputs), OrEmpty(metadata));
      logs := logs + [logEntry];
      var msgParts := ["Operation: " + operation];
      ghost var expected := msgParts;
      if Given(theoreticalRef) {
        msgParts := msgParts + ["Reference: " + theoreticalRef.value];
      }
      expected := expected + (if Given(theoreticalRef) then ["Reference: " + theoreticalRef.value] else []);
      assert msgParts == expected;
      if Given(formula) {
        msgParts := msgParts + ["Formula: " + formula.value];
      }
      expected := expected + (if Given(formula) then ["Formula: " + formula.value] else []);
      assert msgParts == expected;
      if Truthy(inputs) {
        msgParts := msgParts + ["Inputs: " + render(inputs.value)];
      }
      expected := expected + (if Truthy(inputs) then ["Inputs: " + render(inputs.value)] else []);
      assert msgParts == expected;
      if Truthy(outputs) {
        msgParts := msgParts + ["Outputs: " + render(outputs.value)];
      }
      expected := expected + (if Truthy(outputs) then ["Outputs: " + render(outputs.value)] else []);
      assert msgParts == expected;
      if Truthy(metadata) {
        msgParts := msgParts + ["Metadata: " + render(metadata.value)];
      }
      expected := expected + (if Truthy(metadata) then ["Metadata: " + render(metadata.value)] else []);
      assert msgParts == expected;
      message := Join(msgParts, " | ");
    }

    /** `log_step`: level "DEBUG", the details stored under "details" next to the extra keywords. */
    method LogStep(stepName: string, details: string, kwargs: Payload, now: nat, render: Payload -> string)
      returns (message: string)
      requires "details" !in kwargs
      modifies this
      ensures logs == old(logs) + [TransparencyLog(now, "DEBUG", stepName, None, None, map[], map[],
                                                   kwargs["details" := Str(details)])]
      ensures message == Join(MessageParts(stepName, None, None, None, None, Some(kwargs["details" := Str(details)]), render), " | ")
      ensures var entry := logs[|logs| - 1];
        && entry.metadata.Keys == kwargs.Keys + {"details"}
        && entry.metadata["details"] == Str(details)
        && (forall k :: k in kwargs ==> entry.metadata[k] == kwargs[k])
    {
      message := LogComputation(stepName, None, None, None, None, Some(kwargs["details" := Str(details)]), "DEBUG", now, render);
    }

    /** `log_result`: level "INFO", the result stored under "result", the extra keywords as metadata. */
    method LogResult(operation: string, result: Datum, kwargs: Payload, now: nat, render: Payload -> string)
      returns (message: string)
      modifies this
      ensures logs == old(logs) + [TransparencyLog(now, "INFO", operation, None, None, map[],
                                                   map["result" := result], kwargs)]
      ensures message == Join(MessageParts(operation, None, None, None, Some(map["result" := result]), Some(kwargs), render), " | ")
      ensures var lead := "Operation: " + operation + " | Outputs: " + render(map["result" := result]);
        |lead| <= |message| && message[..|lead|] == lead
    {
      message := LogComputation(operation, None, None, None, Some(map["result" := result]), Some(kwargs), "INFO", now, render);
      ResultMessage(operation, result, kwargs, render);
    }

    /** `log_error`: level "ERROR", the error stored under "error" next to the extra keywords. */
    method LogError(operation: string, error: string, kwargs: Payload, now: nat, render: Payload -> string)
      returns (message: string)
      requires "error" !in kwargs
      modifies this
      ensures logs == old(logs) + [TransparencyLog(now, "ERROR", operation, None, None, map[], map[],
                                                   kwargs["error" := Str(error)])]
      ensures message == Join(MessageParts(operation, None, None, None, None, Some(kwargs["error" := Str(error)]), render), " | ")
      ensures var entry := logs[|logs| - 1];
        && entry.metadata.Keys == kwargs.Keys + {"error"}
        && entry.metadata["error"] == Str(error)
        && (forall k :: k in kwargs ==> entry.metadata[k] == kwargs[k])
    {
      message := LogComputation(operation, None, None, None, None, Some(kwargs["error" := Str(error)]), "ERROR", now, render);
    }

    /** `get_logs`: the records, in order. */
    method GetLogs() returns (r: seq<TransparencyLog>)
      ensures r == logs
    {
      r := logs;
    }

    /** `clear_logs`. */
    method ClearLogs()
      modifies this
      ensures logs == []
    {
      logs := [];
    }

    /** `export_logs`: one export per record, in order, without changing the engine. */
    method ExportLogs(isoformat: nat -> string) returns (r: seq<ExportedLog>)
      ensures |r| == |logs|
      ensures forall k :: 0 <= k < |logs| ==> r[k] == Export(logs[k], isoformat)
    {
      r := [];
      for k := 0 to |logs|
        invariant |r| == k
        invariant forall j :: 0 <= j < k ==> r[j] == Export(logs[j], isoformat)
      {
        r := r + [Export(logs[k], isoformat)];
      }
    }
  }

  /** The module's `_global_engine`, initially None. */
  class GlobalEngine {
    var engine: TransparencyEngine?

    constructor ()
      ensures engine == null
    {
      engine := null;
    }

    /** `get_transparency_engine`: created on the first call, the same object on every later one. */
    method GetTransparencyEngine() returns (e: TransparencyEngine)
      modifies this
      ensures old(engine) != null ==> e == old(engine)
      ensures old(engine) == null ==> fresh(e) && e.logs == []
      ensures engine == e
    {
      if engine == null {
        engine := new TransparencyEngine();
      }
      e := engine;
    }

    /** `log_transparency`: one `log_computation` on the global engine, created first if need be. */
    method LogTransparency(operation: string, theoreticalRef: Option<string>, formula: Option<string>,
                           inputs: Option<Payload>, outputs: Option<Payload>, metadata: Option<Payload>,
                           level: string, now: nat, render: Payload -> string)
      modifies this, engine
      ensures engine != null
      ensures old(engine) != null ==> engine == old(engine)
      ensures old(engine) == null ==> fresh(engine)
      ensures engine.logs == (if old(engine) == null then [] else old(engine.logs))
        + [TransparencyLog(now, level, operation, theoreticalRef, formula,
                           OrEmpty(inputs), OrEmpty(outputs), OrEmpty(metadata))]
    {
      var e := GetTransparencyEngine();
      var message := e.LogComputation(operation, theoreticalRef, formula, inputs, outputs, metadata, level, now, render);
    }
  }

  /** Two calls in a row hand out one and the same engine. */
  method SameEngineTwice(g: GlobalEngine) returns (e1: TransparencyEngine, e2: TransparencyEngine)
    modifies g
    ensures e1 == e2 && g.engine == e1
  {
    e1 := g.GetTransparencyEngine();
    e2 := g.GetTransparencyEngine();
  }
}
