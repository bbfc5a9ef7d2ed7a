/**
 * The records of scripts/verify_compliance.py: a `ComplianceViolation`, its
 * `to_dict` export, and the report that `generate_report` derives from a
 * checker's state.  Dictionaries become Dafny maps from the key strings to
 * a small JSON-like value type.
 */
module ComplianceRecords {
  import opened Wrappers

  /** `ComplianceViolation`: `file` and `line` are optional (None by default). */
  datatype Violation = Violation(
    category: string,
    message: string,
    file: Option<string>,
    line: Option<int>,
    severity: string)

  /** A value in an exported dictionary. */
  datatype Value = Str(s: string) | Int(i: int) | Null

  type Dict = map<string, Value>

  const Keys: set<string> := {"category", "message", "file", "line", "severity"}

  function OptStr(o: Option<string>): Value {
    if o.Some? then Str(o.value) else Null
  }

  function OptInt(o: Option<int>): Value {
    if o.Some? then Int(o.value) else Null
  }

  /** `to_dict`: the five fields under their own names, None as null. */
  function ToDict(v: Violation): (d: Dict)
    ensures d.Keys == Keys
    ensures d["category"] == Str(v.category) && d["message"] == Str(v.message)
    ensures d["severity"] == Str(v.severity)
    ensures d["file"] == (if v.file.Some? then Str(v.file.value) else Null)
    ensures d["line"] == (if v.line.Some? then Int(v.line.value) else Null)
  {
    map["category" := Str(v.category),
        "message" := Str(v.message),
        "file" := OptStr(v.file),
        "line" := OptInt(v.line),
        "severity" := Str(v.severity)]
  }

  /** Reads a violation back from an exported dictionary. */
  function FromDict(d: Dict): Option<Violation> {
    if Keys <= d.Keys && d["category"].Str? && d["message"].Str? && d["severity"].Str?
       && !d["file"].Int? && !d["line"].Str?
    then
      Some(Violation(
        d["category"].s,
        d["message"].s,
        if d["file"].Str? then Some(d["file"].s) else None,
        if d["line"].Int? then Some(d["line"].i) else None,
        d["severity"].s))
    else None
  }

  /** `to_dict` loses nothing: every field can be read back unchanged. */
  lemma ToDictRoundTrip(v: Violation)
    ensures FromDict(ToDict(v)) == Some(v)
  {
    var d := ToDict(v);
    assert d["file"] == OptStr(v.file) && d["line"] == OptInt(v.line);
  }

  /** The `summary` entry of the report. */
  datatype Summary = Summary(totalViolations: nat, totalWarnings: nat, totalPasses: nat)

  /** The dictionary `generate_report` returns. */
  datatype Report = Report(
    compliant: bool,
    violations: seq<Dict>,
    warnings: seq<Dict>,
    passesCount: nat,
    summary: Summary)

  /** Every record exported, in order. */
  function ExportAll(vs: seq<Violation>): (ds: seq<Dict>)
    ensures |ds| == |vs|
    ensures forall k :: 0 <= k < |vs| ==> ds[k] == ToDict(vs[k])
  {
    if vs == [] then [] else [ToDict(vs[0])] + ExportAll(vs[1..])
  }

  /** `generate_report` on a checker holding these lists and this count. */
  function ReportOf(violations: seq<Violation>, warnings: seq<Violation>, passes: nat): (r: Report)
    ensures r.compliant <==> violations == []
    ensures r.summary == Summary(|violations|, |warnings|, passes) && r.passesCount == passes
    ensures |r.violations| == |violations| && |r.warnings| == |warnings|
    ensures forall k :: 0 <= k < |violations| ==> FromDict(r.violations[k]) == Some(violations[k])
    ensures forall k :: 0 <= k < |warnings| ==> FromDict(r.warnings[k]) == Some(warnings[k])
    ensures r.violations == ExportAll(violations) && r.warnings == ExportAll(warnings)
  {
    ExportsReadBack(violations);
    ExportsReadBack(warnings);
    Report(
      |violations| == 0,
      ExportAll(violations),
      ExportAll(warnings),
      passes,
      Summary(|violations|, |warnings|, passes))
  }

  lemma ExportsReadBack(vs: seq<Violation>)
    ensures forall k :: 0 <= k < |vs| ==> FromDict(ExportAll(vs)[k]) == Some(vs[k])
  {
    forall k | 0 <= k < |vs|
      ensures FromDict(ExportAll(vs)[k]) == Some(vs[k])
    {
      ToDictRoundTrip(vs[k]);
    }
  }

  /** Warnings never affect compliance. */
  lemma WarningsDoNotAffectCompliance(vs: seq<Violation>, w1: seq<Violation>, w2: seq<Violation>, p1: nat, p2: nat)
    ensures ReportOf(vs, w1, p1).compliant == ReportOf(vs, w2, p2).compliant
  {
  }

  // ---------------------------------------------------------------------
  // What the checks hand to the checker, and where it lands
  // ---------------------------------------------------------------------

  /** One check's verdict: `add_pass` with a message, or `add_violation` with a record. */
  datatype Outcome = Pass(message: string) | Flagged(violation: Violation)

  /** The records `add_violation` files as violations (severity "error"), in order. */
  function Errors(os: seq<Outcome>): (vs: seq<Violation>)
    ensures |vs| <= |os|
  {
    if os == [] then []
    else
      var last := os[|os| - 1];
      Errors(os[..|os| - 1]) + (if last.Flagged? && last.violation.severity == "error" then [last.violation] else [])
  }

  /** The records `add_violation` files as warnings (any other severity), in order. */
  function Warns(os: seq<Outcome>): (vs: seq<Violation>)
    ensures |vs| <= |os|
  {
    if os == [] then []
    else
      var last := os[|os| - 1];
      Warns(os[..|os| - 1]) + (if last.Flagged? && last.violation.severity != "error" then [last.violation] else [])
  }

  /** The number of `add_pass` calls. */
  function Passes(os: seq<Outcome>): (n: nat)
    ensures n + |Errors(os)| + |Warns(os)| == |os|
  {
    if os == [] then 0
    else Passes(os[..|os| - 1]) + (if os[|os| - 1].Pass? then 1 else 0)
  }

  /** Handing over two runs of verdicts one after the other files each list in the same order. */
  lemma OutcomesAppend(a: seq<Outcome>, b: seq<Outcome>)
    ensures Errors(a + b) == Errors(a) + Errors(b)
    ensures Warns(a + b) == Warns(a) + Warns(b)
    ensures Passes(a + b) == Passes(a) + Passes(b)
  {
    ErrorsAppend(a, b);
    WarnsAppend(a, b);
    PassesAppend(a, b);
  }

  lemma {:induction false} ErrorsAppend(a: seq<Outcome>, b: seq<Outcome>)
    ensures Errors(a + b) == Errors(a) + Errors(b)
  {
    if b == [] {
      assert a + b == a;
    } else {
      var b' := b[..|b| - 1];
      assert (a + b)[..|a + b| - 1] == a + b';
      ErrorsAppend(a, b');
    }
  }

  lemma {:induction false} WarnsAppend(a: seq<Outcome>, b: seq<Outcome>)
    ensures Warns(a + b) == Warns(a) + Warns(b)
  {
    if b == [] {
      assert a + b == a;
    } else {
      var b' := b[..|b| - 1];
      assert (a + b)[..|a + b| - 1] == a + b';
      WarnsAppend(a, b');
    }
  }

  lemma {:induction false} PassesAppend(a: seq<Outcome>, b: seq<Outcome>)
    ensures Passes(a + b) == Passes(a) + Passes(b)
  {
    if b == [] {
      assert a + b == a;
    } else {
      var b' := b[..|b| - 1];
      assert (a + b)[..|a + b| - 1] == a + b';
      PassesAppend(a, b');
    }
  }

  /** The violations are exactly the failed checks of severity "error", the warnings exactly the other failed checks. */
  lemma {:induction false} FiledWhereSeverityPoints(os: seq<Outcome>)
    ensures forall v :: v in Errors(os) <==> Flagged(v) in os && v.severity == "error"
    ensures forall v :: v in Warns(os) <==> Flagged(v) in os && v.severity != "error"
  {
    if os != [] {
      var init := os[..|os| - 1];
      FiledWhereSeverityPoints(init);
      assert os == init + [os[|os| - 1]];
    }
  }

  /** Without a failed "error" check there are no violations at all. */
  lemma {:induction false} NoErrors(os: seq<Outcome>)
    requires forall k :: 0 <= k < |os| && os[k].Flagged? ==> os[k].violation.severity != "error"
    ensures Errors(os) == []
  {
    if os != [] {
      NoErrors(os[..|os| - 1]);
    }
  }

  /** The checker's three accumulators: violations, warnings and the pass count. */
  datatype Tally = Tally(violations: seq<Violation>, warnings: seq<Violation>, passes: nat)

  /** One verdict handed to the checker: `add_pass`, or `add_violation` routed by severity. */
  function Record(t: Tally, o: Outcome): Tally {
    match o
    case Pass(_) => t.(passes := t.passes + 1)
    case Flagged(v) =>
      if v.severity == "error" then t.(violations := t.violations + [v])
      else t.(warnings := t.warnings + [v])
  }

  /** The verdicts `os` handed over one after the other. */
  function RecordAll(t: Tally, os: seq<Outcome>): Tally {
    if os == [] then t else Record(RecordAll(t, os[..|os| - 1]), os[|os| - 1])
  }

  /** Handing over `a` and then `b` is handing over `a + b`. */
  lemma {:induction false} RecordAllAppend(t: Tally, a: seq<Outcome>, b: seq<Outcome>)
    ensures RecordAll(t, a + b) == RecordAll(RecordAll(t, a), b)
  {
    if b == [] {
      assert a + b == a;
    } else {
      var b' := b[..|b| - 1];
      assert (a + b)[..|a + b| - 1] == a + b';
      RecordAllAppend(t, a, b');
    }
  }

  /** Handing over one more verdict extends the prefix handed over so far. */
  lemma RecordStep(t: Tally, os: seq<Outcome>, i: nat)
    requires i < |os|
    ensures RecordAll(t, os[..i + 1]) == Record(RecordAll(t, os[..i]), os[i])
  {
    assert os[..i + 1][..i] == os[..i];
  }

  /** The checker ends up holding the earlier lists extended by the errors and the warnings, in order, and the passes counted. */
  lemma {:induction false} RecordAllParts(t: Tally, os: seq<Outcome>)
    ensures RecordAll(t, os) == Tally(t.violations + Errors(os), t.warnings + Warns(os), t.passes + Passes(os))
  {
    if os == [] {
      assert t.violations + [] == t.violations && t.warnings + [] == t.warnings;
    } else {
      var init := os[..|os| - 1];
      RecordAllParts(t, init);
      var last := os[|os| - 1];
      assert t.violations + Errors(init) + (if last.Flagged? && last.violation.severity == "error" then [last.violation] else [])
          == t.violations + (Errors(init) + (if last.Flagged? && last.violation.severity == "error" then [last.violation] else []));
      assert t.warnings + Warns(init) + (if last.Flagged? && last.violation.severity != "error" then [last.violation] else [])
          == t.warnings + (Warns(init) + (if last.Flagged? && last.violation.severity != "error" then [last.violation] else []));
    }
  }
}
