/**
 * `ComplianceChecker` of scripts/verify_compliance.py: an object that
 * accumulates violations (severity "error"), warnings (any other severity)
 * and a count of passed checks while three checks run over the repository,
 * and then reports.  The repository is given as data: the set of paths that
 * exist and the Python files found under `python/src`.
 */
module Compliance {
  import opened Wrappers
  import opened Text
  import opened ComplianceRecords
  import opened ComplianceScan

  const CriticalFiles: seq<string> := [".github/copilot-instructions.md", ".github/pull_request_template.md"]

  const Manuscripts: seq<string> := [
    "Intrinsic-Resonance-Holography-21.4-Part1.md",
    "Intrinsic-Resonance-Holography-21.4-Part2.md"]

  /** The verdict on one critical file: a missing one is an error. */
  function CriticalOutcome(path: string, existing: set<string>): Outcome {
    if path in existing then Pass("Critical file exists: " + path)
    else Flagged(Violation("Missing Critical File", "Critical file missing: " + path, Some(path), None, "error"))
  }

  /** The verdict on one manuscript: a missing one is only a warning. */
  function ManuscriptOutcome(path: string, existing: set<string>): Outcome {
    if path in existing then Pass("Manuscript exists: " + path)
    else Flagged(Violation("Missing Manuscript", "Manuscript not found: " + path, Some(path), None, "warning"))
  }

  function CriticalOutcomes(existing: set<string>): seq<Outcome> {
    seq(|CriticalFiles|, k requires 0 <= k < |CriticalFiles| => CriticalOutcome(CriticalFiles[k], existing))
  }

  function ManuscriptOutcomes(existing: set<string>): seq<Outcome> {
    seq(|Manuscripts|, k requires 0 <= k < |Manuscripts| => ManuscriptOutcome(Manuscripts[k], existing))
  }

  /** Everything `run_all_checks` hands to the checker, in order. */
  function AllOutcomes(existing: set<string>, files: seq<SourceFile>): seq<Outcome> {
    CriticalOutcomes(existing) + ManuscriptOutcomes(existing) + ScanOutcomes(files)
  }

  /** The critical-file check raises one error per missing critical file, naming it, and nothing else. */
  lemma CriticalErrors(existing: set<string>)
    ensures |Errors(CriticalOutcomes(existing))| == |set p | p in CriticalFiles && p !in existing|
    ensures forall v :: v in Errors(CriticalOutcomes(existing)) ==>
      v.category == "Missing Critical File" && v.file.Some? && v.file.value in CriticalFiles && v.file.value !in existing
    ensures Warns(CriticalOutcomes(existing)) == []
  {
    var os := CriticalOutcomes(existing);
    var c0, c1 := CriticalFiles[0], CriticalFiles[1];
    var o0, o1 := CriticalOutcome(c0, existing), CriticalOutcome(c1, existing);
    assert os == [o0] + [o1];
    OutcomesAppend([o0], [o1]);
    OneCritical(c0, existing);
    OneCritical(c1, existing);
    MissingCount(CriticalFiles, existing);
  }

  /** One critical file's verdict: an error naming it exactly when it is missing. */
  lemma OneCritical(path: string, existing: set<string>)
    ensures path in existing ==> Errors([CriticalOutcome(path, existing)]) == []
    ensures path !in existing ==> |Errors([CriticalOutcome(path, existing)])| == 1
    ensures forall v :: v in Errors([CriticalOutcome(path, existing)]) ==>
      v.category == "Missing Critical File" && v.file == Some(path) && path !in existing
    ensures Warns([CriticalOutcome(path, existing)]) == []
  {
    var os := [CriticalOutcome(path, existing)];
    assert os[..0] == [];
  }

  /** How many of two distinct paths are missing. */
  lemma MissingCount(paths: seq<string>, existing: set<string>)
    requires |paths| == 2 && paths[0] != paths[1]
    ensures |set p | p in paths && p !in existing|
         == (if paths[0] in existing then 0 else 1) + (if paths[1] in existing then 0 else 1)
  {
    var a, b := paths[0], paths[1];
    assert paths == [a, b];
    var missing := set p | p in paths && p !in existing;
    assert missing == (if a in existing then {} else {a}) + (if b in existing then {} else {b});
  }

  /** The manuscript check never raises an error, and warns once per missing manuscript. */
  lemma ManuscriptsOnlyWarn(existing: set<string>)
    ensures Errors(ManuscriptOutcomes(existing)) == []
    ensures |Warns(ManuscriptOutcomes(existing))| == |set p | p in Manuscripts && p !in existing|
  {
    var os := ManuscriptOutcomes(existing);
    var m0, m1 := Manuscripts[0], Manuscripts[1];
    var o0, o1 := ManuscriptOutcome(m0, existing), ManuscriptOutcome(m1, existing);
    assert os == [o0] + [o1];
    OutcomesAppend([o0], [o1]);
    OneManuscript(m0, existing);
    OneManuscript(m1, existing);
    MissingCount(Manuscripts, existing);
  }

  /** One manuscript's verdict: a warning exactly when it is missing, never an error. */
  lemma OneManuscript(path: string, existing: set<string>)
    ensures Errors([ManuscriptOutcome(path, existing)]) == []
    ensures |Warns([ManuscriptOutcome(path, existing)])| == (if path in existing then 0 else 1)
  {
    var os := [ManuscriptOutcome(path, existing)];
    assert os[..0] == [];
  }

  /**
   * The repository is compliant exactly when both critical files exist:
   * missing manuscripts and unreferenced functions only produce warnings.
   */
  lemma CompliantIffCriticalFilesPresent(existing: set<string>, files: seq<SourceFile>)
    ensures Errors(AllOutcomes(existing, files)) == [] <==> forall p :: p in CriticalFiles ==> p in existing
  {
    var c, m, s := CriticalOutcomes(existing), ManuscriptOutcomes(existing), ScanOutcomes(files);
    OutcomesAppend(c, m);
    OutcomesAppend(c + m, s);
    ManuscriptsOnlyWarn(existing);
    ScanOnlyWarns(files);
    assert Errors(AllOutcomes(existing, files)) == Errors(c);
    CriticalErrorsIff(existing);
  }

  /** No critical-file error exactly when every critical file exists. */
  lemma CriticalErrorsIff(existing: set<string>)
    ensures Errors(CriticalOutcomes(existing)) == [] <==> forall p :: p in CriticalFiles ==> p in existing
  {
    CriticalErrors(existing);
    var missing := set p | p in CriticalFiles && p !in existing;
    if missing != {} {
      var p :| p in missing;
      assert p in CriticalFiles && p !in existing;
    } else {
      forall p | p in CriticalFiles
        ensures p in existing
      {
        assert p !in missing;
      }
    }
  }

  class ComplianceChecker {
    var violations: seq<Violation>
    var warnings: seq<Violation>
    var passesCount: nat

    /** The three accumulators together. */
    function State(): Tally
      reads this
    {
      Tally(violations, warnings, passesCount)
    }

    constructor ()
      ensures violations == [] && warnings == [] && passesCount == 0
    {
      violations := [];
      warnings := [];
      passesCount := 0;
    }

    /** `add_violation`: an "error" goes to the violations, anything else to the warnings. */
    method AddViolation(v: Violation)
      modifies this
      ensures v.severity == "error" ==> violations == old(violations) + [v] && warnings == old(warnings)
      ensures v.severity != "error" ==> warnings == old(warnings) + [v] && violations == old(violations)
      ensures passesCount == old(passesCount)
    {
      if v.severity == "error" {
        violations := violations + [v];
      } else {
        warnings := warnings + [v];
      }
    }

    /** `add_pass`: only the count is kept. */
    method AddPass(message: string)
      modifies this
      ensures passesCount == old(passesCount) + 1
      ensures violations == old(violations) && warnings == old(warnings)
    {
      passesCount := passesCount + 1;
    }

    /** Hands one verdict over: `add_pass` for a pass, `add_violation` for a record. */
    method Hand(o: Outcome)
      modifies this
      ensures State() == Record(old(State()), o)
    {
      if o.Pass? {
        AddPass(o.message);
      } else {
        AddViolation(o.violation);
      }
    }

    /** `check_critical_files`. */
    method CheckCriticalFiles(existing: set<string>)
      modifies this
      ensures State() == RecordAll(old(State()), CriticalOutcomes(existing))
    {
      ghost var os := CriticalOutcomes(existing);
      for i := 0 to |CriticalFiles|
        invariant State() == RecordAll(old(State()), os[..i])
      {
        var filePath := CriticalFiles[i];
        RecordStep(old(State()), os, i);
        if filePath in existing {
          AddPass("Critical file exists: " + filePath);
        } else {
          AddViolation(Violation("Missing Critical File", "Critical file missing: " + filePath, Some(filePath), None, "error"));
        }
      }
      assert os[..|os|] == os;
    }

    /** `check_manuscript_references`. */
    method CheckManuscriptReferences(existing: set<string>)
      modifies this
      ensures State() == RecordAll(old(State()), ManuscriptOutcomes(existing))
    {
      ghost var os := ManuscriptOutcomes(existing);
      for i := 0 to |Manuscripts|
        invariant State() == RecordAll(old(State()), os[..i])
      {
        var manuscript := Manuscripts[i];
        RecordStep(old(State()), os, i);
        if manuscript in existing {
          AddPass("Manuscript exists: " + manuscript);
        } else {
          AddViolation(Violation("Missing Manuscript", "Manuscript not found: " + manuscript, Some(manuscript), None, "warning"));
        }
      }
      assert os[..|os|] == os;
    }

    /** `check_theoretical_references`: every header of every scanned file, file after file. */
    method CheckTheoreticalReferences(files: seq<SourceFile>)
      modifies this
      ensures State() == RecordAll(old(State()), ScanOutcomes(files))
    {
      for i := 0 to |files|
        invariant State() == RecordAll(old(State()), ScanOutcomes(files[..i]))
      {
        var pyFile := files[i];
        ghost var before := State();
        ghost var os := FileOutcomes(pyFile);
        if !Skipped(pyFile) && pyFile.content.Some? {
          var content := pyFile.content.value;
          var computeFunctions := FindAll(content, 0);
          for j := 0 to |computeFunctions|
            invariant State() == RecordAll(before, os[..j])
          {
            RecordStep(before, os, j);
            Hand(MatchOutcome(content, pyFile.relPath, computeFunctions[j]));
          }
          assert os[..|os|] == os;
        } else {
          assert os == [];
        }
        assert files[..i + 1][..i] == files[..i];
        RecordAllAppend(old(State()), ScanOutcomes(files[..i]), os);
      }
      assert files[..|files|] == files;
    }

    /** `generate_report`. */
    function GenerateReport(): (r: Report)
      reads this
      ensures r.compliant <==> violations == []
      ensures r.summary == Summary(|violations|, |warnings|, passesCount) && r.passesCount == passesCount
      ensures |r.violations| == |violations| && |r.warnings| == |warnings|
      ensures forall k :: 0 <= k < |violations| ==> FromDict(r.violations[k]) == Some(violations[k])
      ensures forall k :: 0 <= k < |warnings| ==> FromDict(r.warnings[k]) == Some(warnings[k])
      ensures r.violations == ExportAll(violations) && r.warnings == ExportAll(warnings)
    {
      ReportOf(violations, warnings, passesCount)
    }

    /** `run_all_checks`: critical files, then manuscripts, then the function scan. */
    method RunAllChecks(existing: set<string>, files: seq<SourceFile>)
      modifies this
      ensures State() == RecordAll(old(State()), AllOutcomes(existing, files))
    {
      CheckCriticalFiles(existing);
      CheckManuscriptReferences(existing);
      CheckTheoreticalReferences(files);
      var c, m, s := CriticalOutcomes(existing), ManuscriptOutcomes(existing), ScanOutcomes(files);
      RecordAllAppend(old(State()), c, m);
      RecordAllAppend(old(State()), c + m, s);
    }
  }

  /**
   * `main` without the printing and the optional JSON file: run every check
   * on a fresh checker, report, and exit with 0 exactly when compliant.
   */
  method Run(existing: set<string>, files: seq<SourceFile>) returns (report: Report, exitCode: int)
    ensures var os := AllOutcomes(existing, files);
      report == ReportOf(Errors(os), Warns(os), Passes(os))
    ensures exitCode == (if report.compliant then 0 else 1)
    ensures exitCode == 0 <==> forall p :: p in CriticalFiles ==> p in existing
  {
    var checker := new ComplianceChecker();
    ghost var os := AllOutcomes(existing, files);
    checker.RunAllChecks(existing, files);
    RecordAllParts(Tally([], [], 0), os);
    assert [] + Errors(os) == Errors(os) && [] + Warns(os) == Warns(os);
    assert checker.violations == Errors(os) && checker.warnings == Warns(os) && checker.passesCount == Passes(os);
    report := checker.GenerateReport();
    CompliantIffCriticalFilesPresent(existing, files);
    if report.compliant {
      exitCode := 0;
    } else {
      exitCode := 1;
    }
  }
}
