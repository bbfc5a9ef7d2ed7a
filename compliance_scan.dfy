/**
 * The per-file scan of `check_theoretical_references`
 * (scripts/verify_compliance.py): find every `def compute_...` /
 * `def calculate_...` header, look for a docstring in the 2000 characters
 * that follow it, and decide between a pass, a "Missing Theoretical
 * Reference" warning and a "Missing Docstring" warning.
 *
 * Python's regular-expression engine is replaced by hand-written matchers
 * for the exact patterns the scan uses; each pattern's backtracking is
 * deterministic (every repetition is followed by a character it cannot
 * absorb), so a single left-to-right pass decides it.
 */
module ComplianceScan {
  import opened Wrappers
  import opened Text
  import opened ComplianceRecords

  // ---------------------------------------------------------------------
  // Runs of one character class
  // ---------------------------------------------------------------------

  /** The end of the longest run of `\w` characters starting at `i`. */
  function WordRun(s: string, i: nat): (r: nat)
    requires i <= |s|
    decreases |s| - i
    ensures i <= r <= |s|
    ensures forall k :: i <= k < r ==> IsWordChar(s[k])
    ensures r == |s| || !IsWordChar(s[r])
  {
    if i < |s| && IsWordChar(s[i]) then WordRun(s, i + 1) else i
  }

  /** The end of the longest run of `\s` characters starting at `i`. */
  function SpaceRun(s: string, i: nat): (r: nat)
    requires i <= |s|
    decreases |s| - i
    ensures i <= r <= |s|
    ensures forall k :: i <= k < r ==> IsSpace(s[k])
    ensures r == |s| || !IsSpace(s[r])
  {
    if i < |s| && IsSpace(s[i]) then SpaceRun(s, i + 1) else i
  }

  /** `.*?:` : the first `:` at or after `i` with no newline before it. */
  function ColonOnLine(s: string, i: nat): (r: Option<nat>)
    requires i <= |s|
    decreases |s| - i
    ensures r.Some? ==> i <= r.value < |s| && s[r.value] == ':'
    ensures r.Some? ==> forall k :: i <= k < r.value ==> s[k] != ':' && s[k] != '\n'
    ensures r.None? ==> forall k :: i <= k < |s| && s[k] == ':' ==> exists j :: i <= j < k && s[j] == '\n'
  {
    if i == |s| then None
    else if s[i] == ':' then Some(i)
    else if s[i] == '\n' then None
    else ColonOnLine(s, i + 1)
  }

  // ---------------------------------------------------------------------
  // def (compute_\w+|calculate_\w+)\s*\([^)]*\)\s*(?:->.*?)?:
  // ---------------------------------------------------------------------

  /** One header found by the scan: the function name and where the match starts and ends. */
  datatype FuncMatch = FuncMatch(name: string, start: nat, end: nat)

  /** The end of the header after the closing parenthesis at `close`: an optional `-> ...` annotation, then `:`. */
  function HeaderEnd(s: string, close: nat): (r: Option<nat>)
    requires close < |s|
    ensures r.Some? ==> close < r.value <= |s| && s[r.value - 1] == ':'
  {
    var k := SpaceRun(s, close + 1);
    if OccursAt(s, "->", k) then
      var c := ColonOnLine(s, k + 2);
      if c.Some? then Some(c.value + 1) else None
    else if k < |s| && s[k] == ':' then Some(k + 1)
    else None
  }

  /** Where the name's `\w+` starts after `def ` at `i`, if the name has one of the two prefixes. */
  function NameBody(s: string, i: nat): (r: Option<nat>)
    ensures r.Some? ==> OccursAt(s, "def ", i)
    ensures r.Some? ==> (
      || (OccursAt(s, "compute_", i + 4) && r.value == i + 12)
      || (OccursAt(s, "calculate_", i + 4) && r.value == i + 14))
  {
    if !OccursAt(s, "def ", i) then None
    else if OccursAt(s, "compute_", i + 4) then Some(i + 12)
    else if OccursAt(s, "calculate_", i + 4) then Some(i + 14)
    else None
  }

  /** `\s*\([^)]*\)` from `w`: the index of the closing parenthesis. */
  function ParamList(s: string, w: nat): (r: Option<nat>)
    requires w <= |s|
    ensures r.Some? ==> w < r.value < |s| && s[r.value] == ')'
  {
    var open := SpaceRun(s, w);
    if open == |s| || s[open] != '(' then None
    else
      var close := Find(s, ")", open + 1);
      if close.None? then None
      else
        assert s[close.value..close.value + 1] == ")";
        Some(close.value)
  }

  /** The end of the name `compute_\w+` or `calculate_\w+` after `def ` at `i`. */
  function NameEnd(s: string, i: nat): (r: Option<nat>)
    ensures r.Some? ==> i + 4 < r.value <= |s| && OccursAt(s, "def ", i)
  {
    var body := NameBody(s, i);
    if body.None? then None
    else
      var w := WordRun(s, body.value);
      if w == body.value then None else Some(w)
  }

  /** The header regex matched at exactly position `i` (`re.match` semantics at `i`). */
  function MatchAt(s: string, i: nat): (r: Option<FuncMatch>)
    ensures r.Some? ==> r.value.start == i && i + 4 < r.value.end <= |s| && s[r.value.end - 1] == ':'
    ensures r.Some? ==> OccursAt(s, "def ", i) && NameEnd(s, i).Some? && r.value.name == s[i + 4..NameEnd(s, i).value]
  {
    var w := NameEnd(s, i);
    if w.None? then None
    else
      var close := ParamList(s, w.value);
      if close.None? then None
      else
        var e := HeaderEnd(s, close.value);
        if e.None? then None
        else Some(FuncMatch(s[i + 4..w.value], i, e.value))
  }

  /** The name found is `compute_` or `calculate_` followed by at least one more word character. */
  lemma MatchedName(s: string, i: nat)
    requires MatchAt(s, i).Some?
    ensures var name := MatchAt(s, i).value.name;
      && (forall k :: 0 <= k < |name| ==> IsWordChar(name[k]))
      && ((OccursAt(name, "compute_", 0) && 8 < |name|) || (OccursAt(name, "calculate_", 0) && 10 < |name|))
  {
    var p := NameBody(s, i).value;
    var w := WordRun(s, p);
    PrefixWordChars(s, i + 4, p, w);
  }

  /** The name spans the prefix (all word characters) and the `\w+` run. */
  lemma PrefixWordChars(s: string, from: nat, p: nat, w: nat)
    requires from + 8 <= p < w <= |s|
    requires (OccursAt(s, "compute_", from) && p == from + 8) || (OccursAt(s, "calculate_", from) && p == from + 10)
    requires forall k :: p <= k < w ==> IsWordChar(s[k])
    ensures forall k :: 0 <= k < |s[from..w]| ==> IsWordChar(s[from..w][k])
    ensures (OccursAt(s[from..w], "compute_", 0) && 8 < |s[from..w]|)
         || (OccursAt(s[from..w], "calculate_", 0) && 10 < |s[from..w]|)
  {
    var name := s[from..w];
    if OccursAt(s, "compute_", from) && p == from + 8 {
      assert name[..8] == s[from..from + 8];
      forall k | 0 <= k < 8 ensures IsWordChar(name[k]) {
        assert name[k] == "compute_"[k];
      }
    } else {
      assert name[..10] == s[from..from + 10];
      forall k | 0 <= k < 10 ensures IsWordChar(name[k]) {
        assert name[k] == "calculate_"[k];
      }
    }
  }

  /**
   * `re.finditer` from position `from`: the leftmost match, then the
   * leftmost match at or after its end, and so on.
   */
  function FindAll(s: string, from: nat): (ms: seq<FuncMatch>)
    decreases |s| + 1 - from
    ensures forall k :: 0 <= k < |ms| ==> from <= ms[k].start && MatchAt(s, ms[k].start) == Some(ms[k])
  {
    if |s| < from then []
    else
      var m := MatchAt(s, from);
      if m.Some? then [m.value] + FindAll(s, m.value.end)
      else FindAll(s, from + 1)
  }

  /** Matches come out in order and do not overlap. */
  lemma {:induction false} FindAllOrdered(s: string, from: nat)
    decreases |s| + 1 - from
    ensures forall k :: 0 <= k < |FindAll(s, from)| - 1 ==> FindAll(s, from)[k].end <= FindAll(s, from)[k + 1].start
  {
    if from <= |s| {
      var m := MatchAt(s, from);
      if m.Some? {
        FindAllOrdered(s, m.value.end);
      } else {
        FindAllOrdered(s, from + 1);
      }
    }
  }

  /** Position `p` is the start of one of the matches or lies inside it. */
  predicate Covered(ms: seq<FuncMatch>, p: nat) {
    exists k :: 0 <= k < |ms| && ms[k].start <= p < ms[k].end
  }

  lemma CoveredCons(m: FuncMatch, ms: seq<FuncMatch>, p: nat)
    requires Covered(ms, p)
    ensures Covered([m] + ms, p)
  {
    var k :| 0 <= k < |ms| && ms[k].start <= p < ms[k].end;
    assert ([m] + ms)[k + 1] == ms[k];
  }

  /**
   * Nothing is missed: every position at or after `from` where the header
   * regex matches is the start of a reported match or lies inside one.
   */
  lemma {:induction false} FindAllComplete(s: string, from: nat, p: nat)
    requires from <= p && MatchAt(s, p).Some?
    decreases |s| + 1 - from
    ensures Covered(FindAll(s, from), p)
  {
    var m := MatchAt(s, from);
    if m.Some? {
      if p < m.value.end {
        assert FindAll(s, from)[0] == m.value;
      } else {
        FindAllComplete(s, m.value.end, p);
        CoveredCons(m.value, FindAll(s, m.value.end), p);
      }
    } else {
      FindAllComplete(s, from + 1, p);
    }
  }

  // ---------------------------------------------------------------------
  // The docstring: """(.*?)""" with DOTALL, in content[start:start+2000]
  // ---------------------------------------------------------------------

  const TripleQuote := "\"\"\""

  /** `content[start:start+2000]`, with Python's clamping of the end. */
  function Window(content: string, start: nat): (w: string)
    requires start <= |content|
    ensures |w| <= 2000 && start + |w| <= |content| && w == content[start..start + |w|]
    ensures |w| == 2000 || start + |w| == |content|
  {
    if start + 2000 <= |content| then content[start..start + 2000] else content[start..]
  }

  /** `p` is where the first triple quote at or after `from` starts. */
  predicate FirstTripleQuote(w: string, from: nat, p: nat) {
    from <= p && OccursAt(w, TripleQuote, p) && forall j :: from <= j < p ==> !OccursAt(w, TripleQuote, j)
  }

  /** The first `"""..."""` pair: the text between the first triple quote and the next one. */
  function Docstring(w: string): (d: Option<string>)
    ensures d.Some? ==> exists p: nat :: FirstTripleQuote(w, 0, p) && FirstTripleQuote(w, p + 3, p + 3 + |d.value|)
                                  && d.value == w[p + 3..p + 3 + |d.value|]
    ensures d.Some? ==> !Contains(d.value, TripleQuote)
    ensures d.None? ==> forall p, q :: 0 <= p && p + 3 <= q ==> !(OccursAt(w, TripleQuote, p) && OccursAt(w, TripleQuote, q))
  {
    var open := Find(w, TripleQuote, 0);
    if open.None? then None
    else
      var close := Find(w, TripleQuote, open.value + 3);
      if close.None? then None
      else
        var d := w[open.value + 3..close.value];
        LazyBody(w, open.value + 3, close.value);
        assert FirstTripleQuote(w, 0, open.value) && FirstTripleQuote(w, open.value + 3, open.value + 3 + |d|);
        Some(d)
  }

  /** Of two docstring-like pairs, the first one is found. */
  lemma DocstringFirstPair()
    ensures Docstring("\"\"\"a\"\"\" \"\"\"b\"\"\"") == Some("a")
  {
    var w := "\"\"\"a\"\"\" \"\"\"b\"\"\"";
    assert OccursAt(w, TripleQuote, 0) && OccursAt(w, TripleQuote, 4);
    var d := Docstring(w);
    var p: nat :| FirstTripleQuote(w, 0, p) && FirstTripleQuote(w, p + 3, p + 3 + |d.value|)
                  && d.value == w[p + 3..p + 3 + |d.value|];
    assert p == 0;
    assert w[3] == 'a' && w[3..6] != TripleQuote;
    assert p + 3 + |d.value| == 4;
    assert w[3..4] == "a";
  }

  /** The lazy `.*?` stops at the first closing triple quote, so the body holds none. */
  lemma LazyBody(w: string, from: nat, q: nat)
    requires from <= q <= |w|
    requires forall j :: from <= j < q ==> !OccursAt(w, TripleQuote, j)
    ensures !Contains(w[from..q], TripleQuote)
  {
    var d := w[from..q];
    assert |TripleQuote| == 3;
    forall i | 0 <= i && OccursAt(d, TripleQuote, i)
      ensures false
    {
      assert d[i..i + 3] == TripleQuote;
      forall k | 0 <= k < 3 ensures w[from + i + k] == TripleQuote[k] {
        assert d[i..i + 3][k] == d[i + k];
      }
      assert w[from + i..from + i + 3] == TripleQuote;
      assert OccursAt(w, TripleQuote, from + i);
    }
  }

  // ---------------------------------------------------------------------
  // Line numbers: content[:start].count('\n') + 1
  // ---------------------------------------------------------------------

  /** The 1-based line on which position `start` lies. */
  function LineNumber(content: string, start: nat): (r: nat)
    requires start <= |content|
    ensures 1 <= r <= start + 1
    ensures r == 1 <==> '\n' !in content[..start]
  {
    CountChar(content[..start], '\n') + 1
  }

  /** Moving one position forward moves one line down exactly when the character passed is a newline. */
  lemma LineNumberStep(content: string, start: nat)
    requires start < |content|
    ensures LineNumber(content, start + 1) == LineNumber(content, start) + (if content[start] == '\n' then 1 else 0)
  {
    assert content[..start + 1] == content[..start] + [content[start]];
    CountCharAppend(content[..start], [content[start]], '\n');
    assert [content[start]] == [content[start]] + [];
  }

  // ---------------------------------------------------------------------
  // The four reference patterns searched for in a docstring
  // ---------------------------------------------------------------------

  /**
   * `IRH\s+v2[12]\.\d+` (case-insensitive), `Eq\.\s*\d+`, `§\s*\d+` and
   * `Appendix\s+[A-Z]`.
   */
  datatype RefPattern = IrhVersion | Equation | Section | AppendixLetter

  /** `pat` matches `s` starting at position `p`. */
  predicate PatternAt(s: string, pat: RefPattern, p: nat)
    requires p <= |s|
  {
    match pat
    case IrhVersion =>
      && p + 3 <= |s| && Lower(s[p]) == 'i' && Lower(s[p + 1]) == 'r' && Lower(s[p + 2]) == 'h'
      && var k := SpaceRun(s, p + 3);
         && p + 3 < k && k + 5 <= |s|
         && Lower(s[k]) == 'v' && s[k + 1] == '2' && (s[k + 2] == '1' || s[k + 2] == '2')
         && s[k + 3] == '.' && IsDigit(s[k + 4])
    case Equation =>
      OccursAt(s, "Eq.", p) && var k := SpaceRun(s, p + 3); k < |s| && IsDigit(s[k])
    case Section =>
      OccursAt(s, "§", p) && var k := SpaceRun(s, p + 1); k < |s| && IsDigit(s[k])
    case AppendixLetter =>
      OccursAt(s, "Appendix", p) && var k := SpaceRun(s, p + 8); p + 8 < k < |s| && IsUpper(s[k])
  }

  /** `re.search(pat, s[i:])` succeeds: scan left to right for a position where `pat` matches. */
  function SearchFrom(s: string, pat: RefPattern, i: nat): (r: bool)
    requires i <= |s|
    decreases |s| - i
    ensures r <==> exists p: nat :: i <= p <= |s| && PatternAt(s, pat, p)
  {
    if PatternAt(s, pat, i) then true
    else if i == |s| then false
    else
      var r := SearchFrom(s, pat, i + 1);
      assert forall p: nat :: i <= p <= |s| && PatternAt(s, pat, p) ==> p == i || i + 1 <= p;
      r
  }

  /** The docstring cites the theory: one of the four patterns occurs in it. */
  function HasReference(d: string): (r: bool)
    ensures r <==> exists pat: RefPattern, p: nat :: p <= |d| && PatternAt(d, pat, p)
  {
    var r := SearchFrom(d, IrhVersion, 0) || SearchFrom(d, Equation, 0)
      || SearchFrom(d, Section, 0) || SearchFrom(d, AppendixLetter, 0);
    r
  }

  /** A version citation and an equation number each count as a reference. */
  lemma ReferenceExamples()
    ensures HasReference("per IRH v21.4")
    ensures HasReference("Eq. 3")
  {
    assert PatternAt("per IRH v21.4", IrhVersion, 4);
    assert PatternAt("Eq. 3", Equation, 0);
  }

  // ---------------------------------------------------------------------
  // What one header contributes to the checker
  // ---------------------------------------------------------------------

  const ReferenceMissing := "Missing Theoretical Reference"
  const DocstringMissing := "Missing Docstring"

  /** The verdict on the header `m` of the file `relPath` with text `content`. */
  function MatchOutcome(content: string, relPath: string, m: FuncMatch): (r: Outcome)
    requires m.start <= |content|
    ensures r.Pass? ==> r.message == "Function " + m.name + " has theoretical reference"
    ensures r.Flagged? ==>
      && r.violation.severity == "warning"
      && r.violation.file == Some(relPath)
      && r.violation.line == Some(LineNumber(content, m.start))
    ensures r.Flagged? ==>
      && (r.violation.category == DocstringMissing <==> Docstring(Window(content, m.start)).None?)
      && (r.violation.category == DocstringMissing || r.violation.category == ReferenceMissing)
    ensures r.Flagged? && r.violation.category == DocstringMissing ==>
      r.violation.message == "Function '" + m.name + "' lacks docstring"
    ensures r.Flagged? && r.violation.category == ReferenceMissing ==>
      r.violation.message == "Function '" + m.name + "' lacks theoretical reference (IRH v21.4, Eq., §, or Appendix)"
  {
    var d := Docstring(Window(content, m.start));
    var line := LineNumber(content, m.start);
    if d.Some? then
      if HasReference(d.value) then Pass("Function " + m.name + " has theoretical reference")
      else
        Flagged(Violation(ReferenceMissing,
          "Function '" + m.name + "' lacks theoretical reference (IRH v21.4, Eq., §, or Appendix)",
          Some(relPath), Some(line), "warning"))
    else
      Flagged(Violation(DocstringMissing, "Function '" + m.name + "' lacks docstring",
        Some(relPath), Some(line), "warning"))
  }

  /** A header passes exactly when the docstring found after it cites one of the four patterns. */
  lemma MatchPasses(content: string, relPath: string, m: FuncMatch)
    requires m.start <= |content|
    ensures var d := Docstring(Window(content, m.start));
      MatchOutcome(content, relPath, m).Pass? <==>
        d.Some? && exists pat: RefPattern, p: nat :: p <= |d.value| && PatternAt(d.value, pat, p)
  {
  }

  /** A Python file under `python/src`: its path, its path relative to the repository, its name and, if readable, its text. */
  datatype SourceFile = SourceFile(fullPath: string, relPath: string, name: string, content: Option<string>)

  /** Files in `__pycache__` and files whose name contains `test_` are not scanned. */
  predicate Skipped(f: SourceFile) {
    Contains(f.fullPath, "__pycache__") || Contains(f.name, "test_")
  }

  /** The outcomes of the headers `ms`, in order. */
  function MatchOutcomes(content: string, relPath: string, ms: seq<FuncMatch>): (os: seq<Outcome>)
    requires forall m :: m in ms ==> m.start <= |content|
    ensures |os| == |ms|
    ensures forall k :: 0 <= k < |ms| ==> os[k] == MatchOutcome(content, relPath, ms[k])
  {
    if ms == [] then []
    else
      assert ms[0] in ms;
      [MatchOutcome(content, relPath, ms[0])] + MatchOutcomes(content, relPath, ms[1..])
  }

  /** The headers found in a file; none when it is skipped or cannot be read. */
  function FileMatches(f: SourceFile): (ms: seq<FuncMatch>)
    ensures Skipped(f) || f.content.None? ==> ms == []
    ensures f.content.Some? ==> forall k :: 0 <= k < |ms| ==> MatchAt(f.content.value, ms[k].start) == Some(ms[k])
  {
    if Skipped(f) || f.content.None? then [] else FindAll(f.content.value, 0)
  }

  /** What one file contributes, in the order of its headers. */
  function FileOutcomes(f: SourceFile): (os: seq<Outcome>)
    ensures |os| == |FileMatches(f)|
    ensures f.content.Some? ==> forall k :: 0 <= k < |os| ==>
      os[k] == MatchOutcome(f.content.value, f.relPath, FileMatches(f)[k])
  {
    if f.content.None? then [] else MatchOutcomes(f.content.value, f.relPath, FileMatches(f))
  }

  /** What the whole scan contributes, file after file. */
  function ScanOutcomes(files: seq<SourceFile>): (os: seq<Outcome>)
  {
    if files == [] then [] else ScanOutcomes(files[..|files| - 1]) + FileOutcomes(files[|files| - 1])
  }

  /** Every flagged verdict among `os` is a warning. */
  predicate OnlyWarns(os: seq<Outcome>) {
    forall k :: 0 <= k < |os| && os[k].Flagged? ==> os[k].violation.severity == "warning"
  }

  lemma OnlyWarnsAppend(a: seq<Outcome>, b: seq<Outcome>)
    requires OnlyWarns(a) && OnlyWarns(b)
    ensures OnlyWarns(a + b)
  {
    forall k | 0 <= k < |a + b| && (a + b)[k].Flagged?
      ensures (a + b)[k].violation.severity == "warning"
    {
      if k < |a| {
        assert (a + b)[k] == a[k];
      } else {
        assert (a + b)[k] == b[k - |a|];
      }
    }
  }

  lemma FileOnlyWarns(f: SourceFile)
    ensures OnlyWarns(FileOutcomes(f))
  {
    var os := FileOutcomes(f);
    forall k | 0 <= k < |os| && os[k].Flagged?
      ensures os[k].violation.severity == "warning"
    {
      var ms := FileMatches(f);
      assert os[k] == MatchOutcome(f.content.value, f.relPath, ms[k]);
    }
  }

  /** Every header the scan flags is flagged as a warning, never as an error. */
  lemma {:induction false} ScanOnlyWarns(files: seq<SourceFile>)
    ensures OnlyWarns(ScanOutcomes(files))
    ensures Errors(ScanOutcomes(files)) == []
  {
    if files != [] {
      ScanOnlyWarns(files[..|files| - 1]);
      FileOnlyWarns(files[|files| - 1]);
      OnlyWarnsAppend(ScanOutcomes(files[..|files| - 1]), FileOutcomes(files[|files| - 1]));
    }
    NoErrors(ScanOutcomes(files));
  }
}
