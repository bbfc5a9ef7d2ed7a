/**
 * The `theoretical_reference` decorator of irh.verification.annotations:
 * it appends a reference record to the function's `_theoretical_refs`
 * list (creating the list on first use), rewrites the docstring with a
 * guarded append, and returns a wrapper that calls the function through.
 */
module Annotations {
  import opened Wrappers
  import opened Text
  import opened Payloads

  /** The text whose presence stops the docstring from being extended again. */
  const Marker := "Theoretical Reference:"

  /** One `{manuscript, equation, description}` record. */
  datatype Ref = Ref(manuscript: string, equation: string, description: Option<string>)

  /** The `_theoretical_refs` list: one object, shared by a function and its wrappers. */
  class RefList {
    var items: seq<Ref>

    constructor ()
      ensures items == []
    {
      items := [];
    }
  }

  /** A Python function: what it computes, its docstring and, once decorated, its reference list. */
  class PyFunction {
    const behaviour: seq<Datum> -> Datum
    var doc: Option<string>
    var refs: RefList?

    constructor (behaviour: seq<Datum> -> Datum, doc: Option<string>)
      ensures this.behaviour == behaviour && this.doc == doc && refs == null
    {
      this.behaviour := behaviour;
      this.doc := doc;
      refs := null;
    }

    /** `functools.wraps(func)` applied to a pass-through wrapper: same behaviour, docstring and attribute dictionary. */
    constructor Wrap(func: PyFunction)
      ensures behaviour == func.behaviour && doc == func.doc && refs == func.refs
    {
      behaviour := func.behaviour;
      doc := func.doc;
      refs := func.refs;
    }

    /** Calling the function. */
    method Call(args: seq<Datum>) returns (r: Datum)
      ensures r == behaviour(args)
    {
      r := behaviour(args);
    }
  }

  /** The indentation that opens the added line: a newline and four spaces. */
  const Indent := "\n    "

  /** The reference proper: the marker, the manuscript, a comma and the equation. */
  function Body(manuscript: string, equation: string): string {
    Marker + " " + manuscript + ", " + equation
  }

  /** The description, when one is given, after a dash. */
  function Tail(description: Option<string>): string {
    if description.Some? && description.value != "" then " - " + description.value else ""
  }

  /** The added line without its indentation. */
  function Line(manuscript: string, equation: string, description: Option<string>): string {
    Body(manuscript, equation) + Tail(description)
  }

  /** The text added to the docstring. */
  function DocAddition(manuscript: string, equation: string, description: Option<string>): string {
    Indent + Line(manuscript, equation, description)
  }

  /** The docstring after decoration. */
  function RewriteDoc(doc: Option<string>, addition: string): string {
    if doc.Some? && doc.value != "" then
      if Contains(doc.value, Marker) then doc.value else doc.value + addition
    else Strip(addition)
  }

  /** The reference starts with the marker and holds the manuscript followed by a comma. */
  lemma BodyLead(manuscript: string, equation: string)
    ensures var lead := Marker + " " + manuscript + ",";
      |lead| <= |Body(manuscript, equation)| && Body(manuscript, equation)[..|lead|] == lead
  {
    var x := Marker + " " + manuscript;
    assert Body(manuscript, equation) == x + (", " + equation);
    assert (x + (", " + equation))[..|x| + 1] == x + ",";
  }

  /** The indentation is all whitespace, so stripping on the left removes exactly it. */
  lemma StripIndent(line: string)
    requires line != [] && !IsWhitespace(line[0])
    ensures StripLeft(Indent + line) == line
  {
    var a := Indent + line;
    forall i | 0 <= i < 5 ensures IsWhitespace(a[i]) {
      assert a[i] == Indent[i];
    }
    StripLeftSkips(a, 5);
    assert a[5..] == line;
  }

  /** The line starts with the marker, the manuscript and its comma. */
  lemma LineLead(manuscript: string, equation: string, description: Option<string>)
    ensures var lead := Marker + " " + manuscript + ",";
      |lead| <= |Line(manuscript, equation, description)| && Line(manuscript, equation, description)[..|lead|] == lead
  {
    BodyLead(manuscript, equation);
    var b := Body(manuscript, equation);
    var lead := Marker + " " + manuscript + ",";
    assert (b + Tail(description))[..|lead|] == b[..|lead|];
  }

  /** Stripping the added text removes the indentation and keeps at least the marker, the manuscript and its comma. */
  lemma StrippedAddition(manuscript: string, equation: string, description: Option<string>)
    ensures var lead := Marker + " " + manuscript + ",";
      var r := Strip(DocAddition(manuscript, equation, description));
      |lead| <= |r| && r[..|lead|] == lead
    ensures StripLeft(DocAddition(manuscript, equation, description)) == Line(manuscript, equation, description)
  {
    var line := Line(manuscript, equation, description);
    var lead := Marker + " " + manuscript + ",";
    LineLead(manuscript, equation, description);
    assert line[0] == lead[0] == 'T';
    StripIndent(line);
    assert line[|lead| - 1] == lead[|lead| - 1] == ',';
    StripRightKeeps(line, |lead| - 1);
  }

  /** When the added text ends in a visible character, stripping removes only the indentation. */
  lemma StrippedWholeLine(manuscript: string, equation: string, description: Option<string>)
    requires description.Some? && description.value != ""
    requires !IsWhitespace(description.value[|description.value| - 1])
    ensures Strip(DocAddition(manuscript, equation, description)) == Line(manuscript, equation, description)
  {
    StrippedAddition(manuscript, equation, description);
    var line := Line(manuscript, equation, description);
    assert line[|line| - 1] == description.value[|description.value| - 1];
  }

  /** The marker sits right after the indentation of the added text. */
  lemma AdditionMarked(manuscript: string, equation: string, description: Option<string>)
    ensures OccursAt(DocAddition(manuscript, equation, description), Marker, 5)
  {
    var line := Line(manuscript, equation, description);
    var lead := Marker + " " + manuscript + ",";
    LineLead(manuscript, equation, description);
    assert line[..|Marker|] == lead[..|Marker|] == Marker;
    OccursInSuffix(Indent, line, Marker, 0);
  }

  /** The stripped added text starts with the marker. */
  lemma StrippedMarked(manuscript: string, equation: string, description: Option<string>)
    ensures OccursAt(Strip(DocAddition(manuscript, equation, description)), Marker, 0)
  {
    var lead := Marker + " " + manuscript + ",";
    StrippedAddition(manuscript, equation, description);
    var r := Strip(DocAddition(manuscript, equation, description));
    assert r[..|Marker|] == lead[..|Marker|] == Marker;
  }

  /** After decoration the docstring always carries the marker. */
  lemma RewriteMarked(doc: Option<string>, manuscript: string, equation: string, description: Option<string>)
    ensures Contains(RewriteDoc(doc, DocAddition(manuscript, equation, description)), Marker)
  {
    var a := DocAddition(manuscript, equation, description);
    if doc.Some? && doc.value != "" {
      if !Contains(doc.value, Marker) {
        AdditionMarked(manuscript, equation, description);
        OccursInSuffix(doc.value, a, Marker, 5);
      }
    } else {
      StrippedMarked(manuscript, equation, description);
    }
  }

  /** A second decoration leaves the docstring of a first one unchanged. */
  lemma RewriteIdempotent(doc: Option<string>, m1: string, e1: string, d1: Option<string>, addition: string)
    ensures var once := RewriteDoc(doc, DocAddition(m1, e1, d1));
      RewriteDoc(Some(once), addition) == once
  {
    RewriteMarked(doc, m1, e1, d1);
    var once := RewriteDoc(doc, DocAddition(m1, e1, d1));
    var i :| OccursAt(once, Marker, i);
    assert once != "";
  }

  /** A non-empty docstring without the marker gets the line appended, so its old text is kept as a prefix. */
  lemma RewriteKeepsText(doc: string, addition: string)
    requires doc != "" && !Contains(doc, Marker)
    ensures RewriteDoc(Some(doc), addition) == doc + addition
    ensures RewriteDoc(Some(doc), addition)[..|doc|] == doc
  {
    OccursAtStart(doc, addition);
  }

  /**
   * `theoretical_reference(manuscript, equation, description)` applied to
   * `func`: one record appended to the (possibly new) shared list, the
   * docstring rewritten, and a wrapper returned that shares both.
   */
  method TheoreticalReference(manuscript: string, equation: string, description: Option<string>, func: PyFunction)
    returns (wrapper: PyFunction)
    modifies func, func.refs
    ensures func.refs != null
    ensures old(func.refs) != null ==> func.refs == old(func.refs)
    ensures old(func.refs) == null ==> fresh(func.refs)
    ensures func.refs.items ==
      (if old(func.refs) == null then [] else old(func.refs.items)) + [Ref(manuscript, equation, description)]
    ensures func.doc == Some(RewriteDoc(old(func.doc), DocAddition(manuscript, equation, description)))
    ensures fresh(wrapper)
    ensures wrapper.behaviour == func.behaviour && wrapper.doc == func.doc && wrapper.refs == func.refs
  {
    if func.refs == null {
      func.refs := new RefList();
    }
    var ref := Ref(manuscript, equation, description);
    func.refs.items := func.refs.items + [ref];
    var docAddition := DocAddition(manuscript, equation, description);
    if func.doc.Some? && func.doc.value != "" {
      if !Contains(func.doc.value, Marker) {
        func.doc := Some(func.doc.value + docAddition);
      }
    } else {
      func.doc := Some(Strip(docAddition));
    }
    wrapper := new PyFunction.Wrap(func);
  }

  /** The reference text the decorator test looks for. */
  lemma TestBody()
    ensures Body("Test Manuscript", "Eq. 1.0") == "Theoretical Reference: Test Manuscript, Eq. 1.0"
  {
  }

  /**
   * The decorator test: a fresh function without a docstring, decorated
   * once, has one record with the given manuscript and equation, a
   * docstring carrying the reference, and still returns 42.
   */
  method DecoratedDummy() returns (wrapper: PyFunction, result: Datum)
    ensures wrapper.refs != null && |wrapper.refs.items| == 1
    ensures wrapper.refs.items[0].manuscript == "Test Manuscript" && wrapper.refs.items[0].equation == "Eq. 1.0"
    ensures wrapper.doc.Some? && Contains(wrapper.doc.value, "Theoretical Reference: Test Manuscript, Eq. 1.0")
    ensures result == Int(42)
  {
    var dummy := new PyFunction(args => Int(42), None);
    var description := Some("Test Description");
    wrapper := TheoreticalReference("Test Manuscript", "Eq. 1.0", description, dummy);
    assert description.value[|description.value| - 1] == 'n';
    StrippedWholeLine("Test Manuscript", "Eq. 1.0", description);
    TestBody();
    OccursAtStart(Body("Test Manuscript", "Eq. 1.0"), Tail(description));
    assert wrapper.doc.value == Line("Test Manuscript", "Eq. 1.0", description);
    result := wrapper.Call([]);
  }
}
