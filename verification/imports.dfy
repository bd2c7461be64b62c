/**
 * Import handling in `executeUserCode`
 * (src/components/build/preview/template.ts:211-250): three extraction
 * patterns push records to `importStatements`, then four deletion passes
 * remove every import statement from the code.
 */
module Imports {
  import opened Wrappers
  import opened Text
  import opened Lines

  datatype ImportType = Namespace | Named | Default

  /** An entry of `importStatements`: its type, the first capture and the module name. */
  datatype ImportRecord = ImportRecord(kind: ImportType, binding: string, source: string)

  /** The type given to a match, by the texts `* as` and `{` in the matched statement. */
  function TypeOf(text: string): (t: ImportType)
    ensures t == Namespace <==> Contains(text, "* as")
    ensures t == Named <==> !Contains(text, "* as") && Contains(text, "{")
  {
    if Contains(text, "* as") then Namespace
    else if Contains(text, "{") then Named
    else Default
  }

  /**
   * The record pattern `p` (0: namespace, 1: named, 2: default) extracts
   * from a line. The extraction patterns end in `;?$`, so a statement
   * followed by blanks is not extracted.
   */
  function Extracted(l: Line, p: nat): Option<ImportRecord> {
    match l.kind
    case NamespaceImport(name, source, exact) =>
      if p == 0 && exact then Some(ImportRecord(TypeOf(l.text), name, source)) else None
    case NamedImport(specifiers, source, exact) =>
      if p == 1 && exact then Some(ImportRecord(TypeOf(l.text), specifiers, source)) else None
    case DefaultImport(name, source, exact) =>
      if p == 2 && exact then Some(ImportRecord(TypeOf(l.text), name, source)) else None
    case _ => None
  }

  /** The records of one pattern's `exec` loop, in line order. */
  function PatternRecords(lines: seq<Line>, p: nat): seq<ImportRecord> {
    if lines == [] then []
    else
      var last := lines[|lines| - 1];
      PatternRecords(lines[..|lines| - 1], p) + (if Extracted(last, p).Some? then [Extracted(last, p).value] else [])
  }

  /** The records of the patterns before `p`, in pattern order. */
  function RecordsBefore(lines: seq<Line>, p: nat): seq<ImportRecord> {
    if p == 0 then [] else RecordsBefore(lines, p - 1) + PatternRecords(lines, p - 1)
  }

  /** `importStatements` once all three patterns have run. */
  function ImportRecords(lines: seq<Line>): seq<ImportRecord> {
    PatternRecords(lines, 0) + PatternRecords(lines, 1) + PatternRecords(lines, 2)
  }

  /** The extraction loops: for each pattern in turn, one record per matching statement. */
  method ExtractImports(lines: seq<Line>) returns (records: seq<ImportRecord>)
    ensures records == ImportRecords(lines)
  {
    records := [];
    for p := 0 to 3
      invariant records == RecordsBefore(lines, p)
    {
      var i := 0;
      while i < |lines|
        invariant 0 <= i <= |lines|
        invariant records == RecordsBefore(lines, p) + PatternRecords(lines[..i], p)
      {
        assert lines[..i + 1][..i] == lines[..i];
        var m := Extracted(lines[i], p);
        if m.Some? {
          records := records + [m.value];
        }
        i := i + 1;
      }
      assert lines[..|lines|] == lines;
    }
    assert RecordsBefore(lines, 1) == [] + PatternRecords(lines, 0);
    assert [] + PatternRecords(lines, 0) == PatternRecords(lines, 0);
  }

  /** A statement some pattern extracts. */
  predicate Extractable(l: Line) {
    Extracted(l, 0).Some? || Extracted(l, 1).Some? || Extracted(l, 2).Some?
  }

  lemma {:induction false} PatternRecordsFrom(lines: seq<Line>, p: nat, r: ImportRecord)
    requires r in PatternRecords(lines, p)
    ensures exists i :: 0 <= i < |lines| && Extracted(lines[i], p) == Some(r)
    decreases |lines|
  {
    var init := lines[..|lines| - 1];
    var last := lines[|lines| - 1];
    if r in PatternRecords(init, p) {
      PatternRecordsFrom(init, p, r);
      var i :| 0 <= i < |init| && Extracted(init[i], p) == Some(r);
      assert lines[i] == init[i];
    } else {
      assert Extracted(last, p) == Some(r);
    }
  }

  lemma {:induction false} PatternRecordsComplete(lines: seq<Line>, p: nat, i: nat)
    requires i < |lines| && Extracted(lines[i], p).Some?
    ensures Extracted(lines[i], p).value in PatternRecords(lines, p)
    decreases |lines|
  {
    var init := lines[..|lines| - 1];
    if i < |lines| - 1 {
      assert init[i] == lines[i];
      PatternRecordsComplete(init, p, i);
    }
  }

  /**
   * Every record comes from an extractable statement, with the type read off
   * the statement's text; every extractable statement gives a record. An
   * `import` of another shape, or one with trailing blanks, gives none.
   */
  lemma ImportRecordsExact(lines: seq<Line>)
    ensures forall r :: r in ImportRecords(lines) ==>
      exists i :: 0 <= i < |lines| && Extractable(lines[i]) && r.kind == TypeOf(lines[i].text)
    ensures forall i :: 0 <= i < |lines| && Extractable(lines[i]) ==>
      exists r :: r in ImportRecords(lines) && r.kind == TypeOf(lines[i].text) && r.source == ImportSource(lines[i].kind)
  {
    forall r | r in ImportRecords(lines)
      ensures exists i :: 0 <= i < |lines| && Extractable(lines[i]) && r.kind == TypeOf(lines[i].text)
    {
      var p: nat := if r in PatternRecords(lines, 0) then 0 else if r in PatternRecords(lines, 1) then 1 else 2;
      PatternRecordsFrom(lines, p, r);
    }
    forall i | 0 <= i < |lines| && Extractable(lines[i])
      ensures exists r :: r in ImportRecords(lines) && r.kind == TypeOf(lines[i].text) && r.source == ImportSource(lines[i].kind)
    {
      var p: nat := if Extracted(lines[i], 0).Some? then 0 else if Extracted(lines[i], 1).Some? then 1 else 2;
      PatternRecordsComplete(lines, p, i);
      assert Extracted(lines[i], p).value in ImportRecords(lines);
    }
  }

  /** The module name of an import statement. */
  function ImportSource(k: LineKind): string {
    match k
    case NamespaceImport(_, source, _) => source
    case NamedImport(_, source, _) => source
    case DefaultImport(_, source, _) => source
    case _ => ""
  }

  /** The four deletion passes in the order the pipeline applies them. */
  function StripImports(lines: seq<Line>): seq<Line> {
    Delete(Delete(Delete(Delete(lines, {NamespaceTag}), {NamedTag}), {DefaultTag}), {OtherImportTag})
  }

  /** After the passes no import statement is left, and the other code lines are kept in order. */
  lemma StripImportsSpec(lines: seq<Line>)
    ensures NoneTagged(StripImports(lines), ImportTags)
    ensures NonBlank(StripImports(lines)) == Without(NonBlank(lines), ImportTags)
  {
    var d1 := Delete(lines, {NamespaceTag});
    var d2 := Delete(d1, {NamedTag});
    var d3 := Delete(d2, {DefaultTag});
    DeleteRemovesAll(lines, {NamespaceTag}, {});
    DeleteRemovesAll(d1, {NamedTag}, {NamespaceTag});
    DeleteRemovesAll(d2, {DefaultTag}, {NamespaceTag, NamedTag});
    DeleteRemovesAll(d3, {OtherImportTag}, {NamespaceTag, NamedTag, DefaultTag});
    assert {OtherImportTag} + {NamespaceTag, NamedTag, DefaultTag} == ImportTags;
    DeleteKeepsOthers(lines, {NamespaceTag});
    DeleteKeepsOthers(d1, {NamedTag});
    DeleteKeepsOthers(d2, {DefaultTag});
    DeleteKeepsOthers(d3, {OtherImportTag});
    WithoutTwice(NonBlank(lines), {NamespaceTag}, {NamedTag});
    WithoutTwice(NonBlank(lines), {NamespaceTag} + {NamedTag}, {DefaultTag});
    WithoutTwice(NonBlank(lines), {NamespaceTag} + {NamedTag} + {DefaultTag}, {OtherImportTag});
    assert {NamespaceTag} + {NamedTag} + {DefaultTag} + {OtherImportTag} == ImportTags;
  }

  /** A namespace import is recognised by its `* as`. */
  lemma NamespaceTyped()
    ensures TypeOf("import * as R from 'react'") == Namespace
  {
    assert OccursAt("import * as R from 'react'", "* as", 7);
    ContainsAt("import * as R from 'react'", "* as", 7);
  }

  /**
   * A single-identifier import whose module name holds a `{` is typed as
   * named, because the type test looks at the whole matched text.
   */
  lemma BraceInSourceTypedNamed()
    ensures TypeOf("import X from 'a{b'") == Named
  {
    var s := "import X from 'a{b'";
    assert OccursAt(s, "{", 16);
    ContainsAt(s, "{", 16);
    assert forall j :: 0 <= j < |s| ==> s[j] != '*';
    MissingFirstChar(s, "* as");
  }
}
