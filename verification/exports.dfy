/**
 * Export handling in `executeUserCode`
 * (src/components/build/preview/template.ts:252-296): the export statements
 * left after the imports are removed are turned into an `exportInfo` record
 * and the code is rewritten so that no `export` keyword is left.
 */
module Exports {
  import opened Wrappers
  import opened Text
  import opened Lines

  /** `exportInfo`: the default export, `null` until set, and the named exports in order. */
  datatype ExportInfo = ExportInfo(defaultExport: Option<string>, namedExports: seq<string>)

  /** The name of an `export { … }` item: the text after its last ` as `, trimmed. */
  function ItemName(e: string): string {
    var parts := Split(Trim(e), " as ");
    Trim(parts[|parts| - 1])
  }

  /** The names an `export { items }` statement contributes: `items.split(',').map(ItemName)`. */
  function ListItems(items: string): (r: seq<string>)
    ensures |r| == |Split(items, ",")| && |r| >= 1
  {
    ItemNames(Split(items, ","))
  }

  /** `pieces.map(ItemName)` */
  function ItemNames(pieces: seq<string>): (r: seq<string>)
    ensures |r| == |pieces|
  {
    if pieces == [] then [] else [ItemName(pieces[0])] + ItemNames(pieces[1..])
  }

  /** `defaultExport === null ? offer : defaultExport` */
  function Adopt(current: Option<string>, offer: Option<string>): Option<string> {
    if current.Some? then current else offer
  }

  /**
   * What the callback of a global export pass does for one statement tagged
   * `t`: an exported declaration appends its name, an `export { … }` its
   * items; either sets the default, to the name or to the last item, when
   * none is set yet. Statements of other kinds leave the record alone.
   */
  function Record(info: ExportInfo, l: Line, t: Tag): (r: ExportInfo)
    ensures TagOf(l.kind) != t ==> r == info
  {
    if TagOf(l.kind) != t then info
    else match l.kind
      case DeclExport(_, name, _) =>
        ExportInfo(Adopt(info.defaultExport, Some(name)), info.namedExports + [name])
      case ListExport(items, _) =>
        var names := ListItems(items);
        ExportInfo(Adopt(info.defaultExport, Some(names[|names| - 1])), info.namedExports + names)
      case _ => info
  }

  /** The record after a global pass over `lines` for the statements tagged `t`, in line order. */
  function RecordAll(info: ExportInfo, lines: seq<Line>, t: Tag): ExportInfo {
    if lines == [] then info
    else Record(RecordAll(info, lines[..|lines| - 1], t), lines[|lines| - 1], t)
  }

  /** The index of the first line tagged `t`. */
  function FirstIndex(lines: seq<Line>, t: Tag): (r: Option<nat>)
    ensures r.Some? ==> r.value < |lines| && TagOf(lines[r.value].kind) == t
    ensures forall j :: 0 <= j < |lines| && (r.None? || j < r.value) ==> TagOf(lines[j].kind) != t
  {
    if lines == [] then None
    else if TagOf(lines[0].kind) == t then Some(0)
    else match FirstIndex(lines[1..], t)
      case None => None
      case Some(j) => Some(j + 1)
  }

  /** `match(/^export\s+default\s+(\w+)\s*;?$/m)`: the name of the first `export default Name`. */
  function DefaultName(lines: seq<Line>): (r: Option<string>)
    ensures r.Some? <==> FirstIndex(lines, DefaultExportTag).Some?
  {
    match FirstIndex(lines, DefaultExportTag)
    case None => None
    case Some(i) => Some(lines[i].kind.name)
  }

  /**
   * The record the export passes build, stated on the original lines: the
   * name of the first `export default Name`, then the exported declarations
   * in order, then the `export { … }` statements in order.
   */
  function ExportInfoOf(lines: seq<Line>): ExportInfo {
    RecordAll(RecordAll(ExportInfo(DefaultName(lines), []), lines, DeclExportTag), lines, ListExportTag)
  }

  /** The statement on line `i` deleted by a `^…\s*$` pattern, with the blank lines it eats. */
  function DeleteAt(lines: seq<Line>, i: nat): seq<Line>
    requires i < |lines|
  {
    lines[..i] + ([Blank] + AfterDeleted(lines[i].kind, lines[i + 1..]))
  }

  /** The non-global `replace` of the same pattern: the first `export default Name` deleted. */
  function RemoveFirstDefault(lines: seq<Line>): seq<Line> {
    match FirstIndex(lines, DefaultExportTag)
    case None => lines
    case Some(i) => DeleteAt(lines, i)
  }

  /** `export const|function|class|let|var Name` becomes `keyword Name`, the rest of the line unchanged. */
  function Undeclared(l: Line): (r: Line)
    ensures TagOf(l.kind) != DeclExportTag ==> r == l
    ensures TagOf(l.kind) == DeclExportTag ==> r.kind == Plain
  {
    match l.kind
    case DeclExport(keyword, name, tail) => Line(keyword + " " + name + tail, Plain)
    case _ => l
  }

  function RewriteDecls(lines: seq<Line>): (r: seq<Line>)
    ensures |r| == |lines| && forall i :: 0 <= i < |lines| ==> r[i] == Undeclared(lines[i])
  {
    if lines == [] then [] else RewriteDecls(lines[..|lines| - 1]) + [Undeclared(lines[|lines| - 1])]
  }

  /** `replace(/^export\s+/gm, '')`: the keyword and its blanks dropped from the lines still starting with it. */
  function Unexported(l: Line): (r: Line)
    ensures TagOf(l.kind) !in {DefaultExportTag, OtherExportTag} ==> r == l
    ensures TagOf(l.kind) in {DefaultExportTag, OtherExportTag} ==> r.kind == Plain
  {
    match l.kind
    case DefaultExport(_, _, stripped) => Line(stripped, Plain)
    case OtherExport(stripped) => Line(stripped, Plain)
    case _ => l
  }

  function StripKeyword(lines: seq<Line>): (r: seq<Line>)
    ensures |r| == |lines| && forall i :: 0 <= i < |lines| ==> r[i] == Unexported(lines[i])
  {
    if lines == [] then [] else [Unexported(lines[0])] + StripKeyword(lines[1..])
  }

  /** The code after the four export passes. */
  function ExportedCode(lines: seq<Line>): seq<Line> {
    StripKeyword(Delete(RewriteDecls(RemoveFirstDefault(lines)), {ListExportTag}))
  }

  /** A pass over a concatenation is a pass over each part in turn. */
  lemma {:induction false} RecordAllAppend(info: ExportInfo, a: seq<Line>, b: seq<Line>, t: Tag)
    ensures RecordAll(info, a + b, t) == RecordAll(RecordAll(info, a, t), b, t)
    decreases |b|
  {
    if b == [] {
      assert a + b == a;
    } else {
      assert (a + b)[..|a + b| - 1] == a + b[..|b| - 1];
      RecordAllAppend(info, a, b[..|b| - 1], t);
    }
  }

  lemma RecordAllSnoc(info: ExportInfo, code: seq<Line>, i: nat, t: Tag)
    requires i < |code|
    ensures RecordAll(info, code[..i + 1], t) == Record(RecordAll(info, code[..i], t), code[i], t)
  {
    assert code[..i + 1][..i] == code[..i];
  }

  lemma {:induction false} RecordAllUntagged(info: ExportInfo, lines: seq<Line>, t: Tag)
    requires forall j :: 0 <= j < |lines| ==> TagOf(lines[j].kind) != t
    ensures RecordAll(info, lines, t) == info
    decreases |lines|
  {
    if lines != [] {
      RecordAllUntagged(info, lines[..|lines| - 1], t);
    }
  }

  lemma RecordAllDropBlanks(info: ExportInfo, lines: seq<Line>, t: Tag)
    requires t != PlainTag
    ensures RecordAll(info, DropBlanks(lines), t) == RecordAll(info, lines, t)
  {
    var d := DropBlanks(lines);
    var blanks := lines[..|lines| - |d|];
    assert lines == blanks + d;
    RecordAllUntagged(info, blanks, t);
    RecordAllAppend(info, blanks, d, t);
  }

  lemma RecordAllReplaceOne(info: ExportInfo, front: seq<Line>, l: Line, rest: seq<Line>, t: Tag)
    requires t != PlainTag && t != TagOf(l.kind)
    ensures RecordAll(info, front + ([Blank] + AfterDeleted(l.kind, rest)), t) == RecordAll(info, front + ([l] + rest), t)
  {
    var after := AfterDeleted(l.kind, rest);
    var mid := RecordAll(info, front, t);
    if EatsBlanks(l.kind) {
      RecordAllDropBlanks(mid, rest, t);
    }
    assert [Blank][..0] == [] && [l][..0] == [];
    RecordAllAppend(mid, [Blank], after, t);
    RecordAllAppend(mid, [l], rest, t);
    RecordAllAppend(info, front, [Blank] + after, t);
    RecordAllAppend(info, front, [l] + rest, t);
  }

  /** Blanking line `i` of `lines`, and the blank lines after it when the pattern eats them, records the same. */
  lemma SplitAt(lines: seq<Line>, i: nat)
    requires i < |lines|
    ensures lines == lines[..i] + ([lines[i]] + lines[i + 1..])
  {
  }

  lemma RecordAllSplice(info: ExportInfo, lines: seq<Line>, i: nat, t: Tag)
    requires i < |lines| && t != PlainTag && t != TagOf(lines[i].kind)
    ensures RecordAll(info, DeleteAt(lines, i), t) == RecordAll(info, lines, t)
  {
    SplitAt(lines, i);
    RecordAllReplaceOne(info, lines[..i], lines[i], lines[i + 1..], t);
  }

  /** Deleting the first `export default` leaves the other export statements alone. */
  lemma RemoveFirstDefaultRecords(info: ExportInfo, lines: seq<Line>, t: Tag)
    requires t != PlainTag && t != DefaultExportTag
    ensures RecordAll(info, RemoveFirstDefault(lines), t) == RecordAll(info, lines, t)
  {
    var first := FirstIndex(lines, DefaultExportTag);
    if first.Some? {
      RecordAllSplice(info, lines, first.value, t);
    }
  }

  /** Rewriting the declarations leaves the `export { … }` statements alone. */
  lemma {:induction false} RewriteDeclsRecords(info: ExportInfo, lines: seq<Line>)
    ensures RecordAll(info, RewriteDecls(lines), ListExportTag) == RecordAll(info, lines, ListExportTag)
    decreases |lines|
  {
    if lines != [] {
      var n := |lines|;
      assert RewriteDecls(lines)[..n - 1] == RewriteDecls(lines[..n - 1]);
      RewriteDeclsRecords(info, lines[..n - 1]);
    }
  }

  /**
   * The callback of `replace(/^export\s+(const|function|class|let|var)\s+([A-Z]\w+)/gm, …)`
   * for one line: an exported declaration loses its `export`, its name is
   * appended to `namedExports` and becomes the default when none is set yet.
   */
  method RewriteDeclaration(info0: ExportInfo, l: Line) returns (rewritten: Line, info: ExportInfo)
    ensures rewritten == Undeclared(l)
    ensures info == Record(info0, l, DeclExportTag)
  {
    rewritten, info := l, info0;
    if l.kind.DeclExport? {
      var name := l.kind.name;
      info := info.(namedExports := info.namedExports + [name]);
      if info.defaultExport.None? {
        info := info.(defaultExport := Some(name));
      }
      rewritten := Line(l.kind.keyword + " " + name + l.kind.tail, Plain);
    }
  }

  /** The global pass of the declaration pattern: each line in order goes through `RewriteDeclaration`. */
  method RewriteDeclarations(code: seq<Line>, info0: ExportInfo) returns (rewritten: seq<Line>, info: ExportInfo)
    ensures rewritten == RewriteDecls(code)
    ensures info == RecordAll(info0, code, DeclExportTag)
  {
    rewritten := [];
    info := info0;
    var i := 0;
    while i < |code|
      invariant 0 <= i <= |code|
      invariant rewritten == RewriteDecls(code[..i])
      invariant info == RecordAll(info0, code[..i], DeclExportTag)
    {
      RecordAllSnoc(info0, code, i, DeclExportTag);
      RewriteDeclsSnoc(code, i);
      var line;
      line, info := RewriteDeclaration(info, code[i]);
      rewritten := rewritten + [line];
      i := i + 1;
    }
    assert code[..i] == code;
  }

  lemma RewriteDeclsSnoc(code: seq<Line>, i: nat)
    requires i < |code|
    ensures RewriteDecls(code[..i + 1]) == RewriteDecls(code[..i]) + [Undeclared(code[i])]
  {
    assert code[..i + 1][..i] == code[..i];
  }

  /**
   * The callback of `replace(/^export\s*{\s*([^}]+)\s*}\s*;?$/gm, …)` for
   * one statement: its items are appended to `namedExports`, and the last
   * one becomes the default when none is set yet.
   */
  method RecordList(info0: ExportInfo, l: Line) returns (info: ExportInfo)
    ensures info == Record(info0, l, ListExportTag)
  {
    info := info0;
    if l.kind.ListExport? {
      var items := ListItems(l.kind.items);
      info := info.(namedExports := info.namedExports + items);
      if info.defaultExport.None? && |items| > 0 {
        info := info.(defaultExport := Some(items[|items| - 1]));
      }
    }
  }

  /** The global pass of the `export { … }` pattern: each statement in line order goes through `RecordList`. */
  method RecordLists(code: seq<Line>, info0: ExportInfo) returns (info: ExportInfo)
    ensures info == RecordAll(info0, code, ListExportTag)
  {
    info := info0;
    var j := 0;
    while j < |code|
      invariant 0 <= j <= |code|
      invariant info == RecordAll(info0, code[..j], ListExportTag)
    {
      RecordAllSnoc(info0, code, j, ListExportTag);
      info := RecordList(info, code[j]);
      j := j + 1;
    }
    assert code[..j] == code;
  }

  /**
   * The export passes in order: the first `export default Name` is recorded
   * and deleted; the exported declarations are rewritten and recorded; the
   * `export { … }` statements are recorded and deleted; every other
   * `export` keyword is dropped.
   */
  method RewriteExports(lines: seq<Line>) returns (code: seq<Line>, info: ExportInfo)
    ensures info == ExportInfoOf(lines)
    ensures code == ExportedCode(lines)
  {
    code := lines;
    info := ExportInfo(None, []);
    var first := FirstIndex(code, DefaultExportTag);
    if first.Some? {
      var i := first.value;
      info := info.(defaultExport := Some(code[i].kind.name));
      code := DeleteAt(code, i);
    }
    assert code == RemoveFirstDefault(lines);
    var start := ExportInfo(DefaultName(lines), []);
    assert info == start;
    RemoveFirstDefaultRecords(start, lines, DeclExportTag);
    var afterDecls := RecordAll(start, lines, DeclExportTag);
    RemoveFirstDefaultRecords(afterDecls, lines, ListExportTag);
    RewriteDeclsRecords(afterDecls, code);
    code, info := RewriteDeclarations(code, info);
    info := RecordLists(code, info);
    code := Delete(code, {ListExportTag});
    code := StripKeyword(code);
  }

  /** No export statement of any kind is left in the code handed to the transformer. */
  lemma ExportsStripped(lines: seq<Line>)
    ensures NoneTagged(ExportedCode(lines), ExportTags)
  {
    var l2 := RewriteDecls(RemoveFirstDefault(lines));
    assert NoneTagged(l2, {DeclExportTag});
    DeleteRemovesAll(l2, {ListExportTag}, {DeclExportTag});
  }

  /** A code line survives the blanking of another statement. */
  lemma KeptBySplice(lines: seq<Line>, i: nat, j: nat)
    requires i < |lines| && j < |lines| && j != i && !IsBlank(lines[j])
    ensures lines[j] in DeleteAt(lines, i)
  {
    var front, rest := lines[..i], lines[i + 1..];
    var after := AfterDeleted(lines[i].kind, rest);
    if j < i {
      assert lines[j] == front[j];
      assert lines[j] in front;
    } else {
      assert lines[j] == rest[j - i - 1];
      if EatsBlanks(lines[i].kind) {
        assert after == rest[|rest| - |after|..];
        assert j - i - 1 >= |rest| - |after|;
        assert lines[j] == after[j - i - 1 - (|rest| - |after|)];
      }
      assert lines[j] in after;
    }
  }

  /** A code line survives the deletion of the first `export default Name` unless it is that line. */
  lemma KeptByRemoveFirstDefault(lines: seq<Line>, j: nat)
    requires j < |lines| && !IsBlank(lines[j])
    requires FirstIndex(lines, DefaultExportTag) != Some(j)
    ensures lines[j] in RemoveFirstDefault(lines)
  {
    var first := FirstIndex(lines, DefaultExportTag);
    if first.Some? {
      KeptBySplice(lines, first.value, j);
    }
  }

  /**
   * Every other code line is kept: an exported declaration as `keyword Name…`,
   * a later `export default Name` or any other `export …` line without its
   * keyword, the rest unchanged. Only the first `export default Name` and
   * the `export { … }` lines go.
   */
  lemma KeptLine(lines: seq<Line>, j: nat)
    requires j < |lines| && !IsBlank(Undeclared(lines[j]))
    requires TagOf(lines[j].kind) != ListExportTag
    requires FirstIndex(lines, DefaultExportTag) != Some(j)
    ensures Unexported(Undeclared(lines[j])) in ExportedCode(lines)
  {
    var l := lines[j];
    var l1 := RemoveFirstDefault(lines);
    KeptByRemoveFirstDefault(lines, j);
    UndeclaredIn(l, l1);
    var l2 := RewriteDecls(l1);
    var u := Undeclared(l);
    UndeclaredTag(l);
    DeleteKeeps(u, l2, {ListExportTag});
    var l3 := Delete(l2, {ListExportTag});
    UnexportedIn(Undeclared(l), l3);
    assert ExportedCode(lines) == StripKeyword(l3);
  }

  lemma UndeclaredTag(l: Line)
    ensures TagOf(Undeclared(l).kind) == if TagOf(l.kind) == DeclExportTag then PlainTag else TagOf(l.kind)
  {
  }

  lemma UndeclaredIn(l: Line, lines: seq<Line>)
    requires l in lines
    ensures Undeclared(l) in RewriteDecls(lines)
  {
    var k :| 0 <= k < |lines| && lines[k] == l;
    assert RewriteDecls(lines)[k] == Undeclared(l);
  }

  lemma UnexportedIn(l: Line, lines: seq<Line>)
    requires l in lines
    ensures Unexported(l) in StripKeyword(lines)
  {
    var k :| 0 <= k < |lines| && lines[k] == l;
    assert StripKeyword(lines)[k] == Unexported(l);
  }

  /**
   * An inline `export default function Foo(){…}` matches neither the
   * `export default Name` pattern nor the declaration pattern: it records
   * nothing, and the transformer receives `default function Foo(){…}`.
   */
  lemma InlineDefaultFunction(stripped: string)
    ensures var l := Line("export " + stripped, OtherExport(stripped));
      && ExportedCode([l]) == [Line(stripped, Plain)]
      && ExportInfoOf([l]) == ExportInfo(None, [])
  {
    var l := Line("export " + stripped, OtherExport(stripped));
    assert FirstIndex([l][1..], DefaultExportTag) == None;
    assert DefaultName([l]) == None;
    RecordAllUntagged(ExportInfo(None, []), [l], DeclExportTag);
    RecordAllUntagged(ExportInfo(None, []), [l], ListExportTag);
    assert [l][1..] == [];
  }
}
