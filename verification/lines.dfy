/**
 * The component source as the preview's rewriting pipeline sees it
 * (src/components/build/preview/template.ts:205-296): a sequence of lines,
 * each already classified by the statement shape the line-anchored regular
 * expressions of the pipeline recognise. The text of the code is the lines'
 * texts joined by LF.
 */
module Lines {
  import opened Text

  /**
   * The statement shape of a line. An import shape stands for a statement
   * that starts a line and is followed by an optional `;` and then nothing
   * but blanks up to the end of its line; the blank runs inside it, and the
   * braces of a named import, may hold line breaks. It is `exact` when
   * nothing follows the `;`: only then do the extraction patterns, which end
   * in `;?$`, see it, while the deleting patterns, which end in `;?\s*$`,
   * remove it either way. An import followed by anything else, such as a
   * `// comment`, an import without `from`, such as `import './x.css'`, and
   * an import of another shape that spans several lines, such as
   * `import React, {` with its specifiers on the following lines, match no
   * pattern: they are `Plain`, and reach the transformer unchanged.
   */
  datatype LineKind =
      /** `import * as name from 'source'`. */
    | NamespaceImport(name: string, source: string, exact: bool)
      /** `import {specifiers} from 'source'`; the braces may enclose line breaks. */
    | NamedImport(specifiers: string, source: string, exact: bool)
      /** `import name from 'source'` with a single identifier. */
    | DefaultImport(name: string, source: string, exact: bool)
      /**
       * A one-line `import … from 'source'` of none of the three shapes above,
       * such as `import React, { useState } from 'react'`: only the last
       * deleting pattern removes it, and nothing records it.
       */
    | OtherImport
      /**
       * `export default name` at the start of a line, then optional blanks and
       * an optional `;`, then the end of the line: nothing, not even a blank,
       * may follow a `;`, so `export default App; ` is an `OtherExport`.
       * `stripped` is the text after `export` and its blanks.
       */
    | DefaultExport(name: string, semicolon: bool, stripped: string)
      /** `export const|function|class|let|var Name…` with a capitalised `Name` of two or more characters. */
    | DeclExport(keyword: string, name: string, tail: string)
      /** `export { items }`, then optional blanks and an optional `;`, then the end of the line, as for `DefaultExport`. */
    | ListExport(items: string, semicolon: bool)
      /** Any other line starting with `export` and a blank; `stripped` is what follows them. */
    | OtherExport(stripped: string)
      /** Everything else, including the import statements no pattern matches. */
    | Plain

  datatype Line = Line(text: string, kind: LineKind)

  /** The statement shape of a line, without its captures. */
  datatype Tag = NamespaceTag | NamedTag | DefaultTag | OtherImportTag
               | DefaultExportTag | DeclExportTag | ListExportTag | OtherExportTag | PlainTag

  function TagOf(k: LineKind): Tag {
    match k
    case NamespaceImport(_, _, _) => NamespaceTag
    case NamedImport(_, _, _) => NamedTag
    case DefaultImport(_, _, _) => DefaultTag
    case OtherImport => OtherImportTag
    case DefaultExport(_, _, _) => DefaultExportTag
    case DeclExport(_, _, _) => DeclExportTag
    case ListExport(_, _) => ListExportTag
    case OtherExport(_) => OtherExportTag
    case Plain => PlainTag
  }

  const ImportTags := {NamespaceTag, NamedTag, DefaultTag, OtherImportTag}
  const ExportTags := {DefaultExportTag, DeclExportTag, ListExportTag, OtherExportTag}

  /** What a deleted statement leaves behind. */
  const Blank := Line("", Plain)

  predicate IsBlank(l: Line) {
    l.kind.Plain? && AllSpace(l.text)
  }

  /**
   * Whether the trailing `\s*` of the deleting pattern may run past the end
   * of the statement: always, except after an `export default name;` or an
   * `export {…};` whose `;` ends the match.
   */
  predicate EatsBlanks(k: LineKind) {
    match k
    case DefaultExport(_, semicolon, _) => !semicolon
    case ListExport(_, semicolon) => !semicolon
    case _ => true
  }

  /** The code text of a line sequence. */
  function Texts(lines: seq<Line>): (r: seq<string>)
    ensures |r| == |lines| && forall i :: 0 <= i < |lines| ==> r[i] == lines[i].text
  {
    seq(|lines|, i requires 0 <= i < |lines| => lines[i].text)
  }

  function Code(lines: seq<Line>): string {
    Join(Texts(lines), "\n")
  }

  /** The whitespace-only lines at the front of `lines` removed. */
  function DropBlanks(lines: seq<Line>): (r: seq<Line>)
    ensures |r| <= |lines| && r == lines[|lines| - |r|..]
    ensures forall i :: 0 <= i < |lines| - |r| ==> IsBlank(lines[i])
    ensures r != [] ==> !IsBlank(r[0])
  {
    if lines != [] && IsBlank(lines[0]) then DropBlanks(lines[1..]) else lines
  }

  /** The lines left once a statement is deleted: with or without the whitespace-only lines after it. */
  function AfterDeleted(k: LineKind, rest: seq<Line>): (r: seq<Line>)
    ensures |r| <= |rest|
  {
    if EatsBlanks(k) then DropBlanks(rest) else rest
  }

  /**
   * One global, multi-line `replace(/^…;?\s*$/gm, '')` pass over the
   * statements tagged in `hit`. Each is emptied; when the greedy `\s*` may
   * run on, it also swallows the whitespace-only lines after it, so the
   * statement and those lines leave a single empty line.
   */
  function Delete(lines: seq<Line>, hit: set<Tag>): (r: seq<Line>)
    ensures |r| <= |lines|
    decreases |lines|
  {
    if lines == [] then []
    else if TagOf(lines[0].kind) in hit then [Blank] + Delete(AfterDeleted(lines[0].kind, lines[1..]), hit)
    else [lines[0]] + Delete(lines[1..], hit)
  }

  /** The lines that carry code, in order. */
  function NonBlank(lines: seq<Line>): seq<Line> {
    if lines == [] then []
    else (if IsBlank(lines[0]) then [] else [lines[0]]) + NonBlank(lines[1..])
  }

  /** The lines whose tag is not in `drop`, in order. */
  function Without(lines: seq<Line>, drop: set<Tag>): seq<Line> {
    if lines == [] then []
    else (if TagOf(lines[0].kind) in drop then [] else [lines[0]]) + Without(lines[1..], drop)
  }

  lemma {:induction false} NonBlankDropBlanks(lines: seq<Line>)
    ensures NonBlank(DropBlanks(lines)) == NonBlank(lines)
    decreases |lines|
  {
    if lines != [] && IsBlank(lines[0]) {
      NonBlankDropBlanks(lines[1..]);
      assert NonBlank(lines) == [] + NonBlank(lines[1..]);
      assert [] + NonBlank(lines[1..]) == NonBlank(lines[1..]);
    }
  }

  lemma WithoutCons(l: Line, t: seq<Line>, drop: set<Tag>)
    ensures Without([l] + t, drop) == (if TagOf(l.kind) in drop then Without(t, drop) else [l] + Without(t, drop))
  {
    assert ([l] + t)[1..] == t;
  }

  /**
   * A deletion pass removes exactly the selected statements: the lines that
   * still carry code are the other code lines, in their original order.
   */
  lemma {:induction false} DeleteKeepsOthers(lines: seq<Line>, hit: set<Tag>)
    requires PlainTag !in hit
    ensures NonBlank(Delete(lines, hit)) == Without(NonBlank(lines), hit)
    decreases |lines|
  {
    if lines == [] {
      return;
    }
    var l, t := lines[0], lines[1..];
    if TagOf(l.kind) in hit {
      var next := AfterDeleted(l.kind, t);
      DeleteKeepsOthers(next, hit);
      if EatsBlanks(l.kind) {
        NonBlankDropBlanks(t);
      }
      assert Delete(lines, hit) == [Blank] + Delete(next, hit);
      assert ([Blank] + Delete(next, hit))[1..] == Delete(next, hit);
      assert NonBlank(lines) == [l] + NonBlank(t);
      WithoutCons(l, NonBlank(t), hit);
    } else {
      DeleteKeepsOthers(t, hit);
      assert Delete(lines, hit) == [l] + Delete(t, hit);
      assert ([l] + Delete(t, hit))[1..] == Delete(t, hit);
      if IsBlank(l) {
        assert NonBlank(lines) == [] + NonBlank(t);
        assert [] + NonBlank(t) == NonBlank(t);
        assert NonBlank([l] + Delete(t, hit)) == [] + NonBlank(Delete(t, hit));
        assert [] + NonBlank(Delete(t, hit)) == NonBlank(Delete(t, hit));
      } else {
        assert NonBlank(lines) == [l] + NonBlank(t);
        WithoutCons(l, NonBlank(t), hit);
      }
    }
  }

  /** Filtering twice is filtering once by both tag sets. */
  lemma {:induction false} WithoutTwice(lines: seq<Line>, a: set<Tag>, b: set<Tag>)
    ensures Without(Without(lines, a), b) == Without(lines, a + b)
    decreases |lines|
  {
    if lines != [] {
      WithoutTwice(lines[1..], a, b);
      WithoutCons(lines[0], lines[1..], a);
      WithoutCons(lines[0], lines[1..], a + b);
      assert lines == [lines[0]] + lines[1..];
      if TagOf(lines[0].kind) !in a {
        WithoutCons(lines[0], Without(lines[1..], a), b);
      }
    }
  }

  /** Every line of `lines` has a tag outside `tags`. */
  predicate NoneTagged(lines: seq<Line>, tags: set<Tag>) {
    forall i :: 0 <= i < |lines| ==> TagOf(lines[i].kind) !in tags
  }

  /** After a deletion pass no selected statement is left, and no new kind of line appears. */
  lemma {:induction false} DeleteRemovesAll(lines: seq<Line>, hit: set<Tag>, absent: set<Tag>)
    requires PlainTag !in hit && PlainTag !in absent
    requires NoneTagged(lines, absent)
    ensures NoneTagged(Delete(lines, hit), hit + absent)
    decreases |lines|
  {
    if lines != [] {
      var next := if TagOf(lines[0].kind) in hit then AfterDeleted(lines[0].kind, lines[1..]) else lines[1..];
      assert NoneTagged(next, absent) by {
        forall i | 0 <= i < |next| ensures TagOf(next[i].kind) !in absent {
          assert next[i] == lines[|lines| - |next| + i];
        }
      }
      DeleteRemovesAll(next, hit, absent);
    }
  }

  /** A code line that is not blank survives `NonBlank`. */
  lemma {:induction false} InNonBlank(l: Line, lines: seq<Line>)
    requires l in lines && !IsBlank(l)
    ensures l in NonBlank(lines)
    decreases |lines|
  {
    if lines[0] != l {
      InNonBlank(l, lines[1..]);
    }
  }

  /** `NonBlank` only keeps lines of its input. */
  lemma {:induction false} FromNonBlank(l: Line, lines: seq<Line>)
    requires l in NonBlank(lines)
    ensures l in lines
    decreases |lines|
  {
    if l !in (if IsBlank(lines[0]) then [] else [lines[0]]) {
      FromNonBlank(l, lines[1..]);
    }
  }

  /** A line whose tag is not dropped survives `Without`. */
  lemma {:induction false} InWithout(l: Line, lines: seq<Line>, drop: set<Tag>)
    requires l in lines && TagOf(l.kind) !in drop
    ensures l in Without(lines, drop)
    decreases |lines|
  {
    if lines[0] != l {
      InWithout(l, lines[1..], drop);
    }
  }

  /** A deletion pass keeps every code line it does not select. */
  lemma DeleteKeeps(l: Line, lines: seq<Line>, hit: set<Tag>)
    requires PlainTag !in hit
    requires l in lines && !IsBlank(l) && TagOf(l.kind) !in hit
    ensures l in Delete(lines, hit)
  {
    InNonBlank(l, lines);
    InWithout(l, NonBlank(lines), hit);
    DeleteKeepsOthers(lines, hit);
    FromNonBlank(l, Delete(lines, hit));
  }
}
