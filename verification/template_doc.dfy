/**
 * `generateHtmlContent` (src/components/build/preview/template.ts:1-567):
 * the preview document is a fixed shell with the escaped component source
 * spliced between the backticks of the `userCode` declaration.
 */
module Template {
  import opened Wrappers
  import opened Text
  import opened Escape

  /** The `<head>` contents: stylesheet links, CDN scripts and styles (template.ts:5-62); not modelled. */
  const HeadContent: string

  /** The bootstrap script before the `userCode` declaration (template.ts:69-204); not modelled. */
  const ScriptBeforeCode: string

  /** The rest of the bootstrap script after the declaration (template.ts:206-562); not modelled. */
  const ScriptAfterCode: string

  /** From the doctype up to the root element (template.ts:2-64). */
  const Prologue := "<!DOCTYPE html>\n<html lang=\"zh-CN\">\n<head>\n" + HeadContent + "</head>\n<body>\n  "
  const RootMarkup := "<div id=\"root\"></div>"
  const ErrorContainerOpening := "\n  <div id=\"error-container\" "
  const ErrorContainerClass := "class=\"error-container\""
  const CodeOpening := "const userCode = `"
  /** The rest of the error container element and the script up to the opening backtick (template.ts:66-205). */
  const ScriptOpening := " style=\"display: none;\"></div>\n\n  <script>\n" + ScriptBeforeCode + CodeOpening

  /** Everything up to and including the opening backtick of `userCode`. */
  const DocumentHead := Prologue + (RootMarkup + (ErrorContainerOpening + (ErrorContainerClass + ScriptOpening)))

  /** The rest of the `userCode` declaration and the document after it (template.ts:205-565). */
  const Epilogue := ";" + ScriptAfterCode + "  </script>\n</body>\n</html>"

  /** Everything from the closing backtick of `userCode` on. */
  const DocumentTail := "`" + Epilogue

  /**
   * The document for `escapedCode`; `apiOrigin` is accepted and never read.
   * The code sits verbatim right after the opening backtick.
   */
  function GenerateHtmlContent(apiOrigin: string, escapedCode: string): (doc: string)
    ensures |doc| == |DocumentHead| + |escapedCode| + |DocumentTail|
    ensures doc[..|DocumentHead|] == DocumentHead
    ensures doc[|DocumentHead|..|DocumentHead| + |escapedCode|] == escapedCode
    ensures doc[|DocumentHead| + |escapedCode|..] == DocumentTail
  {
    DocumentHead + escapedCode + DocumentTail
  }

  /** The output depends on `escapedCode` only. */
  lemma OriginIrrelevant(a: string, b: string, escapedCode: string)
    ensures GenerateHtmlContent(a, escapedCode) == GenerateHtmlContent(b, escapedCode)
  {
  }

  /**
   * With the host's escaping, the `userCode` literal in the document
   * evaluates to the component source with CRLF and CR turned into LF, and
   * it closes exactly where the escaped text ends.
   */
  lemma UserCodeReadsBack(apiOrigin: string, code: string)
    ensures ReadTemplateBody(GenerateHtmlContent(apiOrigin, EscapeCode(code))[|DocumentHead|..])
            == Some((NormalizeNewlines(code), |EscapeCode(code)|))
  {
    var e := EscapeCode(code);
    var doc := GenerateHtmlContent(apiOrigin, e);
    assert doc[|DocumentHead|..] == e + "`" + Epilogue;
    EscapeRoundTrip(code, Epilogue);
  }

  lemma OccursAfter(a: string, p: string, q: string, e: string, t: string)
    ensures OccursAt(((a + (p + q)) + e) + t, p, |a|)
  {
    assert (((a + (p + q)) + e) + t)[|a|..|a| + |p|] == p;
  }

  lemma OccursAfter3(a: string, b: string, c: string, p: string, q: string, e: string, t: string)
    ensures OccursAt(((a + (b + (c + (p + q)))) + e) + t, p, |a| + |b| + |c|)
  {
    OccursAfter(a + b + c, p, q, e, t);
    assert a + (b + (c + (p + q))) == (a + b + c) + (p + q);
  }

  /** Every generated document carries the root element and the `.error-container` element. */
  lemma HasErrorContainer(apiOrigin: string, escapedCode: string)
    ensures Contains(GenerateHtmlContent(apiOrigin, escapedCode), ErrorContainerClass)
    ensures Contains(GenerateHtmlContent(apiOrigin, escapedCode), RootMarkup)
  {
    var doc := GenerateHtmlContent(apiOrigin, escapedCode);
    OccursAfter3(Prologue, RootMarkup, ErrorContainerOpening, ErrorContainerClass, ScriptOpening, escapedCode, DocumentTail);
    ContainsAt(doc, ErrorContainerClass, |Prologue| + |RootMarkup| + |ErrorContainerOpening|);
    OccursAfter(Prologue, RootMarkup, ErrorContainerOpening + (ErrorContainerClass + ScriptOpening), escapedCode, DocumentTail);
    ContainsAt(doc, RootMarkup, |Prologue|);
  }
}
