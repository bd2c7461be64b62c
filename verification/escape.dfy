/**
 * The host page's escaping of component source before it is spliced between
 * the backticks of a template literal in the preview document
 * (src/components/build/preview/index.tsx:69-74), and the way that literal is
 * read back by the JavaScript engine inside the preview.
 */
module Escape {
  import opened Wrappers
  import opened Text

  // The five `.replace` steps, in the order the host applies them.

  function DoubleBackslashes(s: string): string { ReplaceAll(s, "\\", "\\\\") }
  function EscapeBackticks(s: string): string { ReplaceAll(s, "`", "\\`") }
  function EscapeInterpolations(s: string): string { ReplaceAll(s, "${", "\\${") }
  function JoinCrLf(s: string): string { ReplaceAll(s, "\r\n", "\n") }
  function LoneCrToLf(s: string): string { ReplaceAll(s, "\r", "\n") }

  /** The escape chain exactly as the host writes it. */
  function EscapeCode(code: string): string {
    LoneCrToLf(JoinCrLf(EscapeInterpolations(EscapeBackticks(DoubleBackslashes(code)))))
  }

  /** Line-ending normalisation: CRLF and a lone CR both become LF. */
  function NormalizeNewlines(s: string): (r: string)
    ensures forall i :: 0 <= i < |r| ==> r[i] != '\r'
    decreases |s|
  {
    if s == [] then []
    else if s[0] == '\r' && |s| > 1 && s[1] == '\n' then "\n" + NormalizeNewlines(s[2..])
    else if s[0] == '\r' then "\n" + NormalizeNewlines(s[1..])
    else [s[0]] + NormalizeNewlines(s[1..])
  }

  /** The first three steps, as one left-to-right pass. */
  function EscapeSpecials(s: string): string
    decreases |s|
  {
    if s == [] then []
    else if s[0] == '\\' then "\\\\" + EscapeSpecials(s[1..])
    else if s[0] == '`' then "\\`" + EscapeSpecials(s[1..])
    else if s[0] == '$' && |s| > 1 && s[1] == '{' then "\\${" + EscapeSpecials(s[2..])
    else [s[0]] + EscapeSpecials(s[1..])
  }

  /** The whole chain as one left-to-right pass: the reference the chain is proved against. */
  function EscapeOnePass(s: string): string
    decreases |s|
  {
    if s == [] then []
    else if s[0] == '\\' then "\\\\" + EscapeOnePass(s[1..])
    else if s[0] == '`' then "\\`" + EscapeOnePass(s[1..])
    else if s[0] == '$' && |s| > 1 && s[1] == '{' then "\\${" + EscapeOnePass(s[2..])
    else if s[0] == '\r' && |s| > 1 && s[1] == '\n' then "\n" + EscapeOnePass(s[2..])
    else if s[0] == '\r' then "\n" + EscapeOnePass(s[1..])
    else [s[0]] + EscapeOnePass(s[1..])
  }

  // ---------------------------------------------------------------------------
  // The chain equals the one-pass escape.

  lemma BackticksHead(c: char, t: string)
    ensures EscapeBackticks(DoubleBackslashes([c] + t))
         == (if c == '\\' then "\\\\" else if c == '`' then "\\`" else [c])
            + EscapeBackticks(DoubleBackslashes(t))
  {
    ReplaceHead1(c, t, "\\", "\\\\");
    var d := DoubleBackslashes(t);
    if c == '\\' {
      assert DoubleBackslashes([c] + t) == ['\\'] + (['\\'] + d);
      ReplaceHead1('\\', ['\\'] + d, "`", "\\`");
      ReplaceHead1('\\', d, "`", "\\`");
    } else {
      assert DoubleBackslashes([c] + t) == [c] + d;
      ReplaceHead1(c, d, "`", "\\`");
    }
  }

  /** The first three stages, applied to `s`. */
  function Staged(s: string): string {
    EscapeInterpolations(EscapeBackticks(DoubleBackslashes(s)))
  }

  lemma StagedEscapedHead(c: char, t: string)
    requires c == '\\' || c == '`'
    ensures Staged([c] + t) == ['\\', c] + Staged(t)
  {
    BackticksHead(c, t);
    var b := EscapeBackticks(DoubleBackslashes(t));
    assert EscapeBackticks(DoubleBackslashes([c] + t)) == ['\\'] + ([c] + b);
    ReplaceHead2('\\', [c] + b, "${", "\\${");
    ReplaceHead2(c, b, "${", "\\${");
  }

  lemma SpecialsEscapedHead(c: char, t: string)
    requires c == '\\' || c == '`'
    ensures EscapeSpecials([c] + t) == ['\\', c] + EscapeSpecials(t)
  {
    assert ([c] + t)[1..] == t;
  }

  lemma StagedEscapedChar(c: char, t: string)
    requires c == '\\' || c == '`'
    requires Staged(t) == EscapeSpecials(t)
    ensures Staged([c] + t) == EscapeSpecials([c] + t)
  {
    StagedEscapedHead(c, t);
    SpecialsEscapedHead(c, t);
  }

  lemma StagedInterpolationHead(u: string)
    ensures Staged(['$', '{'] + u) == ['\\', '$', '{'] + Staged(u)
  {
    var t := ['{'] + u;
    assert ['$', '{'] + u == ['$'] + t;
    BackticksHead('$', t);
    BackticksHead('{', u);
    var b := EscapeBackticks(DoubleBackslashes(t));
    ReplaceHead2('$', b, "${", "\\${");
    assert b[1..] == EscapeBackticks(DoubleBackslashes(u));
  }

  lemma SpecialsInterpolationHead(u: string)
    ensures EscapeSpecials(['$', '{'] + u) == ['\\', '$', '{'] + EscapeSpecials(u)
  {
    assert (['$', '{'] + u)[2..] == u;
  }

  lemma StagedInterpolation(u: string)
    requires Staged(u) == EscapeSpecials(u)
    ensures Staged(['$', '{'] + u) == EscapeSpecials(['$', '{'] + u)
  {
    StagedInterpolationHead(u);
    SpecialsInterpolationHead(u);
  }

  lemma StagedPlainHead(c: char, t: string)
    requires c != '\\' && c != '`' && !(c == '$' && t != [] && t[0] == '{')
    ensures Staged([c] + t) == [c] + Staged(t)
  {
    BackticksHead(c, t);
    var b := EscapeBackticks(DoubleBackslashes(t));
    if c == '$' && t != [] {
      assert t == [t[0]] + t[1..];
      BackticksHead(t[0], t[1..]);
    }
    ReplaceHead2(c, b, "${", "\\${");
  }

  lemma SpecialsPlainHead(c: char, t: string)
    requires c != '\\' && c != '`' && !(c == '$' && t != [] && t[0] == '{')
    ensures EscapeSpecials([c] + t) == [c] + EscapeSpecials(t)
  {
    assert ([c] + t)[1..] == t;
  }

  lemma StagedPlain(c: char, t: string)
    requires c != '\\' && c != '`' && !(c == '$' && t != [] && t[0] == '{')
    requires Staged(t) == EscapeSpecials(t)
    ensures Staged([c] + t) == EscapeSpecials([c] + t)
  {
    StagedPlainHead(c, t);
    SpecialsPlainHead(c, t);
  }

  lemma {:induction false} SpecialsStages(s: string)
    ensures Staged(s) == EscapeSpecials(s)
    decreases |s|
  {
    if s == [] {
      return;
    }
    var c, t := s[0], s[1..];
    assert s == [c] + t;
    if c == '\\' || c == '`' {
      SpecialsStages(t);
      StagedEscapedChar(c, t);
    } else if c == '$' && t != [] && t[0] == '{' {
      assert s == ['$', '{'] + t[1..];
      SpecialsStages(t[1..]);
      StagedInterpolation(t[1..]);
    } else {
      SpecialsStages(t);
      StagedPlain(c, t);
    }
  }

  lemma {:induction false} NewlineStages(s: string)
    ensures LoneCrToLf(JoinCrLf(s)) == NormalizeNewlines(s)
    decreases |s|
  {
    if s == [] {
      return;
    }
    var c, t := s[0], s[1..];
    assert s == [c] + t;
    ReplaceHead2(c, t, "\r\n", "\n");
    if c == '\r' && t != [] && t[0] == '\n' {
      NewlineStages(t[1..]);
      ReplaceHead1('\n', JoinCrLf(t[1..]), "\r", "\n");
    } else {
      NewlineStages(t);
      ReplaceHead1(c, JoinCrLf(t), "\r", "\n");
    }
  }

  lemma NormalizeHead(c: char, r: string)
    requires c != '\r'
    ensures NormalizeNewlines([c] + r) == [c] + NormalizeNewlines(r)
  {
    assert ([c] + r)[1..] == r;
  }

  lemma NormalizeHead2(c: char, d: char, r: string)
    requires c != '\r' && d != '\r'
    ensures NormalizeNewlines([c, d] + r) == [c, d] + NormalizeNewlines(r)
  {
    assert ([c, d] + r)[1..] == [d] + r;
    NormalizeHead(d, r);
  }

  lemma NormalizeSpecialsEscaped(s: string)
    requires s != [] && (s[0] == '\\' || s[0] == '`')
    requires NormalizeNewlines(EscapeSpecials(s[1..])) == EscapeOnePass(s[1..])
    ensures NormalizeNewlines(EscapeSpecials(s)) == EscapeOnePass(s)
  {
    var c, r := s[0], EscapeSpecials(s[1..]);
    assert EscapeSpecials(s) == ['\\', c] + r;
    NormalizeHead2('\\', c, r);
  }

  lemma NormalizeHead3(r: string)
    ensures NormalizeNewlines(['\\', '$', '{'] + r) == ['\\', '$', '{'] + NormalizeNewlines(r)
  {
    assert (['\\', '$', '{'] + r)[1..] == ['$', '{'] + r;
    NormalizeHead2('$', '{', r);
  }

  lemma NormalizeSpecialsInterpolation(s: string)
    requires |s| > 1 && s[0] == '$' && s[1] == '{'
    requires NormalizeNewlines(EscapeSpecials(s[2..])) == EscapeOnePass(s[2..])
    ensures NormalizeNewlines(EscapeSpecials(s)) == EscapeOnePass(s)
  {
    var r := EscapeSpecials(s[2..]);
    assert EscapeSpecials(s) == ['\\', '$', '{'] + r;
    NormalizeHead3(r);
    assert EscapeOnePass(s) == ['\\', '$', '{'] + EscapeOnePass(s[2..]);
  }

  lemma NormalizeSpecialsCrLf(s: string)
    requires |s| > 1 && s[0] == '\r' && s[1] == '\n'
    requires NormalizeNewlines(EscapeSpecials(s[2..])) == EscapeOnePass(s[2..])
    ensures NormalizeNewlines(EscapeSpecials(s)) == EscapeOnePass(s)
  {
    var r := EscapeSpecials(s[2..]);
    assert EscapeSpecials(s[1..]) == ['\n'] + r;
    assert EscapeSpecials(s) == ['\r', '\n'] + r;
  }

  lemma NormalizeSpecialsPlain(s: string)
    requires s != [] && s[0] != '\\' && s[0] != '`'
    requires !(s[0] == '$' && |s| > 1 && s[1] == '{')
    requires !(s[0] == '\r' && |s| > 1 && s[1] == '\n')
    requires NormalizeNewlines(EscapeSpecials(s[1..])) == EscapeOnePass(s[1..])
    ensures NormalizeNewlines(EscapeSpecials(s)) == EscapeOnePass(s)
  {
    var c, r := s[0], EscapeSpecials(s[1..]);
    assert EscapeSpecials(s) == [c] + r;
    if c == '\r' {
      if |s| > 1 {
        SpecialsHeadNotLf(s[1..]);
      }
      NormalizeLoneCr(r);
    } else {
      NormalizeHead(c, r);
    }
  }

  /** Escaping does not put a line feed at the head of a text that does not start with one. */
  lemma SpecialsHeadNotLf(s: string)
    requires s != [] && s[0] != '\n'
    ensures EscapeSpecials(s) != [] && EscapeSpecials(s)[0] != '\n'
  {
  }

  lemma NormalizeLoneCr(r: string)
    requires r == [] || r[0] != '\n'
    ensures NormalizeNewlines(['\r'] + r) == "\n" + NormalizeNewlines(r)
  {
    assert (['\r'] + r)[1..] == r;
  }

  lemma {:induction false} NormalizeSpecials(s: string)
    ensures NormalizeNewlines(EscapeSpecials(s)) == EscapeOnePass(s)
    decreases |s|
  {
    if s == [] {
    } else if s[0] == '\\' || s[0] == '`' {
      NormalizeSpecials(s[1..]);
      NormalizeSpecialsEscaped(s);
    } else if s[0] == '$' && |s| > 1 && s[1] == '{' {
      NormalizeSpecials(s[2..]);
      NormalizeSpecialsInterpolation(s);
    } else if s[0] == '\r' && |s| > 1 && s[1] == '\n' {
      NormalizeSpecials(s[2..]);
      NormalizeSpecialsCrLf(s);
    } else {
      NormalizeSpecials(s[1..]);
      NormalizeSpecialsPlain(s);
    }
  }

  /** The host's five-step chain computes exactly the one-pass escape. */
  lemma EscapeCodeIsOnePass(code: string)
    ensures EscapeCode(code) == EscapeOnePass(code)
  {
    SpecialsStages(code);
    NewlineStages(EscapeSpecials(code));
    NormalizeSpecials(code);
  }

  // ---------------------------------------------------------------------------
  // Reading a template literal back.

  /**
   * The value of `\c` inside a template literal. Digit, `\x`, `\u` and
   * line-continuation escapes are not modelled (`None`).
   */
  function EscapeValue(c: char): Option<char> {
    if c == 'b' then Some('\U{8}')
    else if c == 'f' then Some('\U{C}')
    else if c == 'n' then Some('\n')
    else if c == 'r' then Some('\r')
    else if c == 't' then Some('\t')
    else if c == 'v' then Some('\U{B}')
    else if ('0' <= c <= '9') || c == 'x' || c == 'u' then None
    else if c == '\n' || c == '\r' || c == '\U{2028}' || c == '\U{2029}' then None
    else Some(c)
  }

  function Prepend(c: char, r: Option<(string, nat)>, width: nat): Option<(string, nat)> {
    match r
    case None => None
    case Some((v, k)) => Some(([c] + v, k + width))
  }

  /**
   * Reads the body of a template literal whose opening backtick has already
   * been consumed: `Some((value, k))` when the literal closes with the
   * backtick at index `k` and has cooked value `value`. Raw CR and CRLF
   * read as LF. A `${` substitution, and an unterminated literal, give `None`.
   */
  function ReadTemplateBody(s: string): Option<(string, nat)>
    decreases |s|
  {
    if s == [] then None
    else if s[0] == '`' then Some(([], 0))
    else if s[0] == '\\' then
      if |s| < 2 then None
      else match EscapeValue(s[1])
        case None => None
        case Some(v) => Prepend(v, ReadTemplateBody(s[2..]), 2)
    else if s[0] == '$' && |s| > 1 && s[1] == '{' then None
    else if s[0] == '\r' then
      if |s| > 1 && s[1] == '\n' then Prepend('\n', ReadTemplateBody(s[2..]), 2)
      else Prepend('\n', ReadTemplateBody(s[1..]), 1)
    else Prepend(s[0], ReadTemplateBody(s[1..]), 1)
  }

  /** Without the first step, a backslash in the code would be read as an escape. */
  lemma UndoubledBackslashIsMisread()
    ensures ReadTemplateBody("\\n`") == Some(("\n", 2))
  {
    assert "\\n`" == ['\\', 'n'] + "`";
    ReadPrefix2('\\', 'n', "`", '\n');
    assert ReadTemplateBody("`") == Some(([], 0));
    assert ['\n'] + [] == "\n";
  }

  /** With it, the same code reads back as a backslash followed by `n`. */
  lemma DoubledBackslashReadsBack()
    ensures EscapeCode("\\n") == "\\\\n"
    ensures ReadTemplateBody(EscapeCode("\\n") + "`") == Some(("\\n", 3))
  {
    EscapeCodeIsOnePass("\\n");
    assert EscapeOnePass("n") == "n";
    assert EscapeOnePass("\\n") == "\\\\" + "n" == "\\\\n";
    EscapeRoundTrip("\\n", "");
    assert EscapeCode("\\n") + "`" + "" == EscapeCode("\\n") + "`";
    assert NormalizeNewlines("n") == "n";
    assert NormalizeNewlines("\\n") == ['\\'] + "n" == "\\n";
  }

  /** The head of an escaped text is a backslash or the head of the code itself. */
  lemma OnePassHead(s: string)
    requires s != []
    ensures EscapeOnePass(s) != []
    ensures EscapeOnePass(s)[0] == (if s[0] == '\\' || s[0] == '`' || (s[0] == '$' && |s| > 1 && s[1] == '{') then '\\'
                                    else if s[0] == '\r' then '\n' else s[0])
  {
  }

  /** An escape sequence at the head of a literal reads as its value. */
  lemma ReadPrefix2(c: char, d: char, r: string, v: char)
    requires c == '\\' && EscapeValue(d) == Some(v)
    ensures ReadTemplateBody([c, d] + r) == Prepend(v, ReadTemplateBody(r), 2)
  {
    assert ([c, d] + r)[2..] == r;
  }

  /** Any other character at the head of a literal reads as itself. */
  lemma ReadPrefix1(c: char, r: string)
    requires c != '\\' && c != '`' && c != '\r'
    requires c == '$' ==> r == [] || r[0] != '{'
    ensures ReadTemplateBody([c] + r) == Prepend(c, ReadTemplateBody(r), 1)
  {
    assert ([c] + r)[1..] == r;
  }

  /** Reading back `EscapeOnePass(code)` closed by a backtick gives the normalised code. */
  predicate ReadsBack(code: string, rest: string) {
    ReadTemplateBody(EscapeOnePass(code) + "`" + rest) == Some((NormalizeNewlines(code), |EscapeOnePass(code)|))
  }

  lemma ReadBackEscaped(code: string, rest: string)
    requires code != [] && (code[0] == '\\' || code[0] == '`')
    requires ReadsBack(code[1..], rest)
    ensures ReadsBack(code, rest)
  {
    var c, r := code[0], EscapeOnePass(code[1..]);
    assert EscapeOnePass(code) + "`" + rest == ['\\', c] + (r + "`" + rest);
    ReadPrefix2('\\', c, r + "`" + rest, c);
    assert NormalizeNewlines(code) == [c] + NormalizeNewlines(code[1..]);
  }

  lemma ReadBackInterpolation(code: string, rest: string)
    requires |code| > 1 && code[0] == '$' && code[1] == '{'
    requires ReadsBack(code[2..], rest)
    ensures ReadsBack(code, rest)
  {
    var r := EscapeOnePass(code[2..]);
    var t := r + "`" + rest;
    assert EscapeOnePass(code) + "`" + rest == ['\\', '$'] + (['{'] + t);
    ReadPrefix2('\\', '$', ['{'] + t, '$');
    ReadPrefix1('{', t);
    assert NormalizeNewlines(code[1..]) == ['{'] + NormalizeNewlines(code[2..]);
    assert NormalizeNewlines(code) == ['$'] + NormalizeNewlines(code[1..]);
  }

  lemma ReadBackCrLf(code: string, rest: string)
    requires |code| > 1 && code[0] == '\r' && code[1] == '\n'
    requires ReadsBack(code[2..], rest)
    ensures ReadsBack(code, rest)
  {
    var t := EscapeOnePass(code[2..]) + "`" + rest;
    assert EscapeOnePass(code) + "`" + rest == ['\n'] + t;
    ReadPrefix1('\n', t);
  }

  /** A character that starts no escape and no CRLF is escaped and normalised on its own. */
  lemma PlainHead(code: string)
    requires code != [] && code[0] != '\\' && code[0] != '`'
    requires !(code[0] == '$' && |code| > 1 && code[1] == '{')
    requires !(code[0] == '\r' && |code| > 1 && code[1] == '\n')
    ensures var c' := if code[0] == '\r' then '\n' else code[0];
      EscapeOnePass(code) == [c'] + EscapeOnePass(code[1..])
      && NormalizeNewlines(code) == [c'] + NormalizeNewlines(code[1..])
  {
  }

  lemma ReadBackPlain(code: string, rest: string)
    requires code != [] && code[0] != '\\' && code[0] != '`'
    requires !(code[0] == '$' && |code| > 1 && code[1] == '{')
    requires !(code[0] == '\r' && |code| > 1 && code[1] == '\n')
    requires ReadsBack(code[1..], rest)
    ensures ReadsBack(code, rest)
  {
    var c := code[0];
    var r := EscapeOnePass(code[1..]);
    var c' := if c == '\r' then '\n' else c;
    PlainHead(code);
    assert EscapeOnePass(code) + "`" + rest == [c'] + (r + "`" + rest);
    if code[1..] != [] {
      OnePassHead(code[1..]);
    }
    ReadPrefix1(c', r + "`" + rest);
  }

  lemma {:induction false} ReadBackOnePass(code: string, rest: string)
    ensures ReadsBack(code, rest)
    decreases |code|
  {
    if code == [] {
      assert (EscapeOnePass(code) + "`" + rest)[0] == '`';
    } else if code[0] == '\\' || code[0] == '`' {
      ReadBackOnePass(code[1..], rest);
      ReadBackEscaped(code, rest);
    } else if code[0] == '$' && |code| > 1 && code[1] == '{' {
      ReadBackOnePass(code[2..], rest);
      ReadBackInterpolation(code, rest);
    } else if code[0] == '\r' && |code| > 1 && code[1] == '\n' {
      ReadBackOnePass(code[2..], rest);
      ReadBackCrLf(code, rest);
    } else {
      ReadBackOnePass(code[1..], rest);
      ReadBackPlain(code, rest);
    }
  }

  /** The round trip for the host's chain itself. */
  lemma EscapeRoundTrip(code: string, rest: string)
    ensures ReadTemplateBody(EscapeCode(code) + "`" + rest) == Some((NormalizeNewlines(code), |EscapeCode(code)|))
  {
    EscapeCodeIsOnePass(code);
    ReadBackOnePass(code, rest);
  }

  // ---------------------------------------------------------------------------
  // Shape of the escaped text.

  /** Length of the run of backslashes that ends just before index `i`. */
  function BackslashRun(s: string, i: nat): nat
    requires i <= |s|
  {
    if i == 0 || s[i - 1] != '\\' then 0 else 1 + BackslashRun(s, i - 1)
  }

  /** The condition under which `Guarded` asks for an odd run before index `i`. */
  predicate NeedsGuard(s: string, i: nat)
    requires i < |s|
  {
    s[i] == '`' || (s[i] == '$' && i + 1 < |s| && s[i + 1] == '{')
  }

  /** Every backtick and every `${` is escaped by an odd run of backslashes. */
  predicate Guarded(s: string) {
    forall i: nat :: i < |s| && NeedsGuard(s, i) ==> BackslashRun(s, i) % 2 == 1
  }

  lemma {:induction false} RunPrefix(a: string, b: string, i: nat)
    requires i <= |a|
    ensures BackslashRun(a + b, i) == BackslashRun(a, i)
  {
    if i > 0 && a[i - 1] == '\\' {
      RunPrefix(a, b, i - 1);
    }
  }

  lemma {:induction false} RunConcat(a: string, b: string, j: nat)
    requires j <= |b|
    ensures BackslashRun(a + b, |a| + j)
         == if BackslashRun(b, j) == j then j + BackslashRun(a, |a|) else BackslashRun(b, j)
  {
    if j == 0 {
      RunPrefix(a, b, |a|);
    } else {
      assert (a + b)[|a| + j - 1] == b[j - 1];
      if b[j - 1] == '\\' {
        RunConcat(a, b, j - 1);
      }
    }
  }

  lemma GuardedAt(s: string, i: nat)
    requires Guarded(s) && i < |s| && NeedsGuard(s, i)
    ensures BackslashRun(s, i) % 2 == 1
  {
  }

  lemma GuardedConcatLeft(a: string, b: string, i: nat)
    requires Guarded(a) && i < |a| && NeedsGuard(a + b, i)
    requires !(a != [] && a[|a| - 1] == '$' && b != [] && b[0] == '{')
    ensures BackslashRun(a + b, i) % 2 == 1
  {
    RunPrefix(a, b, i);
    assert (a + b)[i] == a[i];
    if i + 1 < |a| {
      assert (a + b)[i + 1] == a[i + 1];
    }
    assert NeedsGuard(a, i);
    GuardedAt(a, i);
  }

  lemma GuardedConcatRight(a: string, b: string, j: nat)
    requires Guarded(b) && BackslashRun(a, |a|) % 2 == 0
    requires j < |b| && NeedsGuard(a + b, |a| + j)
    ensures BackslashRun(a + b, |a| + j) % 2 == 1
  {
    RunConcat(a, b, j);
    assert (a + b)[|a| + j] == b[j];
    if |a| + j + 1 < |a + b| {
      assert (a + b)[|a| + j + 1] == b[j + 1];
    }
    assert NeedsGuard(b, j);
    GuardedAt(b, j);
  }

  lemma GuardedConcat(a: string, b: string)
    requires Guarded(a) && Guarded(b)
    requires BackslashRun(a, |a|) % 2 == 0
    requires !(a != [] && a[|a| - 1] == '$' && b != [] && b[0] == '{')
    ensures Guarded(a + b)
    ensures BackslashRun(b, |b|) % 2 == 0 ==> BackslashRun(a + b, |a + b|) % 2 == 0
  {
    var s := a + b;
    forall i: nat | i < |s| && NeedsGuard(s, i)
      ensures BackslashRun(s, i) % 2 == 1
    {
      if i < |a| {
        GuardedConcatLeft(a, b, i);
      } else {
        GuardedConcatRight(a, b, i - |a|);
      }
    }
    RunConcat(a, b, |b|);
  }

  /** The escaped code is guarded and ends on an even run of backslashes. */
  lemma {:induction false} OnePassGuarded(code: string)
    ensures Guarded(EscapeOnePass(code))
    ensures BackslashRun(EscapeOnePass(code), |EscapeOnePass(code)|) % 2 == 0
    decreases |code|
  {
    if code == [] {
      return;
    }
    var c := code[0];
    var k := if c == '\\' || c == '`' then 1
             else if c == '$' && |code| > 1 && code[1] == '{' then 2
             else if c == '\r' && |code| > 1 && code[1] == '\n' then 2
             else 1;
    var rest := code[k..];
    var token: string := if c == '\\' then "\\\\" else if c == '`' then "\\`"
                         else if k == 2 && c == '$' then "\\${"
                         else if c == '\r' then "\n" else [c];
    assert EscapeOnePass(code) == token + EscapeOnePass(rest);
    OnePassGuarded(rest);
    assert BackslashRun(token, |token|) % 2 == 0 by {
      if c == '\\' {
        assert BackslashRun(token, 1) == 1;
      }
    }
    assert Guarded(token) by {
      if c == '`' || (k == 2 && c == '$') {
        assert BackslashRun(token, 1) == 1;
      }
    }
    if rest != [] {
      OnePassHead(rest);
    }
    GuardedConcat(token, EscapeOnePass(rest));
  }

  /** What the host embeds contains no CR. */
  lemma {:induction false} OnePassHasNoCarriageReturn(code: string)
    ensures forall i :: 0 <= i < |EscapeOnePass(code)| ==> EscapeOnePass(code)[i] != '\r'
    decreases |code|
  {
    if code != [] {
      if (code[0] == '$' && |code| > 1 && code[1] == '{') || (code[0] == '\r' && |code| > 1 && code[1] == '\n') {
        OnePassHasNoCarriageReturn(code[2..]);
      } else {
        OnePassHasNoCarriageReturn(code[1..]);
      }
    }
  }

  /**
   * The host's escaped text has no CR, and every backtick and every `${` in it
   * is preceded by an odd run of backslashes, so none of them ends the
   * literal or opens a substitution.
   */
  lemma EscapedShape(code: string)
    ensures forall i :: 0 <= i < |EscapeCode(code)| ==> EscapeCode(code)[i] != '\r'
    ensures Guarded(EscapeCode(code))
  {
    EscapeCodeIsOnePass(code);
    OnePassHasNoCarriageReturn(code);
    OnePassGuarded(code);
  }
}
