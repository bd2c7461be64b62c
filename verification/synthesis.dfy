/**
 * The code `executeUserCode` synthesises once the transformer has run
 * (src/components/build/preview/template.ts:311-432): the scan for
 * capitalised declarations, the `module.exports` assignments, the `const`
 * bindings that stand in for the deleted imports, and the `require` shim.
 */
module Synthesis {
  import opened Wrappers
  import opened Text
  import opened Imports
  import opened Exports

  // ----- The scan for declared components -----

  /** The alternatives of `(?:const|function|class|let|var)`, in the order they are tried. */
  const Keywords: seq<string> := ["const", "function", "class", "let", "var"]

  /** The end of the first keyword from `Keywords[k..]` that starts at `p`. */
  function KeywordEnd(s: string, p: nat, k: nat): (r: Option<nat>)
    requires k <= |Keywords|
    ensures r.Some? ==> p < r.value <= |s|
    decreases |Keywords| - k
  {
    if k == |Keywords| then None
    else if p <= |s| && Keywords[k] <= s[p..] then Some(p + |Keywords[k]|)
    else KeywordEnd(s, p, k + 1)
  }

  /** A name `[A-Z]\w+` can capture. */
  predicate ComponentName(n: string) {
    |n| >= 2 && IsUpper(n[0]) && forall i :: 0 <= i < |n| ==> IsWordChar(n[i])
  }

  /** `c` is in `[=:(]`. */
  predicate Opener(c: char) {
    c == '=' || c == ':' || c == '('
  }

  /**
   * The rest of a match of `\s+([A-Z]\w+)\s*[=:(]` once the keyword ends at
   * `k`: the captured name and the index after the match. Every quantifier is
   * greedy and no shorter run lets the match go on, so the match is the
   * maximal runs of blanks and word characters.
   */
  function MatchAfter(s: string, k: nat): (r: Option<(string, nat)>)
    requires k <= |s|
    ensures r.Some? ==> k < r.value.1 <= |s|
  {
    var a := SkipSpaces(s, k);
    if a == k || a >= |s| || !IsUpper(s[a]) then None
    else
      var b := SkipWordChars(s, a + 1);
      if b == a + 1 then None
      else
        var c := SkipSpaces(s, b);
        var next: nat := c + 1;
        if c < |s| && Opener(s[c]) then Some((s[a..b], next)) else None
  }

  /**
   * A match of `(?:const|function|class|let|var)\s+([A-Z]\w+)\s*[=:(]`
   * starting at `p`: the captured name and the index after the match.
   */
  function MatchAt(s: string, p: nat): (r: Option<(string, nat)>)
    ensures r.Some? ==> p < r.value.1 <= |s|
  {
    match KeywordEnd(s, p, 0)
    case None => None
    case Some(k) => MatchAfter(s, k)
  }

  /** No match starts in `[p, q)`. */
  predicate NoMatchBetween(s: string, p: nat, q: nat)
    decreases q - p
  {
    p >= q || (MatchAt(s, p).None? && NoMatchBetween(s, p + 1, q))
  }

  /**
   * Where one `exec` call with `lastIndex` at `p` finds its match: the
   * leftmost position at or after `p` where a match starts, if any.
   */
  function NextStart(s: string, p: nat): (r: Option<nat>)
    ensures r.Some? ==> p <= r.value < |s| && MatchAt(s, r.value).Some? && NoMatchBetween(s, p, r.value)
    ensures r.None? ==> NoMatchBetween(s, p, |s|)
    decreases |s| - p
  {
    if p >= |s| then None
    else if MatchAt(s, p).Some? then Some(p)
    else NextStart(s, p + 1)
  }

  /** Conversely, a match with none before it from `p` on is the one `exec` finds. */
  lemma {:induction false} NextStartLeftmost(s: string, p: nat, q: nat)
    requires p <= q && MatchAt(s, q).Some? && NoMatchBetween(s, p, q)
    ensures NextStart(s, p) == Some(q)
    decreases q - p
  {
    if p < q {
      NextStartLeftmost(s, p + 1, q);
    }
  }

  /** The names the global `exec` loop collects from `lastIndex` `p` on: each search resumes after the previous match. */
  function Scan(s: string, p: nat): seq<string>
    decreases |s| - p
  {
    match NextStart(s, p)
    case None => []
    case Some(q) => [MatchAt(s, q).value.0] + Scan(s, MatchAt(s, q).value.1)
  }

  /** `while ((compMatch = componentPattern.exec(transformedCode)) !== null) definedComponents.push(compMatch[1])` */
  method ScanComponents(s: string) returns (defined: seq<string>)
    ensures defined == Scan(s, 0)
  {
    defined := [];
    var p := 0;
    var next := NextStart(s, p);
    while next.Some?
      invariant p <= |s| && next == NextStart(s, p)
      invariant Scan(s, 0) == defined + Scan(s, p)
      decreases |s| - p
    {
      var (n, e) := MatchAt(s, next.value).value;
      ScanStep(s, p, defined);
      defined := defined + [n];
      p := e;
      next := NextStart(s, p);
    }
    assert defined + [] == defined;
  }

  /** One iteration of the `exec` loop keeps the names still to come. */
  lemma ScanStep(s: string, p: nat, acc: seq<string>)
    requires NextStart(s, p).Some?
    ensures var m := MatchAt(s, NextStart(s, p).value).value;
      acc + Scan(s, p) == (acc + [m.0]) + Scan(s, m.1)
  {
    var m := MatchAt(s, NextStart(s, p).value).value;
    assert Scan(s, p) == [m.0] + Scan(s, m.1);
    assert acc + ([m.0] + Scan(s, m.1)) == (acc + [m.0]) + Scan(s, m.1);
  }

  /** A match captures a capitalised word of two or more characters. */
  lemma MatchedName(s: string, p: nat)
    requires MatchAt(s, p).Some?
    ensures ComponentName(MatchAt(s, p).value.0)
  {
    var k := KeywordEnd(s, p, 0).value;
    CapturedName(s, k);
  }

  lemma CapturedName(s: string, k: nat)
    requires k <= |s| && MatchAfter(s, k).Some?
    ensures ComponentName(MatchAfter(s, k).value.0)
  {
    var a := SkipSpaces(s, k);
    var b := SkipWordChars(s, a + 1);
    var name := s[a..b];
    assert MatchAfter(s, k).value.0 == name;
    forall i | 0 <= i < |name| ensures IsWordChar(name[i]) {
      assert name[i] == s[a + i];
    }
  }

  /** Every collected name is a capitalised word of two or more characters. */
  lemma {:induction false} ScanNames(s: string, p: nat)
    ensures forall i :: 0 <= i < |Scan(s, p)| ==> ComponentName(Scan(s, p)[i])
    decreases |s| - p
  {
    var next := NextStart(s, p);
    if next.Some? {
      var (n, e) := MatchAt(s, next.value).value;
      assert Scan(s, p) == [n] + Scan(s, e);
      MatchedName(s, next.value);
      ScanNames(s, e);
    }
  }

  /** Every collected name was captured by a match at or after the start. */
  lemma {:induction false} ScanSound(s: string, p: nat, n: string)
    requires n in Scan(s, p)
    ensures exists q: nat, e: nat :: p <= q && MatchAt(s, q) == Some((n, e))
    decreases |s| - p
  {
    var q := NextStart(s, p).value;
    var (m, e) := MatchAt(s, q).value;
    assert Scan(s, p) == [m] + Scan(s, e);
    if n != m {
      ScanSound(s, e, n);
    } else {
      assert MatchAt(s, q) == Some((n, e));
    }
  }

  // ----- The export assignments -----

  datatype ExportStmt =
    | DefaultAssign(name: string)
    | GuardedDefault(name: string)
    | NamedAssign(name: string)

  function RenderStmt(st: ExportStmt): (r: string)
    ensures r != ""
  {
    match st
    case DefaultAssign(n) => "module.exports.default = " + n + ";\n"
    case GuardedDefault(n) => "if (typeof " + n + " !== 'undefined') module.exports.default = " + n + ";\n"
    case NamedAssign(n) => "module.exports." + n + " = " + n + ";\n"
  }

  /** The statements' text, in order. */
  function Render(sts: seq<ExportStmt>): string {
    if sts == [] then "" else Render(sts[..|sts| - 1]) + RenderStmt(sts[|sts| - 1])
  }

  lemma RenderEmpty(sts: seq<ExportStmt>)
    ensures Render(sts) == "" <==> sts == []
  {
    if sts != [] {
      assert |RenderStmt(sts[|sts| - 1])| > 0;
    }
  }

  /** `exportInfo.defaultExport || definedComponents[definedComponents.length - 1]` */
  function Chosen(info: ExportInfo, defined: seq<string>): (r: Option<string>)
    ensures r.Some? && r.value != "" ==> r == info.defaultExport || (|defined| > 0 && r.value == defined[|defined| - 1])
  {
    if info.defaultExport.Some? && info.defaultExport.value != "" then info.defaultExport
    else if |defined| > 0 then Some(defined[|defined| - 1])
    else None
  }

  /** The default assignment: unguarded for a scanned name, guarded otherwise, none for a falsy choice. */
  function DefaultStmts(info: ExportInfo, defined: seq<string>): seq<ExportStmt> {
    match Chosen(info, defined)
    case None => []
    case Some(c) =>
      if c == "" then [] else if c in defined then [DefaultAssign(c)] else [GuardedDefault(c)]
  }

  /** `exportInfo.namedExports.forEach(…)`: an assignment for each named export the scan found. */
  function NamedStmts(names: seq<string>, defined: seq<string>): seq<ExportStmt> {
    if names == [] then []
    else
      var n := names[|names| - 1];
      NamedStmts(names[..|names| - 1], defined) + (if n in defined then [NamedAssign(n)] else [])
  }

  function PrimaryStmts(info: ExportInfo, defined: seq<string>): seq<ExportStmt> {
    DefaultStmts(info, defined) + NamedStmts(info.namedExports, defined)
  }

  /** All assignments, with the fallback for an empty `exportCode` when a component was found. */
  function ExportStmts(info: ExportInfo, defined: seq<string>): seq<ExportStmt> {
    var primary := PrimaryStmts(info, defined);
    if Render(primary) == "" && |defined| > 0 then primary + [DefaultAssign(defined[|defined| - 1])]
    else primary
  }

  /** The `if`/`else if` that emits the default assignment. */
  method DefaultCode(info: ExportInfo, defined: seq<string>) returns (code: seq<ExportStmt>)
    ensures code == DefaultStmts(info, defined)
  {
    code := [];
    var chosen := Chosen(info, defined);
    if chosen.Some? && chosen.value != "" && chosen.value in defined {
      code := code + [DefaultAssign(chosen.value)];
    } else if chosen.Some? && chosen.value != "" {
      code := code + [GuardedDefault(chosen.value)];
    }
  }

  /**
   * Builds `exportCode` as the source does: the default assignment, the
   * named ones, then the fallback when nothing was emitted. The text is kept
   * as the statements it concatenates; `Render` gives the text itself.
   */
  method BuildExportCode(info: ExportInfo, defined: seq<string>) returns (code: seq<ExportStmt>)
    ensures code == ExportStmts(info, defined)
  {
    code := DefaultCode(info, defined);
    var d := code;
    var names := info.namedExports;
    for i := 0 to |names|
      invariant code == d + NamedStmts(names[..i], defined)
    {
      var n := names[i];
      assert names[..i + 1][..i] == names[..i];
      if n in defined {
        code := code + [NamedAssign(n)];
      }
    }
    assert names[..|names|] == names;
    RenderEmpty(code);
    if Render(code) == "" && |defined| > 0 {
      code := code + [DefaultAssign(defined[|defined| - 1])];
    }
  }

  /**
   * The default assignment comes first: the default export when one was
   * recorded, unguarded exactly when the scan found it; otherwise the last
   * scanned component, unguarded.
   */
  lemma DefaultChoice(info: ExportInfo, defined: seq<string>)
    requires info.defaultExport.Some? ==> info.defaultExport.value != ""
    requires info.defaultExport.Some? || (|defined| > 0 && defined[|defined| - 1] != "")
    ensures var sts := ExportStmts(info, defined);
      && |sts| > 0
      && (info.defaultExport.Some? ==>
           sts[0] == if info.defaultExport.value in defined then DefaultAssign(info.defaultExport.value)
                     else GuardedDefault(info.defaultExport.value))
      && (info.defaultExport.None? ==> sts[0] == DefaultAssign(defined[|defined| - 1]))
  {
    var d := DefaultStmts(info, defined);
    var primary := PrimaryStmts(info, defined);
    RenderEmpty(primary);
    if d != [] {
      assert primary[0] == d[0];
    }
  }

  lemma {:induction false} NamedStmtsExact(names: seq<string>, defined: seq<string>, n: string)
    ensures NamedAssign(n) in NamedStmts(names, defined) <==> n in names && n in defined
    ensures forall st :: st in NamedStmts(names, defined) ==> st.NamedAssign?
    decreases |names|
  {
    if names != [] {
      var init := names[..|names| - 1];
      NamedStmtsExact(init, defined, n);
      assert names == init + [names[|names| - 1]];
    }
  }

  /** A named export gets an assignment exactly when the scan found its name. */
  lemma NamedOnlyDefined(info: ExportInfo, defined: seq<string>, n: string)
    ensures NamedAssign(n) in ExportStmts(info, defined) <==> n in info.namedExports && n in defined
  {
    NamedStmtsExact(info.namedExports, defined, n);
    var d := DefaultStmts(info, defined);
    var primary := PrimaryStmts(info, defined);
    assert NamedAssign(n) !in d;
    if Render(primary) == "" && |defined| > 0 {
      assert ExportStmts(info, defined) == primary + [DefaultAssign(defined[|defined| - 1])];
    }
  }

  /**
   * With the scanner's names, which are never empty, the final fallback
   * never fires: whenever a component was found, the default assignment has
   * already been emitted.
   */
  lemma FallbackDead(info: ExportInfo, s: string)
    ensures ExportStmts(info, Scan(s, 0)) == PrimaryStmts(info, Scan(s, 0))
  {
    var defined := Scan(s, 0);
    var primary := PrimaryStmts(info, defined);
    if |defined| > 0 {
      ScanNames(s, 0);
      assert ComponentName(defined[|defined| - 1]);
      assert DefaultStmts(info, defined) != [];
      assert primary[0] == DefaultStmts(info, defined)[0];
      RenderEmpty(primary);
    }
  }

  // ----- The import bindings -----

  /**
   * The values `importMap[source]` can take: the four table entries, or a
   * value the object literal inherits from `Object.prototype`, kept as the
   * text a template literal interpolates for it.
   */
  datatype ModuleVar = ReactVar | ReactDomVar | AntdVar | IconsVar | Inherited(text: string)

  /** The text `${moduleVar}` interpolates. */
  function VarName(m: ModuleVar): string {
    match m
    case ReactVar => "React"
    case ReactDomVar => "ReactDOM"
    case AntdVar => "antd"
    case IconsVar => "antdIcons"
    case Inherited(text) => text
  }

  /** The module names the table knows. */
  const ModuleNames: set<string> := {"react", "react-dom", "antd", "@ant-design/icons"}

  /** The property names every object literal inherits from `Object.prototype`. */
  const InheritedNames: set<string> := {
    "constructor", "toString", "toLocaleString", "valueOf", "hasOwnProperty",
    "isPrototypeOf", "propertyIsEnumerable", "__defineGetter__", "__defineSetter__",
    "__lookupGetter__", "__lookupSetter__", "__proto__"
  }

  /**
   * `String(Object.prototype[name])` as V8 prints it: the prototype object
   * itself for `__proto__`, a native function otherwise (`constructor` is
   * `Object`). Other engines lay out native function text differently.
   */
  function InheritedText(name: string): string {
    if name == "__proto__" then "[object Object]"
    else if name == "constructor" then "function Object() { [native code] }"
    else "function " + name + "() { [native code] }"
  }

  /** `importMap[imp.source] || null` */
  function ModuleVarOf(source: string): (r: Option<ModuleVar>)
    ensures r.Some? <==> source in ModuleNames || source in InheritedNames
    ensures r.Some? && r.value.Inherited? <==> source in InheritedNames
    ensures r.Some? && r.value.Inherited? ==> r.value.text == InheritedText(source)
  {
    if source == "react" then Some(ReactVar)
    else if source == "react-dom" then Some(ReactDomVar)
    else if source == "antd" then Some(AntdVar)
    else if source == "@ant-design/icons" then Some(IconsVar)
    else if source in InheritedNames then Some(Inherited(InheritedText(source)))
    else None
  }

  /** The parameter names of the execution function; a binding of one of them is skipped. */
  const FunctionParams: set<string> := {"React", "ReactDOM", "antd", "antdIcons"}

  /** One line `const alias = init;`. */
  datatype Binding = Binding(alias: string, init: string)

  function RenderBinding(b: Binding): string {
    "const " + b.alias + " = " + b.init + ";\n"
  }

  function RenderBindings(bs: seq<Binding>): string {
    if bs == [] then "" else RenderBindings(bs[..|bs| - 1]) + RenderBinding(bs[|bs| - 1])
  }

  const NullFallback := " || (() => null)"

  /** What a named import `original` of module `m` is bound to; none of the four branches matches an inherited value. */
  function NamedInit(m: ModuleVar, original: string): Option<string> {
    match m
    case ReactVar => Some("React." + original)
    case ReactDomVar => Some("ReactDOM." + original)
    case AntdVar => Some("(antd.default && antd.default." + original + ") || antd." + original + NullFallback)
    case IconsVar => Some("antdIcons." + original + NullFallback)
    case Inherited(_) => None
  }

  /** `desc.split(' as ').map(p => p.trim())`: the imported name and the alias, `parts[1] || original`. */
  function Specifier(desc: string): (r: (string, string))
    ensures r.1 == "" ==> r.0 == ""
  {
    var parts := TrimAll(Split(desc, " as "));
    var original := parts[0];
    (original, if |parts| > 1 && parts[1] != "" then parts[1] else original)
  }

  /** The binding of one specifier, none when its alias is a parameter name. */
  function SpecifierBinding(m: ModuleVar, desc: string): seq<Binding> {
    var (original, alias) := Specifier(desc);
    if alias in FunctionParams then []
    else match NamedInit(m, original)
      case None => []
      case Some(init) => [Binding(alias, init)]
  }

  function SpecifierBindings(m: ModuleVar, descs: seq<string>): seq<Binding> {
    if descs == [] then []
    else SpecifierBindings(m, descs[..|descs| - 1]) + SpecifierBinding(m, descs[|descs| - 1])
  }

  /** The bindings the `forEach` callback emits for one import record. */
  function RecordBindings(imp: ImportRecord): seq<Binding> {
    match ModuleVarOf(imp.source)
    case None => []
    case Some(m) =>
      match imp.kind
      case Namespace =>
        if imp.binding in FunctionParams then [] else [Binding(imp.binding, VarName(m))]
      case Named =>
        SpecifierBindings(m, TrimAll(Split(imp.binding, ",")))
      case Default =>
        if imp.binding in FunctionParams then []
        else if m == AntdVar then [Binding(imp.binding, "antd")]
        else [Binding(imp.binding, VarName(m))]
  }

  function BindingsOf(records: seq<ImportRecord>): seq<Binding> {
    if records == [] then []
    else BindingsOf(records[..|records| - 1]) + RecordBindings(records[|records| - 1])
  }

  /**
   * The inner `forEach` callback: the binding of one specifier. The text
   * `importBindings` is kept as the bindings it concatenates;
   * `RenderBindings` gives the text itself.
   */
  method BindSpecifier(m: ModuleVar, desc: string) returns (bs: seq<Binding>)
    ensures bs == SpecifierBinding(m, desc)
  {
    var (original, alias) := Specifier(desc);
    if alias in FunctionParams {
      return [];
    }
    match NamedInit(m, original) {
      case Some(init) => bs := [Binding(alias, init)];
      case None => bs := [];
    }
  }

  /** `specifiers.forEach(…)` for a named import of module `m`. */
  method BindSpecifiers(m: ModuleVar, specifiers: seq<string>) returns (bs: seq<Binding>)
    ensures bs == SpecifierBindings(m, specifiers)
  {
    bs := [];
    for j := 0 to |specifiers|
      invariant bs == SpecifierBindings(m, specifiers[..j])
    {
      assert specifiers[..j + 1][..j] == specifiers[..j];
      var piece := BindSpecifier(m, specifiers[j]);
      bs := bs + piece;
    }
    assert specifiers[..|specifiers|] == specifiers;
  }

  /** The outer `forEach` callback: the bindings for one record. */
  method BindRecord(imp: ImportRecord) returns (bs: seq<Binding>)
    ensures bs == RecordBindings(imp)
  {
    bs := [];
    var moduleVar := ModuleVarOf(imp.source);
    if moduleVar.None? {
      return;
    }
    var m := moduleVar.value;
    var name := imp.binding;
    match imp.kind
    case Namespace =>
      if name !in FunctionParams {
        bs := bs + [Binding(name, VarName(m))];
      }
    case Named =>
      bs := BindSpecifiers(m, TrimAll(Split(name, ",")));
    case Default =>
      if name !in FunctionParams {
        if m == AntdVar {
          bs := bs + [Binding(name, "antd")];
        } else {
          bs := bs + [Binding(name, VarName(m))];
        }
      }
  }

  /** `importStatements.forEach(…)`: the bindings of every record, in record order. */
  method BuildImportBindings(records: seq<ImportRecord>) returns (bindings: seq<Binding>)
    ensures bindings == BindingsOf(records)
  {
    bindings := [];
    for i := 0 to |records|
      invariant bindings == BindingsOf(records[..i])
    {
      assert records[..i + 1][..i] == records[..i];
      var bs := BindRecord(records[i]);
      bindings := bindings + bs;
    }
    assert records[..|records|] == records;
  }

  /** The binding of one specifier, when there is one, avoids the parameters and, for the two packages, falls back to null. */
  lemma EndsWithNullAppended(x: string)
    ensures EndsWithNull(x + NullFallback)
  {
    assert (x + NullFallback)[|x|..] == NullFallback;
  }

  lemma SpecifierBindingAvoidsParams(m: ModuleVar, desc: string)
    ensures forall b :: b in SpecifierBinding(m, desc) ==> b.alias !in FunctionParams
    ensures m.AntdVar? || m.IconsVar? ==> forall b :: b in SpecifierBinding(m, desc) ==> EndsWithNull(b.init)
  {
    var (original, alias) := Specifier(desc);
    if alias !in FunctionParams && (m.AntdVar? || m.IconsVar?) {
      if m.AntdVar? {
        EndsWithNullAppended("(antd.default && antd.default." + original + ") || antd." + original);
      } else {
        EndsWithNullAppended("antdIcons." + original);
      }
    }
  }

  lemma {:induction false} SpecifierBindingsAvoidParams(m: ModuleVar, descs: seq<string>)
    ensures forall b :: b in SpecifierBindings(m, descs) ==> b.alias !in FunctionParams
    ensures m.AntdVar? || m.IconsVar? ==> forall b :: b in SpecifierBindings(m, descs) ==> EndsWithNull(b.init)
    decreases |descs|
  {
    if descs != [] {
      SpecifierBindingsAvoidParams(m, descs[..|descs| - 1]);
      SpecifierBindingAvoidsParams(m, descs[|descs| - 1]);
    }
  }

  /**
   * No binding redeclares a parameter of the execution function, and records
   * of modules that are neither in the table nor inherited names contribute
   * nothing.
   */
  lemma {:induction false} BindingsWellFormed(records: seq<ImportRecord>)
    ensures forall b :: b in BindingsOf(records) ==> b.alias !in FunctionParams
    ensures (forall i :: 0 <= i < |records| ==> ModuleVarOf(records[i].source).None?) ==> BindingsOf(records) == []
    decreases |records|
  {
    if records != [] {
      var init := records[..|records| - 1];
      var imp := records[|records| - 1];
      BindingsWellFormed(init);
      if ModuleVarOf(imp.source).Some? && imp.kind == Named {
        SpecifierBindingsAvoidParams(ModuleVarOf(imp.source).value, TrimAll(Split(imp.binding, ",")));
      }
      if forall i :: 0 <= i < |records| ==> ModuleVarOf(records[i].source).None? {
        assert forall i :: 0 <= i < |init| ==> ModuleVarOf(init[i].source).None? by {
          forall i | 0 <= i < |init| ensures ModuleVarOf(init[i].source).None? {
            assert init[i] == records[i];
          }
        }
      }
    }
  }

  /** A named import of an inherited name binds nothing: none of the callback's four branches matches. */
  lemma {:induction false} InheritedSpecifiersBindNothing(text: string, descs: seq<string>)
    ensures SpecifierBindings(Inherited(text), descs) == []
    decreases |descs|
  {
    if descs != [] {
      InheritedSpecifiersBindNothing(text, descs[..|descs| - 1]);
    }
  }

  /**
   * An import from an inherited property name is not skipped: a default or
   * namespace import binds its name to the inherited value's text, and a
   * named import binds nothing.
   */
  lemma InheritedSourceBinds(imp: ImportRecord)
    requires imp.source in InheritedNames
    ensures imp.kind == Named ==> RecordBindings(imp) == []
    ensures imp.kind != Named && imp.binding !in FunctionParams
        ==> RecordBindings(imp) == [Binding(imp.binding, InheritedText(imp.source))]
  {
    if imp.kind == Named {
      InheritedSpecifiersBindNothing(InheritedText(imp.source), TrimAll(Split(imp.binding, ",")));
    }
  }

  predicate EndsWithNull(init: string) {
    |init| >= |NullFallback| && init[|init| - |NullFallback|..] == NullFallback
  }

  /** A named import from `antd` or the icon package falls back to a component that renders nothing. */
  lemma NamedFallsBackToNull(imp: ImportRecord, b: Binding)
    requires imp.kind == Named && (imp.source == "antd" || imp.source == "@ant-design/icons")
    requires b in RecordBindings(imp)
    ensures EndsWithNull(b.init)
  {
    var m := if imp.source == "antd" then AntdVar else IconsVar;
    assert ModuleVarOf(imp.source) == Some(m);
    var descs := TrimAll(Split(imp.binding, ","));
    assert RecordBindings(imp) == SpecifierBindings(m, descs);
    SpecifierBindingsAvoidParams(m, descs);
  }

  // ----- The `require` shim -----

  /** What `require(name)` evaluates to: the expression of the module object, or the thrown message. */
  datatype Required = Resolved(expr: string) | Thrown(message: string)

  function Require(name: string): (r: Required)
    ensures r.Resolved? <==> name in ModuleNames
    ensures r.Thrown? ==> r.message == "Cannot find module: " + name
  {
    if name == "react" then Resolved("React")
    else if name == "react-dom" then Resolved("ReactDOM")
    else if name == "antd" then Resolved("antd.default || antd")
    else if name == "@ant-design/icons" then Resolved("antdIcons")
    else Thrown("Cannot find module: " + name)
  }

  /** `require` resolves a module to the same variable the import bindings use, except `antd`, which it unwraps. */
  lemma RequireMatchesTable(name: string)
    requires name in ModuleNames && name != "antd"
    ensures Require(name) == Resolved(VarName(ModuleVarOf(name).value))
  {
  }
}
