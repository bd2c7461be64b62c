/**
 * The bootstrap script of the preview document
 * (src/components/build/preview/template.ts:69-562): the dependency wait,
 * the Ant Design loader, `showError`, and `executeUserCode`, which rewrites
 * the component source, hands it to the transformer and the engine, checks
 * the value it gets back and mounts it.
 *
 * The transformer, the engine that runs the synthesised source, and the
 * candidate searches after it are foreign code: a `Runtime` value stands
 * for them.
 */
module Bootstrap {
  import opened Wrappers
  import opened Lines
  import opened Imports
  import opened Exports
  import opened Synthesis

  // ----- Errors -----

  /** A thrown value that is truthy: its `toString()` and its `stack`, `None` when that is falsy. */
  datatype ErrorInfo = ErrorInfo(text: string, stack: Option<string>)

  const StackHeader := "\n\n堆栈跟踪:\n"

  /** The text `showError` puts in the error container; a falsy `error` adds nothing. */
  function ErrorMessage(message: string, error: Option<ErrorInfo>): string {
    match error
    case None => message
    case Some(e) =>
      var withText := message + "\n\n" + e.text;
      match e.stack
      case None => withText
      case Some(st) => withText + (StackHeader + st)
  }

  /**
   * The message leads; a thrown value adds its text after a blank line, and
   * its stack, when it has one, closes the text under the stack header.
   */
  lemma ErrorMessageShape(message: string, error: Option<ErrorInfo>)
    ensures error.None? ==> ErrorMessage(message, error) == message
    ensures |message| <= |ErrorMessage(message, error)| && ErrorMessage(message, error)[..|message|] == message
    ensures error.Some? && error.value.stack.None? ==> ErrorMessage(message, error) == message + "\n\n" + error.value.text
    ensures error.Some? && error.value.stack.Some? ==>
      var r := ErrorMessage(message, error);
      var tail := StackHeader + error.value.stack.value;
      |tail| <= |r| && r[|r| - |tail|..] == tail
  {
  }

  const NoRootMessage := "无法找到 root 元素"
  const TransformFailedMessage := "代码转译失败"
  const ExecutionFailedMessage := "代码执行失败"
  const AntdFailedMessage := "加载 Ant Design 失败"
  const DependencyTimeoutMessage := "依赖加载超时，请检查网络连接"

  // ----- Candidate validation -----

  /** The results of `typeof`. */
  datatype JsType = UndefinedType | ObjectType | BooleanType | NumberType | StringType | FunctionType | SymbolType | BigIntType

  function TypeName(t: JsType): string {
    match t
    case UndefinedType => "undefined"
    case ObjectType => "object"
    case BooleanType => "boolean"
    case NumberType => "number"
    case StringType => "string"
    case FunctionType => "function"
    case SymbolType => "symbol"
    case BigIntType => "bigint"
  }

  /**
   * What the checks observe of `ComponentToRender`: its `typeof`, whether it
   * is truthy, the length of `Object.keys` of it and whether its `$$typeof`
   * is truthy.
   */
  datatype Candidate = Candidate(kind: JsType, truthy: bool, ownKeys: nat, marked: bool)

  const NotFoundMessage := "无法找到要渲染的组件。请确保代码中有默认导出的 React 组件（export default ComponentName）。"
  const InvalidPrefix := "导出的内容不是一个有效的 React 组件。期望函数组件或类组件，但得到了: "

  /**
   * The three checks before mounting, in order: the message of the error the
   * first failing one throws, or `None` when the candidate is mounted.
   */
  function Validate(c: Candidate): (r: Option<string>)
    ensures r.None? <==> c.truthy && (c.kind == FunctionType || c.marked)
    ensures !c.truthy ==> r == Some(NotFoundMessage)
    ensures c.truthy && c.kind == ObjectType && !c.marked && c.ownKeys == 0 ==> r == Some(NotFoundMessage)
    ensures c.truthy && c.kind != FunctionType && !c.marked && !(c.kind == ObjectType && c.ownKeys == 0) ==>
      r == Some(InvalidPrefix + TypeName(c.kind))
    ensures r.Some? ==> r.value == NotFoundMessage || r.value == InvalidPrefix + TypeName(c.kind)
  {
    if !c.truthy then Some(NotFoundMessage)
    else if c.kind == ObjectType && !c.marked && c.ownKeys == 0 then Some(NotFoundMessage)
    else if c.kind != FunctionType && !c.marked then Some(InvalidPrefix + TypeName(c.kind))
    else None
  }

  // ----- The foreign steps -----

  /** The outcome of `Babel.transform(…).code`. */
  datatype Transformed = Transpiled(code: string) | TransformError(error: Option<ErrorInfo>)

  /** The outcome of running the synthesised source, fallbacks included. */
  datatype Executed = Returned(candidate: Candidate) | ExecError(error: Option<ErrorInfo>)

  /**
   * The transformer, the engine (`new Function` and the searches for a
   * component after it), and the `stack` the engine gives an `Error` the
   * script throws.
   */
  datatype Runtime = Runtime(transform: string -> Transformed, run: string -> Executed, thrownStack: Option<string>)

  // ----- The synthesised source -----

  /** `executeCodeSource` up to `${importBindings}`: the hook destructuring and the `require` shim (template.ts:421-432). */
  const SourceHead: string
  /** Between the bindings and `${transformedCode}` (template.ts:434-436). */
  const SourceMiddle: string
  /** From the end of `${transformedCode}` to the end of the literal (template.ts:438-441). */
  const SourceTail: string

  /** The body of the function the engine runs. */
  function ExecuteSource(bindings: seq<Binding>, transformed: string): string {
    SourceHead + RenderBindings(bindings) + SourceMiddle + transformed + SourceTail
  }

  /** `codeToTransform` when the transformer is called: imports deleted, exports rewritten. */
  function ToTransform(code: seq<Line>): string {
    Code(ExportedCode(StripImports(code)))
  }

  /** `transformedCode += '\n' + exportCode`. */
  function WithExports(info: ExportInfo, transformed: string): string {
    transformed + "\n" + Render(ExportStmts(info, Scan(transformed, 0)))
  }

  /** The source run for the user code `code` once the transformer gave `transformed`. */
  function SourceFor(code: seq<Line>, transformed: string): string {
    ExecuteSource(BindingsOf(ImportRecords(code)), WithExports(ExportInfoOf(StripImports(code)), transformed))
  }

  // ----- The outcome of `executeUserCode` -----

  /** What `executeUserCode` ends in: a mounted component, or the arguments of the `showError` call. */
  datatype Outcome = Mounted(component: Candidate) | Failed(message: string, error: Option<ErrorInfo>)

  function Pipeline(hasRoot: bool, code: seq<Line>, rt: Runtime): Outcome {
    if !hasRoot then Failed(NoRootMessage, None)
    else match rt.transform(ToTransform(code))
      case TransformError(e) => Failed(TransformFailedMessage, e)
      case Transpiled(t) =>
        match rt.run(SourceFor(code, t))
        case ExecError(e) => Failed(ExecutionFailedMessage, e)
        case Returned(c) =>
          match Validate(c)
          case Some(msg) => Failed(ExecutionFailedMessage, Some(ErrorInfo("Error: " + msg, rt.thrownStack)))
          case None => Mounted(c)
  }

  /** The sources handed to the engine by one run of `executeUserCode`. */
  function Handed(hasRoot: bool, code: seq<Line>, rt: Runtime): seq<string> {
    if hasRoot && rt.transform(ToTransform(code)).Transpiled? then [SourceFor(code, rt.transform(ToTransform(code)).code)] else []
  }

  /** A component is mounted exactly when the code transpiles and the engine returns a function or an element-like value. */
  lemma MountedExactly(hasRoot: bool, code: seq<Line>, rt: Runtime)
    ensures Pipeline(hasRoot, code, rt).Mounted? <==>
      hasRoot && rt.transform(ToTransform(code)).Transpiled?
      && rt.run(SourceFor(code, rt.transform(ToTransform(code)).code)).Returned?
      && var c := rt.run(SourceFor(code, rt.transform(ToTransform(code)).code)).candidate;
         c.truthy && (c.kind == FunctionType || c.marked)
  {
    if hasRoot && rt.transform(ToTransform(code)).Transpiled? {
      var t := rt.transform(ToTransform(code)).code;
      if rt.run(SourceFor(code, t)).Returned? {
        var c := rt.run(SourceFor(code, t)).candidate;
        assert Validate(c).None? <==> c.truthy && (c.kind == FunctionType || c.marked);
      }
    }
  }

  /**
   * A transformer failure is reported as such, and nothing is synthesised or
   * run afterwards.
   */
  lemma TransformFailureStops(code: seq<Line>, rt: Runtime)
    requires rt.transform(ToTransform(code)).TransformError?
    ensures Pipeline(true, code, rt) == Failed(TransformFailedMessage, rt.transform(ToTransform(code)).error)
    ensures Handed(true, code, rt) == []
  {
  }

  /** A value the checks reject is reported under the execution message, with the thrown `Error`'s text. */
  lemma RejectedCandidate(code: seq<Line>, rt: Runtime, c: Candidate)
    requires rt.transform(ToTransform(code)).Transpiled?
    requires rt.run(SourceFor(code, rt.transform(ToTransform(code)).code)) == Returned(c)
    requires !c.truthy || (c.kind != FunctionType && !c.marked)
    ensures Pipeline(true, code, rt).Failed?
    ensures Pipeline(true, code, rt).message == ExecutionFailedMessage
    ensures Pipeline(true, code, rt).error.Some?
  {
    assert Validate(c).Some?;
  }

  // ----- Steps of `executeUserCode` -----

  /** The rewriting before the transformer: import records, import deletion, export rewriting. */
  method Prepare(code: seq<Line>) returns (records: seq<ImportRecord>, info: ExportInfo, toTransform: string)
    ensures records == ImportRecords(code)
    ensures info == ExportInfoOf(StripImports(code))
    ensures toTransform == ToTransform(code)
  {
    records := ExtractImports(code);
    var stripped := StripImports(code);
    var rewritten;
    rewritten, info := RewriteExports(stripped);
    toTransform := Code(rewritten);
  }

  /** The synthesis after the transformer: the scan, the export code, the bindings and the source to run. */
  method Synthesize(records: seq<ImportRecord>, info: ExportInfo, transformed: string) returns (source: string)
    ensures source == ExecuteSource(BindingsOf(records), WithExports(info, transformed))
  {
    var defined := ScanComponents(transformed);
    var exportCode := BuildExportCode(info, defined);
    var withExports := transformed + "\n" + Render(exportCode);
    var bindings := BuildImportBindings(records);
    source := SourceHead + RenderBindings(bindings) + SourceMiddle + withExports + SourceTail;
  }

  /**
   * The body of the `try` in `executeUserCode` once `#root` is found: the
   * rewriting, the transformer, the synthesis, the engine and the checks, up
   * to the call of `showError` or the mount; `handed` is what the engine is
   * given.
   */
  method Evaluate(code: seq<Line>, rt: Runtime) returns (o: Outcome, handed: seq<string>)
    ensures o == Pipeline(true, code, rt)
    ensures handed == Handed(true, code, rt)
  {
    var records, info, toTransform := Prepare(code);
    var transformed := rt.transform(toTransform);
    if transformed.TransformError? {
      return Failed(TransformFailedMessage, transformed.error), [];
    }
    var source := Synthesize(records, info, transformed.code);
    handed := [source];
    var result := rt.run(source);
    if result.ExecError? {
      return Failed(ExecutionFailedMessage, result.error), handed;
    }
    var rejection := Validate(result.candidate);
    if rejection.Some? {
      return Failed(ExecutionFailedMessage, Some(ErrorInfo("Error: " + rejection.value, rt.thrownStack))), handed;
    }
    o := Mounted(result.candidate);
  }

  // ----- The document's window -----

  datatype RootContent = Empty | Rendered(component: Candidate)

  /** What the document shows: the error container's visibility and text, and the content of `#root`. */
  datatype Page = Page(errorVisible: bool, errorText: string, root: RootContent)

  /** The page after `showError(message, error)`; each element changes only when the document has it. */
  function AfterShowError(hasRoot: bool, hasErrorContainer: bool, message: string, error: Option<ErrorInfo>, p: Page): Page {
    Page(hasErrorContainer || p.errorVisible,
         if hasErrorContainer then ErrorMessage(message, error) else p.errorText,
         if hasRoot then Empty else p.root)
  }

  /**
   * The page after `executeUserCode` ends in `o`: a mounted component is
   * rendered in `#root` with the error container hidden; a failure is shown
   * by `showError`.
   */
  function AfterRun(o: Outcome, hasRoot: bool, hasErrorContainer: bool, p: Page): Page {
    if o.Mounted? then Page(p.errorVisible && !hasErrorContainer, p.errorText, Rendered(o.component))
    else AfterShowError(hasRoot, hasErrorContainer, o.message, o.error, p)
  }

  /** The window flags and the pending timers and module scripts of the loader. */
  datatype LoaderState = LoaderState(
    dependenciesLoaded: bool, antdLoaded: bool, iconsLoaded: bool, importMapCreated: bool,
    polling: bool, mapTimerPending: bool, pendingModules: nat, deadlinePending: bool)

  /**
   * The preview document once its script has started. The events are the
   * dependency checks (every 100 ms while polling), the 100 ms wait after the
   * import map is added, the end of each Ant Design module script, and the
   * 30 s deadline.
   */
  class Frame {
    const hasRoot: bool
    const hasErrorContainer: bool
    /** The user code the document carries. */
    const code: seq<Line>
    const rt: Runtime

    var dependenciesLoaded: bool
    var antdLoaded: bool
    /** Never read or written by the document; the host resets it on cleanup. */
    var iconsLoaded: bool
    var importMapCreated: bool
    /** A `checkDependencies` call is scheduled. */
    var polling: bool
    /** The 100 ms wait before `loadAntdModules` is scheduled. */
    var mapTimerPending: bool
    /** Module scripts appended whose import has not settled. */
    var pendingModules: nat
    var deadlinePending: bool

    /** `errorContainer.style.display` is `block`. */
    var errorVisible: bool
    /** `errorContainer.textContent`. */
    var errorText: string
    var root: RootContent
    /** The sources handed to the engine, in order. */
    var executed: seq<string>

    function Loader(): LoaderState
      reads this
    {
      LoaderState(dependenciesLoaded, antdLoaded, iconsLoaded, importMapCreated,
                  polling, mapTimerPending, pendingModules, deadlinePending)
    }

    function Shown(): Page
      reads this
    {
      Page(errorVisible, errorText, root)
    }

    /** The script has reset the flags, made the first `checkDependencies` call due and set the deadline. */
    constructor(hasRoot: bool, hasErrorContainer: bool, code: seq<Line>, rt: Runtime)
      ensures this.hasRoot == hasRoot && this.hasErrorContainer == hasErrorContainer
      ensures this.code == code && this.rt == rt
      ensures Loader() == LoaderState(false, false, false, false, true, false, 0, true)
      ensures !errorVisible && errorText == "" && root == Empty && executed == []
    {
      this.hasRoot := hasRoot;
      this.hasErrorContainer := hasErrorContainer;
      this.code := code;
      this.rt := rt;
      dependenciesLoaded := false;
      antdLoaded := false;
      iconsLoaded := false;
      importMapCreated := false;
      polling := true;
      mapTimerPending := false;
      pendingModules := 0;
      deadlinePending := true;
      errorVisible := false;
      errorText := "";
      root := Empty;
      executed := [];
    }

    /** `showError`: the message in the error container, and `#root` emptied. */
    method ShowError(message: string, error: Option<ErrorInfo>)
      modifies this
      ensures Loader() == old(Loader()) && executed == old(executed)
      ensures Shown() == AfterShowError(hasRoot, hasErrorContainer, message, error, old(Shown()))
    {
      if hasErrorContainer {
        errorVisible := true;
        errorText := ErrorMessage(message, error);
      }
      if hasRoot {
        root := Empty;
      }
    }

    /** `executeUserCode`, with the foreign steps taken from `rt`. */
    method ExecuteUserCode()
      modifies this
      ensures Loader() == old(Loader())
      ensures executed == old(executed) + Handed(hasRoot, code, rt)
      ensures Shown() == AfterRun(Pipeline(hasRoot, code, rt), hasRoot, hasErrorContainer, old(Shown()))
    {
      if !hasRoot {
        ShowError(NoRootMessage, None);
        return;
      }
      if hasErrorContainer {
        errorVisible := false;
      }
      var o, handed := Evaluate(code, rt);
      Settle(o, handed);
    }

    /** The end of `executeUserCode` once `#root` is found: `showError` with the failure, or the mount. */
    method Settle(o: Outcome, handed: seq<string>)
      requires hasRoot
      modifies this
      ensures Loader() == old(Loader()) && executed == old(executed) + handed
      ensures o.Mounted? ==> root == Rendered(o.component) && errorVisible == old(errorVisible) && errorText == old(errorText)
      ensures o.Failed? ==>
        root == Empty && errorVisible == (hasErrorContainer || old(errorVisible))
        && errorText == if hasErrorContainer then ErrorMessage(o.message, o.error) else old(errorText)
    {
      executed := executed + handed;
      if o.Failed? {
        ShowError(o.message, o.error);
      } else {
        root := Rendered(o.component);
      }
    }

    /** The host's cleanup writes `false` to the three window flags. */
    method ResetFlags()
      modifies this
      ensures Loader() == old(Loader()).(dependenciesLoaded := false, antdLoaded := false, iconsLoaded := false)
      ensures executed == old(executed) && Shown() == old(Shown())
    {
      antdLoaded := false;
      iconsLoaded := false;
      dependenciesLoaded := false;
    }

    /**
     * `loadAntdModules`: a module script importing both packages is appended
     * and the callbacks are set.
     */
    method LoadAntdModules()
      modifies this
      ensures Loader() == old(Loader()).(pendingModules := old(pendingModules) + 1)
      ensures executed == old(executed) && Shown() == old(Shown())
    {
      pendingModules := pendingModules + 1;
    }

    /**
     * `loadAntd`: run the user code when the packages are loaded; otherwise
     * create the import map once and load the modules 100 ms later, or load
     * them at once when the map exists.
     */
    method LoadAntd()
      modifies this
      ensures old(antdLoaded) ==>
        Loader() == old(Loader()) && executed == old(executed) + Handed(hasRoot, code, rt)
        && Shown() == AfterRun(Pipeline(hasRoot, code, rt), hasRoot, hasErrorContainer, old(Shown()))
      ensures !old(antdLoaded) ==> executed == old(executed) && Shown() == old(Shown())
      ensures !old(antdLoaded) && !old(importMapCreated) ==>
        Loader() == old(Loader()).(importMapCreated := true, mapTimerPending := true)
      ensures !old(antdLoaded) && old(importMapCreated) ==>
        Loader() == old(Loader()).(pendingModules := old(pendingModules) + 1)
    {
      if antdLoaded {
        ExecuteUserCode();
        return;
      }
      if !importMapCreated {
        importMapCreated := true;
        mapTimerPending := true;
      } else {
        LoadAntdModules();
      }
    }

    /**
     * One `checkDependencies` call; `ready` says whether `React`, `ReactDOM`
     * and `Babel` are all defined. When they are not, the next call is
     * scheduled and nothing changes.
     */
    method CheckDependencies(ready: bool)
      requires polling
      modifies this
      ensures !ready ==> Loader() == old(Loader()) && executed == old(executed) && Shown() == old(Shown())
      ensures ready ==>
        var checked := old(Loader()).(dependenciesLoaded := true, polling := false);
        if old(antdLoaded) then
          Loader() == checked && executed == old(executed) + Handed(hasRoot, code, rt)
          && Shown() == AfterRun(Pipeline(hasRoot, code, rt), hasRoot, hasErrorContainer, old(Shown()))
        else
          executed == old(executed) && Shown() == old(Shown())
          && Loader() == if old(importMapCreated) then checked.(pendingModules := old(pendingModules) + 1)
                         else checked.(importMapCreated := true, mapTimerPending := true)
    {
      if ready {
        dependenciesLoaded := true;
        polling := false;
        LoadAntd();
      }
    }

    /** The 100 ms wait after the import map was added ends. */
    method MapTimerElapsed()
      requires mapTimerPending
      modifies this
      ensures Loader() == old(Loader()).(mapTimerPending := false, pendingModules := old(pendingModules) + 1)
      ensures executed == old(executed) && Shown() == old(Shown())
    {
      mapTimerPending := false;
      LoadAntdModules();
    }

    /** A module script's imports resolved: the packages are published and the user code runs. */
    method ModulesLoaded()
      requires pendingModules > 0
      modifies this
      ensures Loader() == old(Loader()).(antdLoaded := true, pendingModules := old(pendingModules) - 1)
      ensures executed == old(executed) + Handed(hasRoot, code, rt)
      ensures Shown() == AfterRun(Pipeline(hasRoot, code, rt), hasRoot, hasErrorContainer, old(Shown()))
    {
      pendingModules := pendingModules - 1;
      antdLoaded := true;
      ExecuteUserCode();
    }

    /** A module script's imports failed. */
    method ModulesFailed(error: Option<ErrorInfo>)
      requires pendingModules > 0
      modifies this
      ensures Loader() == old(Loader()).(pendingModules := old(pendingModules) - 1)
      ensures executed == old(executed)
      ensures Shown() == AfterShowError(hasRoot, hasErrorContainer, AntdFailedMessage, error, old(Shown()))
    {
      pendingModules := pendingModules - 1;
      ShowError(AntdFailedMessage, error);
    }

    /** The 30 s deadline: the timeout message unless a dependency check has succeeded. */
    method Deadline()
      requires deadlinePending
      modifies this
      ensures Loader() == old(Loader()).(deadlinePending := false)
      ensures executed == old(executed)
      ensures Shown() == if old(dependenciesLoaded) then old(Shown())
                         else AfterShowError(hasRoot, hasErrorContainer, DependencyTimeoutMessage, None, old(Shown()))
    {
      deadlinePending := false;
      if !dependenciesLoaded {
        ShowError(DependencyTimeoutMessage, None);
      }
    }
  }

  /**
   * In a document whose dependencies never load, the user code never runs
   * and the deadline reports the timeout: checks that keep failing change
   * nothing, and the deadline shows the message.
   */
  method NeverReady(f: Frame, checks: nat)
    requires f.polling && f.deadlinePending && !f.dependenciesLoaded && f.hasErrorContainer
    modifies f
    ensures f.executed == old(f.executed) && !f.dependenciesLoaded
    ensures f.errorVisible && f.errorText == DependencyTimeoutMessage
  {
    var i := 0;
    while i < checks
      invariant f.polling && f.deadlinePending && !f.dependenciesLoaded
      invariant f.executed == old(f.executed)
    {
      f.CheckDependencies(false);
      i := i + 1;
    }
    f.Deadline();
  }

  /**
   * The first load of a document: the first dependency check succeeds, the
   * import map is added, the 100 ms wait ends, the module script's imports
   * resolve and the user code runs once; the 30 s deadline then changes
   * nothing.
   */
  method FirstLoad(hasRoot: bool, hasErrorContainer: bool, code: seq<Line>, rt: Runtime) returns (f: Frame)
    ensures f.hasRoot == hasRoot && f.hasErrorContainer == hasErrorContainer && f.code == code && f.rt == rt
    ensures f.executed == Handed(hasRoot, code, rt)
    ensures f.Shown() == AfterRun(Pipeline(hasRoot, code, rt), hasRoot, hasErrorContainer, Page(false, "", Empty))
    ensures f.Loader() == LoaderState(true, true, false, true, false, false, 0, false)
  {
    f := new Frame(hasRoot, hasErrorContainer, code, rt);
    f.CheckDependencies(true);
    f.MapTimerElapsed();
    f.ModulesLoaded();
    f.Deadline();
  }
}
