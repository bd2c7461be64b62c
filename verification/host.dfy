/**
 * The host side of the live preview (src/components/build/preview/index.tsx):
 * the code is cut out of a Markdown fence, escaped and spliced into the
 * preview document, which is loaded into the iframe from a blob URL; the
 * load, error and deadline handlers and the effect's cleanup update the
 * component's `isLoading` and `error` state.
 */
module PreviewHost {
  import opened Wrappers
  import opened Text
  import opened Escape
  import opened Template
  import opened Bootstrap

  // ----- Fenced-code extraction -----

  const Fence := "```"

  /** The alternatives of `(?:jsx|tsx|javascript|typescript)`, in the order they are tried. */
  const FenceTags: seq<string> := ["jsx", "tsx", "javascript", "typescript"]

  /** No backtick in `s[lo..hi]`. */
  predicate NoBacktick(s: string, lo: nat, hi: nat) {
    forall j :: lo <= j < hi && j < |s| ==> s[j] != '`'
  }

  lemma TagsHaveNoBacktick(k: nat)
    requires k < |FenceTags|
    ensures forall j :: 0 <= j < |FenceTags[k]| ==> FenceTags[k][j] != '`'
  {
  }

  /** The end of the optional language tag after an opening fence that ends at `p`. */
  function TagEnd(s: string, p: nat, k: nat): (r: nat)
    requires p <= |s| && k <= |FenceTags|
    ensures p <= r <= |s| && NoBacktick(s, p, r)
    decreases |FenceTags| - k
  {
    if k == |FenceTags| then p
    else if FenceTags[k] <= s[p..] then
      TagsHaveNoBacktick(k);
      assert forall j :: p <= j < p + |FenceTags[k]| ==> s[j] == FenceTags[k][j - p];
      p + |FenceTags[k]|
    else TagEnd(s, p, k + 1)
  }

  /**
   * The first match of ``` /```(?:jsx|tsx|javascript|typescript)?\s*([\s\S]*?)```/ ```:
   * the bounds of the captured body. The match opens at the first fence; the
   * tag and the blanks after it are taken greedily and the body lazily, so it
   * ends at the first fence after them.
   */
  function FenceSpan(s: string): (r: Option<(nat, nat)>)
    ensures r.Some? ==> r.value.0 <= r.value.1 && OccursAt(s, Fence, r.value.1)
  {
    match IndexOf(s, Fence, 0)
    case None => None
    case Some(i) =>
      var b := SkipSpaces(s, TagEnd(s, i + 3, 0));
      match IndexOf(s, Fence, b)
      case None => None
      case Some(k) => Some((b, k))
  }

  /** The trimmed input, or the trimmed body of its first fenced block. */
  function ExtractJsx(children: string): (r: string)
    ensures r == [] || (!IsSpace(r[0]) && !IsSpace(r[|r| - 1]))
  {
    var t := Trim(children);
    match FenceSpan(t)
    case None => t
    case Some((b, k)) => Trim(t[b..k])
  }

  /** A fence starts with a backtick. */
  lemma NoFenceAtBacktickFree(s: string, j: nat)
    requires j < |s| ==> s[j] != '`'
    ensures !OccursAt(s, Fence, j)
  {
    if j + 3 <= |s| {
      assert s[j..j + 3][0] == s[j];
    }
  }

  /** A search that meets no occurrence in `[lo, hi)` goes on as if it started at `hi`. */
  lemma {:induction false} IndexOfSkips(s: string, pat: string, lo: nat, hi: nat)
    requires |pat| > 0 && lo <= hi
    requires forall j :: lo <= j < hi ==> !OccursAt(s, pat, j)
    ensures IndexOf(s, pat, lo) == IndexOf(s, pat, hi)
    decreases hi - lo
  {
    if lo < hi && lo + |pat| <= |s| {
      assert !OccursAt(s, pat, lo);
      IndexOfSkips(s, pat, lo + 1, hi);
    }
  }

  /**
   * A fenced block is found exactly when the text holds a fence and another
   * one that starts after the first one ends.
   */
  lemma FenceFoundExactly(s: string)
    ensures FenceSpan(s).None? <==>
      IndexOf(s, Fence, 0).None? || IndexOf(s, Fence, IndexOf(s, Fence, 0).value + 3).None?
  {
    var first := IndexOf(s, Fence, 0);
    if first.Some? {
      var i := first.value;
      var a := TagEnd(s, i + 3, 0);
      var b := SkipSpaces(s, a);
      assert NoBacktick(s, i + 3, b) by {
        forall j | i + 3 <= j < b && j < |s| ensures s[j] != '`' {
          if j >= a {
            assert IsSpace(s[j]);
          }
        }
      }
      forall j | i + 3 <= j < b ensures !OccursAt(s, Fence, j) {
        NoFenceAtBacktickFree(s, j);
      }
      IndexOfSkips(s, Fence, i + 3, b);
    }
  }

  /** The body holds no fence: it ends at the first closing fence. */
  lemma FenceBodyHasNoFence(s: string)
    requires FenceSpan(s).Some?
    ensures !Contains(s[FenceSpan(s).value.0..FenceSpan(s).value.1], Fence)
  {
    var b := FenceSpan(s).value.0;
    var k := FenceSpan(s).value.1;
    assert k == IndexOf(s, Fence, b).value;
    NoOccurrenceInSlice(s, Fence, b, k);
  }

  /** Without a fenced block the trimmed input is used as it is. */
  lemma NoFenceUsesInput(children: string)
    requires !Contains(Trim(children), Fence)
    ensures ExtractJsx(children) == Trim(children)
  {
  }

  // ----- The deadline diagnosis -----

  const NoDocumentMessage := "无法访问 iframe 内容"
  const RenderFailedPrefix := "渲染失败: "
  const RenderTimeoutMessage := "渲染超时，请检查代码是否正确"
  const LoadFailedMessage := "iframe 加载失败"

  /**
   * What the deadline handler reads from the iframe: nothing when its
   * document cannot be reached; otherwise `#root` (whether it exists, has
   * child nodes, its `innerHTML`), the text of the first `.error-container`
   * if there is one, and whether `React`, `ReactDOM` and `Babel` are defined.
   */
  datatype FrameView =
    | Unreachable
    | Reachable(rootPresent: bool, rootHasChildren: bool, rootHtml: string, errorContainer: Option<string>,
                reactDefined: bool, reactDomDefined: bool, babelDefined: bool)

  predicate HasContent(v: FrameView)
    requires v.Reachable?
  {
    v.rootPresent && (v.rootHasChildren || Trim(v.rootHtml) != "")
  }

  /** `text.substring(0, n)` */
  function Prefix(text: string, n: nat): (r: string)
    ensures |r| <= n && r <= text
    ensures |text| <= n ==> r == text
  {
    if |text| <= n then text else text[..n]
  }

  /** The error the deadline handler sets, or `None` when it leaves `error` as it is. */
  function Diagnose(v: FrameView): (r: Option<string>)
    ensures v.Unreachable? ==> r == Some(NoDocumentMessage)
    ensures r.None? <==> v.Reachable? && HasContent(v)
    ensures v.Reachable? && !HasContent(v) && v.errorContainer.Some? ==>
      r == Some(RenderFailedPrefix + Prefix(v.errorContainer.value, 200))
    ensures v.Reachable? && !HasContent(v) && v.errorContainer.None? ==>
      r == Some(if v.reactDefined && v.reactDomDefined && v.babelDefined then RenderTimeoutMessage else DependencyTimeoutMessage)
  {
    match v
    case Unreachable => Some(NoDocumentMessage)
    case Reachable(_, _, _, container, react, reactDom, babel) =>
      if HasContent(v) then None
      else if container.Some? then Some(RenderFailedPrefix + Prefix(container.value, 200))
      else if !react || !reactDom || !babel then Some(DependencyTimeoutMessage)
      else Some(RenderTimeoutMessage)
  }

  /** A report of a failed render shows at most 200 characters of the document's error text. */
  lemma RenderFailedBounded(v: FrameView)
    requires v.Reachable? && !HasContent(v) && v.errorContainer.Some?
    ensures |Diagnose(v).value| <= |RenderFailedPrefix| + 200
    ensures Diagnose(v).value[..|RenderFailedPrefix|] == RenderFailedPrefix
  {
  }

  /** The view of a preview document, as its script has left it. */
  function ViewOf(f: Frame, reactDefined: bool, reactDomDefined: bool, babelDefined: bool): FrameView
    reads f
  {
    Reachable(f.hasRoot, f.root.Rendered?, "", if f.hasErrorContainer then Some(f.errorText) else None,
              reactDefined, reactDomDefined, babelDefined)
  }

  /**
   * The generated document always has an `.error-container`, so when its
   * root is empty at the deadline the host reports a failed render with the
   * document's own error text, whatever the dependencies: the host's
   * dependency and render timeout messages are never shown for it.
   */
  lemma TemplateTimeout(apiOrigin: string, escapedCode: string, f: Frame, react: bool, reactDom: bool, babel: bool)
    requires f.hasErrorContainer == Contains(GenerateHtmlContent(apiOrigin, escapedCode), ErrorContainerClass)
    requires f.root == Empty
    ensures Diagnose(ViewOf(f, react, reactDom, babel)) == Some(RenderFailedPrefix + Prefix(f.errorText, 200))
    ensures Diagnose(ViewOf(f, react, reactDom, babel)) != Some(DependencyTimeoutMessage)
    ensures Diagnose(ViewOf(f, react, reactDom, babel)) != Some(RenderTimeoutMessage)
  {
    HasErrorContainer(apiOrigin, escapedCode);
    RenderFailedIsNoTimeout(Prefix(f.errorText, 200));
  }

  /** A failed-render report is told apart from both timeout messages by its first characters. */
  lemma RenderFailedIsNoTimeout(text: string)
    ensures RenderFailedPrefix + text != DependencyTimeoutMessage
    ensures RenderFailedPrefix + text != RenderTimeoutMessage
  {
    var r := RenderFailedPrefix + text;
    assert r[0] == '渲' && DependencyTimeoutMessage[0] == '依';
    assert r[2] == '失' && RenderTimeoutMessage[2] == '超';
  }

  // ----- The component -----

  datatype Pane = Placeholder | Sandbox

  /** What the component renders: the placeholder for whitespace-only input. */
  function PaneFor(children: string): (p: Pane)
    ensures p == Placeholder <==> AllSpace(children)
  {
    if Trim(children) == "" then Placeholder else Sandbox
  }

  /**
   * The `Preview` component's state and the effect's resources. A blob URL
   * is the index of its blob in `blobs`; the timers are flags.
   */
  class Preview {
    var isLoading: bool
    var error: Option<string>
    /** The contents of the blobs created, in order. */
    var blobs: seq<string>
    var revoked: set<nat>
    /** The blob the iframe's `src` names. */
    var src: Option<nat>
    /** The blob of the effect run in place. */
    var current: nat
    /** The effect registered a cleanup. */
    var effectActive: bool
    /** The `load` and `error` listeners are attached. */
    var listening: bool
    /** The 30 s deadline is scheduled. */
    var deadlineArmed: bool
    /** Blobs whose revocation 1000 ms after `load` is scheduled. */
    var pendingRevokes: set<nat>

    /** Every blob is revoked except the one of the effect in place, and handlers only run while an effect is in place. */
    predicate Valid()
      reads this
    {
      && (effectActive ==> current < |blobs|)
      && (forall b :: 0 <= b < |blobs| && !(effectActive && b == current) ==> b in revoked)
      && ((listening || deadlineArmed) ==> effectActive)
      && (forall b :: b in pendingRevokes ==> b < |blobs|)
    }

    constructor()
      ensures Valid() && isLoading && error == None
      ensures blobs == [] && revoked == {} && src == None && pendingRevokes == {}
      ensures !effectActive && !listening && !deadlineArmed
    {
      isLoading := true;
      error := None;
      blobs := [];
      revoked := {};
      src := None;
      current := 0;
      effectActive := false;
      listening := false;
      deadlineArmed := false;
      pendingRevokes := {};
    }

    /**
     * The effect for the input `children`; `mounted` says whether the iframe
     * element exists. The zero-delay state updates are applied at once.
     */
    method Run(children: string, apiOrigin: string, mounted: bool)
      requires Valid() && !effectActive
      modifies this
      ensures Valid()
      ensures revoked == old(revoked) && pendingRevokes == old(pendingRevokes)
      ensures AllSpace(children) || !mounted ==>
        !isLoading && error == old(error) && blobs == old(blobs) && src == old(src)
        && !effectActive && !listening && !deadlineArmed
      ensures !AllSpace(children) && mounted ==>
        isLoading && error == None
        && blobs == old(blobs) + [GenerateHtmlContent(apiOrigin, EscapeCode(ExtractJsx(children)))]
        && current == |old(blobs)| && src == Some(current)
        && effectActive && listening && deadlineArmed
    {
      if Trim(children) == "" || !mounted {
        isLoading := false;
        return;
      }
      var jsxCode := ExtractJsx(children);
      var escapedCode := EscapeCode(jsxCode);
      var htmlContent := GenerateHtmlContent(apiOrigin, escapedCode);
      Load(htmlContent);
    }

    /** The effect once the document is generated: a new blob, named by `src`, with the handlers set. */
    method Load(htmlContent: string)
      requires Valid() && !effectActive
      modifies this
      ensures Valid()
      ensures revoked == old(revoked) && pendingRevokes == old(pendingRevokes)
      ensures isLoading && error == None
      ensures blobs == old(blobs) + [htmlContent] && current == |old(blobs)| && src == Some(current)
      ensures effectActive && listening && deadlineArmed
    {
      isLoading := true;
      error := None;
      current := |blobs|;
      blobs := blobs + [htmlContent];
      src := Some(current);
      listening := true;
      deadlineArmed := true;
      effectActive := true;
    }

    /** The iframe's `load` event: loading ends and the blob is revoked 1000 ms later. */
    method OnLoad()
      requires Valid() && listening
      modifies this
      ensures Valid() && !isLoading
      ensures pendingRevokes == old(pendingRevokes) + {current}
      ensures error == old(error) && revoked == old(revoked) && blobs == old(blobs) && src == old(src)
      ensures listening && deadlineArmed == old(deadlineArmed) && effectActive
    {
      isLoading := false;
      pendingRevokes := pendingRevokes + {current};
    }

    /** A revocation scheduled by `load` runs; cleanup does not cancel it. */
    method RevokeElapsed(b: nat)
      requires Valid() && b in pendingRevokes
      modifies this
      ensures Valid()
      ensures revoked == old(revoked) + {b} && pendingRevokes == old(pendingRevokes) - {b}
      ensures isLoading == old(isLoading) && error == old(error) && blobs == old(blobs)
      ensures effectActive == old(effectActive) && listening == old(listening) && deadlineArmed == old(deadlineArmed)
    {
      revoked := revoked + {b};
      pendingRevokes := pendingRevokes - {b};
    }

    /** The iframe's `error` event: loading ends with an error and the blob is revoked at once. */
    method OnError()
      requires Valid() && listening
      modifies this
      ensures Valid() && !isLoading && error == Some(LoadFailedMessage)
      ensures revoked == old(revoked) + {current}
      ensures blobs == old(blobs) && src == old(src) && pendingRevokes == old(pendingRevokes)
      ensures listening && deadlineArmed == old(deadlineArmed) && effectActive
    {
      isLoading := false;
      error := Some(LoadFailedMessage);
      revoked := revoked + {current};
    }

    /** The 30 s deadline, with what it reads from the iframe. Neither `load` nor `error` cancels it. */
    method OnDeadline(view: FrameView)
      requires Valid() && deadlineArmed
      modifies this
      ensures Valid() && !isLoading && !deadlineArmed
      ensures error == (if Diagnose(view).Some? then Diagnose(view) else old(error))
      ensures revoked == old(revoked) + {current}
      ensures blobs == old(blobs) && src == old(src) && pendingRevokes == old(pendingRevokes)
      ensures listening == old(listening) && effectActive
    {
      isLoading := false;
      deadlineArmed := false;
      var diagnosis := Diagnose(view);
      if diagnosis.Some? {
        error := diagnosis;
      }
      revoked := revoked + {current};
    }

    /**
     * The effect's cleanup: the listeners are removed, the deadline is
     * cleared, the blob is revoked and, when the document can be reached
     * (`frame` is not null), its window flags are reset.
     */
    method Cleanup(frame: Frame?)
      requires Valid() && effectActive
      modifies this, frame
      ensures Valid() && !effectActive && !listening && !deadlineArmed
      ensures forall b :: 0 <= b < |blobs| ==> b in revoked
      ensures revoked == old(revoked) + {current}
      ensures isLoading == old(isLoading) && error == old(error) && blobs == old(blobs) && src == old(src)
      ensures pendingRevokes == old(pendingRevokes)
      ensures frame != null ==>
        frame.Loader() == old(frame.Loader()).(dependenciesLoaded := false, antdLoaded := false, iconsLoaded := false)
        && frame.executed == old(frame.executed) && frame.root == old(frame.root)
        && frame.errorVisible == old(frame.errorVisible) && frame.errorText == old(frame.errorText)
    {
      listening := false;
      deadlineArmed := false;
      revoked := revoked + {current};
      effectActive := false;
      if frame != null {
        frame.ResetFlags();
      }
    }
  }

  /**
   * The reset does not stop a module load already under way: when it
   * settles, the packages are marked loaded again and the user code runs.
   */
  method LoadAfterCleanup(p: Preview, f: Frame)
    requires p.Valid() && p.effectActive && f.pendingModules > 0
    modifies p, f
    ensures !p.effectActive && f.antdLoaded
    ensures f.executed == old(f.executed) + Handed(f.hasRoot, f.code, f.rt)
  {
    p.Cleanup(f);
    f.ModulesLoaded();
  }
}
