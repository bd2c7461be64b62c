# Live preview of generated React code, and the chat history behind it

This project models, in Dafny, the core of a web application that asks a
language model for React components and renders them live. It has three parts.

- **The preview host.** The `Preview` component
  (`src/components/build/preview/index.tsx`):
  - it cuts the component source out of a Markdown fence;
  - it escapes the source for a JavaScript template literal;
  - it generates the preview document and loads it into an iframe from a blob URL;
  - it watches the iframe's `load` and `error` events and a 30-second
    deadline, and it tidies up when the effect is torn down.
- **The preview document.** `generateHtmlContent`
  (`src/components/build/preview/template.ts`) builds this document. Its
  bootstrap script does the following:
  - it waits for React, ReactDOM and Babel, then loads Ant Design as ES modules;
  - it rewrites the user code: records and deletes the imports, records the
    exports and removes the `export` keywords;
  - it has Babel transform the code and scans the result for component
    declarations;
  - it synthesises `module.exports` assignments and `const` bindings for the
    deleted imports;
  - it runs the code, validates what it returns, and either mounts it or shows
    the error in the document's error container.
- **The chat history.** `DeepSeekCore` (`src/core/deepSeekCore.ts`) keeps a
  queue of chat messages. It truncates each message and trims the queue to a
  window that keeps the first message and the most recent ones.

## Layout

| file | module | contents |
|---|---|---|
| `wrappers.dfy` | `Wrappers` | `Option` |
| `text.dfy` | `Text` | JavaScript's `\s`, `trim`, `indexOf`, `split`, `join` and the global `replace` of a literal pattern |
| `lines.dfy` | `Lines` | the user code as classified lines; one multi-line deletion pass (`replace(/^…\s*$/gm, '')`) |
| `imports.dfy` | `Imports` | the three import extraction loops and the four deletion passes |
| `exports.dfy` | `Exports` | the export passes and the `exportInfo` record |
| `synthesis.dfy` | `Synthesis` | the component scan, `exportCode`, `importBindings` and `require` |
| `escape.dfy` | `Escape` | the host's five-step escape chain, a reader for template literals, and the round trip between them |
| `template_doc.dfy` | `Template` | the generated document |
| `bootstrap.dfy` | `Bootstrap` | `showError`, candidate validation, the whole of `executeUserCode`, and the `Frame` class |
| `host.dfy` | `PreviewHost` | fence extraction, the deadline's diagnosis, and the `Preview` class |
| `queue.dfy` | `MessageQueue` | the `DeepSeekCore` class, with `Truncate` and `Optimize` as its specification |

### How the model is set up

**User code.** The rewriting passes work on lines. Each line is already
classified by the statement shape that the line-anchored regular expressions
recognise: `LineKind`. The passes are modelled as functions on this line
sequence. The code text is the lines joined by LF. Passes that run in place
become methods with loops, for example:
- the `exec` loops (`ExtractImports`, `ScanComponents`);
- the `replace` callbacks (`RewriteDeclarations`, `RecordLists`);
- the `forEach` loops (`BuildImportBindings`).

Each such method is proved equal to the function that specifies it.

**The preview document.** The document is modelled as three parts:
- a fixed head, ending with the backtick that opens `const userCode = \``;
- the escaped code;
- a fixed tail.

The markup and script text of the head and tail are left opaque. The facts the
host relies on are stated explicitly:
- the document contains the root element and the `.error-container` element;
- the `userCode` template literal, read by JavaScript's rules, evaluates back to
  the component source with CRLF and CR turned into LF. This is a statement about
  the literal only; what the HTML parser does to the script around it is left out.

**Foreign code.** The transformer (Babel) and the JavaScript engine are
foreign. A `Runtime` value stands for them: one function gives the transformer's
result for a given input, and another gives the engine's result for a given
synthesised source. `executeUserCode` is then proved to hand the engine exactly
the source the model synthesises (`Handed`). It is also proved to end in
exactly the outcome `Pipeline` describes.

**Events.** Asynchronous events are methods of the two classes:
- on `Frame`: the dependency poll, the import-map wait, the settling of the
  module import, and the 30-second deadline;
- on `Preview`: `load`, `error`, the delayed revocation, the deadline, and the
  cleanup.

**Consequences proved from the code:**
- The final `exportCode` fallback (template.ts:338-340) can never fire. Every
  name the scanner collects is non-empty, so whenever a component was found the
  default assignment has already been emitted (`Synthesis.FallbackDead`).
- The host's "dependency timeout" and "render timeout" messages
  (index.tsx:136-140) never appear for a document this application generates.
  Such a document always has an `.error-container`, so a root that is empty at
  the deadline is reported as `渲染失败: ` followed by at most 200 characters of
  that container's text, which may be empty (`PreviewHost.TemplateTimeout`).
- The `apiOrigin` argument of `generateHtmlContent` is never read
  (`Template.OriginIrrelevant`).

### Timing and teardown in the code

- **Teardown does not cancel in-flight loads.** The host's cleanup sets the
  window's three loader flags to `false` (index.tsx:172-176). A module import
  that settles afterwards still sets `antdLoaded` back to `true` and runs the
  user code (template.ts:169-171). `PreviewHost.LoadAfterCleanup` states this.
- **Listeners are attached after `src`.** The host assigns the iframe's `src`
  (index.tsx:90) before it adds the `load` and `error` listeners
  (index.tsx:105-106). `PreviewHost.Preview.Load` makes both changes in one step.
- **`load` and the deadline are independent.** `handleLoad` does not clear the
  30-second timer (index.tsx:93-97). The timer still ends loading, may set the
  error, and revokes the blob after a `load` (index.tsx:109-147).
  `PreviewHost.Preview.OnDeadline` does not require that no `load` came first.
- **Three globals are checked.** When the document has neither content nor an
  error container, the deadline checks `React`, `ReactDOM` and `Babel`
  (index.tsx:132-134). It does not check Ant Design.

## Model

| member | source | states |
|---|---|---|
| Text.Trim | src/components/build/preview/index.tsx:57 | the result is a slice of the input with only whitespace before and after it; it is empty exactly when the input is all JavaScript whitespace, and otherwise starts and ends with a non-space character |
| Text.IndexOf | src/components/build/preview/template.ts:282-284 | the result is an occurrence at or after the start index, and no occurrence lies between the start and it (or anywhere after the start when there is none) |
| Text.Split | src/components/build/preview/template.ts:282 | `split` always yields at least one piece |
| Text.SplitJoin | src/components/build/preview/template.ts:282 | joining the pieces with the separator gives the text back |
| Text.SplitPiecesAvoidSeparator | src/components/build/preview/template.ts:382 | no piece of a split contains the separator |
| Text.TrimAll | src/components/build/preview/template.ts:382 | `map(s => s.trim())` gives one entry per piece, entry `k` being piece `k` trimmed |
| Lines.DropBlanks | src/components/build/preview/template.ts:247-250 | the trailing `\s*` of a deleting pattern eats exactly the whitespace-only lines at the front of the rest |
| Lines.Delete | src/components/build/preview/template.ts:247-250 | a deletion pass never lengthens the code |
| Lines.DeleteKeepsOthers | src/components/build/preview/template.ts:247-250 | after a deletion pass, the lines that carry code are exactly the unselected code lines, in their original order |
| Lines.DeleteRemovesAll | src/components/build/preview/template.ts:247-250 | after a deletion pass no selected statement is left, and no new kind of statement appears |
| Lines.DeleteKeeps | src/components/build/preview/template.ts:247-250 | every unselected code line survives a deletion pass |
| Imports.TypeOf | src/components/build/preview/template.ts:223-241 | a match is a namespace import exactly when its text contains `* as`; it is a named import exactly when it does not but contains `{` |
| Imports.ImportRecords | src/components/build/preview/template.ts:214-243 | defines the records the extraction collects: for each of the three patterns in turn, one record per `exact` line of that pattern's shape, in line order, typed by `TypeOf`; `ImportRecordsExact` states the correspondence |
| Imports.ExtractImports | src/components/build/preview/template.ts:214-243 | the three `exec` loops push the records of `ImportRecords`: pattern by pattern, in line order |
| Imports.PatternRecordsFrom | src/components/build/preview/template.ts:220-243 | every record of a pattern's loop comes from a line that pattern matches |
| Imports.PatternRecordsComplete | src/components/build/preview/template.ts:220-243 | every line a pattern matches gives its record |
| Imports.ImportRecordsExact | src/components/build/preview/template.ts:214-243 | the records correspond exactly to the extractable statements, with each type read off the statement's text |
| Imports.StripImports | src/components/build/preview/template.ts:246-250 | defines the four deleting passes in source order: namespace, named and default imports, then any other one-line import; `StripImportsSpec` states what is left |
| Imports.StripImportsSpec | src/components/build/preview/template.ts:246-250 | after the four passes no line of an import shape (`LineKind`) is left, and the other code lines are kept in order; imports of no shape are `Plain` lines and stay |
| Imports.NamespaceTyped | src/components/build/preview/template.ts:223-228 | `import * as R from 'react'` is typed as a namespace import |
| Imports.BraceInSourceTypedNamed | src/components/build/preview/template.ts:229-234 | a default import whose module name holds `{` is typed as a named import |
| Exports.ListItems | src/components/build/preview/template.ts:282-286 | an `export { … }` contributes one name per comma-separated piece |
| Exports.Record | src/components/build/preview/template.ts:269-291 | a callback call for a statement of another kind leaves `exportInfo` unchanged |
| Exports.FirstIndex | src/components/build/preview/template.ts:260 | the first line with the tag: no earlier line has it |
| Exports.DefaultName | src/components/build/preview/template.ts:260-262 | a default name is recorded exactly when some line is an `export default Name` statement |
| Exports.Undeclared | src/components/build/preview/template.ts:267-276 | an exported declaration loses its `export` and becomes plain code; any other line is unchanged |
| Exports.RewriteDecls | src/components/build/preview/template.ts:267-276 | the global pass rewrites each line on its own |
| Exports.Unexported | src/components/build/preview/template.ts:296 | a line still starting with `export` loses the keyword; the others are unchanged |
| Exports.StripKeyword | src/components/build/preview/template.ts:296 | the global pass rewrites each line on its own |
| Exports.RemoveFirstDefaultRecords | src/components/build/preview/template.ts:263 | deleting the first `export default Name` does not change what the later passes record |
| Exports.RewriteDeclsRecords | src/components/build/preview/template.ts:267-293 | rewriting the declarations does not change what the `export { … }` pass records |
| Exports.RewriteDeclaration | src/components/build/preview/template.ts:269-275 | one callback call rewrites the line and updates the record |
| Exports.RewriteDeclarations | src/components/build/preview/template.ts:267-276 | the in-place pass computes the rewritten lines and the record of the declaration pass |
| Exports.RecordList | src/components/build/preview/template.ts:281-292 | one callback call appends the items and sets the default to the last item when no default is set yet |
| Exports.RecordLists | src/components/build/preview/template.ts:279-293 | the in-place pass computes the record of the `export { … }` pass |
| Exports.ExportInfoOf | src/components/build/preview/template.ts:254-293 | defines `exportInfo`: the name of the first `export default Name`, then each exported declaration's name, then the items of each `export { … }`, a declaration or list supplying the default while none is set |
| Exports.ExportedCode | src/components/build/preview/template.ts:260-296 | defines the code handed on: the first `export default Name` deleted, declarations unexported, list exports deleted, and every remaining leading `export ` removed; `ExportsStripped` and `KeptLine` state the result |
| Exports.RewriteExports | src/components/build/preview/template.ts:254-296 | the export passes yield `ExportInfoOf` of the original lines (default name, then declarations, then lists) and the rewritten code |
| Exports.ExportsStripped | src/components/build/preview/template.ts:260-296 | no export statement of any kind is left in the code handed to the transformer |
| Exports.KeptLine | src/components/build/preview/template.ts:260-296 | every other code line is kept, rewritten as the passes say; only the first `export default Name` and the `export { … }` lines go |
| Exports.InlineDefaultFunction | src/components/build/preview/template.ts:260-296 | `export default function Foo…` records nothing and reaches the transformer as `default function Foo…` |
| Synthesis.KeywordEnd | src/components/build/preview/template.ts:316 | a keyword match ends after its start and within the text |
| Synthesis.MatchAt | src/components/build/preview/template.ts:316 | a match of the component pattern ends after its start and within the text |
| Synthesis.NextStart | src/components/build/preview/template.ts:318 | `exec` finds the leftmost match at or after `lastIndex`, or reports that there is none |
| Synthesis.NextStartLeftmost | src/components/build/preview/template.ts:318 | conversely, a match with no match before it is the one `exec` finds |
| Synthesis.Scan | src/components/build/preview/template.ts:315-320 | defines the collected names: the capture of each leftmost match from `lastIndex` on, each search resuming after the previous match; `ScanNames` and `ScanSound` state what they are |
| Synthesis.ScanComponents | src/components/build/preview/template.ts:315-320 | the `exec` loop collects `Scan(s, 0)`, each search resuming after the previous match |
| Synthesis.MatchedName | src/components/build/preview/template.ts:316 | a match captures a capitalised word of two or more characters |
| Synthesis.ScanNames | src/components/build/preview/template.ts:315-320 | every collected name is a capitalised word of two or more characters |
| Synthesis.ScanSound | src/components/build/preview/template.ts:315-320 | every collected name was captured by a match in the text |
| Synthesis.RenderStmt | src/components/build/preview/template.ts:325-339 | every emitted assignment is non-empty text |
| Synthesis.RenderEmpty | src/components/build/preview/template.ts:338 | `exportCode` is empty exactly when no assignment was emitted |
| Synthesis.Chosen | src/components/build/preview/template.ts:323 | the chosen default is the recorded default export or the last scanned component |
| Synthesis.DefaultCode | src/components/build/preview/template.ts:323-328 | the `if`/`else if` emits `DefaultStmts` |
| Synthesis.ExportStmts | src/components/build/preview/template.ts:312-340 | defines `exportCode`: the default assignment, the named assignments, and the fallback assignment of the last component when nothing was emitted; `DefaultChoice`, `NamedStmtsExact` and `FallbackDead` state its content |
| Synthesis.BuildExportCode | src/components/build/preview/template.ts:312-340 | the accumulation of `exportCode` emits `ExportStmts` |
| Synthesis.DefaultChoice | src/components/build/preview/template.ts:323-328 | the default assignment comes first: the recorded default, unguarded exactly when the scan found it; otherwise the last scanned component, unguarded |
| Synthesis.NamedStmtsExact | src/components/build/preview/template.ts:331-335 | the named loop emits an assignment for a name exactly when it is a named export and was scanned |
| Synthesis.NamedOnlyDefined | src/components/build/preview/template.ts:331-335 | the same holds for the whole `exportCode` |
| Synthesis.FallbackDead | src/components/build/preview/template.ts:337-340 | with the scanner's names the fallback never fires |
| Synthesis.ModuleVarOf | src/components/build/preview/template.ts:360-372 | the lookup succeeds for the four table entries and for the property names every object inherits; for those it yields the inherited value's text, and it fails for every other name |
| Synthesis.InheritedSpecifiersBindNothing | src/components/build/preview/template.ts:379-403 | the named-import callback emits nothing for an inherited value, since none of its four branches matches |
| Synthesis.InheritedSourceBinds | src/components/build/preview/template.ts:370-417 | an import from an inherited property name is not skipped: a default or namespace import binds its name to the inherited value's text, and a named import binds nothing |
| Synthesis.Specifier | src/components/build/preview/template.ts:384-386 | the alias falls back to the original name: an empty alias means an empty original |
| Synthesis.BindSpecifier | src/components/build/preview/template.ts:383-404 | the inner callback emits `SpecifierBinding` |
| Synthesis.BindSpecifiers | src/components/build/preview/template.ts:382-404 | the inner `forEach` emits the bindings of every specifier, in order |
| Synthesis.BindRecord | src/components/build/preview/template.ts:370-417 | the outer callback emits `RecordBindings` |
| Synthesis.BindingsOf | src/components/build/preview/template.ts:359-418 | defines `importBindings`: the bindings of every record, in record order; `BindingsWellFormed` and `InheritedSourceBinds` state their properties |
| Synthesis.BuildImportBindings | src/components/build/preview/template.ts:359-418 | `importBindings` holds the bindings of every record, in record order |
| Synthesis.SpecifierBindingsAvoidParams | src/components/build/preview/template.ts:388-391 | no specifier binding redeclares a parameter of the execution function, and Ant Design and icon bindings end in the `() => null` fallback |
| Synthesis.BindingsWellFormed | src/components/build/preview/template.ts:368-418 | no binding redeclares a parameter; records whose module is neither in the table nor an inherited property name contribute nothing |
| Synthesis.NamedFallsBackToNull | src/components/build/preview/template.ts:397-403 | every named import from `antd` or the icon package falls back to a component that renders nothing |
| Synthesis.Require | src/components/build/preview/template.ts:426-432 | `require` compares with `===`: it resolves exactly the four table modules (no inherited name) and throws `Cannot find module: name` otherwise |
| Synthesis.RequireMatchesTable | src/components/build/preview/template.ts:426-432 | `require` resolves a module to the variable the bindings use, except `antd`, which it unwraps |
| Escape.EscapeCode | src/components/build/preview/index.tsx:69-74 | defines the host's five `replace` steps in order: backslashes doubled, backticks and `${` escaped, then CRLF and lone CR turned into LF; `EscapeCodeIsOnePass` and `EscapeRoundTrip` give its meaning |
| Escape.NormalizeNewlines | src/components/build/preview/index.tsx:73-74 | no CR is left |
| Escape.SpecialsStages | src/components/build/preview/index.tsx:70-72 | the first three `replace` steps equal one left-to-right pass |
| Escape.NewlineStages | src/components/build/preview/index.tsx:73-74 | the two newline steps equal line-ending normalisation |
| Escape.NormalizeSpecials | src/components/build/preview/index.tsx:69-74 | normalising after the special-character pass equals the one-pass escape |
| Escape.EscapeCodeIsOnePass | src/components/build/preview/index.tsx:69-74 | the five-step chain computes the one-pass escape |
| Escape.UndoubledBackslashIsMisread | src/components/build/preview/index.tsx:70 | without the first step, `\n` in the code would be read as a line feed |
| Escape.DoubledBackslashReadsBack | src/components/build/preview/index.tsx:70 | with it, `\n` reads back as a backslash followed by `n` |
| Escape.ReadBackOnePass | src/components/build/preview/index.tsx:69-74 | the one-pass escape followed by a backtick reads back as the normalised code and closes exactly at its end |
| Escape.EscapeRoundTrip | src/components/build/preview/index.tsx:69-74 | the same round trip for the host's chain itself |
| Escape.OnePassGuarded | src/components/build/preview/index.tsx:70-72 | every backtick and `${` in the escape is preceded by an odd run of backslashes, and the escape ends on an even run |
| Escape.OnePassHasNoCarriageReturn | src/components/build/preview/index.tsx:73-74 | the escape contains no CR |
| Escape.EscapedShape | src/components/build/preview/index.tsx:69-74 | the host's escaped text has no CR and is guarded |
| Template.GenerateHtmlContent | src/components/build/preview/template.ts:1-567 | the document is the fixed head, the escaped code verbatim, and the fixed tail |
| Template.OriginIrrelevant | src/components/build/preview/template.ts:1 | the document does not depend on `apiOrigin` |
| Template.UserCodeReadsBack | src/components/build/preview/template.ts:205 | the `userCode` template literal, read by JavaScript's rules, evaluates to the component source with CRLF and CR turned into LF |
| Template.HasErrorContainer | src/components/build/preview/template.ts:65-66 | every document contains the root element and the `.error-container` element |
| MessageQueue.Truncate | src/core/deepSeekCore.ts:182-191 | short content is kept; longer content becomes its first `max` characters followed by the notice |
| MessageQueue.TruncateIdempotent | src/core/deepSeekCore.ts:182-191 | truncating twice with the same limit changes nothing more |
| MessageQueue.SliceIndex | src/core/deepSeekCore.ts:168-175 | the start index of `slice(start)`: a negative start counts from the end, and the index is clamped to the sequence |
| MessageQueue.JsSliceFrom | src/core/deepSeekCore.ts:168-175 | `slice(-k)` keeps the last `k` entries (all of them when there are fewer); `slice(0)` keeps everything |
| MessageQueue.Optimize | src/core/deepSeekCore.ts:154-177 | within the limit the queue is unchanged; otherwise it keeps the first entry plus the most recent `max - 1`, or the most recent `max`; `max == 1` with keep-first never trims; only entries of the queue are kept |
| MessageQueue.OptimizeWithinLimits | src/core/deepSeekCore.ts:154-177 | under a bounding configuration trimming restores the count limit and keeps the length limit |
| MessageQueue.AfterAddMessage | src/core/deepSeekCore.ts:81-104 | defines the queue after `addMessage`: the truncated user message, then the truncated assistant message when there is one, then `Optimize`; `AddMessageWithinLimits` states the limits it keeps |
| MessageQueue.AddMessageWithinLimits | src/core/deepSeekCore.ts:81-104 | `addMessage` keeps a queue within the limits |
| MessageQueue.AddAssistantWithinLimits | src/core/deepSeekCore.ts:110-124 | `addAssistantMessage` keeps a queue within the limits |
| MessageQueue.DefaultConfigLimits | src/core/deepSeekCore.ts:58-62 | under the default configuration the queue stays at most 20 entries of at most 8000 characters plus the notice |
| MessageQueue.SingleSlotNeverTrims | src/core/deepSeekCore.ts:163-170 | with keep-first and `maxMessages == 1` the queue grows without bound |
| MessageQueue.EmptyGuard | src/core/deepSeekCore.ts:201-205 | the call is rejected exactly when the list to send is empty; an explicit empty list is rejected whatever the queue holds |
| MessageQueue.MergeConfig | src/core/deepSeekCore.ts:243-245 | each supplied field replaces the current one; the others are kept |
| MessageQueue.WithSystemPrompt | src/core/deepSeekCore.ts:131-149 | a non-empty system prompt is put in front when requested; otherwise the queue is returned as it is |
| MessageQueue.DeepSeekCore.constructor | src/core/deepSeekCore.ts:51-63 | an empty queue and the default configuration |
| MessageQueue.DeepSeekCore.OptimizeMessages | src/core/deepSeekCore.ts:154-177 | the queue becomes `Optimize` of the old queue |
| MessageQueue.DeepSeekCore.AddMessage | src/core/deepSeekCore.ts:81-104 | the truncated user message and the optional truncated assistant message are appended, then the queue is trimmed; the limits are preserved |
| MessageQueue.DeepSeekCore.AddAssistantMessage | src/core/deepSeekCore.ts:110-124 | the truncated assistant message is appended, then the queue is trimmed; the limits are preserved |
| MessageQueue.DeepSeekCore.GetOptimizedMessages | src/core/deepSeekCore.ts:131-149 | returns the queue, with the system prompt in front when requested and non-empty |
| MessageQueue.DeepSeekCore.ClearMessages | src/core/deepSeekCore.ts:236-238 | the queue is emptied; the configuration is kept |
| MessageQueue.DeepSeekCore.SetOptimizeConfig | src/core/deepSeekCore.ts:243-245 | the configuration is merged; the queue is not trimmed |
| MessageQueue.DeepSeekCore.GetMessageCount | src/core/deepSeekCore.ts:250-252 | the length of the queue |
| Bootstrap.ErrorMessage | src/components/build/preview/template.ts:81-90 | defines the text `showError` writes: the message, the thrown value's text after a blank line, and its stack under the stack header; `ErrorMessageShape` states the layout |
| Bootstrap.ErrorMessageShape | src/components/build/preview/template.ts:81-90 | the message leads; a thrown value adds its text after a blank line, and its stack closes the text under the stack header |
| Bootstrap.Validate | src/components/build/preview/template.ts:529-542 | a candidate passes exactly when it is truthy and is a function or has `$$typeof`; each rejection carries the message of the first failing check |
| Bootstrap.Pipeline | src/components/build/preview/template.ts:189-551 | defines how `executeUserCode` ends: no root, a transformer failure, an engine error, a rejected candidate, or a mounted component, with the messages of the source; `MountedExactly` and `Frame.ExecuteUserCode` use it |
| Bootstrap.MountedExactly | src/components/build/preview/template.ts:454-546 | a component is mounted exactly when the code transpiles, the engine returns, and the candidate passes the checks |
| Bootstrap.TransformFailureStops | src/components/build/preview/template.ts:299-309 | a transformer failure is reported as such, and nothing is run |
| Bootstrap.RejectedCandidate | src/components/build/preview/template.ts:529-549 | a rejected candidate is reported under the execution message, with the thrown `Error` |
| Bootstrap.Prepare | src/components/build/preview/template.ts:205-296 | the rewriting yields the import records, the export record and the code for the transformer |
| Bootstrap.Synthesize | src/components/build/preview/template.ts:311-442 | the source run is the fixed prologue, the bindings, the transformed code with its exports, and the fixed epilogue |
| Bootstrap.Evaluate | src/components/build/preview/template.ts:203-550 | the `try` block ends in `Pipeline`, having handed the engine exactly `Handed` |
| Bootstrap.Frame.constructor | src/components/build/preview/template.ts:69-72 | the flags start false, the first dependency check is due, and the deadline is set |
| Bootstrap.Frame.ShowError | src/components/build/preview/template.ts:75-98 | the page becomes `AfterShowError`: the container shows `ErrorMessage` and the root is emptied, each only when that element exists; the loader state is unchanged |
| Bootstrap.Frame.ExecuteUserCode | src/components/build/preview/template.ts:189-551 | the page becomes `AfterRun` of the outcome `Pipeline` gives, mounted or showing the failure; the engine is given exactly `Handed`; the loader state is unchanged |
| Bootstrap.Frame.Settle | src/components/build/preview/template.ts:544-550 | a failure goes to `showError`; a success is mounted in the root |
| Bootstrap.Frame.ResetFlags | src/components/build/preview/index.tsx:172-176 | the three window flags become false; nothing else changes |
| Bootstrap.Frame.LoadAntdModules | src/components/build/preview/template.ts:156-185 | one more module import is pending; nothing else changes |
| Bootstrap.Frame.LoadAntd | src/components/build/preview/template.ts:115-154 | with the packages loaded the user code runs, with its whole outcome; otherwise the page is kept, and the import map is created once with a 100 ms wait, or the modules are loaded at once |
| Bootstrap.Frame.CheckDependencies | src/components/build/preview/template.ts:101-112 | a failed check changes nothing and schedules another; a successful one sets the flag, stops polling and runs `loadAntd`, whose three cases it states in full |
| Bootstrap.Frame.MapTimerElapsed | src/components/build/preview/template.ts:149-151 | after the wait the module import starts; the page is kept |
| Bootstrap.Frame.ModulesLoaded | src/components/build/preview/template.ts:163-172 | the packages are marked loaded, one import fewer is pending, and the user code runs: the page becomes `AfterRun` of `Pipeline` |
| Bootstrap.Frame.ModulesFailed | src/components/build/preview/template.ts:173-177 | the Ant Design failure is shown; one import fewer is pending |
| Bootstrap.Frame.Deadline | src/components/build/preview/template.ts:557-561 | without the dependencies at 30 s the timeout message is shown; otherwise the page is kept |
| Bootstrap.NeverReady | src/components/build/preview/template.ts:101-112 | checks that keep failing never run the user code, and the deadline then shows the timeout message |
| Bootstrap.FirstLoad | src/components/build/preview/template.ts:101-172 | a fresh document whose first check succeeds, after the 100 ms wait and the module import, has run the user code once and shows `Pipeline`'s outcome; the 30 s deadline then changes nothing |
| PreviewHost.TagEnd | src/components/build/preview/index.tsx:61 | the optional language tag holds no backtick |
| PreviewHost.FenceSpan | src/components/build/preview/index.tsx:60-62 | the captured body ends where a closing fence starts |
| PreviewHost.ExtractJsx | src/components/build/preview/index.tsx:57-65 | the code used is trimmed |
| PreviewHost.FenceFoundExactly | src/components/build/preview/index.tsx:60-63 | a fenced block is found exactly when the text holds a fence and another fence after the first one ends |
| PreviewHost.FenceBodyHasNoFence | src/components/build/preview/index.tsx:61 | the lazy body holds no fence |
| PreviewHost.NoFenceUsesInput | src/components/build/preview/index.tsx:57-65 | without a fence the trimmed input is used |
| PreviewHost.Prefix | src/components/build/preview/index.tsx:123 | `substring(0, n)` is a prefix of at most `n` characters, and the whole text when it is shorter |
| PreviewHost.HasContent | src/components/build/preview/index.tsx:115-116 | defines content: the root exists and has child nodes or non-blank `innerHTML`; `Diagnose` leaves the error alone exactly then |
| PreviewHost.ViewOf | src/components/build/preview/index.tsx:111-134 | defines what the deadline reads from a `Frame`: the root, whether a component is rendered in it, the error container's text when the document has one, and the three globals as parameters |
| PreviewHost.Diagnose | src/components/build/preview/index.tsx:109-147 | an unreachable document, a failed render, missing globals and a render timeout get their messages; the error is left alone exactly when the root has content |
| PreviewHost.RenderFailedBounded | src/components/build/preview/index.tsx:121-124 | a failed-render report starts with its prefix and quotes at most 200 characters |
| PreviewHost.TemplateTimeout | src/components/build/preview/index.tsx:113-142 | for a generated document with an empty root, the deadline reports a failed render with the document's error text, never a dependency or render timeout |
| PreviewHost.RenderFailedIsNoTimeout | src/components/build/preview/index.tsx:122-140 | a failed-render report differs from both timeout messages |
| PreviewHost.PaneFor | src/components/build/preview/index.tsx:184-192 | the placeholder is rendered exactly for whitespace-only input |
| PreviewHost.Preview.constructor | src/components/build/preview/index.tsx:29-30 | loading, no error, no blob |
| PreviewHost.Preview.Run | src/components/build/preview/index.tsx:32-107 | whitespace input or a missing iframe only ends loading; otherwise the document for the extracted, escaped code becomes a new blob named by `src`, with the handlers and deadline armed; every older blob stays revoked |
| PreviewHost.Preview.Load | src/components/build/preview/index.tsx:50-107 | a new blob named by `src`, loading with no error, handlers armed |
| PreviewHost.Preview.OnLoad | src/components/build/preview/index.tsx:93-97 | loading ends and the blob's revocation is scheduled |
| PreviewHost.Preview.RevokeElapsed | src/components/build/preview/index.tsx:96 | the scheduled blob is revoked |
| PreviewHost.Preview.OnError | src/components/build/preview/index.tsx:99-103 | loading ends with the load-failure error and the blob is revoked |
| PreviewHost.Preview.OnDeadline | src/components/build/preview/index.tsx:109-147 | loading ends, the error becomes the diagnosis when there is one, and the blob is revoked |
| PreviewHost.Preview.Cleanup | src/components/build/preview/index.tsx:149-181 | listeners and deadline are gone, every blob is revoked, and a reachable document's flags are reset |
| PreviewHost.LoadAfterCleanup | src/components/build/preview/index.tsx:161-176 | a module import that settles after the cleanup still marks the packages loaded and runs the user code |

## Left out

- Line classification: the regular expressions that tell import and export statements apart are not modelled character by character. Each line comes already classified (`LineKind`), with its captures.
- Imports the patterns miss: an import followed by a comment, an import without `from` (`import './x.css'`), and a multi-line import that is not a named import are `Plain` lines. They reach the transformer unchanged; what the transformer and the engine then do with them is `Runtime`'s business.
- Template.UserCodeReadsBack: the document is parsed as HTML before the script runs, and the escape does not touch `<`. Component code that contains `</script` ends the script element early, so the literal never runs. The model does not capture this.
- `Text.IsSpace`, `Text.Trim`, `MessageQueue.Truncate`, `PreviewHost.Prefix`: JavaScript strings are sequences of UTF-16 code units, and `length` and `substring` count those units. The model counts one `char` per unit, so it does not capture that `substring(0, n)` can split a surrogate pair, such as an emoji. Normalisation is not modelled either.
- MessageQueue.MergeConfig: the object spread of `setOptimizeConfig` (deepSeekCore.ts:244) also copies a field that is present but `undefined`. The model treats such a field as absent and keeps the old value.
- Imports: the namespace test looks for `* as` with exactly one space, so `import *  as X` is typed as a default import. The classification carries this, but there is no lemma about it.
- Bootstrap.Evaluate: the searches for a component after the engine returns (template.ts:466-489) and the direct-execution fallback (template.ts:490-527) run inside the engine. They are folded into `Runtime.run`'s result.
- Bootstrap.Frame.Settle: `createRoot` and `render` are taken to succeed; an exception from them is not modelled.
- The markup and script text of the preview document (the CDN URLs, styles, the import map, the module script) are opaque constants. Their execution is modelled by the `Frame` events.
- Timers, the network, Blob URLs and the DOM are not modelled as such. Blob URLs are indices into a sequence, timers are flags, and events are method calls the caller orders.
- PreviewHost.Preview.Run: the zero-delay `setIsLoading`/`setError` updates are applied at once.
- PreviewHost.Preview.Run: the branch for a missing iframe after the first check (index.tsx:41-48) is unreachable and is left out.
- PreviewHost.ViewOf: the view of a document gives the root's `innerHTML` as empty. A mounted component is taken to have child nodes at the deadline; React's asynchronous commit is not modelled.
- The mock-code switch (index.tsx:19-26) reads `localStorage` and is left out.
- `callDeepSeekApi` (deepSeekCore.ts:198-231) calls the network. Only its empty-history guard is modelled (`MessageQueue.EmptyGuard`).
- `getInstance` (deepSeekCore.ts:69-74), the singleton, is left out.
- The export and binding code are kept as lists of statements (`ExportStmt`, `Binding`). `Render` and `RenderBindings` give the text.
