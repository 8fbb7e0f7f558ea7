# Mini CodePen core, modelled in Dafny

Mini CodePen is a browser playground: three text areas (HTML, CSS, JS) are
combined into one page shown in a sandboxed preview frame, the editor state is
kept in the browser's local storage, and the code can be downloaded as a zip.
Everything lives in one script, `assets/app.js`. Most of it wires DOM events.
This project models the text and state logic inside that wiring:

- **Indentation editor** (`indentation.dfy`, `lines.dfy`). Tab inserts two
  spaces at the selection start. Shift+Tab cuts the selected slice into
  `\n`-separated lines, strips two leading spaces (or else one) from each,
  counts what it removed and moves the selection end back by that count. A
  `Textarea` class holds `value`, `selStart` and `selEnd`. Its methods are
  proved against the pure functions `IndentKey` and `UnindentKey`. The lemmas
  about those functions carry the properties. The first "line" of a selection
  begins at the selection start, not at the start of its line. The model keeps
  this behaviour, and `FirstLineStartsAtSelection` shows it on an example.
- **Document assembly** (`document.dfy`). `BuildSrcDoc` fills a fixed template:
  doctype and head, a transparent reset style, the user CSS in `<style>`, then
  in the body the user HTML and the user JS wrapped in
  `try{…}catch(e){console.error(e)}`.
- **Persistence** (`persistence.dfy`, `wrappers.dfy`). The stored value is
  taken after parsing, as `Option<Record>` whose properties are each optional.
  `Restore` is the coalescing done by `load`. `Payload` is the record that
  `save` writes. The layout lives in the set of classes on the document body.
- **Export** (`bundle.dfy`). The six archive entries, and the outcome of a
  click: the zip, or the single page as a fallback, or an alert.
- **The page** (`playground.dfy`). A `Page` class with the three editors, the
  auto-run box, the body classes, the storage slot and the last preview
  document. Its methods are the handlers: `Load`, `Save`, `Run`, start-up, the
  layout toggle, the auto-run change and the Tab keydown.

Two details of `load` shape the model:

- When nothing usable is stored, `load` sets the three editors and adds
  `side-by-side`, but never touches the auto-run box (`assets/app.js:39-50`).
  So `Restore` keeps the box's previous state.
- `load` adds a layout class to the body and never removes one. The page's
  layout equals the loaded one only when the body had no `stacked` class
  before. The classes the markup puts on the body are a parameter of the
  `Page` constructor, and `Reopen` states its round trip under that condition.

## Model

| member | source | states |
|---|---|---|
| `Lines.Split` | assets/app.js:301 | `split('\n')` always yields at least one piece, and no piece contains a line feed |
| `Lines.SplitCount` | assets/app.js:301 | a text with k line feeds splits into k + 1 pieces |
| `Lines.JoinOfSplit` | assets/app.js:301-308 | joining the pieces with `\n` gives back the split text |
| `Lines.SplitPrefix` | assets/app.js:301 | a prefix with no line feed joins the first piece of what follows it |
| `Lines.SplitOfJoin` | assets/app.js:301-308 | pieces with no line feed come back unchanged from a join followed by a split |
| `Lines.Join` | assets/app.js:308 | `join('\n')`: the joined text starts with the first piece |
| `Lines.JoinSnoc` | assets/app.js:308 | appending a piece adds one `\n` and then that piece to the joined text |
| `Indentation.LeadingSpaces` | assets/app.js:304-305 | the count is at most the length; that many characters are spaces; the next character is not a space |
| `Indentation.StripLine` | assets/app.js:303-307 | a line loses exactly min(2, its leading spaces) characters, and only spaces are removed |
| `Indentation.StripAll` | assets/app.js:303-307 | the mapped lines keep their number and order; each is its line stripped |
| `Indentation.TotalRemoved` | assets/app.js:302-307 | the final `removed` counter is at most twice the number of lines |
| `Indentation.StripLines` | assets/app.js:302-307 | the map with its `removed` counter gives the stripped lines and the total count |
| `Indentation.RemovedIsLengthDrop` | assets/app.js:302-308 | the counter equals the drop in length of the rejoined text |
| `Indentation.StripAllKeepsLines` | assets/app.js:301-308 | splitting the rejoined text gives exactly the stripped lines, so no line is added or merged |
| `Indentation.StripAllIdentity` | assets/app.js:303-307 | when no line starts with a space, nothing changes and the counter is 0 |
| `Indentation.UnindentSelection` | assets/app.js:299-308 | the rewritten selected slice is shorter than the slice by exactly the `removed` count |
| `Indentation.UnindentSelectionPerLine` | assets/app.js:299-307 | at most two characters go per selected line, lines being counted by line feeds plus one |
| `Indentation.UnindentSelectionLines` | assets/app.js:301-308 | the rewritten slice splits into the old lines, each stripped, so the line count is kept |
| `Indentation.UnindentSelectionIdentity` | assets/app.js:301-308 | when no selected line starts with a space, the slice is unchanged and nothing is counted |
| `Indentation.IndentKey` | assets/app.js:313-316 | Tab leaves a valid, collapsed selection at start + 2, and the text grows by two characters |
| `Indentation.UnindentKey` | assets/app.js:297-311 | Shift+Tab leaves a valid selection with the same start and an end no later than before; the text shrinks by exactly the distance the end moved back |
| `Indentation.IndentInsertsTab` | assets/app.js:313-316 | Tab gives `value[..start] + "  " + value[start..]`, which is two characters longer; both selection ends become start + 2 |
| `Indentation.UnindentSelectionBounds` | assets/app.js:297-311 | after Shift+Tab the selection is valid and keeps its start. The text shrinks by exactly the distance the end moved back, at most two characters per selected line |
| `Indentation.UnindentKeepsOutside` | assets/app.js:297-311 | Shift+Tab keeps the text before the selection start and the text after the selection end, which now sits at the new end |
| `Indentation.UnindentTab` | assets/app.js:301-308 | Shift+Tab over exactly two spaces removes both and counts 2 |
| `Indentation.UnindentUndoesIndent` | assets/app.js:297-316 | Shift+Tab over the two spaces Tab just inserted restores the original text |
| `Indentation.UnindentKeyIdentity` | assets/app.js:297-311 | when no selected line starts with a space, Shift+Tab leaves the text and the selection unchanged |
| `Indentation.ShiftTabAfterTab` | assets/app.js:297-316 | Shift+Tab right after Tab changes nothing, because Tab leaves a collapsed caret and an empty selection |
| `Indentation.FirstLineStartsAtSelection` | assets/app.js:299-301 | in `"  x"` with selection [1, 3), only one of the line's two spaces is removed, because the first line starts at the selection start |
| `Indentation.Textarea.constructor` | assets/app.js:4-6 | an editor holding a text, with the caret at its end |
| `Indentation.Textarea.SetValue` | assets/app.js:33-35 | assigning a different value puts the caret at the end of the new text; assigning the same value changes nothing |
| `Indentation.Textarea.Indent` | assets/app.js:313-316 | the new text and selection are `IndentKey` of the old ones, and the selection stays valid |
| `Indentation.Textarea.Unindent` | assets/app.js:297-311 | the new text and selection are `UnindentKey` of the old ones, and the selection stays valid |
| `Indentation.Textarea.HandleTabKey` | assets/app.js:290-317 | a key other than Tab changes nothing; Tab indents; Shift+Tab unindents |
| `Document.BuildSrcDoc` | assets/app.js:65-71 | the page is a fixed overhead longer than the three inputs together |
| `Document.SrcDocStart` | assets/app.js:65-71 | the page starts with the doctype, the head and the reset style |
| `Document.CssVerbatim` | assets/app.js:66-70 | the user CSS appears verbatim right after the head, the reset style and `<style>` |
| `Document.HeadClosesAfterCss` | assets/app.js:68-70 | right after the CSS come `</style>` and `</head><body>`, which end where the HTML begins |
| `Document.HtmlVerbatim` | assets/app.js:66-70 | the user HTML appears verbatim after the end of the CSS, right after `</head><body>` |
| `Document.ScriptOpensTry` | assets/app.js:67-70 | right after the HTML comes `<script>` and `try{`, which ends where the JS begins |
| `Document.JsWrapped` | assets/app.js:67-70 | the user JS appears verbatim after the HTML, and the page ends with the catch that logs to the console, `</script>` and the closing tags |
| `Document.FragmentsOfSrcDoc` | assets/app.js:65-71 | the three inputs can be read back from the page given their lengths, so building loses nothing |
| `Bundle.LookupFinds` | assets/app.js:185-190 | in entries with distinct names, looking up an entry's name yields that entry's content |
| `Bundle.ExportEntries` | assets/app.js:160-190 | the archive has six files under distinct names |
| `Bundle.ExportEntriesContents` | assets/app.js:160-190 | looked up by name, the archive holds the built page, the three sources verbatim, the viewer and the README |
| `Bundle.Export` | assets/app.js:145-217 | exactly one outcome per click. The zip when archiving works. Otherwise the single `preview.html` page, built from the same editor contents as the zip's page. Otherwise the alert |
| `Persistence.ClassName` | assets/app.js:37-38 | the class written is `stacked` exactly for the stacked layout |
| `Persistence.LayoutOf` | assets/app.js:59 | with exactly one layout class on the body, the layout read back is the one that class names |
| `Persistence.Payload` | assets/app.js:53-60 | `save` writes every property, and writes `'stacked'` exactly for the stacked layout |
| `Persistence.Restore` | assets/app.js:28-51 | with nothing usable stored, the result is the defaults with the side-by-side layout. The layout is stacked exactly when the stored layout is `'stacked'` |
| `Persistence.RestoreFieldByField` | assets/app.js:31-38 | each missing text field falls back to its own default only; auto-run is on only when stored truthy; any layout but `stacked` is side by side |
| `Persistence.SaveLoadRoundTrip` | assets/app.js:53-62 | loading what `save` wrote gives back html, css, js, auto-run and layout unchanged |
| `Persistence.LoadSaveLoad` | assets/app.js:28-62 | a loaded state is a fixed point of save followed by load |
| `Persistence.ToggledClasses` | assets/app.js:133-140 | after the toggle exactly one layout class is on the body, and no other class is added or removed |
| `Persistence.ToggleSwapsLayout` | assets/app.js:133-140 | the toggle swaps the two layouts |
| `Persistence.ToggleTwice` | assets/app.js:133-140 | toggling twice gives back the layout, and gives back the classes when one layout class was present |
| `Playground.Page.constructor` | assets/app.js:4-16 | a page before its script runs: empty editors and the body classes the markup gives |
| `Playground.Page.Load` | assets/app.js:28-51 | the editors and checkbox take the coalesced values. The body gains the loaded layout's class. The page's state equals the loaded snapshot when `stacked` was absent before |
| `Playground.Page.Save` | assets/app.js:53-62 | the storage slot holds the payload of the current state |
| `Playground.Page.Run` | assets/app.js:89-108 | the preview receives the page built from the three editors, then the state is saved |
| `Playground.Page.Start` | assets/app.js:441-442 | after start-up the page shows what was stored, its preview is built from it, and it is saved |
| `Playground.Page.ToggleLayout` | assets/app.js:133-142 | the body classes are toggled, the layout changes, and the state is saved |
| `Playground.Page.SetAutorun` | assets/app.js:121 | a change of the checkbox is stored at once |
| `Playground.Page.OnTabKey` | assets/app.js:318-330 | a Tab keydown edits the editor as `HandleTabKey` says, saves, and rebuilds the preview only when auto-run is on. Other keys change nothing |
| `Playground.Reopen` | assets/app.js:28-62 | a new page over the same storage, whose body does not start out `stacked`, shows what the old page last saved |

## Left out

- The preview frame's rendering: the `fading` class and its timers, the `onload` handler, and the `document.write` fallback when `srcdoc` cannot be set (`assets/app.js:89-106`). `Run` only records the document given to the frame.
- `debounce` and auto-run while typing (`assets/app.js:110-130`). Both depend on wall-clock timers; the input handler's `save` is covered by `Save`.
- Loading JSZip from the network, compressing, and starting the browser download (`assets/app.js:145-219`). `Bundle.Export` takes the success of each attempt as a parameter and keeps only the entry list and the outcome.
- Clipboard copy buttons, badges and live regions (`assets/app.js:340-438`). These are browser APIs, asynchronous and layout dependent.
- The saved indicator timer, preview width buttons, keyboard shortcuts, Clear with its `confirm`, Open in a new window, and preview scrolling (`assets/app.js:73-86`, `221-287`, `332-338`). All of it is UI plumbing.
- The mobile navigation menu (`assets/app.js:446-511`), which moves DOM nodes around.
- JSON and `localStorage` themselves. The stored value is modelled after parsing. A missing key, an empty string, and content that fails to parse or is `null` are all `None`. A stored property that is absent or `null` is `None`. A non-boolean auto-run value is reduced to its truthiness. A stored text that is not a string is taken as its string form. A `setItem` that throws (storage full or disabled) is not modelled.
- `preventDefault` on the key event, and the focus handling.
- Bundle.Export: the editors are read once per click. The handler is asynchronous: it builds the zip's page after awaiting the library (`assets/app.js:150-161`) and the fallback page again after awaiting compression (`assets/app.js:193-205`). Edits made while a download is pending, and clicks that start a second export meanwhile, are not modelled.
- The markup's initial editor contents. `load` overwrites all three editors, so the `Page` constructor starts them empty.
- Indentation.Textarea.SetValue: assigning `value` also turns CR LF and a lone CR into LF in a browser. The model keeps the text as given. The defaults hold no CR, and a browser editor's value never does, so what `save` stores holds none either; only a stored value written by other means could differ.
- Strings are sequences of Dafny characters. JavaScript indexes UTF-16 code units, so a selection inside a surrogate pair is not modelled.
