# Rich-text editor skin: event-driven state and command dispatch

A Dafny model of the logic behind a browser document editor's widgets.
The editor has a title field, a hierarchical menu bar, a formatting toolbar and an editable surface.
Every formatting action reaches the browser through `document.execCommand`.
Rendering is left out; each event handler is a transition on explicit state.

- `Host` (host.dfy) is the browser as the editor sees it.
  - A `Document` class holds `designMode`, the current selection, and an ordered log of the writes of `designMode`, the `execCommand` calls, the surface's `focus()` calls and the `window.print()` calls (`DesignMode`, `ExecCommand`, `Focus`, `Print`).
  - The surface's `contentEditable`, `innerHTML` and paste listeners are fields of the `Element` class, not log entries. `window.prompt` answers are inputs, and `getSelection` reads the `selection` field.
  - An `Element` class is the editable surface (`innerHTML`, `contentEditable`, registered paste listeners).
  - Whether the host raises for a command is an input (`rejects`); the caller cannot predict it.
  - `Commands` extracts the issued commands from a log; `ModeAfter` gives the `designMode` a log leaves behind.
  - `AcceptedUrl` is the `if (url)` test on a `window.prompt` answer (None = cancelled).
- `EditorUtils` (editor_utils.dfy) models `formatDoc`: design mode on, one `execCommand`, the exception swallowed, design mode off. It also models the surface readers and writers.
- `MenuBar` (menu_bar.dfy) models each `MenuItem` two ways:
  - a pure state machine: `ItemState`, `Step` and `Run` over `MouseEnter`, `MouseLeave`, `Fire(id)` and `Click`;
  - a `MenuItem` class whose handlers are proved to perform those steps.
  - Time is abstract: a mouse-leave adds a fresh handle to the item's pending timers, and a timer firing is an explicit event.
  - The module also holds the bar's table of leaves and their actions.
- `Toolbar` (toolbar.dfy) models the `Dropdown` class, the `Toolbar` class (font name and size), and the button-to-command table with its two prompt-gated buttons.
  - A callback prop call (`onChange`, `onFormatClick`) is modelled as the value the handler returns.
- `Editor` (editor.dfy) models the title rules (with JavaScript's `trim()` whitespace set), the guarded `handleFormatClick`, the paste handler, and the mount effect with its cleanup. It also wires toolbar requests into `handleFormatClick`.

Behaviours of the code a reader may not expect (the model follows the code):

- A mouse-leave does not clear the timer armed by an earlier mouse-leave (project/src/components/MenuBar.tsx:23-28), so two of the item's timers can be pending at once.
  - The wrapper and the submenu panel both report a leave (project/src/components/MenuBar.tsx:44-45, 60-61), so two timers can be pending.
  - A later mouse-enter clears only the last one. The other one still fires and closes an item under the pointer: `OrphanedTimerClosesReenteredItem`, `LeavesThenEnterOrphans`, `OrphanedTimerScenario`.
- `formatDoc` always ends with design mode off. It does not restore an earlier `on` (`FormatDocEndsOff`).
- A leaf click closes the leaf item's own `isOpen`, not its parent's. If the leaf action raises, even that close is skipped and the exception reaches the caller (`MenuItem.HandleClick`).
- On a real unmount React detaches `editorRef` before the effect's cleanup runs. The cleanup's `editorRef.current?.removeEventListener` (project/src/components/Editor.tsx:27) then finds no surface, and the listener stays on the removed element (`UnmountScenario`). `MountThenCleanup` restores the listeners only while the ref is still attached, as in StrictMode's simulated remount.
- Menu-bar commands call `execCommand` directly (`HandleCommand`): no design-mode bracket, no focus, no `try`. Toolbar commands go through `handleFormatClick` and `formatDoc`.
- A plain toolbar button reaches the host with value `""`, not `undefined`, because `handleFormatClick` defaults it (`ToolbarButtonCommands`).
- The dropdown does not store the selected value. The toolbar holds it and passes it back as a prop.

## Model

| member | source | states |
|---|---|---|
| `EditorUtils.FormatDoc` | project/src/utils/editorUtils.ts:4-17 | appends exactly design-mode on, one `execCommand(command, value)`, design-mode off to the host log; returns normally whether or not the host raised; design mode ends off |
| `EditorUtils.FormatDocIssuesOneCommand` | project/src/utils/editorUtils.ts:8-10 | after any prior log, `formatDoc` adds exactly one command, with the given name and value |
| `EditorUtils.FormatDocModeOnAtCommand` | project/src/utils/editorUtils.ts:6-10 | the `execCommand` call is made while design mode is on, whatever it was before |
| `EditorUtils.FormatDocEndsOff` | project/src/utils/editorUtils.ts:13-16 | after `formatDoc` design mode is off for every prior mode and either host outcome, so a prior `on` is not restored |
| `EditorUtils.InsertHTML` | project/src/utils/editorUtils.ts:37-39 | issues one `insertHTML` command with the markup; a host exception reaches the caller |
| `EditorUtils.CreateNewDocument` | project/src/utils/editorUtils.ts:44-55 | afterwards saving yields `""` (or null without a surface); nothing else on the surface changes |
| `EditorUtils.LoadHTMLContent` | project/src/utils/editorUtils.ts:53-64 | afterwards saving yields the given markup (or null without a surface); nothing else on the surface changes |
| `MenuBar.RunPreservesValid` | project/src/components/MenuBar.tsx:12-28 | no sequence of events makes an item track or keep pending a handle not yet issued |
| `MenuBar.EnterOpensAndCancelsTracked` | project/src/components/MenuBar.tsx:15-21 | mouse-enter opens, empties `timeoutId` and removes only the tracked timer from the pending set |
| `MenuBar.LeaveArmsFreshTimer` | project/src/components/MenuBar.tsx:23-28 | mouse-leave keeps `isOpen`, adds one fresh handle to the pending set, tracks it, and keeps every earlier timer pending |
| `MenuBar.FireCloses` | project/src/components/MenuBar.tsx:24-26 | a pending timer firing closes the item, removes it from the pending set and leaves `timeoutId` as it was |
| `MenuBar.LeaveThenFireCloses` | project/src/components/MenuBar.tsx:23-26 | a leave whose timer fires before any enter closes the item |
| `MenuBar.LeaveThenEnterStaysOpen` | project/src/components/MenuBar.tsx:15-28 | from no pending timer, one leave and then an enter leave the item open with nothing pending or tracked |
| `MenuBar.OrphanedTimerClosesReenteredItem` | project/src/components/MenuBar.tsx:15-28 | two leaves and then an enter leave the item open but with the first timer still pending, and that timer firing closes it |
| `MenuBar.LeavesAccumulate` | project/src/components/MenuBar.tsx:23-28 | `n` leaves in a row add `n` consecutive fresh handles to the pending set and track the last one |
| `MenuBar.LeavesThenEnterOrphans` | project/src/components/MenuBar.tsx:15-28 | after `n` leaves and one enter, the first `n - 1` timers are still pending |
| `MenuBar.HoverKeepsOpen` | project/src/components/MenuBar.tsx:15-28 | enters and leaves alone never close an open item; only a timer or a click does |
| `MenuBar.SubmenuClickTwiceRestores` | project/src/components/MenuBar.tsx:35-38 | two clicks on a submenu item restore its whole state |
| `MenuBar.InertClickIgnored` | project/src/components/MenuBar.tsx:30-39 | a click on an item with neither submenu nor action changes nothing and does not stop propagation |
| `MenuBar.ActionThrows` | project/src/components/MenuBar.tsx:71-73 | a leaf action raises exactly when it issues a command and the host rejects it |
| `MenuBar.PromptGatesCommand` | project/src/components/MenuBar.tsx:126-134 | a prompting leaf issues its command with the URL if and only if the answer is a non-empty string, and otherwise issues nothing |
| `MenuBar.HandleCommand` | project/src/components/MenuBar.tsx:71-73 | one bare `execCommand(command, value)`; design mode untouched; a host exception reaches the caller |
| `MenuBar.RunAction` | project/src/components/MenuBar.tsx:88-173 | runs a leaf's `onClick`: one command, a prompt-gated command, `window.print`, or nothing; design mode is kept; when it makes no host call the document is untouched, and `window.print` keeps the selection |
| `MenuBar.MenuItem.constructor` | project/src/components/MenuBar.tsx:12-13 | a mounted item is closed with no tracked or pending timer |
| `MenuBar.MenuItem.HandleMouseEnter` | project/src/components/MenuBar.tsx:15-21 | clears the tracked timer (only it), sets `timeoutId` to none and opens |
| `MenuBar.MenuItem.HandleMouseLeave` | project/src/components/MenuBar.tsx:23-28 | arms a fresh timer, tracks it, keeps the earlier ones pending, and leaves `isOpen` alone |
| `MenuBar.MenuItem.TimerFired` | project/src/components/MenuBar.tsx:24-26 | a pending timer's callback closes the item; a cleared one does nothing; `timeoutId` unchanged |
| `MenuBar.MenuItem.HandleClick` | project/src/components/MenuBar.tsx:30-39 | a submenu item toggles and stops propagation; a leaf stops propagation, runs its action once and closes unless the action raised; any other item changes nothing; a click that makes no host call leaves the document untouched; timers untouched |
| `MenuBar.OnlyInsertImageAndLinkPrompt` | project/src/components/MenuBar.tsx:121-139 | the only prompting leaves of the bar are Insert › Image (`insertImage`) and Insert › Link (`createLink`) |
| `MenuBar.OrphanedTimerScenario` | project/src/components/MenuBar.tsx:41-65 | on a real item: enter, two leaves, enter: open; then the first timer fires: closed |
| `MenuBar.InsertLinkScenario` | project/src/components/MenuBar.tsx:131-134 | clicking Insert › Link issues `createLink` with the answer when non-empty, and zero commands when cancelled or blank |
| `Toolbar.Highlights` | project/src/components/Toolbar.tsx:49-53 | one flag per option, set exactly for the options whose value equals the current value |
| `Toolbar.Dropdown.constructor` | project/src/components/Toolbar.tsx:29-30 | a dropdown starts closed |
| `Toolbar.Dropdown.Toggle` | project/src/components/Toolbar.tsx:39-60 | the button flips `isOpen`, so the rendered options go from none to all of them or back |
| `Toolbar.Dropdown.HandleSelect` | project/src/components/Toolbar.tsx:32-60 | passes the option's value to `onChange` once and closes, so no option is rendered |
| `Toolbar.SizeCaptionInjective` | project/src/components/Toolbar.tsx:129 | different sizes show different captions |
| `Toolbar.ButtonCommandInjective` | project/src/components/Toolbar.tsx:100-203 | no two toolbar buttons name the same command |
| `Toolbar.Toolbar.constructor` | project/src/components/Toolbar.tsx:84-85 | font size starts `"3"`, font name `"Arial"`, both dropdowns closed |
| `Toolbar.Toolbar.HandleFontSizeChange` | project/src/components/Toolbar.tsx:87-90 | sets the size and requests `fontSize` with it exactly once; the font name is unchanged |
| `Toolbar.Toolbar.HandleFontNameChange` | project/src/components/Toolbar.tsx:92-95 | sets the font name and requests `fontName` with it exactly once; the size is unchanged |
| `Toolbar.Toolbar.SelectFontSize` | project/src/components/Toolbar.tsx:125-130 | picking an option of the open size dropdown sets the size to its value, updates the caption, closes that dropdown only, and requests `fontSize` once |
| `Toolbar.Toolbar.SelectFontName` | project/src/components/Toolbar.tsx:113-123 | picking an option of the open font dropdown sets the font to its value, closes that dropdown only, and requests `fontName` once |
| `Toolbar.SizeScenario` | project/src/components/Toolbar.tsx:125-130 | caption `"Size 3"` at mount; after picking `"5"` the caption is `"Size 5"`, only `"5"` is highlighted and one `fontSize "5"` request is made |
| `Editor.TrimStart` | project/src/components/Editor.tsx:43 | the result is a suffix of the input, everything dropped is whitespace, and it does not start with whitespace |
| `Editor.TrimEnd` | project/src/components/Editor.tsx:43 | the result is a prefix of the input, everything dropped is whitespace, and it does not end with whitespace |
| `Editor.TrimEmptyIffBlank` | project/src/components/Editor.tsx:43 | `title.trim()` is empty if and only if the title is empty or all whitespace |
| `Editor.TitleAfterBlur` | project/src/components/Editor.tsx:40-46 | a blank title becomes `"Untitled Document"`; any other title is kept |
| `Editor.FormatClickEffect` | project/src/components/Editor.tsx:48-54 | with the surface attached, one command (omitted value as `""`) is issued and design mode ends off; without it, no command and the mode is unchanged |
| `Editor.ToolbarButtonCommands` | project/src/components/Toolbar.tsx:100-203 | through `handleFormatClick`, a plain button issues exactly its command with value `""`; Link and Image issue theirs with the URL only for a non-empty answer |
| `Editor.Editor.constructor` | project/src/components/Editor.tsx:7-9 | the title starts as `"Untitled Document"`, unfocused; the toolbar starts at size `"3"`, font `"Arial"`; every listener already on the surface predates the first `handlePaste` closure it will create |
| `Editor.Editor.HandleTitleChange` | project/src/components/Editor.tsx:32-34 | the title becomes the input value verbatim; focus unchanged |
| `Editor.Editor.HandleTitleFocus` | project/src/components/Editor.tsx:36-38 | focus flag set; title unchanged |
| `Editor.Editor.HandleTitleBlur` | project/src/components/Editor.tsx:40-46 | focus flag cleared; a blank title reverts to the default, any other is kept |
| `Editor.Editor.HandleFormatClick` | project/src/components/Editor.tsx:48-54 | with the surface attached, focuses it and then runs `formatDoc` once with the value or `""`; otherwise the document is untouched |
| `Editor.Editor.Mount` | project/src/components/Editor.tsx:11-25 | with the surface attached: editable, focused once, one paste listener that was not yet on the surface registered and returned as the cleanup; otherwise no cleanup and the document untouched |
| `Editor.Editor.Cleanup` | project/src/components/Editor.tsx:26-28 | removes exactly the given listener from the surface the ref holds at cleanup time, if any |
| `Editor.Editor.DetachRef` | project/src/components/Editor.tsx:27 | the ref becomes null before the cleanup runs; the title, focus and listener counter are kept |
| `Editor.Editor.MountThenCleanup` | project/src/components/Editor.tsx:11-28 | a mount followed by its own cleanup gives back exactly the surface's earlier paste listeners, whatever other listeners it held |
| `Editor.Editor.HandlePaste` | project/src/components/Editor.tsx:18-22 | prevents the default and issues one `insertText` with the plain text or `""`; a host exception is not caught |
| `Editor.Editor.ClickToolbarButton` | project/src/components/Editor.tsx:72 | a toolbar button's request, if any, goes through `handleFormatClick`; with no request (blank or cancelled prompt) or no surface the document is untouched |
| `Editor.Editor.SelectFontSize` | project/src/components/Toolbar.tsx:87-90 | a size pick updates the toolbar and runs one guarded `formatDoc("fontSize", size)` |
| `Editor.Editor.SelectFontName` | project/src/components/Toolbar.tsx:92-95 | a font pick updates the toolbar and runs one guarded `formatDoc("fontName", font)` |
| `Editor.MountCleanupScenario` | project/src/components/Editor.tsx:24-28 | on a surface already holding another listener, mount adds one new listener and cleanup removes only that one |
| `Editor.UnmountScenario` | project/src/components/Editor.tsx:24-28 | mount registers listener 0; after the ref is detached, cleanup removes nothing and listener 0 stays registered |

## Left out

- Rendering: JSX, CSS classes, icons, the `active` prop, the Share button without a handler, and project/tailwind.config.js.
- `hasFormat` (project/src/utils/editorUtils.ts:30-32): it only forwards to the browser's `queryCommandState`, whose answer depends on document formatting this model does not hold.
- What `execCommand` does to the document (toggling bold, inserting lists or markup), and how the browser extracts plain text from a clipboard.
- The selection after a host call: a design-mode switch, a command or a focus may replace, collapse or move it, so the model says nothing about `selection` after any of them (only `window.print()` keeps it).
- `console.error` in `formatDoc`'s `catch`: a foreign logging call; the model only records that the exception does not escape.
- Real time: the 100 ms delay is not modelled. A timer fires when a `Fire` event says so. Handles come from a per-item counter, not the browser's global one.
- React scheduling: setState batching, effect timing, and StrictMode's double effect run. `Mount` models one run of the `[]` effect; that it runs once per mount is React's guarantee. The ref is detached only by an explicit `DetachRef` call, so `MountThenCleanup`'s restoring of the listeners does not describe a real unmount (see `UnmountScenario`).
- DOM event dispatch: bubbling is reduced to the "propagation stopped" result, and the browser's delivery of paste events to registered listeners is not modelled (`HandlePaste` is the listener's body).
- `EditorUtils.LoadHTMLContent`: the browser's re-serialisation of assigned markup is not modelled; `innerHTML` holds the assigned string as is.
- The empty `onInput` handler of the surface (project/src/components/Editor.tsx:78-81) does nothing and is not modelled.
