/**
 * The `Editor` component: the document title field, the mount effect that
 * makes the surface editable and intercepts paste, and the guarded dispatch
 * through which the toolbar reaches `formatDoc`.
 */
module Editor {
  import opened Wrappers
  import opened Host
  import opened EditorUtils
  import Toolbar

  /** The title a new document has, and the one a blank title reverts to. */
  const DefaultTitle: string := "Untitled Document"

  /** The characters JavaScript's `String.prototype.trim` removes: the
      WhiteSpace and LineTerminator code points of ECMAScript. */
  predicate IsJsWhitespace(c: char) {
    c in {'\t', '\n', '\U{000B}', '\U{000C}', '\r', ' ', '\U{00A0}', '\U{1680}',
          '\U{2000}', '\U{2001}', '\U{2002}', '\U{2003}', '\U{2004}', '\U{2005}',
          '\U{2006}', '\U{2007}', '\U{2008}', '\U{2009}', '\U{200A}',
          '\U{2028}', '\U{2029}', '\U{202F}', '\U{205F}', '\U{3000}', '\U{FEFF}'}
  }

  /** Empty, or whitespace only. */
  predicate IsBlank(s: string) {
    forall i :: 0 <= i < |s| ==> IsJsWhitespace(s[i])
  }

  /** `s` without its leading whitespace. */
  function TrimStart(s: string): (r: string)
    ensures |r| <= |s| && r == s[|s| - |r|..]
    ensures forall i :: 0 <= i < |s| - |r| ==> IsJsWhitespace(s[i])
    ensures r != [] ==> !IsJsWhitespace(r[0])
  {
    if s != [] && IsJsWhitespace(s[0]) then
      var r := TrimStart(s[1..]);
      assert s[1..][|s| - 1 - |r|..] == s[|s| - |r|..];
      assert forall i :: 1 <= i < |s| - |r| ==> s[i] == s[1..][i - 1];
      r
    else s
  }

  /** `s` without its trailing whitespace. */
  function TrimEnd(s: string): (r: string)
    ensures |r| <= |s| && r == s[..|r|]
    ensures forall i :: |r| <= i < |s| ==> IsJsWhitespace(s[i])
    ensures r != [] ==> !IsJsWhitespace(r[|r| - 1])
  {
    if s != [] && IsJsWhitespace(s[|s| - 1]) then TrimEnd(s[..|s| - 1]) else s
  }

  /** `s.trim()`. */
  function Trim(s: string): string {
    TrimEnd(TrimStart(s))
  }

  /** `!title.trim()` holds exactly of the blank titles. */
  lemma TrimEmptyIffBlank(s: string)
    ensures Trim(s) == "" <==> IsBlank(s)
  {
  }

  /** The title `handleTitleBlur` leaves behind. */
  function TitleAfterBlur(title: string): (r: string)
    ensures IsBlank(title) ==> r == DefaultTitle
    ensures !IsBlank(title) ==> r == title
  {
    TrimEmptyIffBlank(title);
    if Trim(title) == "" then DefaultTitle else title
  }

  /** The text the paste handler inserts: the clipboard's plain text, or "" without one. */
  function PastedText(plainText: Option<string>): (r: string)
    ensures plainText.Some? ==> r == plainText.value
    ensures plainText.None? ==> r == ""
  {
    plainText.GetOr("")
  }

  /** The host calls of `handleFormatClick(command, value)`: with the surface
      mounted, focus it and then run `formatDoc`; without it, nothing. */
  function FormatClickCalls(surfaceMounted: bool, command: string, value: Option<string>, rejects: bool): seq<HostCall> {
    if surfaceMounted then [Focus] + FormatDocCalls(command, ValueOrDefault(value), rejects) else []
  }

  /** A format click issues one command (an omitted value becomes "") and leaves
      design mode off when the surface is mounted, and touches nothing otherwise. */
  lemma FormatClickEffect(initial: bool, prior: seq<HostCall>, surfaceMounted: bool,
                          command: string, value: Option<string>, rejects: bool)
    ensures var calls := prior + FormatClickCalls(surfaceMounted, command, value, rejects);
            Commands(calls) == Commands(prior)
              + (if surfaceMounted then [Command(command, Some(ValueOrDefault(value)))] else [])
            && ModeAfter(initial, calls) == (if surfaceMounted then false else ModeAfter(initial, prior))
  {
    if surfaceMounted {
      var v := ValueOrDefault(value);
      var bracket := FormatDocCalls(command, v, rejects);
      assert prior + FormatClickCalls(true, command, value, rejects) == (prior + [Focus]) + bracket;
      FormatDocIssuesOneCommand(prior + [Focus], command, v, rejects);
      FormatDocEndsOff(initial, prior + [Focus], command, v, rejects);
      CommandsAppend(prior, [Focus]);
    } else {
      assert prior + FormatClickCalls(false, command, value, rejects) == prior;
    }
  }

  /** A toolbar button press, all the way to the host: a plain button issues its
      command with value "", a prompting one its command with the URL when the
      answer is non-empty; with no request or no surface, nothing is issued. */
  lemma ToolbarButtonCommands(b: Toolbar.Button, answer: Option<string>, rejects: bool)
    ensures var calls := match Toolbar.ButtonRequest(b, answer)
                         case None => []
                         case Some(r) => FormatClickCalls(true, r.command, r.value, rejects);
            Commands(calls) == if !Toolbar.Prompts(b) then [Command(Toolbar.ButtonCommand(b), Some(""))]
                               else if answer.Some? && answer.value != "" then [Command(Toolbar.ButtonCommand(b), answer)]
                               else []
  {
    match Toolbar.ButtonRequest(b, answer)
    case None =>
    case Some(r) =>
      FormatClickEffect(false, [], true, r.command, r.value, rejects);
      assert [] + FormatClickCalls(true, r.command, r.value, rejects) == FormatClickCalls(true, r.command, r.value, rejects);
  }

  /** The `Editor` component instance. */
  class Editor {
    var documentTitle: string
    var isTitleFocused: bool
    /** `editorRef.current`: the surface, or null while it is not attached. */
    var editorRef: Element?
    /** Identity of the `handlePaste` function the next mount effect creates. */
    var nextListener: ListenerId
    const doc: Document
    const toolbar: Toolbar.Toolbar

    /** Besides the host and toolbar invariants: every listener on the surface
        was created before `nextListener`, so each mount's closure is new. */
    ghost predicate Valid()
      reads this, doc, toolbar, editorRef
    {
      doc.Valid() && toolbar.Valid()
      && (editorRef != null ==> forall l :: l in editorRef.pasteListeners ==> l < nextListener)
    }

    /** `firstListener` is the identity of the first `handlePaste` closure this
        instance creates; a closure created now is none of the surface's listeners. */
    constructor (doc: Document, surface: Element?, firstListener: ListenerId)
      requires doc.Valid()
      requires surface != null ==> forall l :: l in surface.pasteListeners ==> l < firstListener
      ensures Valid()
      ensures this.doc == doc && editorRef == surface && nextListener == firstListener
      ensures documentTitle == DefaultTitle && !isTitleFocused
      ensures fresh(toolbar) && fresh(toolbar.fontNameDropdown) && fresh(toolbar.fontSizeDropdown)
      ensures toolbar.fontSize == "3" && toolbar.fontName == "Arial"
      ensures !toolbar.fontNameDropdown.isOpen && !toolbar.fontSizeDropdown.isOpen
    {
      documentTitle := DefaultTitle;
      isTitleFocused := false;
      editorRef := surface;
      nextListener := firstListener;
      this.doc := doc;
      toolbar := new Toolbar.Toolbar();
    }

    /** `handleTitleChange`: the title becomes the field's value, verbatim. */
    method HandleTitleChange(value: string)
      requires Valid()
      modifies this
      ensures Valid()
      ensures documentTitle == value
      ensures isTitleFocused == old(isTitleFocused) && editorRef == old(editorRef)
      ensures nextListener == old(nextListener)
    {
      documentTitle := value;
    }

    /** `handleTitleFocus`. */
    method HandleTitleFocus()
      requires Valid()
      modifies this
      ensures Valid()
      ensures isTitleFocused
      ensures documentTitle == old(documentTitle) && editorRef == old(editorRef)
      ensures nextListener == old(nextListener)
    {
      isTitleFocused := true;
    }

    /** `handleTitleBlur`: unfocused, and a blank title reverts to the default. */
    method HandleTitleBlur()
      requires Valid()
      modifies this
      ensures Valid()
      ensures !isTitleFocused
      ensures documentTitle == TitleAfterBlur(old(documentTitle))
      ensures editorRef == old(editorRef) && nextListener == old(nextListener)
    {
      isTitleFocused := false;
      if Trim(documentTitle) == "" {
        documentTitle := DefaultTitle;
      }
    }

    /** `handleFormatClick(command, value = '')`: guarded by the surface being attached. */
    method HandleFormatClick(command: string, value: Option<string>, rejects: bool)
      requires Valid()
      modifies doc
      ensures Valid()
      ensures doc.calls == old(doc.calls) + FormatClickCalls(editorRef != null, command, value, rejects)
      ensures editorRef != null ==> !doc.designMode
      ensures editorRef == null ==> unchanged(doc)
    {
      if editorRef != null {
        doc.FocusSurface();
        FormatDoc(doc, command, Some(ValueOrDefault(value)), rejects);
      }
    }

    /**
     * The mount effect: with the surface attached, make it editable, focus it
     * and register a new paste listener, whose identity is returned as the
     * cleanup; without it, do nothing and return no cleanup.
     */
    method Mount() returns (cleanup: Option<ListenerId>)
      requires Valid()
      modifies this, doc, editorRef
      ensures Valid()
      ensures editorRef == old(editorRef)
      ensures documentTitle == old(documentTitle) && isTitleFocused == old(isTitleFocused)
      ensures editorRef == null ==>
        cleanup == None && unchanged(doc) && nextListener == old(nextListener)
      ensures editorRef != null ==>
        cleanup == Some(old(nextListener)) && nextListener == old(nextListener) + 1
        && editorRef.contentEditable && editorRef.innerHTML == old(editorRef.innerHTML)
        && old(nextListener) !in old(editorRef.pasteListeners)
        && editorRef.pasteListeners == old(editorRef.pasteListeners) + {old(nextListener)}
        && doc.calls == old(doc.calls) + [Focus]
      ensures doc.designMode == old(doc.designMode)
    {
      cleanup := None;
      var surface := editorRef;
      if surface != null {
        surface.contentEditable := true;
        doc.FocusSurface();
        var handler := nextListener;
        nextListener := nextListener + 1;
        surface.pasteListeners := surface.pasteListeners + {handler};
        cleanup := Some(handler);
      }
    }

    /** The effect's cleanup: removes `listener` from the surface the ref holds
        now; if the ref is empty by then, nothing is removed. */
    method Cleanup(listener: ListenerId)
      requires Valid()
      modifies editorRef
      ensures Valid()
      ensures editorRef != null ==>
        editorRef.pasteListeners == old(editorRef.pasteListeners) - {listener}
        && editorRef.contentEditable == old(editorRef.contentEditable)
        && editorRef.innerHTML == old(editorRef.innerHTML)
    {
      var surface := editorRef;
      if surface != null {
        surface.pasteListeners := surface.pasteListeners - {listener};
      }
    }

    /** React detaching the ref when the surface unmounts, which happens
        before the effect's cleanup runs. */
    method DetachRef()
      requires Valid()
      modifies this
      ensures Valid()
      ensures editorRef == null
      ensures documentTitle == old(documentTitle) && isTitleFocused == old(isTitleFocused)
      ensures nextListener == old(nextListener)
    {
      editorRef := null;
    }

    /** A mount and then its cleanup: the surface's paste listeners are back to
        what they were before the mount, whatever other listeners it held. */
    method MountThenCleanup()
      requires Valid()
      modifies this, doc, editorRef
      ensures Valid()
      ensures editorRef == old(editorRef)
      ensures editorRef != null ==>
        editorRef.pasteListeners == old(editorRef.pasteListeners)
        && editorRef.contentEditable && editorRef.innerHTML == old(editorRef.innerHTML)
    {
      var cleanup := Mount();
      if cleanup.Some? {
        Cleanup(cleanup.value);
      }
    }

    /** `handlePaste`: suppresses the default paste and inserts the clipboard's
        plain text; a host exception is not caught. */
    method HandlePaste(plainText: Option<string>, rejects: bool) returns (defaultPrevented: bool, threw: bool)
      requires Valid()
      modifies doc
      ensures Valid()
      ensures defaultPrevented && threw == rejects
      ensures doc.calls == old(doc.calls) + [ExecCommand(Command("insertText", Some(PastedText(plainText))), rejects)]
      ensures doc.designMode == old(doc.designMode)
    {
      defaultPrevented := true;
      threw := doc.Exec(Command("insertText", Some(PastedText(plainText))), rejects);
    }

    /** A toolbar button press, through `onFormatClick`. */
    method ClickToolbarButton(b: Toolbar.Button, answer: Option<string>, rejects: bool)
      requires Valid()
      modifies doc
      ensures Valid()
      ensures doc.calls == old(doc.calls) + match Toolbar.ButtonRequest(b, answer)
                                            case None => []
                                            case Some(r) => FormatClickCalls(editorRef != null, r.command, r.value, rejects)
      ensures Toolbar.ButtonRequest(b, answer).None? || editorRef == null ==> unchanged(doc)
    {
      var request := Toolbar.ButtonRequest(b, answer);
      if request.Some? {
        HandleFormatClick(request.value.command, request.value.value, rejects);
      }
    }

    /** A click on the `i`-th option of the open size dropdown, through `onFormatClick`. */
    method SelectFontSize(i: nat, rejects: bool)
      requires Valid() && toolbar.fontSizeDropdown.isOpen && i < |Toolbar.FontSizeOptions|
      modifies doc, toolbar, toolbar.fontSizeDropdown
      ensures Valid()
      ensures toolbar.fontSize == Toolbar.FontSizeOptions[i].value && toolbar.fontName == old(toolbar.fontName)
      ensures !toolbar.fontSizeDropdown.isOpen
      ensures doc.calls == old(doc.calls)
        + FormatClickCalls(editorRef != null, "fontSize", Some(Toolbar.FontSizeOptions[i].value), rejects)
    {
      var request := toolbar.SelectFontSize(i);
      HandleFormatClick(request.command, request.value, rejects);
    }

    /** A click on the `i`-th option of the open font-name dropdown, through `onFormatClick`. */
    method SelectFontName(i: nat, rejects: bool)
      requires Valid() && toolbar.fontNameDropdown.isOpen && i < |Toolbar.FontNameOptions|
      modifies doc, toolbar, toolbar.fontNameDropdown
      ensures Valid()
      ensures toolbar.fontName == Toolbar.FontNameOptions[i].value && toolbar.fontSize == old(toolbar.fontSize)
      ensures !toolbar.fontNameDropdown.isOpen
      ensures doc.calls == old(doc.calls)
        + FormatClickCalls(editorRef != null, "fontName", Some(Toolbar.FontNameOptions[i].value), rejects)
    {
      var request := toolbar.SelectFontName(i);
      HandleFormatClick(request.command, request.value, rejects);
    }
  }

  /** Mount and then clean up on a surface that already holds another listener:
      the mount adds one new listener, the cleanup removes that one only. */
  method MountCleanupScenario() returns (during: set<ListenerId>, after: set<ListenerId>)
    ensures during == {0, 1} && after == {0}
  {
    var doc := new Document(false, None);
    var surface := new Element("");
    surface.pasteListeners := {0};  // a listener someone else registered
    var editor := new Editor(doc, surface, 1);
    var cleanup := editor.Mount();
    during := surface.pasteListeners;
    editor.Cleanup(cleanup.value);
    after := surface.pasteListeners;
  }

  /** A real unmount: the ref is detached before the cleanup runs, so the
      cleanup finds no surface and the paste listener stays registered on
      the removed element. */
  method UnmountScenario() returns (during: set<ListenerId>, after: set<ListenerId>)
    ensures during == {0} && after == {0}
  {
    var doc := new Document(false, None);
    var surface := new Element("");
    var editor := new Editor(doc, surface, 0);
    var cleanup := editor.Mount();
    during := surface.pasteListeners;
    editor.DetachRef();
    editor.Cleanup(cleanup.value);
    after := surface.pasteListeners;
  }
}
