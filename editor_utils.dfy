/**
 * The editor's utility functions: the `formatDoc` bracket that every toolbar
 * command goes through, and the small readers and writers of the surface.
 */
module EditorUtils {
  import opened Wrappers
  import opened Host

  /** `formatDoc`'s parameter `value: string = ''`: an omitted value is the empty string. */
  function ValueOrDefault(value: Option<string>): (r: string)
    ensures value.None? ==> r == ""
    ensures value.Some? ==> r == value.value
  {
    value.GetOr("")
  }

  /** The host calls one `formatDoc(command, value)` makes, whatever the host does. */
  function FormatDocCalls(command: string, value: string, rejects: bool): seq<HostCall> {
    [DesignMode(true), ExecCommand(Command(command, Some(value)), rejects), DesignMode(false)]
  }

  /**
   * `formatDoc`: design mode on, one `execCommand`, any exception caught and
   * reported on the console, and design mode off in the `finally` branch. It
   * returns normally whether or not the host raised.
   */
  method FormatDoc(doc: Document, command: string, value: Option<string>, rejects: bool)
    requires doc.Valid()
    modifies doc
    ensures doc.Valid()
    ensures doc.calls == old(doc.calls) + FormatDocCalls(command, ValueOrDefault(value), rejects)
    ensures !doc.designMode
  {
    doc.SetDesignMode(true);
    var threw := doc.Exec(Command(command, Some(ValueOrDefault(value))), rejects);
    if threw {
      // caught: console.error is not part of this model
    }
    doc.SetDesignMode(false);
  }

  /** `formatDoc` issues exactly one command, with the value it was given. */
  lemma FormatDocIssuesOneCommand(prior: seq<HostCall>, command: string, value: string, rejects: bool)
    ensures Commands(prior + FormatDocCalls(command, value, rejects))
         == Commands(prior) + [Command(command, Some(value))]
  {
    var calls := FormatDocCalls(command, value, rejects);
    CommandsAppend(prior, calls);
    assert Commands(calls[2..]) == [] by { assert calls[2..][1..] == []; }
    assert Commands(calls[1..]) == [Command(command, Some(value))];
  }

  /** When the `execCommand` call is made, design mode is on, whatever it was before. */
  lemma FormatDocModeOnAtCommand(initial: bool, prior: seq<HostCall>, command: string, value: string, rejects: bool)
    ensures var calls := prior + FormatDocCalls(command, value, rejects);
            calls[|prior| + 1].ExecCommand? && ModeAfter(initial, calls[..|prior| + 1]) == true
  {
    var calls := prior + FormatDocCalls(command, value, rejects);
    assert calls[..|prior| + 1] == prior + [DesignMode(true)];
    ModeAfterSnoc(initial, prior, DesignMode(true));
  }

  /** After `formatDoc` design mode is off, whatever it was before and whether
      or not the command raised; an earlier `on` is not restored. */
  lemma FormatDocEndsOff(initial: bool, prior: seq<HostCall>, command: string, value: string, rejects: bool)
    ensures ModeAfter(initial, prior + FormatDocCalls(command, value, rejects)) == false
  {
    var tail := [DesignMode(true), ExecCommand(Command(command, Some(value)), rejects)];
    assert prior + FormatDocCalls(command, value, rejects) == (prior + tail) + [DesignMode(false)];
    ModeAfterSnoc(initial, prior + tail, DesignMode(false));
  }

  /** `getSelectionText`: the selected text, or the empty string with no selection. */
  function GetSelectionText(doc: Document): (r: string)
    reads doc
    ensures doc.selection.None? ==> r == ""
    ensures doc.selection.Some? ==> r == doc.selection.value
  {
    match doc.selection
    case None => ""
    case Some(text) => text
  }

  /** `insertHTML`: an unguarded `execCommand('insertHTML', false, html)`; a
      host exception reaches the caller. */
  method InsertHTML(doc: Document, html: string, rejects: bool) returns (threw: bool)
    requires doc.Valid()
    modifies doc
    ensures doc.Valid()
    ensures threw == rejects
    ensures doc.calls == old(doc.calls) + [ExecCommand(Command("insertHTML", Some(html)), rejects)]
    ensures doc.designMode == old(doc.designMode)
  {
    threw := doc.Exec(Command("insertHTML", Some(html)), rejects);
  }

  /** `saveDocumentAsHTML`: the surface's markup, or `null` without a surface. */
  function SaveDocumentAsHTML(el: Element?): (r: Option<string>)
    reads el
    ensures r.None? <==> el == null
    ensures el != null ==> r == Some(el.innerHTML)
  {
    if el == null then None else Some(el.innerHTML)
  }

  /** `createNewDocument`: empties the surface, when there is one. */
  method CreateNewDocument(el: Element?)
    modifies el
    ensures SaveDocumentAsHTML(el) == if el == null then None else Some("")
    ensures el != null ==>
      el.contentEditable == old(el.contentEditable) && el.pasteListeners == old(el.pasteListeners)
  {
    if el != null {
      el.innerHTML := "";
    }
  }

  /** `loadHTMLContent`: replaces the surface's markup, when there is a surface. */
  method LoadHTMLContent(el: Element?, html: string)
    modifies el
    ensures SaveDocumentAsHTML(el) == if el == null then None else Some(html)
    ensures el != null ==>
      el.contentEditable == old(el.contentEditable)
      && el.pasteListeners == old(el.pasteListeners)
  {
    if el != null {
      el.innerHTML := html;
    }
  }
}
