/**
 * The browser the editor runs in, reduced to what the editor observes:
 * the global `document` (its `designMode` flag, `execCommand`, the current
 * selection, `window.print`) and the editable surface element. Each write of
 * `designMode`, each `execCommand`, each `focus()` of the surface and each
 * `window.print()` is appended to an ordered log, so that the order of those
 * calls ("design mode on, then the command") is part of the state. Writes to
 * the surface element are its own fields, not log entries.
 */
module Host {
  import opened Wrappers

  /** A request `execCommand(name, false, value)`; `value` None is `undefined`. */
  datatype Command = Command(name: string, value: Option<string>)

  /** One call into the host, as observed by the host. */
  datatype HostCall =
    | DesignMode(on: bool)                  // document.designMode = on ? 'on' : 'off'
    | ExecCommand(cmd: Command, threw: bool) // document.execCommand, and whether it raised
    | Focus                                 // the editor surface's focus()
    | Print                                 // window.print()

  /** The request one call makes: its command if it is an `execCommand`. */
  function Issued(call: HostCall): seq<Command> {
    if call.ExecCommand? then [call.cmd] else []
  }

  /** The `execCommand` requests among `calls`, in the order they were made. */
  function Commands(calls: seq<HostCall>): (r: seq<Command>)
    ensures |r| <= |calls|
  {
    if calls == [] then [] else Issued(calls[0]) + Commands(calls[1..])
  }

  lemma {:induction false} CommandsAppend(a: seq<HostCall>, b: seq<HostCall>)
    ensures Commands(a + b) == Commands(a) + Commands(b)
  {
    if a == [] {
      assert a + b == b;
    } else {
      var c := a + b;
      assert c[0] == a[0] && c[1..] == a[1..] + b;
      CommandsAppend(a[1..], b);
      assert Commands(c) == Issued(a[0]) + (Commands(a[1..]) + Commands(b));
      assert Commands(a) == Issued(a[0]) + Commands(a[1..]);
    }
  }

  /** The value of `designMode` after `calls`, when it was `initial` before them. */
  function ModeAfter(initial: bool, calls: seq<HostCall>): bool
    decreases |calls|
  {
    if calls == [] then initial
    else ModeAfter(if calls[0].DesignMode? then calls[0].on else initial, calls[1..])
  }

  lemma {:induction false} ModeAfterAppend(initial: bool, a: seq<HostCall>, b: seq<HostCall>)
    ensures ModeAfter(initial, a + b) == ModeAfter(ModeAfter(initial, a), b)
    decreases |a|
  {
    if a == [] {
      assert a + b == b;
    } else {
      assert (a + b)[1..] == a[1..] + b;
      ModeAfterAppend(if a[0].DesignMode? then a[0].on else initial, a[1..], b);
    }
  }

  /** Only a design-mode call changes the mode: the last one made decides it. */
  lemma ModeAfterSnoc(initial: bool, a: seq<HostCall>, c: HostCall)
    ensures ModeAfter(initial, a + [c]) == if c.DesignMode? then c.on else ModeAfter(initial, a)
  {
    ModeAfterAppend(initial, a, [c]);
  }

  /** `window.prompt`'s answer as the `if (url)` test reads it: a cancelled
      prompt (`null`) and an empty answer are both falsy. */
  function AcceptedUrl(answer: Option<string>): (r: Option<string>)
    ensures r.Some? <==> answer.Some? && answer.value != ""
    ensures r.Some? ==> r == answer
  {
    if answer.Some? && answer.value != "" then answer else None
  }

  /** The global `document`. */
  class Document {
    /** `designMode` when the page loaded. */
    ghost const initialMode: bool
    var designMode: bool
    /** Every call into the host so far, oldest first. */
    var calls: seq<HostCall>
    /** `window.getSelection()`: None when there is no selection, else its text.
        A design-mode switch, a command or a focus may move it in ways this
        model does not follow, so those calls leave it unspecified. */
    var selection: Option<string>

    ghost predicate Valid()
      reads this
    {
      designMode == ModeAfter(initialMode, calls)
    }

    constructor (designMode: bool, selection: Option<string>)
      ensures Valid()
      ensures this.designMode == designMode && this.selection == selection && calls == []
    {
      initialMode := designMode;
      this.designMode := designMode;
      this.selection := selection;
      calls := [];
    }

    method SetDesignMode(on: bool)
      requires Valid()
      modifies this
      ensures Valid()
      ensures designMode == on && calls == old(calls) + [DesignMode(on)]
    {
      ModeAfterSnoc(initialMode, calls, DesignMode(on));
      designMode := on;
      calls := calls + [DesignMode(on)];
    }

    /** `execCommand(cmd.name, false, cmd.value)`; `rejects` is the host's
        choice to raise for this request, which the caller cannot predict. */
    method Exec(cmd: Command, rejects: bool) returns (threw: bool)
      requires Valid()
      modifies this
      ensures Valid()
      ensures threw == rejects
      ensures calls == old(calls) + [ExecCommand(cmd, rejects)]
      ensures designMode == old(designMode)
    {
      ModeAfterSnoc(initialMode, calls, ExecCommand(cmd, rejects));
      calls := calls + [ExecCommand(cmd, rejects)];
      threw := rejects;
    }

    /** The editor surface's `focus()`. */
    method FocusSurface()
      requires Valid()
      modifies this
      ensures Valid()
      ensures calls == old(calls) + [Focus]
      ensures designMode == old(designMode)
    {
      ModeAfterSnoc(initialMode, calls, Focus);
      calls := calls + [Focus];
    }

    /** `window.print()`. */
    method PrintWindow()
      requires Valid()
      modifies this
      ensures Valid()
      ensures calls == old(calls) + [Print]
      ensures designMode == old(designMode) && selection == old(selection)
    {
      ModeAfterSnoc(initialMode, calls, Print);
      calls := calls + [Print];
    }
  }

  /** Identity of a registered event-listener function. */
  type ListenerId = nat

  /** The editable `div` the editor renders its document into. */
  class Element {
    var innerHTML: string
    var contentEditable: bool
    /** The functions registered with `addEventListener('paste', …)`. */
    var pasteListeners: set<ListenerId>

    constructor (innerHTML: string)
      ensures this.innerHTML == innerHTML && !contentEditable && pasteListeners == {}
    {
      this.innerHTML := innerHTML;
      contentEditable := false;
      pasteListeners := {};
    }
  }
}
