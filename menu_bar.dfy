/**
 * The menu bar: each `MenuItem` is a small state machine driven by
 * mouse-enter, mouse-leave, its own close timers firing, and clicks; the
 * leaves of the bar run fixed actions against the host document.
 *
 * Time is abstract: a mouse-leave arms a close timer whose handle joins the
 * item's `pending` set, and the timer firing is an explicit event. As in the
 * component, mouse-leave does not clear a timer it armed before, so an
 * earlier timer can outlive a later mouse-enter and close the item.
 */
module MenuBar {
  import opened Wrappers
  import opened Host

  /** A `setTimeout` handle. */
  type TimerId = nat

  /**
   * One item's state: `isOpen` and `timeoutId` are the component's state
   * hooks; `pending` are the close timers it armed that have neither fired
   * nor been cleared; `nextId` is the next handle the browser will issue.
   */
  datatype ItemState = ItemState(isOpen: bool, timeoutId: Option<TimerId>, pending: set<TimerId>, nextId: TimerId)

  /** The state of a freshly mounted item. */
  function InitialItem(firstId: TimerId): ItemState {
    ItemState(false, None, {}, firstId)
  }

  /** Handles are never reused: every pending or tracked handle was issued already. */
  predicate ItemValid(s: ItemState) {
    (forall t :: t in s.pending ==> t < s.nextId)
    && (s.timeoutId.Some? ==> s.timeoutId.value < s.nextId)
  }

  /** How `handleClick` treats an item, decided by its props. */
  datatype ClickKind =
    | Submenu  // hasSubmenu: toggles
    | Leaf     // no submenu and an onClick: runs it, then closes
    | Inert    // neither: ignores the click

  function KindOf(hasSubmenu: bool, hasOnClick: bool): ClickKind {
    if !hasSubmenu && hasOnClick then Leaf
    else if hasSubmenu then Submenu
    else Inert
  }

  /** Whether `handleClick` calls `stopPropagation` for this kind of item. */
  predicate StopsPropagation(kind: ClickKind) {
    kind != Inert
  }

  /** The events an item reacts to. `Click(threw)`: the leaf action raised. */
  datatype Event = MouseEnter | MouseLeave | Fire(id: TimerId) | Click(threw: bool)

  /** One event's effect on an item of the given kind. */
  function Step(kind: ClickKind, s: ItemState, e: Event): ItemState {
    match e
    case MouseEnter =>
      s.(isOpen := true, timeoutId := None,
         pending := if s.timeoutId.Some? then s.pending - {s.timeoutId.value} else s.pending)
    case MouseLeave =>
      s.(timeoutId := Some(s.nextId), pending := s.pending + {s.nextId}, nextId := s.nextId + 1)
    case Fire(id) =>
      if id in s.pending then s.(isOpen := false, pending := s.pending - {id}) else s
    case Click(threw) =>
      match kind
      case Submenu => s.(isOpen := !s.isOpen)
      case Leaf => if threw then s else s.(isOpen := false)
      case Inert => s
  }

  /** The state after a sequence of events, oldest first. */
  function Run(kind: ClickKind, s: ItemState, events: seq<Event>): ItemState
    decreases |events|
  {
    if events == [] then s else Run(kind, Step(kind, s, events[0]), events[1..])
  }

  /** `n` consecutive mouse-leaves. */
  function Leaves(n: nat): (r: seq<Event>)
    ensures |r| == n
    ensures forall i :: 0 <= i < n ==> r[i] == MouseLeave
  {
    if n == 0 then [] else [MouseLeave] + Leaves(n - 1)
  }

  /** The handles `first`, …, `first + n - 1`. */
  function IdsFrom(first: TimerId, n: nat): set<TimerId>
    decreases n
  {
    if n == 0 then {} else {first} + IdsFrom(first + 1, n - 1)
  }

  lemma {:induction false} IdsFromMembers(first: TimerId, n: nat, t: TimerId)
    ensures t in IdsFrom(first, n) <==> first <= t < first + n
    decreases n
  {
    if n > 0 {
      IdsFromMembers(first + 1, n - 1, t);
    }
  }

  lemma {:induction false} IdsFromSnoc(first: TimerId, n: nat)
    ensures IdsFrom(first, n + 1) == IdsFrom(first, n) + {first + n}
    decreases n
  {
    if n > 0 {
      IdsFromSnoc(first + 1, n - 1);
    }
  }

  lemma StepPreservesValid(kind: ClickKind, s: ItemState, e: Event)
    requires ItemValid(s)
    ensures ItemValid(Step(kind, s, e))
    ensures Step(kind, s, e).nextId >= s.nextId
  {
  }

  /** No sequence of events makes an item reuse a timer handle. */
  lemma {:induction false} RunPreservesValid(kind: ClickKind, s: ItemState, events: seq<Event>)
    requires ItemValid(s)
    ensures ItemValid(Run(kind, s, events))
    ensures Run(kind, s, events).nextId >= s.nextId
    decreases |events|
  {
    if events != [] {
      StepPreservesValid(kind, s, events[0]);
      RunPreservesValid(kind, Step(kind, s, events[0]), events[1..]);
    }
  }

  lemma {:induction false} RunAppend(kind: ClickKind, s: ItemState, a: seq<Event>, b: seq<Event>)
    ensures Run(kind, s, a + b) == Run(kind, Run(kind, s, a), b)
    decreases |a|
  {
    if a == [] {
      assert a + b == b;
    } else {
      assert (a + b)[1..] == a[1..] + b;
      RunAppend(kind, Step(kind, s, a[0]), a[1..], b);
    }
  }

  /** A mouse-enter cancels the tracked close timer (only that one) and opens the item. */
  lemma EnterOpensAndCancelsTracked(kind: ClickKind, s: ItemState)
    ensures var r := Step(kind, s, MouseEnter);
            r.isOpen && r.timeoutId == None && r.nextId == s.nextId
            && (s.timeoutId.Some? ==> r.pending == s.pending - {s.timeoutId.value})
            && (s.timeoutId.None? ==> r.pending == s.pending)
  {
  }

  /** A mouse-leave arms one fresh timer, tracks it, and keeps every earlier one pending. */
  lemma LeaveArmsFreshTimer(kind: ClickKind, s: ItemState)
    requires ItemValid(s)
    ensures var r := Step(kind, s, MouseLeave);
            r.isOpen == s.isOpen && r.timeoutId == Some(s.nextId)
            && s.nextId !in s.pending && r.pending == s.pending + {s.nextId}
  {
  }

  /** A pending timer firing closes the item; `timeoutId` still names it afterwards. */
  lemma FireCloses(kind: ClickKind, s: ItemState, id: TimerId)
    requires id in s.pending
    ensures var r := Step(kind, s, Fire(id));
            !r.isOpen && r.timeoutId == s.timeoutId && r.pending == s.pending - {id}
  {
  }

  /** The debounce: a leave whose timer fires with no enter in between closes the item. */
  lemma LeaveThenFireCloses(kind: ClickKind, s: ItemState)
    ensures !Run(kind, s, [MouseLeave, Fire(s.nextId)]).isOpen
  {
    var evs := [MouseLeave, Fire(s.nextId)];
    var s1 := Step(kind, s, MouseLeave);
    assert evs[1..] == [Fire(s.nextId)];
    assert Run(kind, s1, evs[1..]) == Step(kind, s1, Fire(s.nextId));
  }

  /** One leave and then an enter before any timer fires: open, nothing pending. */
  lemma LeaveThenEnterStaysOpen(kind: ClickKind, s: ItemState)
    requires s.pending == {}
    ensures var r := Run(kind, s, [MouseLeave, MouseEnter]);
            r.isOpen && r.timeoutId == None && r.pending == {}
  {
  }

  /**
   * Two leaves in a row (the wrapper and the submenu panel both report one)
   * and then an enter: the enter clears only the second timer, and the first,
   * still pending, closes the item the pointer is over.
   */
  lemma OrphanedTimerClosesReenteredItem(kind: ClickKind, s: ItemState)
    requires s.pending == {}
    ensures var r := Run(kind, s, [MouseLeave, MouseLeave, MouseEnter]);
            r.isOpen && r.timeoutId == None && r.pending == {s.nextId}
            && !Step(kind, r, Fire(s.nextId)).isOpen
  {
  }

  /** `n` leaves in a row leave all `n` timers pending and track the last. */
  lemma {:induction false} LeavesAccumulate(kind: ClickKind, s: ItemState, n: nat)
    ensures var r := Run(kind, s, Leaves(n));
            r.isOpen == s.isOpen && r.nextId == s.nextId + n
            && r.pending == s.pending + IdsFrom(s.nextId, n)
            && r.timeoutId == (if n == 0 then s.timeoutId else Some(s.nextId + n - 1))
    decreases n
  {
    if n > 0 {
      var s1 := Step(kind, s, MouseLeave);
      assert Leaves(n)[1..] == Leaves(n - 1);
      LeavesAccumulate(kind, s1, n - 1);
      assert s.pending + IdsFrom(s.nextId, n) == s1.pending + IdsFrom(s1.nextId, n - 1);
    }
  }

  /** After `n` leaves and one enter, the enter has cancelled one timer and `n - 1` stay pending. */
  lemma LeavesThenEnterOrphans(kind: ClickKind, s: ItemState, n: nat)
    requires n > 0 && s.pending == {}
    ensures var r := Run(kind, s, Leaves(n) + [MouseEnter]);
            r.isOpen && r.timeoutId == None && r.pending == IdsFrom(s.nextId, n - 1)
  {
    RunAppend(kind, s, Leaves(n), [MouseEnter]);
    LeavesAccumulate(kind, s, n);
    IdsFromSnoc(s.nextId, n - 1);
    IdsFromMembers(s.nextId, n - 1, s.nextId + n - 1);
  }

  /** Pointer movement alone never closes an open item: only a timer or a click does. */
  lemma {:induction false} HoverKeepsOpen(kind: ClickKind, s: ItemState, events: seq<Event>)
    requires s.isOpen
    requires forall i :: 0 <= i < |events| ==> events[i].MouseEnter? || events[i].MouseLeave?
    ensures Run(kind, s, events).isOpen
    decreases |events|
  {
    if events != [] {
      HoverKeepsOpen(kind, Step(kind, s, events[0]), events[1..]);
    }
  }

  /** Two clicks on a submenu item restore its state, whatever it was. */
  lemma SubmenuClickTwiceRestores(s: ItemState, t1: bool, t2: bool)
    ensures Run(Submenu, s, [Click(t1), Click(t2)]) == s
  {
    var evs := [Click(t1), Click(t2)];
    var s1 := Step(Submenu, s, Click(t1));
    assert evs[1..] == [Click(t2)];
    assert Run(Submenu, s1, evs[1..]) == Step(Submenu, s1, Click(t2));
  }

  /** A click on an item with neither submenu nor action changes nothing and lets the event bubble. */
  lemma InertClickIgnored(s: ItemState, t: bool)
    ensures Step(KindOf(false, false), s, Click(t)) == s
    ensures !StopsPropagation(KindOf(false, false))
  {
  }

  /** What a leaf's `onClick` does. */
  datatype LeafAction =
    | Dispatch(command: string, value: Option<string>)  // () => handleCommand(command, value)
    | PromptThenDispatch(command: string)               // ask for a URL, dispatch it when non-empty
    | PrintPage                                         // () => window.print()
    | DoNothing                                         // () => {}

  /** The host calls an action makes, given the prompt's answer. */
  function ActionCalls(a: LeafAction, answer: Option<string>, rejects: bool): seq<HostCall> {
    match a
    case Dispatch(command, value) => [ExecCommand(Command(command, value), rejects)]
    case PromptThenDispatch(command) =>
      (match AcceptedUrl(answer)
       case Some(url) => [ExecCommand(Command(command, Some(url)), rejects)]
       case None => [])
    case PrintPage => [Print]
    case DoNothing => []
  }

  /** Whether the action raises: it does exactly when it issues a command the host rejects. */
  function ActionThrows(a: LeafAction, answer: Option<string>, rejects: bool): (r: bool)
    ensures r <==> rejects && Commands(ActionCalls(a, answer, rejects)) != []
  {
    rejects && (a.Dispatch? || (a.PromptThenDispatch? && AcceptedUrl(answer).Some?))
  }

  /** The Insert Image and Insert Link leaves issue their command, with the URL,
      exactly when the prompt returns a non-empty string, and nothing else. */
  lemma PromptGatesCommand(command: string, answer: Option<string>, rejects: bool)
    ensures Commands(ActionCalls(PromptThenDispatch(command), answer, rejects))
         == if answer.Some? && answer.value != "" then [Command(command, answer)] else []
    ensures forall c :: c in ActionCalls(PromptThenDispatch(command), answer, rejects) ==> c.ExecCommand?
  {
  }

  /** `MenuBar.handleCommand`: a bare `execCommand` with no design-mode bracket
      and no `try`, so a host exception reaches the caller. */
  method HandleCommand(doc: Document, command: string, value: Option<string>, rejects: bool) returns (threw: bool)
    requires doc.Valid()
    modifies doc
    ensures doc.Valid()
    ensures threw == rejects
    ensures doc.calls == old(doc.calls) + [ExecCommand(Command(command, value), rejects)]
    ensures doc.designMode == old(doc.designMode)
  {
    threw := doc.Exec(Command(command, value), rejects);
  }

  /** Runs a leaf's `onClick`; `answer` is what `window.prompt` returns, if asked. */
  method RunAction(doc: Document, a: LeafAction, answer: Option<string>, rejects: bool) returns (threw: bool)
    requires doc.Valid()
    modifies doc
    ensures doc.Valid()
    ensures threw == ActionThrows(a, answer, rejects)
    ensures doc.calls == old(doc.calls) + ActionCalls(a, answer, rejects)
    ensures doc.designMode == old(doc.designMode)
    ensures ActionCalls(a, answer, rejects) == [] ==> unchanged(doc)
    ensures a.PrintPage? ==> doc.selection == old(doc.selection)
  {
    match a
    case Dispatch(command, value) =>
      threw := HandleCommand(doc, command, value, rejects);
    case PromptThenDispatch(command) =>
      threw := false;
      if answer.Some? && answer.value != "" {
        threw := HandleCommand(doc, command, answer, rejects);
      }
    case PrintPage =>
      doc.PrintWindow();
      threw := false;
    case DoNothing =>
      threw := false;
  }

  /** One `MenuItem` component instance. */
  class MenuItem {
    const caption: string
    const hasSubmenu: bool
    const onClick: Option<LeafAction>
    var isOpen: bool
    var timeoutId: Option<TimerId>
    var pending: set<TimerId>
    var nextId: TimerId

    function State(): ItemState
      reads this
    {
      ItemState(isOpen, timeoutId, pending, nextId)
    }

    function Kind(): ClickKind {
      KindOf(hasSubmenu, onClick.Some?)
    }

    ghost predicate Valid()
      reads this
    {
      ItemValid(State())
    }

    /** Mounting: closed, no timer; `firstId` is the next handle the browser issues. */
    constructor (caption: string, hasSubmenu: bool, onClick: Option<LeafAction>, firstId: TimerId)
      ensures Valid()
      ensures this.caption == caption && this.hasSubmenu == hasSubmenu && this.onClick == onClick
      ensures State() == InitialItem(firstId)
    {
      this.caption := caption;
      this.hasSubmenu := hasSubmenu;
      this.onClick := onClick;
      isOpen := false;
      timeoutId := None;
      pending := {};
      nextId := firstId;
    }

    /** `handleMouseEnter`: clears the tracked timer, if any, and opens. */
    method HandleMouseEnter()
      requires Valid()
      modifies this
      ensures Valid()
      ensures State() == Step(Kind(), old(State()), MouseEnter)
      ensures isOpen && timeoutId == None && nextId == old(nextId)
      ensures pending == if old(timeoutId).Some? then old(pending) - {old(timeoutId).value} else old(pending)
    {
      if timeoutId.Some? {
        pending := pending - {timeoutId.value};  // clearTimeout
        timeoutId := None;
      }
      isOpen := true;
    }

    /** `handleMouseLeave`: arms a 100 ms close timer and tracks it, without
        clearing the timer tracked before. Returns the new handle. */
    method HandleMouseLeave() returns (id: TimerId)
      requires Valid()
      modifies this
      ensures Valid()
      ensures State() == Step(Kind(), old(State()), MouseLeave)
      ensures id !in old(pending) && pending == old(pending) + {id}
      ensures timeoutId == Some(id) && isOpen == old(isOpen)
    {
      id := nextId;
      nextId := nextId + 1;
      pending := pending + {id};  // setTimeout(() => setIsOpen(false), 100)
      timeoutId := Some(id);
    }

    /** The browser runs the callback of timer `id`; a cleared or already
        fired timer does nothing. */
    method TimerFired(id: TimerId)
      requires Valid()
      modifies this
      ensures Valid()
      ensures State() == Step(Kind(), old(State()), Fire(id))
      ensures id in old(pending) ==> !isOpen && pending == old(pending) - {id}
      ensures id !in old(pending) ==> isOpen == old(isOpen) && pending == old(pending)
      ensures timeoutId == old(timeoutId) && nextId == old(nextId)
    {
      if id in pending {
        pending := pending - {id};
        isOpen := false;
      }
    }

    /**
     * `handleClick`. A leaf stops propagation, runs its action and then
     * closes; if the action raises, the close is skipped and the exception
     * (`threw`) reaches the caller. A submenu item stops propagation and
     * toggles. Any other item ignores the click.
     */
    method HandleClick(doc: Document, answer: Option<string>, rejects: bool) returns (stopped: bool, threw: bool)
      requires Valid() && doc.Valid()
      modifies this, doc
      ensures Valid() && doc.Valid()
      ensures State() == Step(Kind(), old(State()), Click(threw))
      ensures stopped == StopsPropagation(Kind())
      ensures Kind() == Leaf ==>
        doc.calls == old(doc.calls) + ActionCalls(onClick.value, answer, rejects)
        && threw == ActionThrows(onClick.value, answer, rejects)
        && isOpen == (threw && old(isOpen))
      ensures Kind() == Submenu ==> isOpen == !old(isOpen)
      ensures Kind() != Leaf ==> doc.calls == old(doc.calls) && !threw
      ensures doc.calls == old(doc.calls) ==> unchanged(doc)
      ensures Kind() == Inert ==> isOpen == old(isOpen)
      ensures timeoutId == old(timeoutId) && pending == old(pending) && nextId == old(nextId)
    {
      stopped, threw := false, false;
      if !hasSubmenu && onClick.Some? {
        stopped := true;
        threw := RunAction(doc, onClick.value, answer, rejects);
        if !threw {
          isOpen := false;
        }
      } else if hasSubmenu {
        stopped := true;
        isOpen := !isOpen;
      }
    }
  }

  /** A leaf of the bar: its caption and its action. */
  datatype Entry = Entry(caption: string, action: LeafAction)

  /** A top-level menu and its leaves, in display order. */
  datatype Menu = Menu(caption: string, entries: seq<Entry>)

  /** The bar as the component lays it out (the source's labels keep their
      stray trailing backslashes). */
  const Menus: seq<Menu> := [
    Menu("File", [
      Entry("New\\", Dispatch("delete", None)),
      Entry("Open", DoNothing),
      Entry("Save", DoNothing),
      Entry("Print", PrintPage)]),
    Menu("Edit", [
      Entry("Undo\\", Dispatch("undo", None)),
      Entry("Redo", Dispatch("redo", None)),
      Entry("Cut", Dispatch("cut", None)),
      Entry("Copy", Dispatch("copy", None)),
      Entry("Paste", Dispatch("paste", None))]),
    Menu("View", [
      Entry("Mode\\", DoNothing),
      Entry("Show ruler", DoNothing),
      Entry("Show word count", DoNothing),
      Entry("Full screen", DoNothing)]),
    Menu("Insert", [
      Entry("Image\\", PromptThenDispatch("insertImage")),
      Entry("Table", Dispatch("insertHTML", Some("<table><tr><td>Cell</td></tr></table>"))),
      Entry("Link", PromptThenDispatch("createLink")),
      Entry("Bullet list", Dispatch("insertUnorderedList", None)),
      Entry("Numbered list", Dispatch("insertOrderedList", None))]),
    Menu("Format", [
      Entry("Bold\\", Dispatch("bold", None)),
      Entry("Italic", Dispatch("italic", None)),
      Entry("Underline", Dispatch("underline", None)),
      Entry("Align left", Dispatch("justifyLeft", None)),
      Entry("Center", Dispatch("justifyCenter", None)),
      Entry("Align right", Dispatch("justifyRight", None))]),
    Menu("Tools", [
      Entry("Spelling and grammar\\", DoNothing),
      Entry("Word count", DoNothing),
      Entry("Find and replace", DoNothing)]),
    Menu("Help", [
      Entry("Documentation\\", DoNothing),
      Entry("Keyboard shortcuts", DoNothing),
      Entry("About", DoNothing)])
  ]

  /** The only prompting leaves are Insert › Image and Insert › Link. */
  lemma OnlyInsertImageAndLinkPrompt(m: nat, e: nat)
    requires m < |Menus| && e < |Menus[m].entries|
    ensures Menus[m].entries[e].action.PromptThenDispatch?
        <==> (m, e) == (3, 0) || (m, e) == (3, 2)
    ensures (m, e) == (3, 0) ==> Menus[m].entries[e].action == PromptThenDispatch("insertImage")
    ensures (m, e) == (3, 2) ==> Menus[m].entries[e].action == PromptThenDispatch("createLink")
  {
  }

  /**
   * A whole hover sequence on one of the bar's items: enter, leave from the
   * panel (two leaves), re-enter, then the first timer fires. The item was
   * open under the pointer, and the orphaned timer closes it.
   */
  method OrphanedTimerScenario(firstId: TimerId) returns (openBeforeFire: bool, openAfterFire: bool)
    ensures openBeforeFire && !openAfterFire
  {
    var insert := new MenuItem("Insert", true, None, firstId);
    insert.HandleMouseEnter();
    var first := insert.HandleMouseLeave();
    var second := insert.HandleMouseLeave();
    insert.HandleMouseEnter();
    openBeforeFire := insert.isOpen;
    insert.TimerFired(first);
    openAfterFire := insert.isOpen;
  }

  /** Clicking Insert › Link issues `createLink` with the answer when it is a
      non-empty string, and no command at all when the prompt is cancelled or blank. */
  method InsertLinkScenario(answer: Option<string>) returns (issued: seq<Command>)
    ensures issued == if answer.Some? && answer.value != "" then [Command("createLink", answer)] else []
  {
    var doc := new Document(false, None);
    var link := new MenuItem(Menus[3].entries[2].caption, false, Some(Menus[3].entries[2].action), 0);
    var stopped, threw := link.HandleClick(doc, answer, false);
    issued := Commands(doc.calls);
    PromptGatesCommand("createLink", answer, false);
  }
}
