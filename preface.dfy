/** The preface gate: a modal dialog shown before following links marked
    as gate triggers, with a per-session "don't show again" flag kept in
    session storage under a dismissal key. While the dialog is open the
    page behind it is locked in place, keyboard focus is kept inside the
    dialog, and wheel and touch scrolling may not leak to the page.

    The pure decisions (key resolution, skip test, trigger filter, focus
    trap, scroll-leak rule) are functions; the open/close state machine is
    given by transition functions on GateState, and the class Gate updates
    its fields in place and is proved to follow them. */
module Preface {
  import opened SessionStorage

  const KEY_PREFIX: string := "jjp:"
  const DONT_SHOW: string := "1"

  /** An element, by identity. */
  type Elem = nat

  /** A string attribute used as a JavaScript condition: present and non-empty. */
  predicate Truthy(v: Option<string>)
  {
    v.Some? && v.value != ""
  }

  // --- Dismissal keys ---

  /** A trigger element: its data-preface-key and href attributes and its `target` property
      ("" when it has none). */
  datatype Trigger = Trigger(prefaceKey: Option<string>, href: Option<string>, target: string)

  /** The href is usable as a key: present, non-empty and not the bare "#". */
  predicate KeyableHref(el: Option<Trigger>)
  {
    el.Some? && Truthy(el.value.href) && el.value.href.value != "#"
  }

  /** `keyFor(el)`: the explicit key as it is, else the namespaced href, else the namespaced path. */
  function KeyFor(el: Option<Trigger>, pathname: string): (k: string)
    ensures el.Some? && Truthy(el.value.prefaceKey) ==> k == el.value.prefaceKey.value
    ensures !(el.Some? && Truthy(el.value.prefaceKey)) ==> KEY_PREFIX <= k
  {
    if el.Some? && Truthy(el.value.prefaceKey) then el.value.prefaceKey.value
    else if KeyableHref(el) then KEY_PREFIX + el.value.href.value
    else KEY_PREFIX + pathname
  }

  /** Without an explicit key, what follows the prefix is the href when it is usable and the
      page path otherwise: a derived key can be read back into its source. */
  lemma KeyForSource(el: Option<Trigger>, pathname: string)
    requires !(el.Some? && Truthy(el.value.prefaceKey))
    ensures KeyFor(el, pathname)[|KEY_PREFIX|..] == if KeyableHref(el) then el.value.href.value else pathname
  {
    var k := KeyFor(el, pathname);
    if KeyableHref(el) {
      assert k == KEY_PREFIX + el.value.href.value;
    } else {
      assert k == KEY_PREFIX + pathname;
    }
  }

  /** Two triggers without explicit keys share a dismissal key exactly when they link to the
      same address; and a trigger's derived key is never the key of another page's path
      unless its href is that path. */
  lemma DerivedKeysSeparate(a: Trigger, b: Trigger, pathname: string)
    requires !Truthy(a.prefaceKey) && !Truthy(b.prefaceKey)
    requires KeyableHref(Some(a)) && KeyableHref(Some(b))
    ensures KeyFor(Some(a), pathname) == KeyFor(Some(b), pathname) <==> a.href == b.href
    ensures KeyFor(Some(a), pathname) == KeyFor(None, pathname) <==> a.href == Some(pathname)
  {
    KeyForSource(Some(a), pathname);
    KeyForSource(Some(b), pathname);
    KeyForSource(None, pathname);
  }

  /** `shouldSkip(key)`: the key was marked "don't show again". It reads storage without a
      guard, so it raises when storage is unavailable. */
  function ShouldSkip(s: Storage, key: string): (r: Attempt<bool>)
    ensures r.Threw? <==> !s.available
    ensures r == Ok(true) <==> s.available && key in s.items && s.items[key] == DONT_SHOW
  {
    match GetItem(s, key)
    case Threw => Threw
    case Ok(v) => Ok(v == Some(DONT_SHOW))
  }

  // --- The trigger click ---

  datatype Modifiers = Modifiers(meta: bool, ctrl: bool, shift: bool, alt: bool)

  predicate AnyHeld(m: Modifiers)
  {
    m.meta || m.ctrl || m.shift || m.alt
  }

  /** What the document click listener does: let the click through, or prevent it and open the
      dialog; StorageError is the skip test raising, which ends the listener before it prevents
      anything. */
  datatype ClickOutcome = LetThrough | Intercept(targetHref: Option<string>, key: string) | StorageError

  /** `hit` is the nearest `.requires-preface` element around the click target. */
  function TriggerClick(s: Storage, pathname: string, m: Modifiers, hit: Option<Trigger>): (r: ClickOutcome)
    ensures r.Intercept? <==>
      hit.Some? && !AnyHeld(m) && hit.value.target != "_blank" && ShouldSkip(s, KeyFor(hit, pathname)) == Ok(false)
    ensures r.Intercept? ==> r.key == KeyFor(hit, pathname)
    ensures r.Intercept? ==> r.targetHref == if Truthy(hit.value.href) then hit.value.href else None
    ensures r.StorageError? <==> hit.Some? && !AnyHeld(m) && hit.value.target != "_blank" && !s.available
  {
    if hit.None? || AnyHeld(m) || hit.value.target == "_blank" then LetThrough
    else
      var key := KeyFor(hit, pathname);
      match ShouldSkip(s, key)
      case Threw => StorageError
      case Ok(skip) =>
        if skip then LetThrough
        else Intercept(if Truthy(hit.value.href) then hit.value.href else None, key)
  }

  // --- Focus trap ---

  datatype Key = Tab | Escape | OtherKey

  /** Default: the browser's own behaviour; FocusFirst/FocusLast: the default is prevented and
      focus moves to the first/last focusable; Close: the dialog is hidden. */
  datatype KeyAction = Default | FocusFirst | FocusLast | Close

  /** `trapFocus`: the keydown rule over the dialog's visible, enabled focusables. */
  function TrapFocus(open: bool, focusables: seq<Elem>, active: Elem, key: Key, shift: bool): (r: KeyAction)
    ensures !open || focusables == [] ==> r == Default
    ensures r == FocusLast <==> open && focusables != [] && key == Tab && shift && active == focusables[0]
    ensures r == FocusFirst <==>
      open && focusables != [] && key == Tab && !shift && active == focusables[|focusables| - 1]
    ensures r == Close <==> open && focusables != [] && key == Escape
  {
    if !open || |focusables| == 0 then Default
    else if key == Tab then
      if shift && active == focusables[0] then FocusLast
      else if !shift && active == focusables[|focusables| - 1] then FocusFirst
      else Default
    else if key == Escape then Close
    else Default
  }

  predicate Distinct(s: seq<Elem>)
  {
    forall i, j :: 0 <= i < j < |s| ==> s[i] != s[j]
  }

  /** The position focus reaches when Tab (or Shift+Tab) is pressed on the i-th focusable: where
      the trap sends it, or else the adjacent focusable, where the browser's own tabbing goes. */
  function TabTarget(focusables: seq<Elem>, i: nat, shift: bool): int
    requires i < |focusables|
  {
    match TrapFocus(true, focusables, focusables[i], Tab, shift)
    case FocusFirst => 0
    case FocusLast => |focusables| - 1
    case _ => if shift then i - 1 else i + 1
  }

  /** Reducing a value below twice the modulus takes at most one subtraction. */
  lemma ModOnce(x: int, n: int)
    requires 0 < n && 0 <= x < 2 * n
    ensures x % n == if x < n then x else x - n
  {
    if x < n {
      assert x == n * 0 + x;
    } else {
      assert x == n * 1 + (x - n);
    }
  }

  /** With the trap in place Tab and Shift+Tab walk the focusables as a cycle: the last wraps to
      the first and the first to the last. */
  lemma TabCycles(focusables: seq<Elem>, i: nat, shift: bool)
    requires Distinct(focusables) && i < |focusables|
    ensures TabTarget(focusables, i, shift) ==
      if shift then (i + |focusables| - 1) % |focusables| else (i + 1) % |focusables|
  {
    var n := |focusables|;
    if shift {
      ModOnce(i + n - 1, n);
      if i > 0 {
        assert focusables[0] != focusables[i];
      }
    } else {
      ModOnce(i + 1, n);
      if i < n - 1 {
        assert focusables[i] != focusables[n - 1];
      }
    }
  }

  // --- Scroll leak ---

  /** The `.jjp-content` element's scroll metrics. */
  datatype Scroller = Scroller(scrollTop: int, scrollHeight: int, clientHeight: int)

  /** A wheel or touchmove event; `inside` is the `.jjp-content` element around its target. */
  datatype ScrollEvent = Wheel(inside: Option<Scroller>, deltaY: int) | TouchMove(inside: Option<Scroller>)

  /** `blockScrollLeak`: whether the event's default (scrolling) is prevented. */
  function ScrollLeakPrevented(open: bool, ev: ScrollEvent): (prevented: bool)
    ensures !open ==> !prevented
    ensures open && ev.inside.None? ==> prevented
    ensures ev.TouchMove? && ev.inside.Some? ==> !prevented
  {
    if !open then false
    else if ev.inside.None? then true
    else match ev
      case Wheel(sc, delta) =>
        var atTop := sc.value.scrollTop <= 0 && delta < 0;
        var atBottom := sc.value.scrollTop + sc.value.clientHeight >= sc.value.scrollHeight - 1 && delta > 0;
        atTop || atBottom
      case TouchMove(_) => false
  }

  /** The content can still scroll up; down (to within the one-pixel tolerance). */
  predicate CanScrollUp(sc: Scroller) { sc.scrollTop > 0 }
  predicate CanScrollDown(sc: Scroller) { sc.scrollTop + sc.clientHeight < sc.scrollHeight - 1 }

  /** Inside the content, a wheel event is stopped exactly when the content cannot move any further
      in the wheel's direction, so scrolling never chains through to the page behind. */
  lemma WheelStopsOnlyAtEdges(sc: Scroller, delta: int)
    ensures ScrollLeakPrevented(true, Wheel(Some(sc), delta)) <==>
      (delta < 0 && !CanScrollUp(sc)) || (delta > 0 && !CanScrollDown(sc))
  {
  }

  // --- Open / close state machine ---

  /** The page behind the dialog: window scroll offset (never negative here), the `top` of a
      fixed-position body (None when the body is not locked), and the focused element. */
  datatype Page = Page(scrollY: nat, bodyTop: Option<int>, focused: Elem)

  /** The page offset the user sees: the window scroll, or the body's shift while it is fixed. */
  function VisibleOffset(p: Page): int
  {
    match p.bodyTop
    case Some(top) => -top
    case None => p.scrollY
  }

  /** The script's state together with the page, storage and navigation it acts on.
      `dontShow` is the checkbox's checked state (None when the page has no checkbox);
      `continuesQueued` counts Continue timers not yet fired. */
  datatype GateState = GateState(
    open: bool,
    dontShow: Option<bool>,
    pendingHref: Option<string>,
    currentKey: Option<string>,
    lastFocused: Option<Elem>,
    lockY: nat,
    page: Page,
    storage: Storage,
    continuesQueued: nat,
    navigatedTo: Option<string>)

  /** The state when the script has just run. */
  function Initial(page: Page, storage: Storage, hasCheckbox: bool): (r: GateState)
    ensures !r.open && r.pendingHref.None? && r.currentKey.None? && r.lastFocused.None?
    ensures r.lockY == 0 && r.continuesQueued == 0 && r.navigatedTo.None?
    ensures r.dontShow.Some? <==> hasCheckbox
    ensures r.dontShow != Some(true)
    ensures r.page == page && r.storage == storage
  {
    GateState(false, if hasCheckbox then Some(false) else None, None, None, None, 0, page, storage, 0, None)
  }

  /** `lockPage`: remember the scroll offset and pin the body at it. A fixed body leaves the
      document nothing to scroll, so the window offset drops to 0. */
  function LockState(g: GateState): (r: GateState)
    ensures r.page.bodyTop.Some? && r.page.scrollY == 0
    ensures r.page.focused == g.page.focused
    ensures g.page.bodyTop.None? ==> VisibleOffset(r.page) == VisibleOffset(g.page) == r.lockY
  {
    var y := g.page.scrollY;
    g.(lockY := y, page := g.page.(scrollY := 0, bodyTop := Some(-(y as int))))
  }

  /** `unlockPage`: release the body and scroll back to the remembered offset. */
  function UnlockState(g: GateState): (r: GateState)
    ensures r.page.bodyTop.None? && r.page.scrollY == g.lockY
    ensures g.page.bodyTop == Some(-(g.lockY as int)) ==> VisibleOffset(r.page) == VisibleOffset(g.page)
  {
    g.(page := g.page.(scrollY := g.lockY, bodyTop := None))
  }

  /** `show({targetHref, key})`; a missing key falls back to the current page's key. */
  function ShowState(g: GateState, targetHref: Option<string>, key: Option<string>, pathname: string): (r: GateState)
    ensures r.open && r.pendingHref == targetHref
    ensures r.currentKey == Some(if key.Some? then key.value else KEY_PREFIX + pathname)
    ensures r.dontShow != Some(true)
    ensures r.storage == g.storage && r.continuesQueued == g.continuesQueued
  {
    var shown := g.(
      lastFocused := Some(g.page.focused),
      pendingHref := targetHref,
      currentKey := Some(if key.Some? then key.value else KeyFor(None, pathname)),
      open := true,
      dontShow := if g.dontShow.Some? then Some(false) else None);
    LockState(shown)
  }

  /** `hide()`: close, release the page and give focus back to the element that had it. */
  function HideState(g: GateState): (r: GateState)
    ensures !r.open && r.page.bodyTop.None? && r.page.scrollY == g.lockY
    ensures r.storage == g.storage && r.continuesQueued == g.continuesQueued
  {
    var closed := UnlockState(g.(open := false));
    match g.lastFocused
    case Some(e) => closed.(page := closed.page.(focused := e))
    case None => closed
  }

  /** The user ticks or clears the "don't show again" checkbox. */
  function CheckState(g: GateState, checked: bool): GateState
  {
    if g.dontShow.Some? then g.(dontShow := Some(checked)) else g
  }

  /** The Continue button: with the checkbox ticked and a key in hand, mark the key, then queue
      the delayed navigation. A storage failure ends the handler before the timer is queued. */
  function ContinueState(g: GateState): (r: GateState)
    ensures !(g.dontShow == Some(true) && Truthy(g.currentKey)) ==>
      r == g.(continuesQueued := g.continuesQueued + 1)
    ensures g.dontShow == Some(true) && Truthy(g.currentKey) && g.storage.available ==>
      r == g.(storage := g.storage.(items := g.storage.items[g.currentKey.value := DONT_SHOW]),
              continuesQueued := g.continuesQueued + 1)
    ensures g.dontShow == Some(true) && Truthy(g.currentKey) && !g.storage.available ==> r == g
  {
    if g.dontShow == Some(true) && Truthy(g.currentKey) then
      match SetItem(g.storage, g.currentKey.value, DONT_SHOW)
      case Threw => g
      case Ok(s) => g.(storage := s, continuesQueued := g.continuesQueued + 1)
    else g.(continuesQueued := g.continuesQueued + 1)
  }

  /** The Continue timer firing: go to the pending address if there is one, and hide. */
  function ContinueTimerState(g: GateState): (r: GateState)
    requires g.continuesQueued > 0
    ensures !r.open && r.storage == g.storage
    ensures r.navigatedTo == if Truthy(g.pendingHref) then g.pendingHref else g.navigatedTo
    ensures r.continuesQueued == g.continuesQueued - 1
  {
    HideState(g.(
      continuesQueued := g.continuesQueued - 1,
      navigatedTo := if Truthy(g.pendingHref) then g.pendingHref else g.navigatedTo))
  }

  /** A click on the overlay: hide unless it landed inside the dialog body. */
  function BackdropState(g: GateState, insideDialog: bool): (r: GateState)
    ensures insideDialog ==> r == g
    ensures !insideDialog ==> !r.open && r.page.bodyTop.None? && r.page.scrollY == g.lockY
    ensures r.storage == g.storage && r.continuesQueued == g.continuesQueued
  {
    if insideDialog then g else HideState(g)
  }

  /** The keydown listener. */
  function KeyDownState(g: GateState, focusables: seq<Elem>, key: Key, shift: bool): (r: GateState)
    ensures !g.open || focusables == [] || key == OtherKey ==> r == g
    ensures key == Escape && g.open && focusables != [] ==> r == HideState(g)
    ensures key == Tab ==> r == g.(page := g.page.(focused := r.page.focused))
    ensures key == Tab && g.open && focusables != [] && r.page.focused != g.page.focused ==>
      r.page.focused in {focusables[0], focusables[|focusables| - 1]}
    ensures r.storage == g.storage && r.continuesQueued == g.continuesQueued
  {
    match TrapFocus(g.open, focusables, g.page.focused, key, shift)
    case Default => g
    case FocusFirst => g.(page := g.page.(focused := focusables[0]))
    case FocusLast => g.(page := g.page.(focused := focusables[|focusables| - 1]))
    case Close => HideState(g)
  }

  // --- Properties of the state machine ---

  /** Opening on an unlocked page and closing again puts the page back as it was: same scroll
      offset, body released, focus back where it was; the view does not move while the dialog is
      open; storage is untouched. */
  lemma {:induction false} ShowHideRoundTrip(g: GateState, targetHref: Option<string>, key: Option<string>, pathname: string)
    requires g.page.bodyTop.None?
    ensures var shown := ShowState(g, targetHref, key, pathname);
      VisibleOffset(shown.page) == VisibleOffset(g.page) &&
      shown.lockY == g.page.scrollY &&
      HideState(shown).page == g.page &&
      !HideState(shown).open &&
      HideState(shown).storage == g.storage
  {
    var shown := ShowState(g, targetHref, key, pathname);
    assert shown.lastFocused == Some(g.page.focused);
    assert shown.lockY == g.page.scrollY;
  }

  /** Escape in an open dialog with something focusable is a hide, so it restores the offset. */
  lemma EscapeRestoresOffset(g: GateState, focusables: seq<Elem>, shift: bool, pathname: string)
    requires g.page.bodyTop.None? && focusables != []
    ensures var shown := ShowState(g, None, None, pathname);
      KeyDownState(shown, focusables, Escape, shift).page.scrollY == g.page.scrollY &&
      !KeyDownState(shown, focusables, Escape, shift).open
  {
    ShowHideRoundTrip(g, None, None, pathname);
  }

  /** Without anything focusable in the dialog, Escape does nothing: the emptiness check comes
      before the Escape test. */
  lemma EscapeNeedsFocusable(g: GateState, shift: bool)
    ensures KeyDownState(g, [], Escape, shift) == g
  {
  }

  /** Cancel, Close, the backdrop, Escape, the checkbox and an unticked Continue never touch
      storage, so opening and dismissing leaves it as it was. */
  lemma OnlyTickedContinueWrites(g: GateState, focusables: seq<Elem>, key: Key, shift: bool,
                                 inside: bool, checked: bool)
    ensures HideState(g).storage == g.storage
    ensures BackdropState(g, inside).storage == g.storage
    ensures KeyDownState(g, focusables, key, shift).storage == g.storage
    ensures CheckState(g, checked).storage == g.storage
    ensures g.dontShow != Some(true) ==> ContinueState(g).storage == g.storage
  {
  }

  /** A ticked Continue marks the current key, so the skip test holds for it from then on, while
      every other key keeps its skip answer and only the storage and the timer count change. */
  lemma ContinueRemembers(g: GateState, k: string, other: string)
    requires g.dontShow == Some(true) && g.currentKey == Some(k) && k != "" && g.storage.available
    ensures ContinueState(g) == g.(storage := ContinueState(g).storage, continuesQueued := g.continuesQueued + 1)
    ensures ContinueState(g).storage == g.storage.(items := g.storage.items[k := DONT_SHOW])
    ensures ShouldSkip(ContinueState(g).storage, k) == Ok(true)
    ensures other != k ==> ShouldSkip(ContinueState(g).storage, other) == ShouldSkip(g.storage, other)
  {
    var s := ContinueState(g).storage;
    GetAfterSet(g.storage, k, DONT_SHOW, other);
    assert SetItem(g.storage, k, DONT_SHOW) == Ok(s);
  }

  /** A ticked Continue on unavailable storage raises: nothing is written and no navigation is
      queued, so the dialog stays open. */
  lemma ContinueStuckWithoutStorage(g: GateState)
    requires g.dontShow == Some(true) && Truthy(g.currentKey) && !g.storage.available
    ensures ContinueState(g) == g
  {
  }

  /** Opening while already open records the fixed body's window offset, 0, so the later hide
      scrolls to the top instead of to the offset the user had before the first open. */
  lemma ReopenLosesOffset(g: GateState, pathname: string)
    requires g.page.bodyTop.None?
    ensures var twice := ShowState(ShowState(g, None, None, pathname), None, None, pathname);
      HideState(twice).page.scrollY == 0
  {
  }

  /** A trigger keyed "chapter-7": the first click opens the dialog; after ticking the checkbox
      and continuing, a click on any trigger with that key is let through. */
  lemma ChapterSevenScenario(s: Storage, page: Page, pathname: string, t: Trigger, u: Trigger)
    requires s.available && s.items == map[]
    requires t == Trigger(Some("chapter-7"), Some("/story/7"), "")
    requires u.prefaceKey == Some("chapter-7") && u.target != "_blank"
    ensures var none := Modifiers(false, false, false, false);
      var first := TriggerClick(s, pathname, none, Some(t));
      first == Intercept(Some("/story/7"), "chapter-7") &&
      var shown := ShowState(Initial(page, s, true), first.targetHref, Some(first.key), pathname);
      var after := ContinueState(CheckState(shown, true));
      after.storage.items == map["chapter-7" := "1"] &&
      TriggerClick(after.storage, pathname, none, Some(u)) == LetThrough
  {
    var none := Modifiers(false, false, false, false);
    var first := TriggerClick(s, pathname, none, Some(t));
    assert KeyFor(Some(t), pathname) == "chapter-7";
    var shown := ShowState(Initial(page, s, true), first.targetHref, Some(first.key), pathname);
    var after := ContinueState(CheckState(shown, true));
    assert KeyFor(Some(u), pathname) == "chapter-7";
    assert ShouldSkip(after.storage, "chapter-7") == Ok(true);
  }

  // --- The widget ---

  /** The script's state and the page it runs on, updated in place by its handlers. */
  class Gate {
    const pathname: string
    var open: bool
    var dontShow: Option<bool>
    var pendingHref: Option<string>
    var currentKey: Option<string>
    var lastFocused: Option<Elem>
    var lockY: nat
    var page: Page
    var storage: Storage
    var continuesQueued: nat
    var navigatedTo: Option<string>

    function State(): GateState
      reads this
    {
      GateState(open, dontShow, pendingHref, currentKey, lastFocused, lockY, page, storage,
                continuesQueued, navigatedTo)
    }

    /** The script starting on a page that has the overlay. */
    constructor (pathname: string, page: Page, storage: Storage, hasCheckbox: bool)
      ensures this.pathname == pathname
      ensures State() == Initial(page, storage, hasCheckbox)
    {
      this.pathname := pathname;
      open := false;
      dontShow := if hasCheckbox then Some(false) else None;
      pendingHref, currentKey, lastFocused := None, None, None;
      lockY := 0;
      this.page := page;
      this.storage := storage;
      continuesQueued := 0;
      navigatedTo := None;
    }

    method LockPage()
      modifies this
      ensures State() == LockState(old(State()))
    {
      lockY := page.scrollY;
      page := page.(bodyTop := Some(-(lockY as int)), scrollY := 0);
    }

    method UnlockPage()
      modifies this
      ensures State() == UnlockState(old(State()))
    {
      page := page.(bodyTop := None);
      page := page.(scrollY := lockY);
    }

    method Show(targetHref: Option<string>, key: Option<string>)
      modifies this
      ensures State() == ShowState(old(State()), targetHref, key, pathname)
    {
      lastFocused := Some(page.focused);
      pendingHref := targetHref;
      currentKey := if key.Some? then key else Some(KeyFor(None, pathname));
      open := true;
      if dontShow.Some? {
        dontShow := Some(false);
      }
      LockPage();
    }

    method Hide()
      modifies this
      ensures State() == HideState(old(State()))
    {
      open := false;
      UnlockPage();
      if lastFocused.Some? {
        page := page.(focused := lastFocused.value);
      }
    }

    /** The document click listener; returns whether the click's default was prevented. */
    method OnTriggerClick(m: Modifiers, hit: Option<Trigger>) returns (prevented: bool)
      modifies this
      ensures var outcome := TriggerClick(old(storage), pathname, m, hit);
        prevented == outcome.Intercept? &&
        State() == if outcome.Intercept?
                   then ShowState(old(State()), outcome.targetHref, Some(outcome.key), pathname)
                   else old(State())
    {
      if hit.None? {
        return false;
      }
      var trigger := hit.value;
      if AnyHeld(m) || trigger.target == "_blank" {
        return false;
      }
      var key := KeyFor(hit, pathname);
      var skip := ShouldSkip(storage, key);
      if skip.Threw? || skip.value {
        return false;
      }
      prevented := true;
      Show(if Truthy(trigger.href) then trigger.href else None, Some(key));
    }

    method OnCheck(checked: bool)
      modifies this
      ensures State() == CheckState(old(State()), checked)
    {
      if dontShow.Some? {
        dontShow := Some(checked);
      }
    }

    method OnContinue()
      modifies this
      ensures State() == ContinueState(old(State()))
    {
      if dontShow == Some(true) && Truthy(currentKey) {
        var written := SetItem(storage, currentKey.value, DONT_SHOW);
        if written.Threw? {
          return;
        }
        storage := written.value;
      }
      continuesQueued := continuesQueued + 1;
    }

    method ContinueTimer()
      requires continuesQueued > 0
      modifies this
      ensures State() == ContinueTimerState(old(State()))
    {
      continuesQueued := continuesQueued - 1;
      if Truthy(pendingHref) {
        navigatedTo := pendingHref;
      }
      Hide();
    }

    method OnBackdropClick(insideDialog: bool)
      modifies this
      ensures State() == BackdropState(old(State()), insideDialog)
    {
      if !insideDialog {
        Hide();
      }
    }

    /** The keydown listener; returns what the trap did. */
    method OnKeyDown(focusables: seq<Elem>, key: Key, shift: bool) returns (action: KeyAction)
      modifies this
      ensures action == TrapFocus(old(open), focusables, old(page.focused), key, shift)
      ensures State() == KeyDownState(old(State()), focusables, key, shift)
    {
      if open == false || |focusables| == 0 {
        return Default;
      }
      var first := focusables[0];
      var last := focusables[|focusables| - 1];
      action := Default;
      if key == Tab {
        if shift && page.focused == first {
          action := FocusLast;
          page := page.(focused := last);
        } else if !shift && page.focused == last {
          action := FocusFirst;
          page := page.(focused := first);
        }
      } else if key == Escape {
        action := Close;
        Hide();
      }
    }

    /** The wheel and touchmove listener; returns whether the event's default was prevented. */
    method OnScroll(ev: ScrollEvent) returns (prevented: bool)
      ensures prevented == ScrollLeakPrevented(open, ev)
    {
      if !open {
        return false;
      }
      if ev.inside.None? {
        return true;
      }
      prevented := false;
      if ev.Wheel? {
        var sc := ev.inside.value;
        var atTop := sc.scrollTop <= 0 && ev.deltaY < 0;
        var atBottom := sc.scrollTop + sc.clientHeight >= sc.scrollHeight - 1 && ev.deltaY > 0;
        prevented := atTop || atBottom;
      }
    }
  }
}
