/** The site-wide navigation bar: its hide-on-scroll-down chrome, the mobile
    menu with its branch-address carousel, the sign-in modal flag that a
    first visit sets by itself, and the page scroll-lock that follows the menu
    and that flag. No markup of the bar renders the flag: signing in goes
    through the authentication provider's own buttons, so while the flag is
    set the page is locked with nothing on screen to close (see
    `FirstVisitBlankLock`).

    `NavState` is one snapshot of everything these handlers read or write: the
    component's own state plus two pieces of browser state they share with the
    rest of the page, the `hasVisitedBefore` entry of local storage and whether
    `document.body.style.overflow` is `hidden`. The functions below give the
    effect of each browser event on a snapshot; `NavbarController` holds the
    same state in fields and performs the events in place. */
module Navbar {
  import Carousel

  /** Scroll offset, in pixels, past which scrolling down hides the bar. */
  const HideThreshold := 120
  /** Scroll offset, in pixels, past which the bar switches to its compact style. */
  const ScrolledThreshold := 20

  /** The three branch addresses cycled by the menu's address carousel. */
  const Addresses: seq<string> := [
    "D-1/115 Phase-2, Mayapuri Industrial Area, New Delhi-110064",
    "KHASRA NO. - 634, Hiran Kudna Village, Mundka, New Delhi - 110041",
    "E-126, Bulandshahr Road, Loha Mandi, Industrial Area, Ghaziabad, UP-201009"
  ]

  datatype AuthMode = SignIn | SignUp

  datatype NavState = NavState(
    isScrolled: bool,
    isMenuOpen: bool,
    isVisible: bool,
    lastScrollY: int,
    activeAddress: int,
    showAuthModal: bool,
    authMode: AuthMode,
    hasVisitedBefore: bool,   // local storage entry `hasVisitedBefore`
    bodyScrollLocked: bool,   // `document.body.style.overflow` is `hidden`
    mounted: bool)

  /** What the scroll-lock effect wants the body's overflow to be. */
  predicate LockWanted(s: NavState) {
    s.isMenuOpen || s.showAuthModal
  }

  /** The state right after mounting, given what local storage already holds.
      The overflow effect has run once and, with both overlays closed, cleared
      the lock. */
  function Initial(visited: bool): NavState {
    NavState(false, false, true, 0, 0, false, SignIn, visited, false, true)
  }

  /** The invariant every reachable state keeps: the address index points into
      the list, and the body lock mirrors the overlays while the bar is
      mounted and is released once it is not. */
  predicate Inv(s: NavState) {
    && 0 <= s.activeAddress < |Addresses|
    && (s.mounted ==> s.bodyScrollLocked == LockWanted(s))
    && (!s.mounted ==> !s.bodyScrollLocked)
  }

  /** The overflow effect, re-run after a render that changed an overlay flag. */
  function SyncLock(s: NavState): NavState {
    s.(bodyScrollLocked := LockWanted(s))
  }

  /** `handleScroll` with `window.scrollY == y`. */
  function OnScroll(s: NavState, y: int): NavState {
    s.(isVisible := !(y > s.lastScrollY && y > HideThreshold),
       lastScrollY := y,
       isScrolled := y > ScrolledThreshold)
  }

  /** The menu button: `setIsMenuOpen(!isMenuOpen)`. */
  function OnToggleMenu(s: NavState): NavState {
    SyncLock(s.(isMenuOpen := !s.isMenuOpen))
  }

  /** The menu's own close button, and `handleNavClick` on every navigation
      link: the menu closes whatever its state was. */
  function OnCloseMenu(s: NavState): NavState {
    SyncLock(s.(isMenuOpen := false))
  }

  /** A `mousedown` anywhere in the document. The menu container exists (and
      `menuRef.current` is set) only while the menu is open; the menu closes
      when the target lies outside it and not inside a button. */
  function OnMouseDown(s: NavState, insideMenu: bool, insideButton: bool): NavState {
    if s.isMenuOpen && !insideMenu && !insideButton then OnCloseMenu(s) else s
  }

  /** A `keydown`: Escape closes the menu and the sign-in modal. */
  function OnKeyDown(s: NavState, key: string): NavState {
    if key == "Escape" then SyncLock(s.(isMenuOpen := false, showAuthModal := false)) else s
  }

  function OnPrevAddress(s: NavState): NavState
    requires Inv(s)
  {
    s.(activeAddress := Carousel.Prev(s.activeAddress, |Addresses|))
  }

  function OnNextAddress(s: NavState): NavState
    requires Inv(s)
  {
    s.(activeAddress := Carousel.Next(s.activeAddress, |Addresses|))
  }

  /** Whether the first-visit effect opens the modal when it runs with the
      given authentication status. */
  predicate AutoOpens(s: NavState, isLoaded: bool, signedIn: bool) {
    isLoaded && !signedIn && !s.hasVisitedBefore
  }

  /** The first-visit effect, run whenever the authentication status changes. */
  function OnAuthStatus(s: NavState, isLoaded: bool, signedIn: bool): NavState {
    if AutoOpens(s, isLoaded, signedIn) then
      SyncLock(s.(showAuthModal := true, authMode := SignIn, hasVisitedBefore := true))
    else s
  }

  /** Unmounting: every listener is removed and the overflow effect's cleanup
      releases the lock, whatever the overlays were. */
  function OnUnmount(s: NavState): NavState {
    s.(bodyScrollLocked := false, mounted := false)
  }

  datatype NavEvent =
    | Scroll(y: int)
    | ToggleMenu
    | CloseMenu
    | MouseDown(insideMenu: bool, insideButton: bool)
    | KeyDown(key: string)
    | NavClick
    | PrevAddress
    | NextAddress
    | AuthStatus(isLoaded: bool, signedIn: bool)
    | Unmount

  /** One event; once unmounted, nothing is listening any more. */
  function Step(s: NavState, e: NavEvent): NavState
    requires Inv(s)
  {
    if !s.mounted then s
    else match e
      case Scroll(y) => OnScroll(s, y)
      case ToggleMenu => OnToggleMenu(s)
      case CloseMenu => OnCloseMenu(s)
      case MouseDown(inside, button) => OnMouseDown(s, inside, button)
      case KeyDown(key) => OnKeyDown(s, key)
      case NavClick => OnCloseMenu(s)
      case PrevAddress => OnPrevAddress(s)
      case NextAddress => OnNextAddress(s)
      case AuthStatus(loaded, signedIn) => OnAuthStatus(s, loaded, signedIn)
      case Unmount => OnUnmount(s)
  }

  lemma StepKeepsInv(s: NavState, e: NavEvent)
    requires Inv(s)
    ensures Inv(Step(s, e))
  {
  }

  /** A sequence of events, in order. */
  function Run(s: NavState, events: seq<NavEvent>): (t: NavState)
    requires Inv(s)
    ensures Inv(t)
    decreases |events|
  {
    if events == [] then s
    else
      StepKeepsInv(s, events[0]);
      Run(Step(s, events[0]), events[1..])
  }

  lemma InitialInv(visited: bool)
    ensures Inv(Initial(visited))
    ensures var s := Initial(visited);
      s.isVisible && s.lastScrollY == 0 && !s.isScrolled && !s.isMenuOpen
      && !s.showAuthModal && s.activeAddress == 0 && !s.bodyScrollLocked
  {
  }

  // ---------------------------------------------------------------- scroll

  /** One sample: the bar hides exactly when the page moved down and is past
      the hide threshold; the new sample is remembered, and the compact style
      follows the sample alone. */
  lemma ScrollSample(s: NavState, y: int)
    ensures !OnScroll(s, y).isVisible <==> y > s.lastScrollY && y > HideThreshold
    ensures OnScroll(s, y).lastScrollY == y
    ensures OnScroll(s, y).isScrolled <==> y > ScrolledThreshold
    ensures y <= HideThreshold || y <= s.lastScrollY ==> OnScroll(s, y).isVisible
  {
  }

  /** Over any run of scroll events, the bar's visibility is decided by the
      last two samples only (the first sample is compared with the offset
      remembered before the run); nothing earlier matters. */
  lemma {:induction false} ScrollRunLastTwo(s: NavState, events: seq<NavEvent>)
    requires Inv(s) && s.mounted
    requires |events| > 0
    requires forall i :: 0 <= i < |events| ==> events[i].Scroll?
    ensures var t := Run(s, events);
      var cur := events[|events| - 1].y;
      var prev := if |events| == 1 then s.lastScrollY else events[|events| - 2].y;
      && (!t.isVisible <==> cur > prev && cur > HideThreshold)
      && t.lastScrollY == cur
      && (t.isScrolled <==> cur > ScrolledThreshold)
      && t.mounted
    decreases |events|
  {
    var s' := Step(s, events[0]);
    if |events| > 1 {
      assert forall i :: 0 <= i < |events[1..]| ==> events[1..][i].Scroll? by {
        forall i | 0 <= i < |events[1..]| ensures events[1..][i].Scroll? {
          assert events[1..][i] == events[i + 1];
        }
      }
      ScrollRunLastTwo(s', events[1..]);
      assert events[1..][|events[1..]| - 1] == events[|events| - 1];
      if |events| == 2 {
        assert s'.lastScrollY == events[0].y;
      } else {
        assert events[1..][|events[1..]| - 2] == events[|events| - 2];
      }
    }
  }

  // ---------------------------------------------------------- menu, modal

  /** Escape closes both overlays and releases the lock; any other key
      changes nothing. */
  lemma EscapeClosesOverlays(s: NavState, key: string)
    requires Inv(s) && s.mounted
    ensures key == "Escape" ==>
      var t := OnKeyDown(s, key);
      !t.isMenuOpen && !t.showAuthModal && !t.bodyScrollLocked
      && t.activeAddress == s.activeAddress && t.isVisible == s.isVisible
    ensures key != "Escape" ==> OnKeyDown(s, key) == s
  {
  }

  /** An outside mousedown closes only the menu, never the sign-in modal, and
      only when the target is outside the menu and not inside a button. */
  lemma OutsideClickClosesOnlyMenu(s: NavState, insideMenu: bool, insideButton: bool)
    requires Inv(s) && s.mounted
    ensures var t := OnMouseDown(s, insideMenu, insideButton);
      && t.showAuthModal == s.showAuthModal
      && (t.isMenuOpen <==> s.isMenuOpen && (insideMenu || insideButton))
      && t.bodyScrollLocked == (t.isMenuOpen || t.showAuthModal)
  {
  }

  /** Every navigation click leaves the menu closed. */
  lemma NavClickClosesMenu(s: NavState)
    requires Inv(s) && s.mounted
    ensures !Step(s, NavClick).isMenuOpen
    ensures Step(s, NavClick).showAuthModal == s.showAuthModal
  {
  }

  /** While mounted, the body is locked exactly when an overlay is open, after
      any run of events; once unmounted, whatever was open, it is unlocked. */
  lemma {:induction false} LockFollowsOverlays(visited: bool, events: seq<NavEvent>)
    ensures var t := Run(Initial(visited), events);
      && (t.mounted ==> (t.bodyScrollLocked <==> t.isMenuOpen || t.showAuthModal))
      && (!t.mounted ==> !t.bodyScrollLocked)
  {
    InitialInv(visited);
  }

  /** The address carousel stays within the three addresses, "next" and
      "prev" undo each other, and both wrap at the ends. */
  lemma AddressCarousel(s: NavState)
    requires Inv(s) && s.mounted
    ensures 0 <= OnNextAddress(s).activeAddress < 3
    ensures 0 <= OnPrevAddress(s).activeAddress < 3
    ensures OnPrevAddress(OnNextAddress(s)) == s
    ensures OnNextAddress(OnPrevAddress(s)) == s
    ensures s.activeAddress == 2 ==> OnNextAddress(s).activeAddress == 0
    ensures s.activeAddress == 0 ==> OnPrevAddress(s).activeAddress == 2
  {
    Carousel.NextUndoesPrev(s.activeAddress, |Addresses|);
  }

  // ------------------------------------------------------ first-visit modal

  /** The effect sets the modal flag, in sign-in mode, and locks the page
      exactly when auth has loaded, nobody is signed in and the visit flag is
      absent; the visit flag is then set. */
  lemma AuthStatusEffect(s: NavState, isLoaded: bool, signedIn: bool)
    requires Inv(s)
    ensures var t := OnAuthStatus(s, isLoaded, signedIn);
      && (isLoaded && !signedIn && !s.hasVisitedBefore ==>
            t.showAuthModal && t.authMode == SignIn && t.hasVisitedBefore && t.bodyScrollLocked)
      && (!(isLoaded && !signedIn && !s.hasVisitedBefore) ==> t == s)
  {
  }

  /** Whether event `e` makes the first-visit effect open the modal. */
  predicate Fires(s: NavState, e: NavEvent) {
    s.mounted && e.AuthStatus? && AutoOpens(s, e.isLoaded, e.signedIn)
  }

  /** How many events of a run open the modal by themselves. */
  function AutoOpenCount(s: NavState, events: seq<NavEvent>): nat
    requires Inv(s)
    decreases |events|
  {
    if events == [] then 0
    else
      StepKeepsInv(s, events[0]);
      (if Fires(s, events[0]) then 1 else 0) + AutoOpenCount(Step(s, events[0]), events[1..])
  }

  /** One event never clears the visit flag, and an event that opens the
      modal by itself sets it. */
  lemma StepVisitFlag(s: NavState, e: NavEvent)
    requires Inv(s)
    ensures Fires(s, e) ==> !s.hasVisitedBefore && Step(s, e).hasVisitedBefore
    ensures s.hasVisitedBefore ==> Step(s, e).hasVisitedBefore
  {
  }

  /** The visit flag, once set, stays set. */
  lemma {:induction false} VisitFlagSticks(s: NavState, events: seq<NavEvent>)
    requires Inv(s) && s.hasVisitedBefore
    ensures Run(s, events).hasVisitedBefore
    decreases |events|
  {
    if events != [] {
      StepKeepsInv(s, events[0]);
      StepVisitFlag(s, events[0]);
      VisitFlagSticks(Step(s, events[0]), events[1..]);
    }
  }

  /** The modal opens by itself at most once over any run of events, and
      never on a visitor whose flag is already set. */
  lemma {:induction false} AutoOpenAtMostOnce(s: NavState, events: seq<NavEvent>)
    requires Inv(s)
    ensures AutoOpenCount(s, events) <= if s.hasVisitedBefore then 0 else 1
    decreases |events|
  {
    if events != [] {
      var e := events[0];
      StepKeepsInv(s, e);
      var s' := Step(s, e);
      assert AutoOpenCount(s, events) == (if Fires(s, e) then 1 else 0) + AutoOpenCount(s', events[1..]);
      AutoOpenAtMostOnce(s', events[1..]);
      StepVisitFlag(s, e);
    }
  }

  // ------------------------------------------ the lock nobody can see

  /** The overlays the bar's markup renders. The mobile menu is one; no
      element reads `showAuthModal`, so the sign-in modal is not. */
  predicate RenderedOverlay(s: NavState) {
    s.isMenuOpen
  }

  /** While the modal flag is set, the page stays locked and the flag stays
      set through every event except Escape and unmounting: no other handler
      clears the flag. */
  lemma {:induction false} LockedUntilEscape(s: NavState, events: seq<NavEvent>)
    requires Inv(s) && s.mounted && s.showAuthModal
    requires forall i :: 0 <= i < |events| ==> events[i] != KeyDown("Escape") && !events[i].Unmount?
    ensures var t := Run(s, events);
      t.mounted && t.showAuthModal && t.bodyScrollLocked
    decreases |events|
  {
    if events != [] {
      StepKeepsInv(s, events[0]);
      assert events[0] != KeyDown("Escape") && !events[0].Unmount?;
      assert forall i :: 0 <= i < |events[1..]| ==>
          events[1..][i] != KeyDown("Escape") && !events[1..][i].Unmount? by {
        forall i | 0 <= i < |events[1..]|
          ensures events[1..][i] != KeyDown("Escape") && !events[1..][i].Unmount?
        {
          assert events[1..][i] == events[i + 1];
        }
      }
      LockedUntilEscape(Step(s, events[0]), events[1..]);
    }
  }

  /** As written: a signed-out first visit locks the page with no overlay on
      screen, and it stays locked through scrolling, clicks and navigation
      until the visitor happens to press Escape. */
  lemma FirstVisitBlankLock(events: seq<NavEvent>)
    requires forall i :: 0 <= i < |events| ==> events[i] != KeyDown("Escape") && !events[i].Unmount?
    ensures var s := Run(Initial(false), [AuthStatus(true, false)]);
      && s.bodyScrollLocked && !RenderedOverlay(s)
      && Run(s, events).bodyScrollLocked
  {
    InitialInv(false);
    var s := Run(Initial(false), [AuthStatus(true, false)]);
    assert s == OnAuthStatus(Initial(false), true, false);
    LockedUntilEscape(s, events);
  }

  /** The overlays on screen once the sign-in modal is rendered while its
      flag is set, as the flag, `authMode` and the Escape handler show was
      intended. */
  predicate OverlayOnScreen(s: NavState) {
    RenderedOverlay(s) || s.showAuthModal
  }

  /** With the modal rendered, the page is never locked without something on
      screen that the visitor can close, after any run of events. */
  lemma LockImpliesVisibleOverlay(visited: bool, events: seq<NavEvent>)
    ensures var t := Run(Initial(visited), events);
      t.bodyScrollLocked ==> OverlayOnScreen(t) && t.mounted
  {
    LockFollowsOverlays(visited, events);
  }

  /** The navigation bar in place: each field is one piece of the component's
      state (or of the browser state it writes), each method one browser
      event or effect. */
  class NavbarController {
    var isScrolled: bool
    var isMenuOpen: bool
    var isVisible: bool
    var lastScrollY: int
    var activeAddress: int
    var showAuthModal: bool
    var authMode: AuthMode
    var hasVisitedBefore: bool
    var bodyScrollLocked: bool
    var mounted: bool

    function State(): NavState
      reads this
    {
      NavState(isScrolled, isMenuOpen, isVisible, lastScrollY, activeAddress,
               showAuthModal, authMode, hasVisitedBefore, bodyScrollLocked, mounted)
    }

    ghost predicate Valid()
      reads this
    {
      Inv(State())
    }

    /** Mounting, with the visit flag local storage holds at that moment. */
    constructor (visited: bool)
      ensures Valid() && State() == Initial(visited)
    {
      isScrolled, isMenuOpen, isVisible, lastScrollY := false, false, true, 0;
      activeAddress, showAuthModal, authMode := 0, false, SignIn;
      hasVisitedBefore, bodyScrollLocked, mounted := visited, false, true;
    }

    /** The overflow effect: lock the body while an overlay is open. */
    method OverflowEffect()
      modifies this`bodyScrollLocked
      ensures State() == SyncLock(old(State()))
    {
      if isMenuOpen || showAuthModal {
        bodyScrollLocked := true;
      } else {
        bodyScrollLocked := false;
      }
    }

    method HandleScroll(y: int)
      requires Valid() && mounted
      modifies this
      ensures Valid() && State() == OnScroll(old(State()), y)
    {
      if y > lastScrollY && y > HideThreshold {
        isVisible := false;
      } else {
        isVisible := true;
      }
      lastScrollY := y;
      isScrolled := y > ScrolledThreshold;
    }

    method ToggleMenu()
      requires Valid() && mounted
      modifies this
      ensures Valid() && State() == OnToggleMenu(old(State()))
    {
      isMenuOpen := !isMenuOpen;
      OverflowEffect();
    }

    /** The close button inside the menu. */
    method CloseMenu()
      requires Valid() && mounted
      modifies this
      ensures Valid() && State() == OnCloseMenu(old(State()))
    {
      isMenuOpen := false;
      OverflowEffect();
    }

    method HandleClickOutside(insideMenu: bool, insideButton: bool)
      requires Valid() && mounted
      modifies this
      ensures Valid() && State() == OnMouseDown(old(State()), insideMenu, insideButton)
    {
      if isMenuOpen && !insideMenu && !insideButton {
        isMenuOpen := false;
        OverflowEffect();
      }
    }

    method HandleEscKey(key: string)
      requires Valid() && mounted
      modifies this
      ensures Valid() && State() == OnKeyDown(old(State()), key)
    {
      if key == "Escape" {
        isMenuOpen := false;
        showAuthModal := false;
        OverflowEffect();
      }
    }

    /** `handleNavClick`; the smooth scroll to the top it schedules arrives
        later as ordinary scroll events. */
    method HandleNavClick()
      requires Valid() && mounted
      modifies this
      ensures Valid() && State() == Step(old(State()), NavClick)
    {
      isMenuOpen := false;
      OverflowEffect();
    }

    method PreviousAddress()
      requires Valid() && mounted
      modifies this
      ensures Valid() && State() == OnPrevAddress(old(State()))
    {
      activeAddress := Carousel.Prev(activeAddress, |Addresses|);
    }

    method NextAddress()
      requires Valid() && mounted
      modifies this
      ensures Valid() && State() == OnNextAddress(old(State()))
    {
      activeAddress := Carousel.Next(activeAddress, |Addresses|);
    }

    method FirstVisitEffect(isLoaded: bool, signedIn: bool)
      requires Valid() && mounted
      modifies this
      ensures Valid() && State() == OnAuthStatus(old(State()), isLoaded, signedIn)
    {
      if isLoaded && !signedIn {
        if !hasVisitedBefore {
          showAuthModal := true;
          authMode := SignIn;
          hasVisitedBefore := true;
          OverflowEffect();
        }
      }
    }

    method Unmount()
      requires Valid() && mounted
      modifies this
      ensures Valid() && State() == OnUnmount(old(State()))
      ensures !bodyScrollLocked
    {
      bodyScrollLocked := false;
      mounted := false;
    }
  }
}
