/**
 * The responsive navigation bar: `isMobile` follows the viewport width against a
 * 768-pixel breakpoint, and `isOpen` is the burger menu's expanded flag.
 */
module Navbar {

  /** Viewports narrower than this many pixels use the mobile layout. */
  const Breakpoint: int := 768

  datatype NavState = NavState(isOpen: bool, isMobile: bool)

  /** What can happen to the bar: a window resize to a width, or a click on the burger button. */
  datatype NavEvent = Resize(width: int) | BurgerClick

  /** The state on mount, for the viewport width `window.innerWidth` has then. */
  function Initial(width: int): (r: NavState)
    ensures !r.isOpen && (r.isMobile <==> width < Breakpoint)
  {
    NavState(false, width < Breakpoint)
  }

  /** The desktop layout never shows an open menu. */
  predicate Inv(s: NavState) {
    !s.isMobile ==> !s.isOpen
  }

  /** The burger button is rendered only while the mobile layout is active. */
  predicate BurgerShown(s: NavState) {
    s.isMobile
  }

  /** `handleResize`: recompute `isMobile`; growing to the desktop width closes the menu. */
  function Resized(s: NavState, width: int): (r: NavState)
    ensures r.isMobile <==> width < Breakpoint
    ensures width >= Breakpoint ==> !r.isOpen
    ensures width < Breakpoint ==> r.isOpen == s.isOpen
    ensures Inv(r)
  {
    NavState(if width >= Breakpoint then false else s.isOpen, width < Breakpoint)
  }

  /** `toggleMenu`: flips `isOpen` and nothing else. */
  function Toggled(s: NavState): (r: NavState)
    ensures r.isOpen == !s.isOpen && r.isMobile == s.isMobile
  {
    s.(isOpen := !s.isOpen)
  }

  /** One event; a burger click can only reach `toggleMenu` while the button is on screen. */
  function Step(s: NavState, e: NavEvent): (r: NavState)
    ensures Inv(s) ==> Inv(r)
    ensures e.BurgerClick? ==> r.isMobile == s.isMobile
    ensures e.BurgerClick? && !BurgerShown(s) ==> r == s
    ensures e.Resize? ==> (r.isMobile <==> e.width < Breakpoint)
  {
    match e
    case Resize(width) => Resized(s, width)
    case BurgerClick => if BurgerShown(s) then Toggled(s) else s
  }

  function Run(s: NavState, events: seq<NavEvent>): NavState
    decreases |events|
  {
    if events == [] then s else Run(Step(s, events[0]), events[1..])
  }

  /** The initial state satisfies the invariant, whatever the width. */
  lemma InitialInv(width: int)
    ensures Inv(Initial(width))
  {
  }

  /** Every sequence of events keeps `!isMobile ==> !isOpen`. */
  lemma {:induction false} RunKeepsInv(s: NavState, events: seq<NavEvent>)
    requires Inv(s)
    ensures Inv(Run(s, events))
    decreases |events|
  {
    if events != [] {
      RunKeepsInv(Step(s, events[0]), events[1..]);
    }
  }

  /** Toggling twice restores the state. */
  lemma ToggleTwice(s: NavState)
    ensures Toggled(Toggled(s)) == s
  {
  }

  /** A second resize to the same width changes nothing. */
  lemma ResizeIdempotent(s: NavState, width: int)
    ensures Resized(Resized(s, width), width) == Resized(s, width)
  {
  }

  /**
   * From a desktop mount at 1024 pixels, shrinking to 500 turns the mobile layout on;
   * opening the menu and growing back to 1024 turns it off and closes the menu.
   */
  lemma ShrinkOpenGrow()
    ensures Run(Initial(1024), [Resize(500)]).isMobile
    ensures var s := Run(Initial(1024), [Resize(500), BurgerClick]);
      s.isOpen && Run(s, [Resize(1024)]) == NavState(false, false)
  {
    assert [Resize(500), BurgerClick][1..] == [BurgerClick];
  }

  /** The component's two state cells. */
  class NavBar {
    var isOpen: bool
    var isMobile: bool

    ghost function Model(): NavState
      reads this
    {
      NavState(isOpen, isMobile)
    }

    ghost predicate Valid()
      reads this
    {
      Inv(Model())
    }

    /** Mount: `useState(false)` and `useState(window.innerWidth < 768)`. */
    constructor (width: int)
      ensures Model() == Initial(width) && Valid()
    {
      isOpen := false;
      isMobile := width < Breakpoint;
    }

    /** The resize listener, for the new `window.innerWidth`. */
    method HandleResize(width: int)
      requires Valid()
      modifies this
      ensures Model() == Step(old(Model()), Resize(width)) && Valid()
      ensures isMobile == (width < Breakpoint)
      ensures isOpen == (old(isOpen) && width < Breakpoint)
    {
      isMobile := width < Breakpoint;
      if width >= Breakpoint {
        isOpen := false;
      }
    }

    /** `toggleMenu`, wired to the burger button, which exists only on the mobile layout. */
    method ToggleMenu()
      requires Valid() && isMobile
      modifies this
      ensures Model() == Step(old(Model()), BurgerClick) && Valid()
      ensures isOpen == !old(isOpen) && isMobile == old(isMobile)
    {
      isOpen := !isOpen;
    }
  }
}
