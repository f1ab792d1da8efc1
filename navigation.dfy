/** `NavigationManager` (script.js): the mobile menu and the navbar's reaction to scrolling. */
module Navigation {
  import opened Page

  /** Scroll offset (pixels) beyond which the navbar is styled as scrolled and may hide. */
  const ScrollThreshold: int := 100

  /** The navbar's two scroll-driven states: the 'scrolled' class and the slid-out transform. */
  datatype NavbarFlags = NavbarFlags(scrolled: bool, hidden: bool)

  /** The scroll handler's decision for a scroll from `lastY` to `y`. */
  function FlagsAfterScroll(lastY: int, y: int): (f: NavbarFlags)
    ensures f.scrolled <==> y > ScrollThreshold
    ensures f.hidden <==> f.scrolled && y > lastY
  {
    NavbarFlags(y > ScrollThreshold, y > lastY && y > ScrollThreshold)
  }

  /** Scrolling up, or staying within the threshold, always shows the navbar. */
  lemma ScrollingUpShowsNavbar(lastY: int, y: int)
    requires y <= lastY || y <= ScrollThreshold
    ensures !FlagsAfterScroll(lastY, y).hidden
  {
  }

  class NavigationManager {
    const body: Body
    /** The 'active' class of the hamburger button and of the menu. */
    var hamburgerActive: bool
    var menuActive: bool
    var flags: NavbarFlags
    /** `lastScrollY`, captured by the scroll listener. */
    var lastScrollY: int

    /** The hamburger and the menu are toggled together, so they always agree. */
    ghost predicate Valid()
      reads this
    {
      hamburgerActive == menuActive
    }

    /** `constructor`/`init`: `scrollY` is the window's scroll offset at start-up. */
    constructor (body: Body, scrollY: int)
      ensures Valid() && this.body == body
      ensures !menuActive && flags == NavbarFlags(false, false) && lastScrollY == scrollY
    {
      this.body := body;
      hamburgerActive, menuActive := false, false;
      flags := NavbarFlags(false, false);
      lastScrollY := scrollY;
    }

    /** `toggleMobileMenu`: opens or closes the menu; page scrolling is locked exactly while it is open. */
    method ToggleMobileMenu()
      requires Valid()
      modifies this, body
      ensures Valid()
      ensures menuActive == !old(menuActive)
      ensures body.scrollLocked == menuActive
      ensures flags == old(flags) && lastScrollY == old(lastScrollY)
    {
      hamburgerActive := !hamburgerActive;
      menuActive := !menuActive;
      body.scrollLocked := menuActive;
    }

    /** `closeMobileMenu`: always ends closed and unlocked, whatever else had locked the body. */
    method CloseMobileMenu()
      modifies this, body
      ensures Valid()
      ensures !menuActive && !body.scrollLocked
      ensures flags == old(flags) && lastScrollY == old(lastScrollY)
    {
      hamburgerActive := false;
      menuActive := false;
      body.scrollLocked := false;
    }

    /** The scroll listener of `handleNavbarScroll`, for a scroll to offset `y`. */
    method OnScroll(y: int)
      modifies this
      ensures flags == FlagsAfterScroll(old(lastScrollY), y)
      ensures lastScrollY == y
      ensures hamburgerActive == old(hamburgerActive) && menuActive == old(menuActive)
    {
      flags := FlagsAfterScroll(lastScrollY, y);
      lastScrollY := y;
    }
  }

  /** Toggling the menu twice restores it and leaves the body unlocked if it started closed. */
  method ToggleTwice(nav: NavigationManager)
    requires nav.Valid() && !nav.menuActive
    modifies nav, nav.body
    ensures nav.Valid() && !nav.menuActive && !nav.body.scrollLocked
  {
    nav.ToggleMobileMenu();
    nav.ToggleMobileMenu();
  }
}
