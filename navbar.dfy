/** The navigation bar (components/Navbar.tsx): hidden while the page scrolls
    down past 50 pixels, shown otherwise; a mobile menu that a link click
    closes. */
module Nav {

  /** The scroll offset below which the bar is never hidden. */
  const HideThreshold: int := 50

  /** Whether the bar is shown after a scroll from `last` to `current`: hidden
      exactly when scrolling down and past the threshold. */
  function ShowAfterScroll(last: int, current: int): (shown: bool)
    ensures !shown <==> current > last && current > HideThreshold
    ensures current <= HideThreshold ==> shown
    ensures current <= last ==> shown
  {
    !(current > last && current > HideThreshold)
  }

  class Navbar {
    var menuOpen: bool
    var showNav: bool
    var lastScrollY: int

    constructor ()
      ensures !menuOpen && showNav && lastScrollY == 0
    {
      menuOpen := false;
      showNav := true;
      lastScrollY := 0;
    }

    /** `handleScroll` with the window's current scroll offset. */
    method HandleScroll(currentScrollY: int)
      modifies this`showNav, this`lastScrollY
      ensures showNav == ShowAfterScroll(old(lastScrollY), currentScrollY)
      ensures lastScrollY == currentScrollY
    {
      if currentScrollY > lastScrollY && currentScrollY > HideThreshold {
        showNav := false;
      } else {
        showNav := true;
      }
      lastScrollY := currentScrollY;
    }

    /** `onLinkClick`: the menu closes and the bar shows. */
    method OnLinkClick()
      modifies this`menuOpen, this`showNav
      ensures !menuOpen && showNav
    {
      menuOpen := false;
      showNav := true;
    }

    /** The hamburger button. */
    method ToggleMenu()
      modifies this`menuOpen
      ensures menuOpen == !old(menuOpen)
    {
      menuOpen := !menuOpen;
    }
  }

  /** Scrolling down past the threshold hides the bar; any scroll back up,
      however small, shows it again. */
  method DownThenUp(down: int, up: int) returns (hiddenAfterDown: bool, shownAfterUp: bool)
    requires down > HideThreshold && up < down
    ensures hiddenAfterDown && shownAfterUp
  {
    var bar := new Navbar();
    bar.HandleScroll(down);
    hiddenAfterDown := !bar.showNav;
    bar.HandleScroll(up);
    shownAfterUp := bar.showNav;
  }

  /** Two clicks on the hamburger restore the menu. */
  method ToggleMenuTwice(open: bool) returns (after: bool)
    ensures after == open
  {
    var bar := new Navbar();
    if open {
      bar.ToggleMenu();
    }
    bar.ToggleMenu();
    bar.ToggleMenu();
    after := bar.menuOpen;
  }
}
