/**
 * The patient-side navigation drawer: which menu item is highlighted for a pathname, and
 * the mobile drawer's open/closing state machine, which the provider drawer shares.
 */
module Sidebar {
  import opened Options
  import opened JsText

  datatype MenuItem = MenuItem(text: string, path: string)

  const MenuItems: seq<MenuItem> := [
    MenuItem("Home", "/"), MenuItem("Provider Portal", "/provider"), MenuItem("Patients", "/patients"),
    MenuItem("Profile", "/profile"), MenuItem("Reports", "/reports")
  ]

  /** An item is highlighted on an exact match; the /provider item also for every pathname starting with it. */
  function IsActive(pathname: string, itemPath: string): (r: bool)
    ensures r <==> pathname == itemPath || (itemPath == "/provider" && "/provider" <= pathname)
  {
    pathname == itemPath || (itemPath == "/" && pathname == "/") || (itemPath == "/provider" && StartsWith(pathname, "/provider"))
  }

  /**
   * Home is highlighted only on "/", and the prefix test is on characters, not path
   * segments: "/providers" also highlights the provider item.
   */
  lemma ActivePaths(pathname: string)
    ensures IsActive(pathname, "/") <==> pathname == "/"
    ensures IsActive("/provider/patients/7", "/provider")
    ensures IsActive("/providers", "/provider")
    ensures !IsActive("/patients/7", "/patients")
  {
  }

  /** The breakpoint below which navigating closes the drawer. */
  const MobileWidth: int := 600

  /** The drawer state: `mobileOpen` and `isClosing`, plus the paths navigated to, in order. */
  class Drawer {
    var mobileOpen: bool
    var isClosing: bool
    var visited: seq<string>

    constructor ()
      ensures !mobileOpen && !isClosing && visited == []
    {
      mobileOpen := false;
      isClosing := false;
      visited := [];
    }

    /** `handleDrawerClose`: closed, with the closing animation running. */
    method Close()
      modifies this
      ensures isClosing && !mobileOpen && visited == old(visited)
    {
      isClosing := true;
      mobileOpen := false;
    }

    /** `handleDrawerTransitionEnd`: the animation is over. */
    method TransitionEnd()
      modifies this
      ensures !isClosing && mobileOpen == old(mobileOpen) && visited == old(visited)
    {
      isClosing := false;
    }

    /** `handleDrawerToggle`: flips the drawer, except while it is closing. */
    method Toggle()
      modifies this
      ensures mobileOpen == if old(isClosing) then old(mobileOpen) else !old(mobileOpen)
      ensures isClosing == old(isClosing) && visited == old(visited)
    {
      if !isClosing {
        mobileOpen := !mobileOpen;
      }
    }

    /**
     * `handleNavigation`: goes to `path`, and closes the drawer only when a window is
     * supplied (`innerWidth` is its width) and it is narrower than 600.
     */
    method Navigate(path: string, innerWidth: Option<int>)
      modifies this
      ensures visited == old(visited) + [path]
      ensures innerWidth.Some? && innerWidth.value < MobileWidth ==> isClosing && !mobileOpen
      ensures !(innerWidth.Some? && innerWidth.value < MobileWidth) ==>
        isClosing == old(isClosing) && mobileOpen == old(mobileOpen)
    {
      visited := visited + [path];
      if innerWidth.Some? && innerWidth.value < MobileWidth {
        Close();
      }
    }
  }
}
