/**
 * The provider-side navigation drawer: which items are highlighted for a pathname. Its
 * drawer state machine is `Sidebar.Drawer`, defined identically in both files.
 */
module ProviderSidebar {
  import opened JsText
  import opened Sidebar

  const MainItems: seq<MenuItem> := [
    MenuItem("Dashboard", "/provider"), MenuItem("Patients", "/provider"),
    MenuItem("Reports", "/provider/reports"), MenuItem("Compliance Notes", "/provider/notes")
  ]

  const BottomItems: seq<MenuItem> := [MenuItem("Settings", "/provider/settings")]

  /**
   * A main item is highlighted on an exact match; a /provider item also for every pathname
   * under /provider except the reports, notes and settings pages.
   */
  function IsMainActive(pathname: string, itemPath: string): (r: bool)
    ensures r <==> (pathname == itemPath || (itemPath == "/provider" && "/provider" <= pathname
      && !("/provider/reports" <= pathname) && !("/provider/notes" <= pathname) && !("/provider/settings" <= pathname)))
  {
    pathname == itemPath
    || (itemPath == "/provider" && StartsWith(pathname, "/provider")
        && !StartsWith(pathname, "/provider/reports")
        && !StartsWith(pathname, "/provider/notes")
        && !StartsWith(pathname, "/provider/settings"))
  }

  /** A bottom item is highlighted only on an exact match. */
  function IsBottomActive(pathname: string, itemPath: string): (r: bool)
    ensures r <==> pathname == itemPath
  {
    pathname == itemPath
  }

  /** Dashboard and Patients share their path, so they are always highlighted together. */
  lemma DashboardWithPatients(pathname: string)
    ensures IsMainActive(pathname, MainItems[0].path) <==> IsMainActive(pathname, MainItems[1].path)
  {
  }

  /** For any pathname, the highlighted main items all share one path. */
  lemma OnePathHighlighted(pathname: string, i: int, j: int)
    requires 0 <= i < |MainItems| && 0 <= j < |MainItems|
    requires IsMainActive(pathname, MainItems[i].path) && IsMainActive(pathname, MainItems[j].path)
    ensures MainItems[i].path == MainItems[j].path
  {
  }

  /** On the settings page no main item is highlighted, only the bottom one. */
  lemma SettingsHighlightsBottomOnly(i: int)
    requires 0 <= i < |MainItems|
    ensures !IsMainActive("/provider/settings", MainItems[i].path)
    ensures IsBottomActive("/provider/settings", BottomItems[0].path)
  {
    assert "/provider/settings" <= "/provider/settings";
  }
}
