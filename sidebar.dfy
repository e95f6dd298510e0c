/**
 * The sidebar's navigation (src/components/app-sidebar.tsx): two fixed lists of links and the
 * rules that mark one of them active for the current path.
 */
module Sidebar {
  import opened Strings

  datatype NavItem = NavItem(name: string, href: string)

  /** The main list, in order. */
  const Navigation: seq<NavItem> := [
    NavItem("Dashboard", "/dashboard"),
    NavItem("Content Scheduler", "/dashboard/scheduler"),
    NavItem("Content Library", "/dashboard/content"),
    NavItem("Social Accounts", "/dashboard/social-accounts"),
    NavItem("AI Assistant", "/dashboard/ai-assistant"),
    NavItem("Analytics", "/dashboard/analytics"),
    NavItem("Team", "/dashboard/team"),
    NavItem("Inbox", "/dashboard/inbox")]

  /** The bottom list, in order. */
  const BottomNavigation: seq<NavItem> := [
    NavItem("Settings", "/dashboard/settings"),
    NavItem("Help & Support", "/dashboard/help")]

  /** Eight main items and two bottom items, each list in its declared order. */
  lemma NavigationLists()
    ensures |Navigation| == 8 && |BottomNavigation| == 2
    ensures Navigation[0].name == "Dashboard" && Navigation[7].name == "Inbox"
    ensures BottomNavigation[0].name == "Settings" && BottomNavigation[1].name == "Help & Support"
  {
  }

  /** A main item is active when its href occurs anywhere in the path. */
  predicate IsMainActive(pathname: string, item: NavItem) {
    Contains(pathname, item.href)
  }

  /** A bottom item is active only on its own path. */
  predicate IsBottomActive(pathname: string, item: NavItem) {
    pathname == item.href
  }

  /** Every main href extends the dashboard's. */
  lemma MainHrefsExtendDashboard(i: nat)
    requires i < |Navigation|
    ensures Navigation[i].href == "/dashboard" + Navigation[i].href[10..]
  {
  }

  /** The dashboard item is active whenever any main item is, so on every other page two
      main items show as active. */
  lemma DashboardAlwaysActive(pathname: string, i: nat)
    requires i < |Navigation| && IsMainActive(pathname, Navigation[i])
    ensures IsMainActive(pathname, Navigation[0])
  {
    MainHrefsExtendDashboard(i);
    ContainsPrefix(pathname, "/dashboard", Navigation[i].href[10..]);
  }

  /** On a main page the page's own item is active too. */
  lemma OwnItemActive(i: nat)
    requires i < |Navigation|
    ensures IsMainActive(Navigation[i].href, Navigation[i])
  {
    ContainsAt(Navigation[i].href, Navigation[i].href, 0);
  }

  /** At most one bottom item is active: their hrefs differ. */
  lemma OneBottomActive(pathname: string)
    ensures !(IsBottomActive(pathname, BottomNavigation[0]) && IsBottomActive(pathname, BottomNavigation[1]))
  {
    assert BottomNavigation[0].href[11] != BottomNavigation[1].href[11];
  }
}
