/** The dashboard's navigation sidebar: the tab buttons, collapsing, and navigation. */
module Sidebar {
  import opened Platform
  import opened Seqs

  /** The buttons of the desktop sidebar, top to bottom. */
  const DesktopTabs: seq<string> := ["dashboard", "chat", "appointments", "services", "resources"]

  /** The buttons of the mobile bar, left to right. */
  const MobileTabs: seq<string> := ["dashboard", "chat", "appointments", "services"]

  /** The mobile bar is the desktop list without its last button, resources; neither offers
      the community tab, and neither lists a tab twice. */
  lemma TabLists()
    ensures MobileTabs == DesktopTabs[..4] && DesktopTabs[4] == "resources"
    ensures "resources" !in MobileTabs && "community" !in DesktopTabs && "community" !in MobileTabs
    ensures NoDuplicates(DesktopTabs) && NoDuplicates(MobileTabs)
  {
    assert |"resources"| == 9 && |"community"| == 9;
    assert "resources"[0] == 'r' && "community"[0] == 'c';
  }

  /** `navigateTo`'s route switch: every tab, listed or not, goes to the dashboard route. */
  function NavigationRoute(tab: string): (r: string)
    ensures r == DashboardRoute
  {
    match tab
    case "dashboard" => DashboardRoute
    case "chat" => DashboardRoute
    case "appointments" => DashboardRoute
    case "services" => DashboardRoute
    case "resources" => DashboardRoute
    case "community" => DashboardRoute
    case _ => DashboardRoute
  }

  /** How a button is drawn: highlighted or not, with or without its label. */
  datatype ButtonLook = ButtonLook(active: bool, labelShown: bool)

  /** A button is highlighted iff it is the active tab, and its label is hidden while the
      sidebar is collapsed. */
  function Look(tab: string, activeTab: string, collapsed: bool): (b: ButtonLook)
  {
    ButtonLook(activeTab == tab, !collapsed)
  }

  /** In a list without repeats at most one button is highlighted, and it is the active tab's. */
  lemma AtMostOneActive(tabs: seq<string>, activeTab: string, collapsed: bool, i: int, j: int)
    requires NoDuplicates(tabs) && 0 <= i < |tabs| && 0 <= j < |tabs|
    requires Look(tabs[i], activeTab, collapsed).active && Look(tabs[j], activeTab, collapsed).active
    ensures i == j && tabs[i] == activeTab
  {
  }

  /** The sidebar's own state; `browser` is the router it pushes to. */
  class SidebarState {
    var isCollapsed: bool
    const browser: Browser

    constructor (b: Browser)
      ensures !isCollapsed && browser == b
    {
      isCollapsed := false;
      browser := b;
    }

    /** `toggleSidebar`: flips the collapsed flag and reports the new value to the page. */
    method Toggle() returns (reported: bool)
      modifies this
      ensures isCollapsed == !old(isCollapsed) && reported == isCollapsed
    {
      isCollapsed := !isCollapsed;
      reported := isCollapsed;
    }

    /** `navigateTo`: reports the tab to the page as the new active tab and pushes its route. */
    method NavigateTo(tab: string) returns (selected: string)
      modifies browser
      ensures selected == tab
      ensures browser.pushed == old(browser.pushed) + [DashboardRoute]
      ensures browser.session == old(browser.session)
    {
      selected := tab;
      browser.Push(NavigationRoute(tab));
    }
  }
}
