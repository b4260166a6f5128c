/** The dashboard page: the tab dispatch, the auth-state listener, logout and the sidebar link. */
module DashboardPage {
  import opened Wrappers
  import opened Platform
  import opened Auth
  import Sidebar

  /** The panel `renderContent` draws. */
  datatype Panel = ChatPanel | AppointmentsPanel | ServicesPanel | CommunityPanel | ResourcesPanel | HomePanel

  /** `renderContent`: five tab names select their panel; every other value, the initial
      "dashboard" among them, selects the home panel. */
  function RenderContent(tab: string): (p: Panel)
    ensures p != HomePanel ==> TabOf(p) == tab
  {
    match tab
    case "chat" => ChatPanel
    case "appointments" => AppointmentsPanel
    case "services" => ServicesPanel
    case "community" => CommunityPanel
    case "resources" => ResourcesPanel
    case _ => HomePanel
  }

  /** The tab name that selects each panel. */
  function TabOf(p: Panel): string
  {
    match p
    case ChatPanel => "chat"
    case AppointmentsPanel => "appointments"
    case ServicesPanel => "services"
    case CommunityPanel => "community"
    case ResourcesPanel => "resources"
    case HomePanel => "dashboard"
  }

  /** Every panel is reached from its tab name. */
  lemma RenderContentRoundTrip(p: Panel)
    ensures RenderContent(TabOf(p)) == p
  {
  }

  /** What the page renders: the loading screen, or the page with its panel. */
  datatype Screen = LoadingScreen | Page(panel: Panel, logoutModal: bool, sidebarCollapsed: bool)

  /** The dashboard page's state; `sidebar` is the sidebar it draws and `browser` the session
      storage and router both write to. */
  class Dashboard {
    var userName: string
    var activeTab: string
    var loading: bool
    var showLogoutSuccess: bool
    var sidebarCollapsed: bool
    const browser: Browser
    const sidebar: Sidebar.SidebarState

    /** The page's copy of the collapsed flag is the sidebar's, and both write to one browser. */
    predicate Valid()
      reads this, sidebar
    {
      sidebar.browser == browser && sidebarCollapsed == sidebar.isCollapsed
    }

    constructor (b: Browser)
      ensures Valid() && fresh(sidebar) && browser == b
      ensures userName == "Alex" && activeTab == "dashboard" && loading
      ensures !showLogoutSuccess && !sidebarCollapsed
    {
      userName, activeTab, loading := "Alex", "dashboard", true;
      showLogoutSuccess, sidebarCollapsed := false, false;
      browser := b;
      sidebar := new Sidebar.SidebarState(b);
    }

    /** While loading, or with an empty user name, only the loading screen is drawn. */
    function CurrentScreen(): (s: Screen)
      reads this
      ensures s == LoadingScreen <==> loading || userName == ""
      ensures s.Page? ==> s.panel == RenderContent(activeTab)
    {
      if loading || userName == "" then LoadingScreen
      else Page(RenderContent(activeTab), showLogoutSuccess, sidebarCollapsed)
    }

    /** The auth-state listener. A signed-in user sets the name (display name, email prefix,
        "User") and stores it with the logged-in flag; signing out removes both keys and goes
        to the login page. Either way loading ends. */
    method AuthStateChanged(user: Option<User>)
      modifies this, browser
      ensures !loading
      ensures activeTab == old(activeTab) && showLogoutSuccess == old(showLogoutSuccess)
      ensures sidebarCollapsed == old(sidebarCollapsed)
      ensures user.Some? ==>
        && userName == UserName(user.value, "User")
        && browser.session == old(browser.session)[IsLoggedInKey := "true"][UserNameKey := userName]
        && browser.pushed == old(browser.pushed)
        && CurrentScreen().Page?
      ensures user.None? ==>
        && userName == old(userName)
        && browser.session == old(browser.session) - {IsLoggedInKey} - {UserNameKey}
        && browser.pushed == old(browser.pushed) + [LoginRoute]
    {
      match user {
        case Some(u) =>
          userName := UserName(u, "User");
          UserNameNonEmpty(u, "User");
          browser.SetItem(IsLoggedInKey, "true");
          browser.SetItem(UserNameKey, UserName(u, "User"));
        case None =>
          browser.RemoveItem(IsLoggedInKey);
          browser.RemoveItem(UserNameKey);
          browser.Push(LoginRoute);
      }
      loading := false;
    }

    /** `handleLogout`: a completed sign-out shows the logout modal; a failed one changes nothing. */
    method Logout(signedOut: Outcome<()>)
      modifies this
      ensures showLogoutSuccess == (signedOut.Ok? || old(showLogoutSuccess))
      ensures userName == old(userName) && activeTab == old(activeTab) && loading == old(loading)
      ensures sidebarCollapsed == old(sidebarCollapsed)
    {
      if signedOut.Ok? {
        showLogoutSuccess := true;
      }
    }

    /** Closing the logout modal hides it and goes to the login page. */
    method CloseLogoutModal()
      modifies this, browser
      ensures !showLogoutSuccess
      ensures browser.pushed == old(browser.pushed) + [LoginRoute] && browser.session == old(browser.session)
      ensures userName == old(userName) && activeTab == old(activeTab) && loading == old(loading)
      ensures sidebarCollapsed == old(sidebarCollapsed)
    {
      showLogoutSuccess := false;
      browser.Push(LoginRoute);
    }

    /** `handleSidebarToggle`: keeps the value the sidebar reports. */
    method SidebarToggled(collapsed: bool)
      modifies this
      ensures sidebarCollapsed == collapsed
      ensures userName == old(userName) && activeTab == old(activeTab) && loading == old(loading)
      ensures showLogoutSuccess == old(showLogoutSuccess)
    {
      sidebarCollapsed := collapsed;
    }

    /** `setActiveTab`, as the sidebar and the home panel's links call it. */
    method SetActiveTab(tab: string)
      modifies this
      ensures activeTab == tab
      ensures userName == old(userName) && loading == old(loading)
      ensures showLogoutSuccess == old(showLogoutSuccess) && sidebarCollapsed == old(sidebarCollapsed)
    {
      activeTab := tab;
    }

    /** The sidebar's toggle button: the sidebar flips its flag and the page keeps the reported
        value, so the two stay equal. */
    method ToggleSidebar()
      requires Valid()
      modifies this, sidebar
      ensures Valid()
      ensures sidebarCollapsed == !old(sidebarCollapsed)
      ensures userName == old(userName) && activeTab == old(activeTab) && loading == old(loading)
      ensures showLogoutSuccess == old(showLogoutSuccess)
    {
      var reported := sidebar.Toggle();
      SidebarToggled(reported);
    }

    /** A sidebar button: the tab becomes active and the dashboard route is pushed. */
    method Navigate(tab: string)
      requires Valid()
      modifies this, browser
      ensures Valid()
      ensures activeTab == tab
      ensures browser.pushed == old(browser.pushed) + [DashboardRoute] && browser.session == old(browser.session)
      ensures userName == old(userName) && loading == old(loading)
      ensures showLogoutSuccess == old(showLogoutSuccess) && sidebarCollapsed == old(sidebarCollapsed)
    {
      var selected := sidebar.NavigateTo(tab);
      SetActiveTab(selected);
    }
  }
}
