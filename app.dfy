/** The application shell (App.tsx): signing in and out, the sign-up screen,
    and which screen a page id shows for each kind of account. */
module App {
  import opened Common
  import opened Layout

  /** The screens the router can show. */
  datatype Screen =
    | HqDashboard | StoreDashboard
    | StoreManagement | MenuManagement | HqInventoryManagement | StaffManagement | LogisticsManagement
    | NoticeManagement | HqReports
    | StoreMenuManagement | OrderSystem | OrderList | KitchenDisplay | InventoryStatus | InventoryOrders
    | InventoryNewOrder | FinanceManagement | DailyClosing | ChannelRevenue | StaffList | StaffSchedule
    | StaffPayroll | StaffWorkReports | NoticeEducation | StoreReports | ReportsSales | ReportsOrders
    | ReportsMaterials | ReportsMembers
    | Placeholder(page: string, userType: UserType)

  /** The head office switch. */
  function HqPage(page: string): Option<Screen> {
    match page
    case "stores" => Some(StoreManagement)
    case "menu" => Some(MenuManagement)
    case "inventory" => Some(HqInventoryManagement)
    case "staff" => Some(StaffManagement)
    case "logistics" => Some(LogisticsManagement)
    case "notice" => Some(NoticeManagement)
    case "reports" => Some(HqReports)
    case _ => None
  }

  /** The store switch; some pages share a screen with their group's id. */
  function StorePage(page: string): Option<Screen> {
    match page
    case "menu" => Some(StoreMenuManagement)
    case "orders" => Some(OrderSystem)
    case "order-pos" => Some(OrderSystem)
    case "order-list" => Some(OrderList)
    case "order-kitchen" => Some(KitchenDisplay)
    case "inventory" => Some(InventoryStatus)
    case "inventory-status" => Some(InventoryStatus)
    case "inventory-orders" => Some(InventoryOrders)
    case "inventory-new-order" => Some(InventoryNewOrder)
    case "finance" => Some(FinanceManagement)
    case "daily-closing" => Some(DailyClosing)
    case "channel-revenue" => Some(ChannelRevenue)
    case "staff" => Some(StaffList)
    case "staff-list" => Some(StaffList)
    case "staff-schedule" => Some(StaffSchedule)
    case "staff-payroll" => Some(StaffPayroll)
    case "staff-reports" => Some(StaffWorkReports)
    case "notice" => Some(NoticeEducation)
    case "reports" => Some(StoreReports)
    case "reports-sales" => Some(ReportsSales)
    case "reports-orders" => Some(ReportsOrders)
    case "reports-materials" => Some(ReportsMaterials)
    case "reports-members" => Some(ReportsMembers)
    case _ => None
  }

  function PageTable(t: UserType, page: string): Option<Screen> {
    if t == HQ then HqPage(page) else StorePage(page)
  }

  /** renderContent: the dashboard of the account's kind, then the account's
      table, then the placeholder naming the page. */
  function RenderContent(t: UserType, page: string): (r: Screen)
    ensures page == "dashboard" ==> r == (if t == HQ then HqDashboard else StoreDashboard)
    ensures page != "dashboard" && PageTable(t, page).Some? ==> r == PageTable(t, page).value
    ensures r.Placeholder? <==> page != "dashboard" && PageTable(t, page).None?
    ensures r.Placeholder? ==> r == Placeholder(page, t)
  {
    if page == "dashboard" then (if t == HQ then HqDashboard else StoreDashboard)
    else match PageTable(t, page)
      case Some(s) => s
      case None => Placeholder(page, t)
  }

  /** A group's id and its first entry show the same store screen. */
  lemma StoreAliases()
    ensures RenderContent(Store, "orders") == RenderContent(Store, "order-pos") == OrderSystem
    ensures RenderContent(Store, "inventory") == RenderContent(Store, "inventory-status") == InventoryStatus
    ensures RenderContent(Store, "staff") == RenderContent(Store, "staff-list") == StaffList
  {
  }

  /** A store page asked for by a head office account is not in its table. */
  lemma StorePageForHqIsPlaceholder()
    ensures RenderContent(HQ, "order-pos") == Placeholder("order-pos", HQ)
    ensures RenderContent(Store, "logistics") == Placeholder("logistics", Store)
  {
  }

  /** Every page the account's sidebar can ask for has a screen of its own:
      the plain entries and every sub-menu entry. */
  lemma SidebarPagesRouted(t: UserType, k: nat)
    requires k < |MenuItems(t)|
    ensures MenuItems(t)[k].children.None? ==> !RenderContent(t, MenuItems(t)[k].id).Placeholder?
    ensures MenuItems(t)[k].children.Some? ==>
              forall j :: 0 <= j < |MenuItems(t)[k].children.value| ==>
                !RenderContent(t, MenuItems(t)[k].children.value[j].id).Placeholder?
  {
    if t == HQ {
      HqSidebarRouted(k);
    } else {
      StoreSidebarRouted(k);
    }
  }

  lemma HqSidebarRouted(k: nat)
    requires k < |MenuItems(HQ)|
    ensures MenuItems(HQ)[k].children.None? ==> !RenderContent(HQ, MenuItems(HQ)[k].id).Placeholder?
    ensures MenuItems(HQ)[k].children.Some? ==>
              forall j :: 0 <= j < |MenuItems(HQ)[k].children.value| ==>
                !RenderContent(HQ, MenuItems(HQ)[k].children.value[j].id).Placeholder?
  {
  }

  lemma StoreSidebarRouted(k: nat)
    requires k < |MenuItems(Store)|
    ensures MenuItems(Store)[k].children.None? ==> !RenderContent(Store, MenuItems(Store)[k].id).Placeholder?
    ensures MenuItems(Store)[k].children.Some? ==>
              forall j :: 0 <= j < |MenuItems(Store)[k].children.value| ==>
                !RenderContent(Store, MenuItems(Store)[k].children.value[j].id).Placeholder?
  {
  }

  // ---------------------------------------------------------------------------
  // The shell
  // ---------------------------------------------------------------------------

  /** What the application shows. */
  datatype View = LoginScreen | RegisterScreen | Main(userType: UserType, page: string, content: Screen)

  function ViewOf(isLoggedIn: bool, showRegister: bool, t: UserType, page: string): (v: View)
    ensures !isLoggedIn ==> (v == RegisterScreen <==> showRegister) && (v == LoginScreen <==> !showRegister)
    ensures isLoggedIn ==> v == Main(t, page, RenderContent(t, page))
  {
    if !isLoggedIn then (if showRegister then RegisterScreen else LoginScreen)
    else Main(t, page, RenderContent(t, page))
  }

  class App {
    var isLoggedIn: bool
    var showRegister: bool
    var userType: UserType
    var currentPage: string

    /** Signed out, the page is always the dashboard, so every sign-in opens it. */
    ghost predicate Valid()
      reads this
    {
      !isLoggedIn ==> currentPage == "dashboard"
    }

    constructor ()
      ensures Valid() && !isLoggedIn && !showRegister && userType == HQ && currentPage == "dashboard"
    {
      isLoggedIn := false;
      showRegister := false;
      userType := HQ;
      currentPage := "dashboard";
    }

    function View(): View
      reads this
    {
      ViewOf(isLoggedIn, showRegister, userType, currentPage)
    }

    /** The login screen's callback: signed in with the given kind; the page
        is left as it was, which is the dashboard. */
    method Login(t: UserType)
      requires Valid() && !isLoggedIn && !showRegister
      modifies this`isLoggedIn, this`userType
      ensures Valid() && isLoggedIn && userType == t && currentPage == old(currentPage) == "dashboard"
      ensures View() == Main(t, "dashboard", if t == HQ then HqDashboard else StoreDashboard)
    {
      isLoggedIn := true;
      userType := t;
    }

    /** The login screen's link to sign-up. */
    method OpenRegister()
      requires !isLoggedIn && !showRegister
      modifies this`showRegister
      ensures showRegister && View() == RegisterScreen
    {
      showRegister := true;
    }

    /** Sign-up finished or abandoned: back to the login screen. */
    method LeaveRegister()
      requires !isLoggedIn && showRegister
      modifies this`showRegister
      ensures !showRegister && View() == LoginScreen
    {
      showRegister := false;
    }

    /** handlePageChange, from the sidebar. */
    method PageChange(page: string)
      requires Valid() && isLoggedIn
      modifies this`currentPage
      ensures Valid() && currentPage == page && View() == Main(userType, page, RenderContent(userType, page))
    {
      currentPage := page;
    }

    /** handleLogout: signed out as head office on the dashboard, sign-up closed. */
    method Logout()
      requires isLoggedIn
      modifies this`isLoggedIn, this`userType, this`currentPage, this`showRegister
      ensures Valid() && !isLoggedIn && userType == HQ && currentPage == "dashboard" && !showRegister
      ensures View() == LoginScreen
    {
      isLoggedIn := false;
      userType := HQ;
      currentPage := "dashboard";
      showRegister := false;
    }
  }
}
