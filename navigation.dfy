/** The iOS `NavigationCoordinator`: the selected tab, the stack of pushed
    detail screens, the two sheets and the three authentication flags that
    decide which root screen is shown. The category, budget and ledger entry
    values a detail screen carries are type parameters. */
module Navigation {
  import opened Common

  /** `MainTab`, with the raw value that is also its `id`. */
  datatype MainTab = Dashboard | Expenses | Budgets | Insights

  function TabTitle(tab: MainTab): string {
    match tab
    case Dashboard => "Dashboard"
    case Expenses => "Expenses"
    case Budgets => "Budgets"
    case Insights => "Insights"
  }

  function TabImage(tab: MainTab): string {
    match tab
    case Dashboard => "house.fill"
    case Expenses => "list.bullet.rectangle.fill"
    case Budgets => "chart.pie.fill"
    case Insights => "chart.line.uptrend.xyaxis"
  }

  /** `MainTab.allCases`, in declaration order. */
  const AllTabs: seq<MainTab> := [Dashboard, Expenses, Budgets, Insights]

  /** The tab bar lists every tab once, and the raw values the `ForEach`
      uses as ids and the image names are all different, so no two tabs
      share an id or an icon. */
  lemma TabsAreDistinct()
    ensures forall t: MainTab :: t in AllTabs
    ensures forall i, j :: 0 <= i < j < |AllTabs| ==>
              TabTitle(AllTabs[i]) != TabTitle(AllTabs[j]) && TabImage(AllTabs[i]) != TabImage(AllTabs[j])
  {
    forall t: MainTab ensures t in AllTabs {
      match t {
        case Dashboard => assert AllTabs[0] == t;
        case Expenses => assert AllTabs[1] == t;
        case Budgets => assert AllTabs[2] == t;
        case Insights => assert AllTabs[3] == t;
      }
    }
    assert TabTitle(Dashboard)[0] == 'D' && TabTitle(Expenses)[0] == 'E';
    assert TabTitle(Budgets)[0] == 'B' && TabTitle(Insights)[0] == 'I';
    assert TabImage(Dashboard)[0] == 'h' && TabImage(Expenses)[0] == 'l';
    assert TabImage(Budgets)[1] == 'h' && TabImage(Insights)[6] == 'l';
    assert TabImage(Budgets)[6] == 'p';
  }

  /** `NavigationDestination`. */
  datatype Destination<C, B, L> =
    | CategoryDetail(category: C)
    | BudgetDetail(budget: B)
    | ExpenseDetail(expense: L)
    | AddExpense
    | EditExpense(entry: L)
    | Settings
    | Profile
    | FamilySettings

  /** The root view `RootNavigationView` shows. */
  datatype RootScreen = MainTabs | Welcome | Login

  /** The main tabs when authenticated, else the welcome screen when it is
      flagged, else the login form. */
  function Root(isAuthenticated: bool, showingWelcome: bool): (s: RootScreen)
    ensures s == MainTabs <==> isAuthenticated
    ensures s == Welcome <==> !isAuthenticated && showingWelcome
    ensures s == Login <==> !isAuthenticated && !showingWelcome
  {
    if isAuthenticated then MainTabs
    else if showingWelcome then Welcome
    else Login
  }

  /** `navigateBack`: pop the top screen, if any. */
  function Back<T>(path: seq<T>): (r: seq<T>)
    ensures path == [] ==> r == []
    ensures path != [] ==> r + [path[|path| - 1]] == path
  {
    if path == [] then [] else path[..|path| - 1]
  }

  /** Pushing a screen and going back restores the stack. */
  lemma BackUndoesPush<T>(path: seq<T>, d: T)
    ensures Back(path + [d]) == path
  {
    assert (path + [d])[..|path|] == path;
  }

  /** Going back as many times as there are pushed screens reaches the root
      and stays there. */
  function BackTimes<T>(path: seq<T>, n: nat): (r: seq<T>)
    ensures |r| == if n <= |path| then |path| - n else 0
    ensures r == path[..|r|]
  {
    if n == 0 then path else BackTimes(Back(path), n - 1)
  }

  class NavigationCoordinator<C, B, L> {
    var currentTab: MainTab
    var path: seq<Destination<C, B, L>>
    var showingAddExpense: bool
    var showingSettings: bool
    var selectedCategory: Option<C>
    var selectedBudget: Option<B>
    var isAuthenticated: bool
    var showingLogin: bool
    var showingWelcome: bool

    /** The login form and the welcome screen are never both flagged. */
    ghost predicate Valid()
      reads this
    {
      !(showingLogin && showingWelcome)
    }

    function Screen(): RootScreen
      reads this
    {
      Root(isAuthenticated, showingWelcome)
    }

    /** A new coordinator shows the welcome screen on the dashboard with
        nothing pushed, no sheet and nothing selected. */
    constructor ()
      ensures Valid() && Screen() == Welcome
      ensures currentTab == Dashboard && path == [] && !showingAddExpense && !showingSettings
      ensures selectedCategory == None && selectedBudget == None
      ensures !isAuthenticated && !showingLogin && showingWelcome
    {
      currentTab := Dashboard;
      path := [];
      showingAddExpense := false;
      showingSettings := false;
      selectedCategory := None;
      selectedBudget := None;
      isAuthenticated := false;
      showingLogin := false;
      showingWelcome := true;
    }

    /** The `authStateChanged` notification carrying a Boolean: the flag is
        copied, and a sign-in also hides the welcome and login screens. */
    method AuthStateChanged(isAuth: bool)
      requires Valid()
      modifies this
      ensures Valid() && isAuthenticated == isAuth
      ensures isAuth ==> !showingWelcome && !showingLogin && Screen() == MainTabs
      ensures !isAuth ==> showingWelcome == old(showingWelcome) && showingLogin == old(showingLogin)
      ensures currentTab == old(currentTab) && path == old(path)
      ensures showingAddExpense == old(showingAddExpense) && showingSettings == old(showingSettings)
      ensures selectedCategory == old(selectedCategory) && selectedBudget == old(selectedBudget)
    {
      isAuthenticated := isAuth;
      if isAuth {
        showingWelcome := false;
        showingLogin := false;
      }
    }

    /** `navigateToTab`: select the tab and clear the pushed screens. */
    method NavigateToTab(tab: MainTab)
      modifies this
      ensures currentTab == tab && path == []
      ensures showingAddExpense == old(showingAddExpense) && showingSettings == old(showingSettings)
      ensures selectedCategory == old(selectedCategory) && selectedBudget == old(selectedBudget)
      ensures isAuthenticated == old(isAuthenticated) && showingLogin == old(showingLogin)
      ensures showingWelcome == old(showingWelcome)
    {
      currentTab := tab;
      path := [];
    }

    method ShowAddExpense()
      modifies this
      ensures showingAddExpense
      ensures currentTab == old(currentTab) && path == old(path) && showingSettings == old(showingSettings)
      ensures selectedCategory == old(selectedCategory) && selectedBudget == old(selectedBudget)
      ensures isAuthenticated == old(isAuthenticated) && showingLogin == old(showingLogin)
      ensures showingWelcome == old(showingWelcome)
    {
      showingAddExpense := true;
    }

    method HideAddExpense()
      modifies this
      ensures !showingAddExpense
      ensures currentTab == old(currentTab) && path == old(path) && showingSettings == old(showingSettings)
      ensures selectedCategory == old(selectedCategory) && selectedBudget == old(selectedBudget)
      ensures isAuthenticated == old(isAuthenticated) && showingLogin == old(showingLogin)
      ensures showingWelcome == old(showingWelcome)
    {
      showingAddExpense := false;
    }

    method ShowSettings()
      modifies this
      ensures showingSettings
      ensures currentTab == old(currentTab) && path == old(path) && showingAddExpense == old(showingAddExpense)
      ensures selectedCategory == old(selectedCategory) && selectedBudget == old(selectedBudget)
      ensures isAuthenticated == old(isAuthenticated) && showingLogin == old(showingLogin)
      ensures showingWelcome == old(showingWelcome)
    {
      showingSettings := true;
    }

    method HideSettings()
      modifies this
      ensures !showingSettings
      ensures currentTab == old(currentTab) && path == old(path) && showingAddExpense == old(showingAddExpense)
      ensures selectedCategory == old(selectedCategory) && selectedBudget == old(selectedBudget)
      ensures isAuthenticated == old(isAuthenticated) && showingLogin == old(showingLogin)
      ensures showingWelcome == old(showingWelcome)
    {
      showingSettings := false;
    }

    /** `showCategoryDetail`: remember the category and push its screen. */
    method ShowCategoryDetail(category: C)
      modifies this
      ensures selectedCategory == Some(category) && path == old(path) + [CategoryDetail(category)]
      ensures currentTab == old(currentTab) && selectedBudget == old(selectedBudget)
      ensures showingAddExpense == old(showingAddExpense) && showingSettings == old(showingSettings)
      ensures isAuthenticated == old(isAuthenticated) && showingLogin == old(showingLogin)
      ensures showingWelcome == old(showingWelcome)
    {
      selectedCategory := Some(category);
      path := path + [CategoryDetail(category)];
    }

    /** `showBudgetDetail`: remember the budget and push its screen. */
    method ShowBudgetDetail(budget: B)
      modifies this
      ensures selectedBudget == Some(budget) && path == old(path) + [BudgetDetail(budget)]
      ensures currentTab == old(currentTab) && selectedCategory == old(selectedCategory)
      ensures showingAddExpense == old(showingAddExpense) && showingSettings == old(showingSettings)
      ensures isAuthenticated == old(isAuthenticated) && showingLogin == old(showingLogin)
      ensures showingWelcome == old(showingWelcome)
    {
      selectedBudget := Some(budget);
      path := path + [BudgetDetail(budget)];
    }

    /** `showExpenseDetail`: push the entry's screen; nothing is selected. */
    method ShowExpenseDetail(expense: L)
      modifies this
      ensures path == old(path) + [ExpenseDetail(expense)]
      ensures currentTab == old(currentTab)
      ensures selectedCategory == old(selectedCategory) && selectedBudget == old(selectedBudget)
      ensures showingAddExpense == old(showingAddExpense) && showingSettings == old(showingSettings)
      ensures isAuthenticated == old(isAuthenticated) && showingLogin == old(showingLogin)
      ensures showingWelcome == old(showingWelcome)
    {
      path := path + [ExpenseDetail(expense)];
    }

    /** `navigateBack`: pop the top screen; at the root nothing happens. The
        selections made when pushing are kept. */
    method NavigateBack()
      modifies this
      ensures path == Back(old(path))
      ensures currentTab == old(currentTab)
      ensures selectedCategory == old(selectedCategory) && selectedBudget == old(selectedBudget)
      ensures showingAddExpense == old(showingAddExpense) && showingSettings == old(showingSettings)
      ensures isAuthenticated == old(isAuthenticated) && showingLogin == old(showingLogin)
      ensures showingWelcome == old(showingWelcome)
    {
      if path != [] {
        path := path[..|path| - 1];
      }
    }

    method NavigateToRoot()
      modifies this
      ensures path == []
      ensures currentTab == old(currentTab)
      ensures selectedCategory == old(selectedCategory) && selectedBudget == old(selectedBudget)
      ensures showingAddExpense == old(showingAddExpense) && showingSettings == old(showingSettings)
      ensures isAuthenticated == old(isAuthenticated) && showingLogin == old(showingLogin)
      ensures showingWelcome == old(showingWelcome)
    {
      path := [];
    }

    /** `showLogin`: the login form replaces the welcome screen. */
    method ShowLogin()
      modifies this
      ensures Valid() && showingLogin && !showingWelcome
      ensures !isAuthenticated ==> Screen() == Login
      ensures isAuthenticated == old(isAuthenticated) && currentTab == old(currentTab) && path == old(path)
      ensures selectedCategory == old(selectedCategory) && selectedBudget == old(selectedBudget)
      ensures showingAddExpense == old(showingAddExpense) && showingSettings == old(showingSettings)
    {
      showingLogin := true;
      showingWelcome := false;
    }

    /** `showWelcome`: the welcome screen replaces the login form. */
    method ShowWelcome()
      modifies this
      ensures Valid() && showingWelcome && !showingLogin
      ensures !isAuthenticated ==> Screen() == Welcome
      ensures isAuthenticated == old(isAuthenticated) && currentTab == old(currentTab) && path == old(path)
      ensures selectedCategory == old(selectedCategory) && selectedBudget == old(selectedBudget)
      ensures showingAddExpense == old(showingAddExpense) && showingSettings == old(showingSettings)
    {
      showingWelcome := true;
      showingLogin := false;
    }

    /** `handleAuthSuccess`: signed in, both auth screens hidden, back on
        the dashboard. The pushed screens are not cleared. */
    method HandleAuthSuccess()
      modifies this
      ensures Valid() && Screen() == MainTabs
      ensures isAuthenticated && !showingLogin && !showingWelcome && currentTab == Dashboard
      ensures path == old(path)
      ensures selectedCategory == old(selectedCategory) && selectedBudget == old(selectedBudget)
      ensures showingAddExpense == old(showingAddExpense) && showingSettings == old(showingSettings)
    {
      isAuthenticated := true;
      showingLogin := false;
      showingWelcome := false;
      currentTab := Dashboard;
    }

    /** `handleLogout`: signed out onto the login form, pushed screens
        cleared and the dashboard selected. The open sheets and the
        selections are not reset. */
    method HandleLogout()
      modifies this
      ensures Valid() && Screen() == Login
      ensures !isAuthenticated && showingLogin && !showingWelcome && path == [] && currentTab == Dashboard
      ensures selectedCategory == old(selectedCategory) && selectedBudget == old(selectedBudget)
      ensures showingAddExpense == old(showingAddExpense) && showingSettings == old(showingSettings)
    {
      isAuthenticated := false;
      showingLogin := true;
      showingWelcome := false;
      path := [];
      currentTab := Dashboard;
    }
  }
}
