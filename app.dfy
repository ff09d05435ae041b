/** The application shell (App.tsx): who is signed in, which page is
    shown, the sign-in, registration, logout and upgrade handlers, the page
    switch with its admin gate, and the navigation list.

    The services answer from the mock store (`Api.MockStore`); the sign-in
    handlers are split at their `await` like the screens' handlers. */
module App {
  import opened Types
  import Api

  /** The page the shell opens on and falls back to. */
  const HomePage: string := "dashboard"

  /** The password `handleRegister` always sends. */
  const RegisterPassword: string := "password"

  /** What the shell renders. */
  datatype Screen =
    | LoginScreen
    | DashboardScreen
    | AnalysisScreen
    | CommunityScreen
    | BacktestingScreen
    | AdminScreen
    | AccessDenied
    | PricingScreen

  /** The early return for a signed-out session, then `renderPage`. */
  function Render(currentUser: Option<User>, currentPage: string): (screen: Screen)
    ensures currentUser.None? <==> screen == LoginScreen
    ensures currentUser.Some? && currentPage == "admin" ==>
      screen == (if currentUser.value.role == Admin then AdminScreen else AccessDenied)
    ensures screen == AdminScreen ==> currentUser.Some? && currentUser.value.role == Admin
    ensures currentUser.Some? && currentPage !in {"analysis", "community", "backtesting", "admin", "pricing"} ==>
      screen == DashboardScreen
  {
    if currentUser.None? then LoginScreen
    else match currentPage
      case "dashboard" => DashboardScreen
      case "analysis" => AnalysisScreen
      case "community" => CommunityScreen
      case "backtesting" => BacktestingScreen
      case "admin" => if currentUser.value.role == Admin then AdminScreen else AccessDenied
      case "pricing" => PricingScreen
      case _ => DashboardScreen
  }

  datatype NavItem = NavItem(name: string, page: string)

  const BaseNavItems: seq<NavItem> := [
    NavItem("Dashboard", "dashboard"),
    NavItem("Análise por Imagem", "analysis"),
    NavItem("Comunidade", "community"),
    NavItem("Backtesting", "backtesting"),
    NavItem("Planos", "pricing")
  ]

  const AdminNavItem: NavItem := NavItem("Admin", "admin")

  /** The navigation list a user sees. */
  function NavItemsFor(role: UserRole): seq<NavItem>
  {
    if role == Admin then BaseNavItems + [AdminNavItem] else BaseNavItems
  }

  /** The list literal, then the conditional push. */
  method BuildNavItems(user: User) returns (navItems: seq<NavItem>)
    ensures navItems == NavItemsFor(user.role)
    ensures |navItems| == 5 + (if user.role == Admin then 1 else 0)
    ensures navItems[..5] == BaseNavItems
    ensures AdminNavItem in navItems <==> user.role == Admin
  {
    navItems := BaseNavItems;
    if user.role == Admin {
      navItems := navItems + [AdminNavItem];
    }
  }

  /** Every entry of the list opens its own page: none of them falls back
      to the dashboard or to the access-denied screen. */
  lemma NavItemsOpenTheirPages(user: User, k: nat)
    requires k < |NavItemsFor(user.role)|
    ensures var page := NavItemsFor(user.role)[k].page;
      && Render(Some(user), page) != AccessDenied
      && (Render(Some(user), page) == DashboardScreen <==> page == HomePage)
  {
  }

  /** The hard-coded administrator sees the admin entry and the panel. */
  lemma BackdoorReachesAdminPanel(users: seq<User>)
    ensures var user := Api.Login(users, "admkrug", Some("122436"));
      AdminNavItem in NavItemsFor(user.role) && Render(Some(user), "admin") == AdminScreen
  {
    assert NavItemsFor(Admin)[5] == AdminNavItem;
  }

  /** A seeded free or premium account is refused the admin page even when
      it navigates there by name. */
  lemma SeededNonAdminsAreDenied(users: seq<User>, email: string)
    requires email == "premium@test.com" || email == "free@test.com"
    requires users == [
      User("1", "Usuário Admin", "admin@cryptocandles.ai", Admin, "Admin"),
      User("2", "Usuário Premium", "premium@test.com", Premium, "Premium"),
      User("3", "Usuário Gratuito", "free@test.com", Free, "Gratuito")]
    ensures var user := Api.Login(users, email, Some(RegisterPassword));
      Render(Some(user), "admin") == AccessDenied && AdminNavItem !in NavItemsFor(user.role)
  {
    assert Api.IndexOfEmail(users[2..], "free@test.com") == 0;
    assert Api.IndexOfEmail(users[1..], email) == (if email == "premium@test.com" then 0 else 1);
  }

  class AppState {
    var currentUser: Option<User>
    var currentPage: string
    var isLoggingIn: bool

    /** The initial state of `useState`. */
    constructor ()
      ensures currentUser == None && currentPage == HomePage && !isLoggingIn
    {
      currentUser := None;
      currentPage := HomePage;
      isLoggingIn := false;
    }

    /** `handleLogin` / `handleRegister` up to their `await`. */
    method BeginSignIn()
      modifies this
      ensures isLoggingIn
      ensures currentUser == old(currentUser) && currentPage == old(currentPage)
    {
      isLoggingIn := true;
    }

    /** `handleLogin` / `handleRegister` after the call settled: a user
        signs in on the dashboard; a failure leaves user and page as they
        were; the flag is cleared either way. */
    method EndSignIn(outcome: Option<User>)
      modifies this
      ensures outcome.Some? ==> currentUser == outcome && currentPage == HomePage
      ensures outcome.None? ==> currentUser == old(currentUser) && currentPage == old(currentPage)
      ensures !isLoggingIn
    {
      if outcome.Some? {
        currentUser := outcome;
        currentPage := HomePage;
      }
      isLoggingIn := false;
    }

    /** `handleLogin(email, password)` answered by the mock store (whose
        `login` always resolves). */
    method HandleLogin(store: Api.MockStore, email: string, password: string)
      modifies this
      ensures currentUser == Some(Api.Login(store.users, email, Some(password)))
      ensures currentPage == HomePage && !isLoggingIn
      ensures Render(currentUser, currentPage) == DashboardScreen
    {
      BeginSignIn();
      EndSignIn(Some(Api.Login(store.users, email, Some(password))));
    }

    /** `handleRegister(name, email)` answered by the mock store: whatever
        the form's password, the account is registered with "password"; the
        new free account is signed in and can log in again by its email
        unless an older account has it. */
    method HandleRegister(store: Api.MockStore, name: string, email: string, formPassword: string, nowMs: nat)
      modifies this, store
      ensures currentUser == Some(Api.NewUser(email, name, nowMs))
      ensures currentUser.value.role == Free && currentPage == HomePage && !isLoggingIn
      ensures store.users == old(store.users) + [currentUser.value]
      ensures store.adminUsers == [AdminUser(currentUser.value.id, name, email, "Gratuito", Ativo, None)] + old(store.adminUsers)
      ensures AdminNavItem !in NavItemsFor(currentUser.value.role)
    {
      BeginSignIn();
      var user := store.Register(email, RegisterPassword, name, nowMs);
      EndSignIn(Some(user));
    }

    /** `handleLogout`: back to the login screen; the next sign-in opens on
        the dashboard. */
    method HandleLogout()
      modifies this
      ensures currentUser == None && currentPage == HomePage
      ensures isLoggingIn == old(isLoggingIn)
      ensures Render(currentUser, currentPage) == LoginScreen
    {
      currentUser := None;
      currentPage := HomePage;
    }

    /** `handleUpgradePlan` up to its `await`: the id of the user the
        handler's closure captured, or nothing (and no call) without one. */
    method BeginUpgradePlan() returns (clickId: Option<string>)
      ensures clickId.None? <==> currentUser.None?
      ensures clickId.Some? ==> clickId.value == currentUser.value.id
    {
      clickId := if currentUser.None? then None else Some(currentUser.value.id);
    }

    /** `handleUpgradePlan` after `upgradePlan` settled, as written: the
        upgraded copy is installed whoever is signed in by then, even
        nobody; a rejection changes nothing. */
    method EndUpgradePlan(outcome: Result<User, string>)
      modifies this
      ensures outcome.Ok? ==> currentUser == Some(outcome.value)
      ensures outcome.Err? ==> currentUser == old(currentUser)
      ensures currentPage == old(currentPage) && isLoggingIn == old(isLoggingIn)
    {
      if outcome.Ok? {
        currentUser := Some(outcome.value);
      }
    }

    /** The evidently intended settling: the copy replaces the user only
        while the same account is still signed in, so a logout (or another
        sign-in) during the payment sequence stays in effect. */
    method EndUpgradePlanIfStillSignedIn(clickId: string, outcome: Result<User, string>)
      modifies this
      ensures outcome.Ok? && old(currentUser).Some? && old(currentUser).value.id == clickId ==>
        currentUser == Some(outcome.value)
      ensures !(outcome.Ok? && old(currentUser).Some? && old(currentUser).value.id == clickId) ==>
        currentUser == old(currentUser)
      ensures currentPage == old(currentPage) && isLoggingIn == old(isLoggingIn)
    {
      if outcome.Ok? && currentUser.Some? && currentUser.value.id == clickId {
        currentUser := Some(outcome.value);
      }
    }

    /** `handleUpgradePlan` answered by the mock store with nothing else
        happening in between: nothing without a user; the upgraded copy
        replaces the user when the id is known (or is the guest or backdoor
        id); a rejection changes nothing. */
    method HandleUpgradePlan(store: Api.MockStore)
      modifies this
      ensures old(currentUser).None? ==> currentUser == None
      ensures old(currentUser).Some? ==>
        match Api.UpgradePlan(store.users, old(currentUser).value.id)
        case Ok(upgraded) => currentUser == Some(upgraded)
        case Err(_) => currentUser == old(currentUser)
      ensures currentUser.Some? && currentUser != old(currentUser) ==>
        currentUser.value.role == Premium && currentUser.value.id == old(currentUser).value.id
      ensures currentPage == old(currentPage) && isLoggingIn == old(isLoggingIn)
    {
      var clickId := BeginUpgradePlan();
      if clickId.Some? {
        EndUpgradePlan(Api.UpgradePlan(store.users, clickId.value));
      }
    }

    /** The header's `setCurrentPage`. */
    method Navigate(page: string)
      modifies this
      ensures currentPage == page && currentUser == old(currentUser) && isLoggingIn == old(isLoggingIn)
    {
      currentPage := page;
    }
  }

  /** As written: a user who starts the payment sequence and logs out
      before it ends is signed in again, as the upgraded copy, when the
      upgrade settles. */
  method LogoutDuringUpgrade(users: seq<User>, user: User) returns (after: Option<User>)
    requires exists i :: 0 <= i < |users| && users[i] == user
    ensures after.Some? && after.value.id == user.id && after.value.role == Premium
  {
    var app := new AppState();
    app.EndSignIn(Some(user));
    var clickId := app.BeginUpgradePlan();
    app.HandleLogout();
    app.EndUpgradePlan(Api.UpgradePlan(users, clickId.value));
    after := app.currentUser;
  }

  /** Corrected: with the guarded settling the logout stays in effect, and
      without a logout the upgrade still lands. */
  method LogoutDuringGuardedUpgrade(users: seq<User>, user: User, logOut: bool) returns (after: Option<User>)
    requires exists i :: 0 <= i < |users| && users[i] == user
    ensures logOut ==> after == None
    ensures !logOut ==> after.Some? && after.value.id == user.id && after.value.role == Premium
  {
    var app := new AppState();
    app.EndSignIn(Some(user));
    var clickId := app.BeginUpgradePlan();
    if logOut {
      app.HandleLogout();
    }
    app.EndUpgradePlanIfStillSignedIn(clickId.value, Api.UpgradePlan(users, clickId.value));
    after := app.currentUser;
  }
}
