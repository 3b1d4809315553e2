/**
 * The signed-in shell (src/components/AdminLayout.tsx): the side menu built for the user's role,
 * the user menu (profile or logout), the collapse button and the dark-mode switch.
 */
module AdminLayout {
  import opened Wrappers
  import opened Users
  import opened AuthSlice
  import opened UiSlice
  import Routes

  datatype MenuItem = MenuItem(key: string, title: string)

  const DashboardItem: MenuItem := MenuItem("/dashboard", "Dashboard")
  const ProjectsItem: MenuItem := MenuItem("/projects", "Projects")
  const UsersItem: MenuItem := MenuItem("/users", "User Management")

  /** The side menu: dashboard and projects for everyone, user management appended for ADMIN. */
  function MenuFor(user: Option<User>): (items: seq<MenuItem>)
    ensures |items| >= 2 && items[0] == DashboardItem && items[1] == ProjectsItem
    ensures |items| == 3 <==> user.Some? && user.value.role == ADMIN
    ensures |items| <= 3 && (|items| == 3 ==> items[2] == UsersItem)
  {
    if user.Some? && user.value.role == ADMIN then [DashboardItem, ProjectsItem, UsersItem]
    else [DashboardItem, ProjectsItem]
  }

  /** `menuItems`, built as the source does: the two common entries, then a push for ADMIN. */
  method BuildMenuItems(user: Option<User>) returns (items: seq<MenuItem>)
    ensures items == MenuFor(user)
  {
    items := [DashboardItem, ProjectsItem];
    if user.Some? && user.value.role == ADMIN {
      items := items + [UsersItem];
    }
  }

  /** The page each side-menu key leads to. */
  function PageOfKey(key: string): Routes.Page
  {
    if key == "/dashboard" then Routes.DashboardPage
    else if key == "/projects" then Routes.ProjectsPage
    else Routes.UsersPage
  }

  /**
   * Clicking a side-menu entry navigates to its key; for a signed-in user every entry shown
   * renders its page without a redirect.
   */
  lemma MenuEntryRenders(u: User, i: nat)
    requires i < |MenuFor(Some(u))|
    ensures Routes.Resolve(MenuFor(Some(u))[i].key, Some(u)) ==
              Routes.Resolution(PageOfKey(MenuFor(Some(u))[i].key), 0)
  {
    var key := MenuFor(Some(u))[i].key;
    if i == 0 {
      assert key == "/dashboard";
      Routes.MemberPages(Some(u));
    } else if i == 1 {
      assert key == "/projects";
      Routes.MemberPages(Some(u));
    } else {
      assert key == "/users" && u.role == ADMIN;
      Routes.UsersPageAccess(Some(u));
    }
  }

  /** User management is in the menu exactly when its route would render for the user. */
  lemma UsersEntryIffAllowed(u: User)
    ensures UsersItem in MenuFor(Some(u)) <==> Routes.Resolve("/users", Some(u)).page == Routes.UsersPage
  {
    Routes.UsersPageAccess(Some(u));
  }

  datatype MenuAction = LogOut | NavigateTo(path: string)

  /** `handleUserMenuClick`: the key `logout` logs out; any other key `k` navigates to `/k`. */
  function UserMenuAction(key: string): (a: MenuAction)
    ensures a == LogOut <==> key == "logout"
    ensures a.NavigateTo? ==> a.path == "/" + key
  {
    if key == "logout" then LogOut else NavigateTo("/" + key)
  }

  /** The user menu's `profile` entry opens the profile page of a signed-in user. */
  lemma ProfileEntryOpensProfile(u: User)
    ensures UserMenuAction("profile") == NavigateTo("/profile")
    ensures Routes.Resolve(UserMenuAction("profile").path, Some(u)) == Routes.Resolution(Routes.ProfilePage, 0)
  {
    assert "/" + "profile" == "/profile";
    Routes.MemberPages(Some(u));
  }

  /** The user menu's `logout` entry ends the session on the login page. */
  lemma LogoutEntryEndsOnLogin(s: Session)
    ensures UserMenuAction("logout") == LogOut
    ensures AfterLogout(s).auth.user == None
    ensures Routes.Resolve("/login", AfterLogout(s).auth.user) == Routes.Resolution(Routes.LoginPage, 0)
  {
    Routes.PublicPages(None);
  }

  /** After logging out, every protected page sends the visitor to the login page. */
  lemma LogoutLocksProtectedPages(s: Session, path: string)
    ensures Routes.Resolve(path, AfterLogout(s).auth.user).page !in Routes.Protected
  {
    Routes.NoUnauthorisedPage(path, AfterLogout(s).auth.user);
  }

  class AdminLayout {
    const auth: AuthStore
    const ui: UiStore
    var collapsed: bool

    constructor (auth: AuthStore, ui: UiStore)
      ensures this.auth == auth && this.ui == ui && !collapsed
    {
      this.auth := auth;
      this.ui := ui;
      collapsed := false;
    }

    /** The header button. */
    method ToggleCollapsed()
      modifies this
      ensures collapsed == !old(collapsed)
    {
      collapsed := !collapsed;
    }

    /** `handleLogout`: clear the session, then go to `/login`. */
    method HandleLogout() returns (navigateTo: string)
      modifies auth, auth.storage
      ensures auth.Current() == AfterLogout(old(auth.Current()))
      ensures navigateTo == "/login"
    {
      auth.Logout();
      navigateTo := "/login";
    }

    /** `handleUserMenuClick`; the result is where the page navigates. */
    method HandleUserMenuClick(key: string) returns (navigateTo: string)
      modifies auth, auth.storage
      ensures UserMenuAction(key) == LogOut ==>
                auth.Current() == AfterLogout(old(auth.Current())) && navigateTo == "/login"
      ensures UserMenuAction(key).NavigateTo? ==>
                auth.Current() == old(auth.Current()) && navigateTo == UserMenuAction(key).path
    {
      match UserMenuAction(key) {
        case LogOut =>
          navigateTo := HandleLogout();
        case NavigateTo(path) =>
          navigateTo := path;
      }
    }

    /** The dark-mode switch dispatches `toggleDarkMode` and nothing else. */
    method DarkModeSwitched()
      modifies ui, ui.storage
      ensures ui.Current() == AfterToggle(old(ui.Current()))
    {
      ui.ToggleDarkMode();
    }
  }
}
