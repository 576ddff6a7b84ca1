/**
 * The application's routes (`src/App.jsx`): the `PrivateRoute` guard over
 * the signed-in user and token, and the route table with its catch-all.
 *
 * A path is its list of segments: `/admin/exams/7` is
 * `["admin", "exams", "7"]`.
 */
module AppRoutes {
  import opened Wrappers
  import opened JsValues

  type Path = seq<string>

  const LoginPath: Path := ["login"]
  const AdminDashboardPath: Path := ["admin", "dashboard"]
  const StudentDashboardPath: Path := ["student", "dashboard"]

  /** What `PrivateRoute` renders: its children, or a redirect. */
  datatype Guarded = RenderChildren | RedirectTo(path: Path)

  /** `user.role`; a user that is not an object has none. */
  function UserRole(user: Value): Value {
    Get(Fields(user), "role")
  }

  /**
   * `PrivateRoute`: without a token or a user, go to the login page; when a
   * role is required and the user's differs, go to the user's own
   * dashboard (the admin one for admins, the student one for everyone
   * else); otherwise render the children.
   */
  function Guard(token: Value, user: Value, role: Value): (g: Guarded)
    ensures g == RenderChildren <==> Truthy(token) && Truthy(user) && (!Truthy(role) || UserRole(user) == role)
    ensures !Truthy(token) || !Truthy(user) ==> g == RedirectTo(LoginPath)
    ensures Truthy(token) && Truthy(user) && Truthy(role) && UserRole(user) != role ==>
      g == RedirectTo(if UserRole(user) == Str("admin") then AdminDashboardPath else StudentDashboardPath)
  {
    if !Truthy(token) || !Truthy(user) then RedirectTo(LoginPath)
    else if Truthy(role) && UserRole(user) != role then
      if UserRole(user) == Str("admin") then RedirectTo(AdminDashboardPath) else RedirectTo(StudentDashboardPath)
    else RenderChildren
  }

  datatype Page =
    | LoginPage
    | AdminOverview | UsersPage | ClassroomsPage | ExamsPage
    | ExamEditorPage(editing: Option<string>)
    | ExamDetailPage(examId: string)
    | SettingsPage | ResultsPage
    | StudentDashboardPage
    | ExamPlayerPage(examId: string)

  /** What a matched route shows once its guard lets it through. */
  datatype Target = Show(page: Page) | Go(to: Path)

  /** A matched route: the role its guard requires (none for unguarded routes) and its target. */
  datatype Route = Route(role: Option<string>, target: Target)

  /** An admin page: every page of the admin layout. */
  predicate IsAdminPage(p: Page) {
    p.AdminOverview? || p.UsersPage? || p.ClassroomsPage? || p.ExamsPage? || p.ExamEditorPage?
    || p.ExamDetailPage? || p.SettingsPage? || p.ResultsPage?
  }

  /** The children of the `/admin` layout; the index route redirects to `dashboard`. */
  function AdminChild(rest: Path): Option<Target> {
    if rest == [] then Some(Go(AdminDashboardPath))
    else if rest == ["dashboard"] then Some(Show(AdminOverview))
    else if rest == ["users"] then Some(Show(UsersPage))
    else if rest == ["classrooms"] then Some(Show(ClassroomsPage))
    else if rest == ["exams"] then Some(Show(ExamsPage))
    else if rest == ["exams", "editor"] then Some(Show(ExamEditorPage(None)))
    else if |rest| == 3 && rest[0] == "exams" && rest[1] == "editor" && rest[2] != "" then Some(Show(ExamEditorPage(Some(rest[2]))))
    else if |rest| == 2 && rest[0] == "exams" && rest[1] != "" then Some(Show(ExamDetailPage(rest[1])))
    else if rest == ["settings"] then Some(Show(SettingsPage))
    else if rest == ["results"] then Some(Show(ResultsPage))
    else None
  }

  /** The route table: a layout matches only when one of its children does; anything unmatched falls to the catch-all redirect to `/login`. */
  function Match(path: Path): (r: Route)
    ensures r.role.Some? ==> r.role.value == "admin" || r.role.value == "student"
    ensures r.role == Some("admin") <==> |path| >= 1 && path[0] == "admin" && AdminChild(path[1..]).Some?
    ensures r.role == Some("student") <==>
      path == StudentDashboardPath || (|path| == 3 && path[0] == "student" && path[1] == "exam" && path[2] != "")
    ensures r.role.None? ==> r.target == if path == LoginPath then Show(LoginPage) else Go(LoginPath)
  {
    if path == LoginPath then Route(None, Show(LoginPage))
    else if |path| >= 1 && path[0] == "admin" && AdminChild(path[1..]).Some? then
      Route(Some("admin"), AdminChild(path[1..]).value)
    else if path == StudentDashboardPath then Route(Some("student"), Show(StudentDashboardPage))
    else if |path| == 3 && path[0] == "student" && path[1] == "exam" && path[2] != "" then
      Route(Some("student"), Show(ExamPlayerPage(path[2])))
    else Route(None, Go(LoginPath))
  }

  /** Visiting `path` with the given session: the route's target, or the guard's redirect. */
  function Visit(path: Path, token: Value, user: Value): Target {
    var r := Match(path);
    if r.role.None? then r.target
    else match Guard(token, user, Str(r.role.value)) {
      case RenderChildren => r.target
      case RedirectTo(to) => Go(to)
    }
  }

  /** Signed in: a token and a user. */
  predicate SignedIn(token: Value, user: Value) {
    Truthy(token) && Truthy(user)
  }

  /** Without a session, every page but the login page redirects to `/login`, whatever role it needs. */
  lemma SignedOutSeesOnlyLogin(path: Path, token: Value, user: Value)
    requires !SignedIn(token, user)
    ensures Visit(path, token, user) == Show(LoginPage) || Visit(path, token, user) == Go(LoginPath)
  {
  }

  /** A path no route matches redirects to `/login`, signed in or not. */
  lemma UnmatchedGoesToLogin(path: Path, token: Value, user: Value)
    requires path != LoginPath && path != StudentDashboardPath
    requires !(|path| >= 1 && path[0] == "admin" && AdminChild(path[1..]).Some?)
    requires !(|path| == 3 && path[0] == "student" && path[1] == "exam" && path[2] != "")
    ensures Visit(path, token, user) == Go(LoginPath)
  {
  }

  /** Only a signed-in admin is ever shown an admin page. */
  lemma AdminPagesNeedAdmin(path: Path, token: Value, user: Value)
    requires Visit(path, token, user).Show? && IsAdminPage(Visit(path, token, user).page)
    ensures SignedIn(token, user) && UserRole(user) == Str("admin")
  {
  }

  /**
   * For a signed-out visitor and for a signed-in admin or student, every
   * redirect lands on a page after at most two hops: the guard's targets
   * are pages that visitor may see, and the admin index goes to the
   * dashboard.
   */
  lemma RedirectsSettle(path: Path, token: Value, user: Value)
    requires !SignedIn(token, user) || UserRole(user) == Str("admin") || UserRole(user) == Str("student")
    ensures var t := Visit(path, token, user);
      t.Show? || Visit(t.to, token, user).Show? || Visit(Visit(t.to, token, user).to, token, user).Show?
  {
    assert AdminChild(AdminDashboardPath[1..]) == Some(Show(AdminOverview));
  }

  /** A signed-in user whose role is neither admin nor student is sent to the student dashboard, whose guard sends them to itself: no page renders. */
  lemma OtherRolesAreStuck(token: Value, user: Value)
    requires SignedIn(token, user) && UserRole(user) != Str("admin") && UserRole(user) != Str("student")
    ensures Visit(StudentDashboardPath, token, user) == Go(StudentDashboardPath)
  {
  }
}
