/** The application's route table and its global navigation guard. */
module Router {
  import opened Wrappers

  datatype Meta = Meta(requiresAuth: bool, requiresGuest: bool)

  const AuthOnly := Meta(true, false)
  const GuestOnly := Meta(false, true)

  /** One entry of the table; the lazily imported view is not modelled. */
  datatype Route = Route(path: string, name: string, meta: Meta)

  const Routes: seq<Route> := [
    Route("/", "home", AuthOnly),
    Route("/login", "login", GuestOnly),
    Route("/register", "register", GuestOnly),
    Route("/campaigns", "campaigns", AuthOnly),
    Route("/campaigns/new", "campaign-new", AuthOnly),
    Route("/campaigns/:id", "campaign-details", AuthOnly),
    Route("/profile", "profile", AuthOnly)
  ]

  /** The parts of the target location the guard reads. */
  datatype Target = Target(fullPath: string, meta: Meta)

  /** What the guard passes to `next`: nothing, or a named location with an
      optional `redirect` query. */
  datatype Decision = Proceed | RedirectTo(name: string, redirect: Option<string>)

  /** The three-way rule; the authentication check comes first. */
  function Guard(to: Target, isAuthenticated: bool): (d: Decision)
    ensures to.meta.requiresAuth && !isAuthenticated ==> d == RedirectTo("login", Some(to.fullPath))
    ensures to.meta.requiresGuest && isAuthenticated ==> d == RedirectTo("home", None)
    ensures d == Proceed <==>
              (!to.meta.requiresAuth || isAuthenticated) && (!to.meta.requiresGuest || !isAuthenticated)
  {
    if to.meta.requiresAuth && !isAuthenticated then RedirectTo("login", Some(to.fullPath))
    else if to.meta.requiresGuest && isAuthenticated then RedirectTo("home", None)
    else Proceed
  }

  /** One run of the guard: whether it awaited `authStore.initialize()`, and
      its decision. When the store was still loading, the decision is taken on
      the authentication state after that await (`authenticatedAfterInit`).
      `initialize` only registers the auth-state observer, so that state need
      not yet reflect what the observer will report: it is a free parameter. */
  datatype GuardRun = GuardRun(initialized: bool, decision: Decision)

  function BeforeEach(to: Target, authLoading: bool, authenticated: bool, authenticatedAfterInit: bool): (r: GuardRun)
    ensures r.initialized <==> authLoading
    ensures !authLoading ==> r.decision == Guard(to, authenticated)
    ensures authLoading ==> r.decision == Guard(to, authenticatedAfterInit)
  {
    var initialized := authLoading;
    var isAuthenticated := if initialized then authenticatedAfterInit else authenticated;
    GuardRun(initialized, Guard(to, isAuthenticated))
  }

  /** The route named `name` in the table, if any. */
  function Lookup(name: string): (r: Option<Route>)
    ensures r.Some? ==> r.value in Routes && r.value.name == name
    ensures r.None? ==> forall k | 0 <= k < |Routes| :: Routes[k].name != name
  {
    LookupIn(Routes, name)
  }

  function LookupIn(rs: seq<Route>, name: string): (r: Option<Route>)
    ensures r.Some? ==> r.value in rs && r.value.name == name
    ensures r.None? ==> forall k | 0 <= k < |rs| :: rs[k].name != name
    decreases |rs|
  {
    if rs == [] then None
    else if rs[0].name == name then Some(rs[0])
    else LookupIn(rs[1..], name)
  }

  /** Only 'login' and 'register' are guest-only; every other route requires
      authentication, and no route is both. */
  lemma RouteTableFlags()
    ensures forall k | 0 <= k < |Routes| ::
      && (Routes[k].meta.requiresGuest <==> Routes[k].name == "login" || Routes[k].name == "register")
      && (Routes[k].meta.requiresAuth <==> !Routes[k].meta.requiresGuest)
  {
  }

  /** Over the table: a signed-out visitor reaches exactly the guest pages
      and a signed-in one exactly the others. */
  lemma RouteAccess(k: nat, fullPath: string, isAuthenticated: bool)
    requires k < |Routes|
    ensures var guest := Routes[k].name == "login" || Routes[k].name == "register";
            Guard(Target(fullPath, Routes[k].meta), isAuthenticated) == Proceed <==> (guest <==> !isAuthenticated)
  {
    RouteTableFlags();
  }

  /** Every redirect leads to a route of the table that the same visitor is
      let through to, so the guard never redirects twice in a row. */
  lemma NoRedirectLoop(to: Target, isAuthenticated: bool, fullPath: string)
    ensures match Guard(to, isAuthenticated)
            case Proceed => true
            case RedirectTo(name, _) =>
              Lookup(name).Some? && Guard(Target(fullPath, Lookup(name).value.meta), isAuthenticated) == Proceed
  {
    assert Routes[0].name == "home";
    assert Routes[1].name == "login";
    assert LookupIn(Routes, "login") == Some(Routes[1]);
  }
}
