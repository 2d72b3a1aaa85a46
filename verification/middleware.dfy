/** The request-time access gate (middleware.ts): every request path is put
    into one route class, and the class together with the sign-in state picks
    one of three outcomes: let the request through, send a signed-in user to
    the default landing page, or send an anonymous visitor to the login page. */
module Middleware {
  import opened Routes

  /** Where anonymous visitors of protected paths are sent; a literal in the gate itself. */
  const LoginPage: string := "/auth/login"

  /** What the gate does with one request: `null` in the gate's callback, or a redirect. */
  datatype Decision = Pass | Redirect(target: string)

  /** The route classes, in the order the gate tests them. */
  datatype RouteClass = ApiAuth | AuthRoute | PublicRoute | Protected

  /** The gate's callback, branch for branch: the API-auth prefix test first,
      then exact membership in the auth-only routes, then the anonymous
      non-public case; everything else passes. */
  function Decide(cfg: RouteConfig, path: string, loggedIn: bool): (d: Decision)
    ensures StartsWith(path, cfg.apiAuthPrefix) ==> d == Pass
    ensures d.Redirect? && loggedIn ==> path in cfg.authRoutes && d.target == cfg.defaultLoginRedirect
    ensures d.Redirect? && !loggedIn ==>
              path !in cfg.authRoutes && path !in cfg.publicRoutes && d.target == LoginPage
    ensures d == Pass <==>
              || StartsWith(path, cfg.apiAuthPrefix)
              || (path in cfg.authRoutes && !loggedIn)
              || (path !in cfg.authRoutes && (loggedIn || path in cfg.publicRoutes))
  {
    var isApiAuthRoute := StartsWith(path, cfg.apiAuthPrefix);
    var isPublicRoute := path in cfg.publicRoutes;
    var isAuthRoute := path in cfg.authRoutes;
    if isApiAuthRoute then Pass
    else if isAuthRoute then
      if loggedIn then Redirect(cfg.defaultLoginRedirect) else Pass
    else if !loggedIn && !isPublicRoute then Redirect(LoginPage)
    else Pass
  }

  /** The route class of a path: first match wins, in the gate's order.
      Only the API-auth test is a prefix test; the other two are exact. */
  function Classify(cfg: RouteConfig, path: string): (c: RouteClass)
    ensures c == ApiAuth <==> StartsWith(path, cfg.apiAuthPrefix)
    ensures c == AuthRoute ==> path in cfg.authRoutes
    ensures c == PublicRoute ==> path in cfg.publicRoutes && path !in cfg.authRoutes
    ensures c == Protected ==> path !in cfg.publicRoutes && path !in cfg.authRoutes
  {
    if StartsWith(path, cfg.apiAuthPrefix) then ApiAuth
    else if path in cfg.authRoutes then AuthRoute
    else if path in cfg.publicRoutes then PublicRoute
    else Protected
  }

  /** The decision table over route classes. */
  function Outcome(cfg: RouteConfig, c: RouteClass, loggedIn: bool): Decision {
    match c
    case ApiAuth => Pass
    case AuthRoute => if loggedIn then Redirect(cfg.defaultLoginRedirect) else Pass
    case PublicRoute => Pass
    case Protected => if loggedIn then Pass else Redirect(LoginPage)
  }

  /** The gate's if-chain is exactly the decision table applied to the route class. */
  lemma DecideIsTable(cfg: RouteConfig, path: string, loggedIn: bool)
    ensures Decide(cfg, path, loggedIn) == Outcome(cfg, Classify(cfg, path), loggedIn)
  {
  }

  /** The public-before-auth variant of the classifier. */
  function ClassifyPublicFirst(cfg: RouteConfig, path: string): RouteClass {
    if StartsWith(path, cfg.apiAuthPrefix) then ApiAuth
    else if path in cfg.publicRoutes then PublicRoute
    else if path in cfg.authRoutes then AuthRoute
    else Protected
  }

  /** No path is both public and auth-only. */
  predicate Disjoint(cfg: RouteConfig) {
    forall p :: p in cfg.publicRoutes ==> p !in cfg.authRoutes
  }

  /** No listed route starts with the API-auth prefix, so the prefix test never hides one. */
  predicate PrefixShadowsNothing(cfg: RouteConfig) {
    && (forall p :: p in cfg.publicRoutes ==> !StartsWith(p, cfg.apiAuthPrefix))
    && (forall p :: p in cfg.authRoutes ==> !StartsWith(p, cfg.apiAuthPrefix))
  }

  /** Both redirect targets are let through for the sign-in state that leads to them. */
  predicate TargetsPass(cfg: RouteConfig) {
    && LoginPage in cfg.authRoutes
    && !StartsWith(LoginPage, cfg.apiAuthPrefix)
    && cfg.defaultLoginRedirect !in cfg.authRoutes
  }

  /** What the gate needs of its configuration. */
  predicate WellFormed(cfg: RouteConfig) {
    Disjoint(cfg) && PrefixShadowsNothing(cfg) && TargetsPass(cfg)
  }

  /** Any path under the API-auth prefix passes, signed in or not. */
  lemma ApiAuthAlwaysPasses(cfg: RouteConfig, path: string, loggedIn: bool)
    requires StartsWith(path, cfg.apiAuthPrefix)
    ensures Classify(cfg, path) == ApiAuth
    ensures Decide(cfg, path, loggedIn) == Pass
  {
  }

  /** A signed-in user on an auth-only route is sent to the default landing page;
      an anonymous one is let through. */
  lemma AuthRouteDecision(cfg: RouteConfig, path: string, loggedIn: bool)
    requires path in cfg.authRoutes && !StartsWith(path, cfg.apiAuthPrefix)
    ensures loggedIn ==> Decide(cfg, path, loggedIn) == Redirect(cfg.defaultLoginRedirect)
    ensures !loggedIn ==> Decide(cfg, path, loggedIn) == Pass
  {
  }

  /** An anonymous visitor of a path that is neither API-auth, auth-only nor
      public is sent to the login page. */
  lemma AnonymousProtectedGoesToLogin(cfg: RouteConfig, path: string)
    requires !StartsWith(path, cfg.apiAuthPrefix)
    requires path !in cfg.authRoutes && path !in cfg.publicRoutes
    ensures Classify(cfg, path) == Protected
    ensures Decide(cfg, path, false) == Redirect(LoginPage)
  {
  }

  /** A signed-in user passes everywhere except on the auth-only routes. */
  lemma LoggedInPassesOffAuthRoutes(cfg: RouteConfig, path: string)
    ensures Decide(cfg, path, true) == Pass <==>
              StartsWith(path, cfg.apiAuthPrefix) || path !in cfg.authRoutes
  {
  }

  /** With disjoint route lists a public route passes whatever the sign-in state. */
  lemma PublicRoutePasses(cfg: RouteConfig, path: string, loggedIn: bool)
    requires Disjoint(cfg)
    requires path in cfg.publicRoutes
    ensures Decide(cfg, path, loggedIn) == Pass
  {
  }

  /** Under a well-formed configuration every listed route gets the class of its list. */
  lemma ListedRoutesKeepTheirClass(cfg: RouteConfig, path: string)
    requires WellFormed(cfg)
    ensures path in cfg.authRoutes ==> Classify(cfg, path) == AuthRoute
    ensures path in cfg.publicRoutes ==> Classify(cfg, path) == PublicRoute
  {
  }

  /** Every request ends in exactly one of: pass, redirect to the default
      landing page, redirect to the login page. */
  lemma DecisionIsOneOfThree(cfg: RouteConfig, path: string, loggedIn: bool)
    requires WellFormed(cfg)
    ensures cfg.defaultLoginRedirect != LoginPage
    ensures var d := Decide(cfg, path, loggedIn);
            d == Pass || d == Redirect(cfg.defaultLoginRedirect) || d == Redirect(LoginPage)
  {
  }

  /** Following a redirect with the same sign-in state is let through:
      the gate never sends a request round a redirect loop. */
  lemma NoRedirectLoop(cfg: RouteConfig, path: string, loggedIn: bool)
    requires WellFormed(cfg)
    ensures var d := Decide(cfg, path, loggedIn);
            d.Redirect? ==> Decide(cfg, d.target, loggedIn) == Pass
  {
  }

  /** When the public and auth-only lists are disjoint, testing public routes
      before auth-only routes gives the same classes. */
  lemma CheckOrderIrrelevantWhenDisjoint(cfg: RouteConfig, path: string)
    requires Disjoint(cfg)
    ensures ClassifyPublicFirst(cfg, path) == Classify(cfg, path)
  {
  }

  /** Without disjointness the order matters: a path on both lists (and
      outside the API-auth prefix) is auth-only for the gate, which redirects
      a signed-in user, while the public-first order would let them through. */
  lemma CheckOrderMattersWhenOverlapping(cfg: RouteConfig, path: string)
    requires path in cfg.publicRoutes && path in cfg.authRoutes
    requires !StartsWith(path, cfg.apiAuthPrefix)
    ensures Classify(cfg, path) == AuthRoute
    ensures ClassifyPublicFirst(cfg, path) == PublicRoute
    ensures Decide(cfg, path, true) == Redirect(cfg.defaultLoginRedirect)
    ensures Outcome(cfg, ClassifyPublicFirst(cfg, path), true) == Pass
  {
  }

  /** A landing page that is itself an auth-only route (outside the API-auth
      prefix) makes the configuration ill-formed and sends a signed-in user
      who asks for it straight back to it. */
  lemma LandingOnAuthRouteLoops(cfg: RouteConfig)
    requires cfg.defaultLoginRedirect in cfg.authRoutes
    requires !StartsWith(cfg.defaultLoginRedirect, cfg.apiAuthPrefix)
    ensures !WellFormed(cfg)
    ensures Decide(cfg, cfg.defaultLoginRedirect, true) == Redirect(cfg.defaultLoginRedirect)
  {
  }

  /** The shipped configuration meets everything the gate needs of it. */
  lemma ShippedWellFormed()
    ensures WellFormed(Shipped)
  {
    ShippedPrefixShadowsNothing();
    ShippedDisjoint();
    ShippedTargetsPass();
  }

  lemma ShippedPrefixShadowsNothing()
    ensures PrefixShadowsNothing(Shipped)
  {
    var pre := Shipped.apiAuthPrefix;
    forall p | p in Shipped.publicRoutes + Shipped.authRoutes
      ensures !StartsWith(p, pre)
    {
      if |pre| <= |p| {
        assert p[2] != pre[2];
      }
    }
  }

  lemma ShippedDisjoint()
    ensures Disjoint(Shipped)
  {
    ShippedPublicRoutes();
    forall p | p in Shipped.publicRoutes
      ensures p !in Shipped.authRoutes
    {
      if p == "/" {
        assert forall q :: q in Shipped.authRoutes ==> |q| > 1;
      }
    }
  }

  lemma ShippedTargetsPass()
    ensures TargetsPass(Shipped)
  {
    var pre := Shipped.apiAuthPrefix;
    assert LoginPage[2] != pre[2];
    var s := Shipped.defaultLoginRedirect;
    assert s[1] == 's';
    forall p | p in Shipped.authRoutes
      ensures p != s
    {
      assert p[1] == 'a';
    }
  }

  /** The shipped landing page `/settings` lies outside the API-auth prefix. */
  lemma ShippedLandingOutsidePrefix()
    ensures !StartsWith(Shipped.defaultLoginRedirect, Shipped.apiAuthPrefix)
  {
    assert Shipped.defaultLoginRedirect[1] != Shipped.apiAuthPrefix[1];
  }

  /** Membership is exact: a trailing slash makes an auth-only path protected. */
  lemma TrailingSlashIsProtected()
    ensures Classify(Shipped, "/auth/login/") == Protected
    ensures Decide(Shipped, "/auth/login/", false) == Redirect(LoginPage)
    ensures Decide(Shipped, "/auth/login/", true) == Pass
  {
    var p := "/auth/login/";
    assert p[2] != Shipped.apiAuthPrefix[2];
    assert p[11] == '/';
    assert forall q :: q in Shipped.authRoutes + Shipped.publicRoutes ==> q != p;
  }

  /** Sample requests against the shipped configuration. */
  lemma ShippedScenarios()
    ensures Decide(Shipped, "/api/auth/callback", false) == Pass
    ensures Decide(Shipped, "/api/auth/callback", true) == Pass
    ensures Decide(Shipped, "/auth/login", true) == Redirect("/settings")
    ensures Decide(Shipped, "/auth/login", false) == Pass
    ensures Decide(Shipped, "/", false) == Pass
    ensures Decide(Shipped, "/users", false) == Redirect("/auth/login")
    ensures Decide(Shipped, "/users", true) == Pass
  {
    ShippedWellFormed();
    var u := "/users";
    assert u[1] == 'u';
    assert forall q :: q in Shipped.authRoutes + Shipped.publicRoutes ==> q != u;
    assert StartsWith("/api/auth/callback", Shipped.apiAuthPrefix);
  }
}
