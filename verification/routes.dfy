/** The static route configuration consumed by the request gate (routes.ts):
    the public routes, the auth-only routes, the API-auth prefix and the page
    a signed-in user is sent to when visiting an auth-only route. */
module Routes {

  /** JavaScript's `s.startsWith(prefix)`. */
  predicate StartsWith(s: string, prefix: string) {
    |prefix| <= |s| && s[..|prefix|] == prefix
  }

  /** The gate's configuration as one immutable value. */
  datatype RouteConfig = RouteConfig(
    publicRoutes: seq<string>,
    authRoutes: seq<string>,
    apiAuthPrefix: string,
    defaultLoginRedirect: string)

  /** The configuration the application ships with. */
  const Shipped: RouteConfig := RouteConfig(
    ["/", "/auth/new-verification"],
    ["/auth/login", "/auth/register", "/auth/error", "/auth/reset", "/auth/new-password"],
    "/api/auth",
    "/settings")

  /** The shipped auth-only routes are five distinct paths, all under `/auth/`. */
  lemma ShippedAuthRoutesShape()
    ensures |Shipped.authRoutes| == 5
    ensures forall i, j :: 0 <= i < j < |Shipped.authRoutes| ==> Shipped.authRoutes[i] != Shipped.authRoutes[j]
    ensures forall p :: p in Shipped.authRoutes ==> StartsWith(p, "/auth/")
  {
    var a := Shipped.authRoutes;
    assert a[0][6] == 'l' && a[1][6] == 'r' && a[2][6] == 'e' && a[3][6] == 'r' && a[4][6] == 'n';
    assert a[1][7] == 'e' && a[3][7] == 'e';
    assert a[1][8] == 'g' && a[3][8] == 's';
    forall p | p in a
      ensures StartsWith(p, "/auth/")
    {
      assert p[..6] == "/auth/";
    }
  }

  /** `/` and `/auth/new-verification` are public, and the latter is not an auth-only route. */
  lemma ShippedPublicRoutes()
    ensures "/" in Shipped.publicRoutes
    ensures "/auth/new-verification" in Shipped.publicRoutes
    ensures "/auth/new-verification" !in Shipped.authRoutes
  {
    var v := "/auth/new-verification";
    var a := Shipped.authRoutes;
    assert v[6] == 'n' && v[7] == 'e' && v[8] == 'w' && v[10] == 'v';
    assert a[4][10] == 'p';
    assert |v| != |a[0]| && |v| != |a[1]| && |v| != |a[2]| && |v| != |a[3]|;
  }
}
