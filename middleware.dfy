/** The route guard: which paths it runs on, the `authorized` callback,
    and the redirect of non-admins away from the admin area. */
module Middleware {
  import opened Wrappers
  import opened Text

  /** The decoded session token; only its role matters here. */
  datatype Token = Token(role: Option<string>)

  /** What happens to a request. */
  datatype Decision =
    | Unguarded     // the matcher does not select the path
    | SignIn        // `authorized` is false: sent to the sign-in page
    | RedirectHome  // a non-admin on an admin path: sent to "/"
    | Allowed

  /** The matcher's bases: `"/admin/:path*"` and its siblings. */
  const GuardedBases: seq<string> := ["/admin", "/orders", "/success", "/checkout"]

  /** `"<base>/:path*"` selects the base itself and every path below it. */
  predicate UnderBase(path: string, base: string) {
    path == base || StartsWith(path, base + "/")
  }

  predicate Guarded(path: string) {
    exists i :: 0 <= i < |GuardedBases| && UnderBase(path, GuardedBases[i])
  }

  /** `authorized: ({ token }) => !!token`. */
  predicate Authorized(token: Option<Token>) { token.Some? }

  predicate IsAdminToken(token: Option<Token>) {
    token.Some? && token.value.role == Some("admin")
  }

  /** The guard as a whole: the matcher first, then `authorized`, then
      the admin check of the middleware function. */
  function Decide(path: string, token: Option<Token>): (d: Decision)
    ensures d == Unguarded <==> !Guarded(path)
    ensures d == SignIn <==> Guarded(path) && token.None?
    ensures d == RedirectHome <==> Guarded(path) && token.Some? && StartsWith(path, "/admin") && !IsAdminToken(token)
    ensures d == Allowed <==> Guarded(path) && token.Some? && (StartsWith(path, "/admin") ==> IsAdminToken(token))
  {
    if !Guarded(path) then Unguarded
    else if !Authorized(token) then SignIn
    else if StartsWith(path, "/admin") && !IsAdminToken(token) then RedirectHome
    else Allowed
  }

  /** An admin token passes everywhere the guard runs. */
  lemma AdminPasses(path: string, token: Option<Token>)
    requires Guarded(path) && IsAdminToken(token)
    ensures Decide(path, token) == Allowed
  {
  }

  /** Any token passes on a guarded path outside the admin area. */
  lemma TokenPassesOutsideAdmin(path: string, token: Option<Token>)
    requires token.Some? && !StartsWith(path, "/admin")
    requires UnderBase(path, "/orders") || UnderBase(path, "/success") || UnderBase(path, "/checkout")
    ensures Decide(path, token) == Allowed
  {
    var i := if UnderBase(path, "/orders") then 1 else if UnderBase(path, "/success") then 2 else 3;
    assert UnderBase(path, GuardedBases[i]);
  }

  /** Every path below `/admin` is guarded, and a non-admin token there is
      sent home. */
  lemma AdminAreaRedirects(rest: string, token: Option<Token>)
    requires token.Some? && !IsAdminToken(token)
    ensures Decide("/admin/" + rest, token) == RedirectHome
  {
    var path := "/admin/" + rest;
    assert StartsWith(path, "/admin" + "/");
    assert UnderBase(path, GuardedBases[0]);
    assert StartsWith(path, "/admin") by {
      assert path[..6] == "/admin";
    }
  }

  /** The home page and the shop are not guarded: no token is needed. */
  lemma StorefrontUnguarded(token: Option<Token>)
    ensures Decide("/", token) == Unguarded
    ensures Decide("/shop", token) == Unguarded
  {
    assert !Guarded("/") by {
      forall i | 0 <= i < |GuardedBases| ensures !UnderBase("/", GuardedBases[i]) {
      }
    }
    assert !Guarded("/shop") by {
      forall i | 0 <= i < |GuardedBases| ensures !UnderBase("/shop", GuardedBases[i]) {
        assert |GuardedBases[i]| > |"/shop"|;
      }
    }
  }
}
