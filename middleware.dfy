// The page and API gate (src/middleware.js): which paths are public and what
// happens to a request without a session token. Whether a token is present
// is a parameter (`getToken` is not part of this model).
//
// Each public route is compiled to `^route$` after its first "$" is escaped,
// so the route written "/user/register$" matches only the literal text
// "/user/register$" and not "/user/register", which the comment beside it
// says should be public. `PublicAsWritten` and `MiddlewareAsWritten` are
// the code as written; `IsPublic` and `Middleware` are the intended rule.

module Middleware {
  import opened Js

  datatype Decision = Next | RedirectToLogin | Unauthorized

  /** `^/api/auth/(.*)$`: the prefix, then anything a `.` matches. */
  predicate AuthApiPath(pathname: string)
  {
    StartsWith(pathname, "/api/auth/")
    && forall i :: 10 <= i < |pathname| ==> !IsLineTerminator(pathname[i])
  }

  /** The public routes as compiled by `new RegExp(`^${route.replace("$", "\\$")}$`)`. */
  predicate PublicAsWritten(pathname: string)
  {
    pathname == "/user/login" || pathname == "/user/register$" || AuthApiPath(pathname) || pathname == "/api/user/register"
  }

  /** The public routes with the "$" of "/user/register$" read as the end of the path. */
  predicate IsPublic(pathname: string)
  {
    pathname == "/user/login" || pathname == "/user/register" || AuthApiPath(pathname) || pathname == "/api/user/register"
  }

  /** What `middleware` does once it knows whether the path is public. */
  function Decide(isPublic: bool, pathname: string, hasToken: bool): (d: Decision)
    ensures isPublic || hasToken ==> d == Next
    ensures !isPublic && !hasToken ==>
      (StartsWith(pathname, "/dashboard") || StartsWith(pathname, "/user") ==> d == RedirectToLogin)
      && (!StartsWith(pathname, "/dashboard") && !StartsWith(pathname, "/user") && StartsWith(pathname, "/api") ==> d == Unauthorized)
      && (!StartsWith(pathname, "/dashboard") && !StartsWith(pathname, "/user") && !StartsWith(pathname, "/api") ==> d == Next)
  {
    if isPublic then Next
    else if StartsWith(pathname, "/user/register/") && !hasToken then
      assert pathname[..5] == pathname[..15][..5];
      RedirectToLogin
    else if !hasToken then
      if StartsWith(pathname, "/dashboard") || StartsWith(pathname, "/user") then RedirectToLogin
      else if StartsWith(pathname, "/api") then Unauthorized
      else Next
    else Next
  }

  function MiddlewareAsWritten(pathname: string, hasToken: bool): Decision
  {
    Decide(PublicAsWritten(pathname), pathname, hasToken)
  }

  function Middleware(pathname: string, hasToken: bool): Decision
  {
    Decide(IsPublic(pathname), pathname, hasToken)
  }

  /** As written, the registration page itself is not public and a visitor without a session is sent to the login page. */
  lemma RegisterPageNotPublicAsWritten()
    ensures !PublicAsWritten("/user/register")
    ensures MiddlewareAsWritten("/user/register", false) == RedirectToLogin
    ensures PublicAsWritten("/user/register$")
  {
    assert "/user/register" != "/user/register$" by {
      assert |"/user/register"| != |"/user/register$"|;
    }
    assert !AuthApiPath("/user/register") by {
      assert "/user/register"[1] != "/api/auth/"[1];
    }
    assert StartsWith("/user/register", "/user");
  }

  /** With the intended rule the registration page is open, while the pages under it still need a session. */
  lemma RegisterPagePublic(pathname: string)
    requires StartsWith(pathname, "/user/register/")
    ensures Middleware("/user/register", false) == Next
    ensures Middleware(pathname, false) == RedirectToLogin
  {
    assert StartsWith(pathname, "/user") by {
      assert pathname[..5] == pathname[..15][..5];
    }
    assert !IsPublic(pathname) by {
      assert pathname[1] == 'u';
      assert pathname != "/user/login" by { assert pathname[6] == 'r'; }
      assert pathname != "/user/register" && pathname != "/api/user/register" by { assert |pathname| >= 15 && pathname[14] == '/'; }
    }
  }

  /** Every path under "/api/auth/" without a line break passes, with or without a session. */
  lemma AuthApiAlwaysPasses(pathname: string, hasToken: bool)
    requires AuthApiPath(pathname)
    ensures Middleware(pathname, hasToken) == Next
    ensures MiddlewareAsWritten(pathname, hasToken) == Next
  {
  }

  /** "/user/login" and "/api/user/register" are public only as exact paths: one more character and the gate applies. */
  lemma ExactRoutesOnly(pathname: string, c: char)
    ensures Middleware("/user/login" + [c], false) == RedirectToLogin
    ensures Middleware("/api/user/register" + [c], false) == Unauthorized
  {
    var p := "/user/login" + [c];
    assert p[..5] == "/user";
    assert !IsPublic(p) by {
      assert |p| == 12;
      assert p[1] == 'u';
    }
    var q := "/api/user/register" + [c];
    assert q[..4] == "/api";
    assert !IsPublic(q) by {
      assert |q| == 19;
      assert q[5] == 'u';
    }
    assert !StartsWith(q, "/dashboard") && !StartsWith(q, "/user") by {
      assert q[1] == 'a';
    }
  }
}
