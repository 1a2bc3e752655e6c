/** The edge middleware in front of every page and API route: public paths
    pass, everything else needs a session token that verifies. Token
    verification is a library call and is passed in as a predicate. */
module Middleware {
  import opened Common
  import opened Api

  /** The public prefixes, matched with a raw `startsWith`. */
  const PUBLIC_PATHS: seq<string> := ["/login", "/register", "/api/auth", "/api/report"]

  const MSG_SESSION_EXPIRED := "登录已过期"
  const LOGIN_PAGE := "/login"

  /** Some public prefix starts the path. */
  predicate IsPublic(path: string)
    ensures IsPublic(path) <==>
              StartsWith(path, "/login") || StartsWith(path, "/register")
              || StartsWith(path, "/api/auth") || StartsWith(path, "/api/report")
  {
    assert |PUBLIC_PATHS| == 4 && PUBLIC_PATHS[0] == "/login" && PUBLIC_PATHS[1] == "/register"
           && PUBLIC_PATHS[2] == "/api/auth" && PUBLIC_PATHS[3] == "/api/report";
    exists i :: 0 <= i < |PUBLIC_PATHS| && StartsWith(path, PUBLIC_PATHS[i])
  }

  /** `NextResponse.next()`, a JSON refusal, or a redirect. */
  datatype Decision = Pass | Reject(reply: Reply<()>) | Redirect(location: string)

  /** The refusal for a request without a usable session: JSON 1005/401 on
      the API, a redirect to the login page elsewhere. */
  function Unauthenticated(path: string): (d: Decision)
    ensures StartsWith(path, "/api") <==> d.Reject?
    ensures d.Reject? ==> d.reply == Refuse(NOT_LOGGED_IN, 401, MSG_SESSION_EXPIRED)
    ensures !d.Reject? ==> d == Redirect(LOGIN_PAGE)
  {
    if StartsWith(path, "/api") then Reject(Refuse(NOT_LOGGED_IN, 401, MSG_SESSION_EXPIRED))
    else Redirect(LOGIN_PAGE)
  }

  /** `middleware`: a public path passes untouched; otherwise a missing or
      empty token, or one that does not verify, is refused. */
  function Decide(path: string, token: Option<string>, verifies: string -> bool): (d: Decision)
    ensures IsPublic(path) ==> d == Pass
    ensures d == Pass <==> IsPublic(path) || (Present(token) && verifies(token.value))
    ensures d != Pass ==> d == Unauthenticated(path)
  {
    if IsPublic(path) then Pass
    else if !Present(token) then Unauthenticated(path)
    else if verifies(token.value) then Pass
    else Unauthenticated(path)
  }

  /** A token that does not verify is treated exactly like no token. */
  lemma InvalidTokenIsMissingToken(path: string, token: string, verifies: string -> bool)
    requires token != "" && !verifies(token)
    ensures Decide(path, Some(token), verifies) == Decide(path, None, verifies)
  {
  }

  /** A verified token passes every path. */
  lemma VerifiedTokenPasses(path: string, token: string, verifies: string -> bool)
    requires token != "" && verifies(token)
    ensures Decide(path, Some(token), verifies) == Pass
  {
  }

  /** The prefix match is raw: paths that merely extend a public prefix are
      public too, while the root and the app pages are not. */
  lemma PrefixMatchIsRaw()
    ensures IsPublic("/api/reports") && IsPublic("/loginx") && IsPublic("/api/auth/login")
    ensures !IsPublic("/") && !IsPublic("/api/apps")
  {
    assert StartsWith("/api/reports", PUBLIC_PATHS[3]) by { assert "/api/reports"[..11] == "/api/report"; }
    assert StartsWith("/loginx", PUBLIC_PATHS[0]) by { assert "/loginx"[..6] == "/login"; }
    assert StartsWith("/api/auth/login", PUBLIC_PATHS[2]) by { assert "/api/auth/login"[..9] == "/api/auth"; }
    assert !StartsWith("/api/apps", PUBLIC_PATHS[0]) by { assert "/api/apps"[1] != "/login"[1]; }
    assert !StartsWith("/api/apps", PUBLIC_PATHS[1]) by { assert "/api/apps"[1] != "/register"[1]; }
    assert !StartsWith("/api/apps", PUBLIC_PATHS[2]) by { assert "/api/apps"[6] != "/api/auth"[6]; }
    assert !StartsWith("/api/apps", PUBLIC_PATHS[3]) by { assert "/api/apps"[5] != "/api/report"[5]; }
  }
}
