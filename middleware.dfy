/** The route guard run before every page request: it classifies the page by path,
    checks the access-token cookie, tries a refresh for an expired token, and either
    lets the request through or redirects it, clearing the session cookies when no
    valid token is left. */
module Middleware {
  import opened Js

  /** What the token payload decodes to: nothing usable, or a payload whose `exp` claim
      may be missing. */
  datatype DecodedToken = Undecodable | Decoded(exp: Option<int>)

  /** How the refresh attempt ends. */
  datatype RefreshOutcome = Refreshed | RefreshFailed | RefreshThrew

  datatype Action = Next | Redirect(location: string)

  /** The response: pass through or redirect, and the cookies it deletes. */
  datatype Response = Response(action: Action, deletedCookies: seq<string>)

  const SessionCookies: seq<string> := ["access_token", "refresh_token", "user"]

  /** `isTokenExpired` at time `now` (in seconds): a token that cannot be decoded counts
      as expired; a payload without `exp` never does (`undefined < now` is false). */
  function IsTokenExpired(token: DecodedToken, now: int): (expired: bool)
    ensures token.Undecodable? ==> expired
    ensures token.Decoded? && token.exp.Some? ==> (expired <==> token.exp.value < now)
    ensures token.Decoded? && token.exp.None? ==> !expired
  {
    match token
    case Undecodable => true
    case Decoded(exp) => exp.Some? && exp.value < now
  }

  /** `/` and every path whose text starts with `/auth`. */
  function IsAuthPage(pathname: string): (auth: bool)
    ensures auth <==> pathname == "/" || (|pathname| >= 5 && pathname[..5] == "/auth")
  {
    pathname == "/" || "/auth" <= pathname
  }

  /** Every path whose text starts with `/game` or `/dashboard`. */
  function IsProtectedPage(pathname: string): (protected: bool)
    ensures protected <==>
              (|pathname| >= 5 && pathname[..5] == "/game") || (|pathname| >= 10 && pathname[..10] == "/dashboard")
    ensures protected ==> pathname != "/"
  {
    "/game" <= pathname || "/dashboard" <= pathname
  }

  /** `middleware` for a request to `pathname` carrying the access-token cookie
      `accessToken`, where `expired` is what `isTokenExpired` says of that token and
      `refresh` is how a refresh attempt would end. */
  function Decide(pathname: string, accessToken: Option<string>, expired: bool, refresh: RefreshOutcome): (r: Response)
    ensures var present := Truthy(accessToken);
            var valid := present && !expired;
            && (valid ==>
                  r.deletedCookies == [] && r.action == (if IsAuthPage(pathname) then Redirect("/game") else Next))
            && (present && !valid && refresh == Refreshed ==> r == Response(Next, []))
            && (present && !valid && refresh == RefreshThrew ==> r == Response(Redirect("/"), []))
            && ((!present || refresh == RefreshFailed) && !valid ==>
                  r.deletedCookies == SessionCookies && r.action == (if IsProtectedPage(pathname) then Redirect("/") else Next))
  {
    var hasValidToken := Truthy(accessToken) && !expired;
    if !hasValidToken && Truthy(accessToken) && refresh == Refreshed then
      Response(Next, [])
    else if !hasValidToken && Truthy(accessToken) && refresh == RefreshThrew then
      Response(Redirect("/"), [])
    else if !hasValidToken then
      Response(if IsProtectedPage(pathname) then Redirect("/") else Next, SessionCookies)
    else if IsAuthPage(pathname) then
      Response(Redirect("/game"), [])
    else
      Response(Next, [])
  }

  /** No page is both an auth page and a protected page. */
  lemma AuthAndProtectedDisjoint(pathname: string)
    ensures !(IsAuthPage(pathname) && IsProtectedPage(pathname))
  {
    // the three prefixes already differ in their second character
    assert "/auth"[1] == 'a' && "/game"[1] == 'g' && "/dashboard"[1] == 'd';
  }

  /** A protected page is only ever let through with a token that is valid, or that is
      present and was refreshed. */
  lemma ProtectedPageNeedsSession(pathname: string, accessToken: Option<string>, expired: bool, refresh: RefreshOutcome)
    requires IsProtectedPage(pathname)
    requires Decide(pathname, accessToken, expired, refresh).action == Next
    ensures Truthy(accessToken)
    ensures !expired || refresh == Refreshed
  {
  }

  /** Wherever a request is redirected to `/` or `/game`, a request there with the same
      cookie and the same refresh result is let through, unless the refresh throws: then
      `/` redirects to itself. */
  lemma RedirectTargetPassesThrough(pathname: string, accessToken: Option<string>, expired: bool, refresh: RefreshOutcome)
    requires Decide(pathname, accessToken, expired, refresh).action.Redirect?
    ensures var target := Decide(pathname, accessToken, expired, refresh).action.location;
            refresh != RefreshThrew || !Truthy(accessToken) || !expired ==>
              Decide(target, accessToken, expired, refresh).action == Next
    ensures Truthy(accessToken) && expired && refresh == RefreshThrew ==>
              Decide("/", accessToken, expired, refresh) == Response(Redirect("/"), [])
  {
    var target := Decide(pathname, accessToken, expired, refresh).action.location;
    if Truthy(accessToken) && !expired {
      assert target == "/game";
      assert !IsAuthPage("/game") by { assert "/game"[1] == 'g'; }
    } else {
      assert !IsProtectedPage("/") by { assert |"/"| == 1; }
    }
  }
}
