/** The login and logout actions of the Blazor SSR client
    (`IdentityController`, routes `/identity/login` and `/identity/logout`).
    Login never sends the browser to a URL outside the application:
    `Url.IsLocalUrl` is taken as a parameter. */
module IdentityController {
  import opened Strings

  const Root := "/"
  const OpenIdConnectScheme := "OpenIdConnect"
  const CookieScheme := "Cookies"

  datatype LoginResult =
    /** Already signed in: a local redirect. */
    | LocalRedirect(url: string)
    /** Not signed in: an OpenID Connect challenge returning to `redirectUri`. */
    | Challenge(redirectUri: string, isPersistent: bool)

  function Target(r: LoginResult): string {
    match r
    case LocalRedirect(url) => url
    case Challenge(redirectUri, _) => redirectUri
  }

  /** The reference rule: a non-blank local return URL, else the root. */
  function SafeTarget(returnUrl: Option<string>, isLocal: string -> bool): (t: string)
    ensures t == Root || (returnUrl.Some? && t == returnUrl.value && isLocal(t))
  {
    if !IsNullOrWhiteSpace(returnUrl) && isLocal(returnUrl.value) then returnUrl.value else Root
  }

  /** `Login`. The two branches compute their target differently (the
      signed-in branch asks `IsLocalUrl` even of the root), but both follow
      the reference rule; a challenge is never persistent. */
  function Login(authenticated: bool, returnUrl: Option<string>, isLocal: string -> bool): (r: LoginResult)
    ensures authenticated <==> r.LocalRedirect?
    ensures r.Challenge? ==> !r.isPersistent
    ensures Target(r) == SafeTarget(returnUrl, isLocal)
    // a non-blank local return URL is kept verbatim, anything else becomes the root
    ensures !IsNullOrWhiteSpace(returnUrl) && isLocal(returnUrl.value) ==> Target(r) == returnUrl.value
    ensures IsNullOrWhiteSpace(returnUrl) || !isLocal(returnUrl.value) ==> Target(r) == Root
  {
    if authenticated then
      var targetUrl := if IsNullOrWhiteSpace(returnUrl) then Root else returnUrl.value;
      if isLocal(targetUrl) then LocalRedirect(targetUrl) else LocalRedirect(Root)
    else
      var target := if IsNullOrWhiteSpace(returnUrl) then Root else returnUrl.value;
      var target' := if !isLocal(target) then Root else target;
      Challenge(target', false)
  }

  /** Signed in or not, the user ends up at the same place. */
  lemma LoginTargetIndependentOfSession(returnUrl: Option<string>, isLocal: string -> bool)
    ensures Target(Login(true, returnUrl, isLocal)) == Target(Login(false, returnUrl, isLocal))
  {
  }

  datatype SignOutResult = SignOut(redirectUri: string, schemes: seq<string>)

  /** `Logout`: signs out of the OpenID Connect scheme (which calls the
      server's end-session endpoint) and of the local cookie, then returns
      to the root. */
  function Logout(): (r: SignOutResult)
    ensures r.redirectUri == Root
    ensures OpenIdConnectScheme in r.schemes && CookieScheme in r.schemes && |r.schemes| == 2
  {
    SignOut(Root, [OpenIdConnectScheme, CookieScheme])
  }
}
