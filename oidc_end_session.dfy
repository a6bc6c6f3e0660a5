/** The end-session (logout) endpoint of the OpenIddict authorization server
    `OidcOauthServer`, `GET /connect/logout`. Its URI comparison is the STRICT
    one: besides scheme, authority and path it requires query and fragment to
    be equal. */
module OidcEndSession {
  import opened Strings
  import opened Uris

  /** Where the user goes when no redirect was asked for or the one asked
      for was refused. */
  const SafeFallback := "/"

  /** `UriEquals`: the left parts, with every trailing '/' removed, are equal
      ignoring case, and the queries and the fragments are ordinal-equal. */
  predicate UriEquals(a: ParsedUri, b: ParsedUri): (r: bool)
    ensures r <==>
      && ToUpper(TrimEnd(a.leftPart, '/')) == ToUpper(TrimEnd(b.leftPart, '/'))
      && a.query == b.query
      && a.fragment == b.fragment
  {
    EqualsIgnoreCaseToUpper(TrimEnd(a.leftPart, '/'), TrimEnd(b.leftPart, '/'));
    && EqualsIgnoreCase(TrimEnd(a.leftPart, '/'), TrimEnd(b.leftPart, '/'))
    && a.query == b.query
    && a.fragment == b.fragment
  }

  /** The comparison is an equivalence relation on parsed URIs. */
  lemma UriEqualsIsEquivalence(a: ParsedUri, b: ParsedUri, c: ParsedUri)
    ensures UriEquals(a, a)
    ensures UriEquals(a, b) ==> UriEquals(b, a)
    ensures UriEquals(a, b) && UriEquals(b, c) ==> UriEquals(a, c)
  {
    EqualsIgnoreCaseIsEquivalence(TrimEnd(a.leftPart, '/'), TrimEnd(b.leftPart, '/'), TrimEnd(c.leftPart, '/'));
  }

  /** A trailing slash on the path does not matter. */
  lemma TrailingSlashIgnored(a: ParsedUri, b: ParsedUri)
    ensures UriEquals(a.(leftPart := a.leftPart + "/"), b) == UriEquals(a, b)
  {
    TrimEndAbsorbs(a.leftPart, '/');
  }

  /** A different query is never accepted in place of the registered one. */
  lemma QueryEnforced(a: ParsedUri, b: ParsedUri)
    requires a.query != b.query
    ensures !UriEquals(a, b)
  {
  }

  /** `IsPostLogoutRedirectAllowedAsync`. A non-blank client id is looked up
      and only that client's post-logout URIs are compared; an unknown one is
      refused. Without a client id the first page of `ListAsync(100, 0)` is
      scanned and the scan returns at the first application with a match. */
  method IsPostLogoutRedirectAllowed(requested: ParsedUri, clientId: Option<string>, dir: Directory, parse: Parser)
    returns (allowed: bool)
    ensures allowed == RedirectAllowed(requested, clientId, dir, parse, UriEquals)
  {
    if !IsNullOrWhiteSpace(clientId) {
      var app := FindByClientId(dir, clientId.value);
      if app.None? {
        return false;
      }
      return AnyRegisteredMatch(app.value.postLogoutRedirectUris, requested, parse, UriEquals);
    }
    var page := FirstPage(dir);
    var i := 0;
    while i < |page|
      invariant 0 <= i <= |page|
      invariant forall k | 0 <= k < i :: !AnyRegisteredMatch(page[k].postLogoutRedirectUris, requested, parse, UriEquals)
    {
      if AnyRegisteredMatch(page[i].postLogoutRedirectUris, requested, parse, UriEquals) {
        return true;
      }
      i := i + 1;
    }
    return false;
  }

  /** The response of the endpoint: a sign-out of the Identity application
      cookie followed by a redirect to `redirectUri`. */
  datatype LogoutResult = SignOut(redirectUri: string)

  /** `Logout`: a missing or blank post_logout_redirect_uri, or one that is
      not an absolute URI, signs out to the safe fallback; otherwise the
      requested URI is used exactly when the allow-list check passes. */
  method Logout(postLogoutRedirectUri: Option<string>, clientId: Option<string>, dir: Directory, parse: Parser)
    returns (r: LogoutResult)
    ensures IsNullOrWhiteSpace(postLogoutRedirectUri) ==> r.redirectUri == SafeFallback
    ensures !IsNullOrWhiteSpace(postLogoutRedirectUri) && parse(postLogoutRedirectUri.value).None?
      ==> r.redirectUri == SafeFallback
    ensures !IsNullOrWhiteSpace(postLogoutRedirectUri) && parse(postLogoutRedirectUri.value).Some?
      ==> var requested := parse(postLogoutRedirectUri.value).value;
          r.redirectUri == if RedirectAllowed(requested, clientId, dir, parse, UriEquals) then Text(requested) else SafeFallback
    // the redirect is never an unvalidated value
    ensures || r.redirectUri == SafeFallback
            || (&& postLogoutRedirectUri.Some?
                && parse(postLogoutRedirectUri.value).Some?
                && r.redirectUri == Text(parse(postLogoutRedirectUri.value).value)
                && Registered(parse(postLogoutRedirectUri.value).value, dir, parse, UriEquals))
  {
    if IsNullOrWhiteSpace(postLogoutRedirectUri) {
      return SignOut(SafeFallback);
    }
    var parsed := parse(postLogoutRedirectUri.value);
    if parsed.None? {
      return SignOut(SafeFallback);
    }
    var requested := parsed.value;
    var isAllowed := IsPostLogoutRedirectAllowed(requested, clientId, dir, parse);
    if isAllowed {
      AllowedIsRegistered(requested, clientId, dir, parse, UriEquals);
    }
    return SignOut(if isAllowed then Text(requested) else SafeFallback);
  }
}
