/** The end-session (logout) endpoint of `IdentityAccessServer`,
    `GET /connect/endsession`. Its URI comparison is the LENIENT one: scheme,
    authority and path only; query and fragment are ignored. */
module IdentityEndSession {
  import opened Strings
  import opened Uris
  import OidcEndSession

  const SafeFallback := "/"

  /** `UriEquals`: the left parts, with every trailing '/' removed, are equal
      ignoring case. */
  predicate UriEquals(a: ParsedUri, b: ParsedUri): (r: bool)
    ensures r <==> ToUpper(TrimEnd(a.leftPart, '/')) == ToUpper(TrimEnd(b.leftPart, '/'))
    ensures OidcEndSession.UriEquals(a, b) ==> r
  {
    EqualsIgnoreCaseToUpper(TrimEnd(a.leftPart, '/'), TrimEnd(b.leftPart, '/'));
    EqualsIgnoreCase(TrimEnd(a.leftPart, '/'), TrimEnd(b.leftPart, '/'))
  }

  /** Query and fragment play no part in the comparison. */
  lemma QueryAndFragmentIgnored(a: ParsedUri, b: ParsedUri, query: string, fragment: string)
    ensures UriEquals(a.(query := query, fragment := fragment), b) == UriEquals(a, b)
  {
  }

  /** Every pair the strict variant accepts, this one accepts too, so every
      redirect the strict server allows this server allows as well. */
  lemma StrictAllowedImpliesLenientAllowed(requested: ParsedUri, clientId: Option<string>, dir: Directory, parse: Parser)
    requires RedirectAllowed(requested, clientId, dir, parse, OidcEndSession.UriEquals)
    ensures RedirectAllowed(requested, clientId, dir, parse, UriEquals)
  {
    AllowedMonotone(requested, clientId, dir, parse, OidcEndSession.UriEquals, UriEquals);
  }

  /** A registered URI such as `https://app.example/done` accepts a request
      for its upper-cased form with a trailing slash and a query, such as
      `https://APP.EXAMPLE/done/?x=1`, here, while the strict variant refuses
      it because of the query. */
  lemma VariantsDisagreeOnQuery(leftPart: string, query: string)
    requires !EndsWith(leftPart, '/') && query != ""
    ensures var registered := ParsedUri(leftPart, "", "");
            var requested := ParsedUri(ToUpper(leftPart) + "/", query, "");
            UriEquals(registered, requested) && !OidcEndSession.UriEquals(registered, requested)
  {
    var upper := ToUpper(leftPart);
    assert TrimEnd(leftPart, '/') == leftPart;
    TrimEndAbsorbs(upper, '/');
    assert !EndsWith(upper, '/');
    assert TrimEnd(upper, '/') == upper;
    ToUpperIdempotent(leftPart);
  }

  /** `IsPostLogoutRedirectAllowedAsync`, the same algorithm as the strict
      server's with the lenient comparison: a non-blank client id is looked
      up and only its URIs compared, an unknown one is refused; without a
      client id the first `ListAsync(100, 0)` page is scanned until a match. */
  method IsPostLogoutRedirectAllowed(requested: ParsedUri, clientId: Option<string>, dir: Directory, parse: Parser)
    returns (allowed: bool)
    ensures allowed == RedirectAllowed(requested, clientId, dir, parse, UriEquals)
  {
    if !IsNullOrWhiteSpace(clientId) {
      var app := FindByClientId(dir, clientId.value);
      if app.None? {
        return false;
      }
      return AnyRegisteredMatch(app.value.postLogoutRedirectUris, requested, parse, UriEquals);
    }
    var page := FirstPage(dir);
    var i := 0;
    while i < |page|
      invariant 0 <= i <= |page|
      invariant forall k | 0 <= k < i :: !AnyRegisteredMatch(page[k].postLogoutRedirectUris, requested, parse, UriEquals)
    {
      if AnyRegisteredMatch(page[i].postLogoutRedirectUris, requested, parse, UriEquals) {
        return true;
      }
      i := i + 1;
    }
    return false;
  }

  /** The parameters of the end-session request OpenIddict hands over. */
  datatype EndSessionRequest = EndSessionRequest(clientId: Option<string>, postLogoutRedirectUri: Option<string>)

  /** The response: `BadRequest` when OpenIddict supplied no request, or a
      redirect after the local Identity session was signed out. */
  datatype EndSessionResult =
    | BadRequest(message: string)
    | Redirect(target: string, signedOut: bool)

  const InvalidRequestMessage := "Invalid OIDC logout request."

  /** `EndSession`: the redirect starts as the safe fallback and becomes the
      requested URI (with its own query and fragment) only when that URI is
      absolute and allowed; the local session is signed out on every path
      that reaches the redirect. */
  method EndSession(request: Option<EndSessionRequest>, dir: Directory, parse: Parser)
    returns (r: EndSessionResult)
    ensures request.None? <==> r == BadRequest(InvalidRequestMessage)
    ensures r.Redirect? ==> r.signedOut
    ensures request.Some? ==>
      var uri := request.value.postLogoutRedirectUri;
      (uri.None? || parse(uri.value).None?) ==> r == Redirect(SafeFallback, true)
    ensures request.Some? && request.value.postLogoutRedirectUri.Some?
              && parse(request.value.postLogoutRedirectUri.value).Some? ==>
      var requested := parse(request.value.postLogoutRedirectUri.value).value;
      r == Redirect(if RedirectAllowed(requested, request.value.clientId, dir, parse, UriEquals)
                    then Text(requested) else SafeFallback, true)
    // a blank value never parses, so it leaves the fallback in place
    ensures request.Some? && IsNullOrWhiteSpace(request.value.postLogoutRedirectUri) && RejectsBlank(parse)
      ==> r == Redirect(SafeFallback, true)
    // the redirect is never an unvalidated value
    ensures r.Redirect? ==>
      || r.target == SafeFallback
      || (&& request.value.postLogoutRedirectUri.Some?
          && parse(request.value.postLogoutRedirectUri.value).Some?
          && r.target == Text(parse(request.value.postLogoutRedirectUri.value).value)
          && Registered(parse(request.value.postLogoutRedirectUri.value).value, dir, parse, UriEquals))
  {
    if request.None? {
      return BadRequest(InvalidRequestMessage);
    }
    var clientId := request.value.clientId;
    var postLogoutRedirectUri := request.value.postLogoutRedirectUri;
    var redirect := SafeFallback;
    var parsed := if postLogoutRedirectUri.None? then None else parse(postLogoutRedirectUri.value);
    if parsed.Some? {
      var requested := parsed.value;
      var isAllowed := IsPostLogoutRedirectAllowed(requested, clientId, dir, parse);
      if isAllowed {
        AllowedIsRegistered(requested, clientId, dir, parse, UriEquals);
        redirect := Text(requested);
      }
    }
    return Redirect(redirect, true);
  }
}
