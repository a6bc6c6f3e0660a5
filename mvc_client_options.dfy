/** The OIDC settings of the MVC web client (`OidcClientOptions`) and the
    four absolute URIs derived from them. Unlike the server's
    `CombineBaseAndPath`, the client only trims the base and appends the
    path: no separator is inserted. */
module MvcClientOptions {
  import opened Strings
  import AuthServerOptions

  datatype OidcClientOptions = OidcClientOptions(
    authority: string,
    clientId: string,
    baseUrl: string,
    redirectPath: string,
    signedOutCallbackPath: string,
    postLogoutRedirectPath: string,
    postLogoutRedirectFallbackPath: string,
    scopes: seq<string>)

  /** The options bound from configuration that lists no scopes. */
  function WithoutScopes(authority: string, clientId: string, baseUrl: string,
                         redirectPath: string, signedOutCallbackPath: string,
                         postLogoutRedirectPath: string, postLogoutRedirectFallbackPath: string): (o: OidcClientOptions)
    ensures o.scopes == []
    ensures o.baseUrl == baseUrl && o.redirectPath == redirectPath
  {
    OidcClientOptions(authority, clientId, baseUrl, redirectPath, signedOutCallbackPath,
                      postLogoutRedirectPath, postLogoutRedirectFallbackPath, [])
  }

  /** `$"{BaseUrl.TrimEnd('/')}{path}"`. */
  function Derive(baseUrl: string, path: string): (r: string)
    ensures TrimEnd(baseUrl, '/') <= r
    ensures r[|TrimEnd(baseUrl, '/')|..] == path
  {
    TrimEnd(baseUrl, '/') + path
  }

  /** The redirect URI of the authorization code flow: the base without trailing '/', then the path. */
  function RedirectUri(o: OidcClientOptions): (r: string)
    ensures |r| == |TrimEnd(o.baseUrl, '/')| + |o.redirectPath|
    ensures TrimEnd(o.baseUrl, '/') <= r && !EndsWith(r[..|TrimEnd(o.baseUrl, '/')|], '/')
    ensures r[|r| - |o.redirectPath|..] == o.redirectPath
  {
    Derive(o.baseUrl, o.redirectPath)
  }

  /** The callback the server returns to after sign-out: the base without trailing '/', then the path. */
  function SignedOutCallbackUri(o: OidcClientOptions): (r: string)
    ensures |r| == |TrimEnd(o.baseUrl, '/')| + |o.signedOutCallbackPath|
    ensures TrimEnd(o.baseUrl, '/') <= r && !EndsWith(r[..|TrimEnd(o.baseUrl, '/')|], '/')
    ensures r[|r| - |o.signedOutCallbackPath|..] == o.signedOutCallbackPath
  {
    Derive(o.baseUrl, o.signedOutCallbackPath)
  }

  /** Where the user lands after logout: the base without trailing '/', then the path. */
  function PostLogoutRedirectUri(o: OidcClientOptions): (r: string)
    ensures |r| == |TrimEnd(o.baseUrl, '/')| + |o.postLogoutRedirectPath|
    ensures TrimEnd(o.baseUrl, '/') <= r && !EndsWith(r[..|TrimEnd(o.baseUrl, '/')|], '/')
    ensures r[|r| - |o.postLogoutRedirectPath|..] == o.postLogoutRedirectPath
  {
    Derive(o.baseUrl, o.postLogoutRedirectPath)
  }

  /** The fallback landing page after logout: the base without trailing '/', then the path. */
  function PostLogoutRedirectFallbackUri(o: OidcClientOptions): (r: string)
    ensures |r| == |TrimEnd(o.baseUrl, '/')| + |o.postLogoutRedirectFallbackPath|
    ensures TrimEnd(o.baseUrl, '/') <= r && !EndsWith(r[..|TrimEnd(o.baseUrl, '/')|], '/')
    ensures r[|r| - |o.postLogoutRedirectFallbackPath|..] == o.postLogoutRedirectFallbackPath
  {
    Derive(o.baseUrl, o.postLogoutRedirectFallbackPath)
  }

  /** The four derived URIs share the trimmed base as prefix and differ only
      in the path after it; two of them coincide exactly when their paths do. */
  lemma DerivedUrisShareBase(o: OidcClientOptions)
    ensures var b := TrimEnd(o.baseUrl, '/');
            && RedirectUri(o) == b + o.redirectPath
            && SignedOutCallbackUri(o) == b + o.signedOutCallbackPath
            && PostLogoutRedirectUri(o) == b + o.postLogoutRedirectPath
            && PostLogoutRedirectFallbackUri(o) == b + o.postLogoutRedirectFallbackPath
    ensures (RedirectUri(o) == SignedOutCallbackUri(o)) == (o.redirectPath == o.signedOutCallbackPath)
    ensures (PostLogoutRedirectUri(o) == PostLogoutRedirectFallbackUri(o))
              == (o.postLogoutRedirectPath == o.postLogoutRedirectFallbackPath)
  {
    var b := TrimEnd(o.baseUrl, '/');
    assert RedirectUri(o)[|b|..] == o.redirectPath;
    assert SignedOutCallbackUri(o)[|b|..] == o.signedOutCallbackPath;
    assert PostLogoutRedirectUri(o)[|b|..] == o.postLogoutRedirectPath;
    assert PostLogoutRedirectFallbackUri(o)[|b|..] == o.postLogoutRedirectFallbackPath;
  }

  /** All trailing slashes of the base are dropped. */
  lemma DeriveIgnoresTrailingSlash(baseUrl: string, path: string)
    ensures Derive(baseUrl + "/", path) == Derive(baseUrl, path)
  {
    TrimEndAbsorbs(baseUrl, '/');
  }

  /** With a path that starts with '/' the client and the server join alike;
      with one that does not, the client glues base and path together while
      the server puts a '/' between them. */
  lemma DeriveVersusCombine(baseUrl: string, path: string)
    ensures StartsWith(path, '/') ==> Derive(baseUrl, path) == AuthServerOptions.CombineBaseAndPath(baseUrl, path)
    ensures !StartsWith(path, '/') ==> Derive(baseUrl, path) != AuthServerOptions.CombineBaseAndPath(baseUrl, path)
  {
    if !StartsWith(path, '/') {
      assert |Derive(baseUrl, path)| + 1 == |AuthServerOptions.CombineBaseAndPath(baseUrl, path)|;
    }
  }
}
