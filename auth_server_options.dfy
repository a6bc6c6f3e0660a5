/** The string helpers and endpoint paths of `AuthServerOptions`: the issuer
    is the single source of truth, every endpoint lives under it, and client
    callback URIs are a base URL joined with a path. */
module AuthServerOptions {
  import opened Strings

  // Endpoint paths, relative to the issuer. The discovery document sits at
  // the root-level `.well-known/openid-configuration` (OpenID Connect
  // Discovery 1.0, section 4).
  const WellKnownPrefix := ".well-known"
  const ConfigurationEndpointPath := WellKnownPrefix + "/openid-configuration"
  const ConnectPrefix := "connect"
  const AuthorizationEndpointPath := ConnectPrefix + "/authorize"
  const TokenEndpointPath := ConnectPrefix + "/token"
  const UserInfoEndpointPath := ConnectPrefix + "/userinfo"
  const LogoutEndpointPath := ConnectPrefix + "/endsession"

  datatype Endpoint = Configuration | Authorization | Token | UserInfo | Logout

  function EndpointPath(e: Endpoint): string {
    match e
    case Configuration => ConfigurationEndpointPath
    case Authorization => AuthorizationEndpointPath
    case Token => TokenEndpointPath
    case UserInfo => UserInfoEndpointPath
    case Logout => LogoutEndpointPath
  }

  /** Every endpoint path is relative (resolved against the issuer), the
      protocol endpoints sit under `connect/`, and no two endpoints share a
      path. */
  lemma EndpointPaths(e1: Endpoint, e2: Endpoint)
    ensures !StartsWith(EndpointPath(e1), '/')
    ensures e1 != Configuration ==> EndpointPath(e1)[..8] == "connect/"
    ensures e1 == Configuration ==> EndpointPath(e1)[..11] == WellKnownPrefix
    ensures e1 != e2 ==> EndpointPath(e1) != EndpointPath(e2)
  {
  }

  /** `EnsureTrailingSlash`: the shortest extension of `url` that ends with
      '/'. */
  function EnsureTrailingSlash(url: string): (r: string)
    ensures EndsWith(r, '/')
    ensures url <= r
    ensures forall s | url <= s && EndsWith(s, '/') :: |r| <= |s|
  {
    if EndsWith(url, '/') then url else url + "/"
  }

  lemma EnsureTrailingSlashIdempotent(url: string)
    ensures EnsureTrailingSlash(EnsureTrailingSlash(url)) == EnsureTrailingSlash(url)
  {
  }

  /** A url that already ends with '/' is left unchanged. */
  lemma EnsureTrailingSlashKeeps(url: string)
    requires EndsWith(url, '/')
    ensures EnsureTrailingSlash(url) == url
  {
    var r := EnsureTrailingSlash(url);
    assert |r| <= |url|;
  }

  /** `AuthorityBaseUrl`: the issuer with a trailing slash. */
  function AuthorityBaseUrl(issuerUri: string): (r: string)
    ensures EndsWith(r, '/') && issuerUri <= r && |r| <= |issuerUri| + 1
    ensures EndsWith(issuerUri, '/') ==> r == issuerUri
  {
    EnsureTrailingSlash(issuerUri)
  }

  /** `new Uri(Issuer, path)`: a relative path resolved against a base whose
      path ends with '/' is appended to it (RFC 3986, section 5.2.3). The
      result is the issuer, then a '/' only when the issuer lacks one, then
      the path verbatim. */
  function Resolve(issuerUri: string, path: string): (r: string)
    ensures |issuerUri| + |path| <= |r| <= |issuerUri| + 1 + |path|
    ensures EndsWith(issuerUri, '/') <==> |r| == |issuerUri| + |path|
    ensures issuerUri <= r
    ensures r[|r| - |path|..] == path
    ensures |r| - |path| - 1 >= 0 && r[|r| - |path| - 1] == '/'
  {
    var b := AuthorityBaseUrl(issuerUri);
    assert (b + path)[..|b|] == b;
    assert (b + path)[|b|..] == path;
    b + path
  }

  /** The URI of an endpoint: its path resolved against the issuer. */
  function EndpointUri(issuerUri: string, e: Endpoint): string {
    Resolve(issuerUri, EndpointPath(e))
  }

  /** The authority base URL followed by the path: what `Resolve`'s contract
      leaves for any issuer. */
  lemma ResolveIsBaseThenPath(issuerUri: string, path: string)
    ensures Resolve(issuerUri, path) == AuthorityBaseUrl(issuerUri) + path
  {
    var b := AuthorityBaseUrl(issuerUri);
    var r := Resolve(issuerUri, path);
    assert |r| == |b| + |path|;
    assert r[..|b|] == b by {
      if !EndsWith(issuerUri, '/') {
        assert b[..|issuerUri|] == issuerUri && b[|issuerUri|] == '/';
        assert r[..|issuerUri|] == issuerUri && r[|issuerUri|] == '/';
      }
    }
    assert r == r[..|b|] + r[|b|..];
  }

  /** Every endpoint lies under the authority base URL, and distinct
      endpoints have distinct URIs. */
  lemma EndpointsUnderIssuer(issuerUri: string, e1: Endpoint, e2: Endpoint)
    ensures AuthorityBaseUrl(issuerUri) <= EndpointUri(issuerUri, e1)
    ensures e1 != e2 ==> EndpointUri(issuerUri, e1) != EndpointUri(issuerUri, e2)
  {
    var b := AuthorityBaseUrl(issuerUri);
    ResolveIsBaseThenPath(issuerUri, EndpointPath(e1));
    ResolveIsBaseThenPath(issuerUri, EndpointPath(e2));
    EndpointPaths(e1, e2);
    if e1 != e2 {
      assert EndpointUri(issuerUri, e1)[|b|..] == EndpointPath(e1);
      assert EndpointUri(issuerUri, e2)[|b|..] == EndpointPath(e2);
    }
  }

  function Separator(path: string): string {
    if StartsWith(path, '/') then "" else "/"
  }

  /** `CombineBaseAndPath`: the base without trailing slashes, a '/' unless
      the path brings its own, then the path verbatim. */
  function CombineBaseAndPath(baseUrl: string, path: string): (r: string)
    ensures TrimEnd(baseUrl, '/') <= r
    ensures |r| == |TrimEnd(baseUrl, '/')| + |Separator(path)| + |path|
    ensures r[|r| - |path|..] == path
    ensures r[|TrimEnd(baseUrl, '/')|] == '/'
  {
    TrimEnd(baseUrl, '/') + Separator(path) + path
  }

  /** A path without a leading slash is joined with exactly one '/' at the
      seam: the trimmed base does not end with one, the path does not start
      with one. */
  lemma OneSlashAtSeam(baseUrl: string, path: string)
    requires !StartsWith(path, '/')
    ensures var b := TrimEnd(baseUrl, '/');
            var r := CombineBaseAndPath(baseUrl, path);
            && r == b + "/" + path
            && (|b| == 0 || r[|b| - 1] != '/')
            && (|path| == 0 || r[|b| + 1] != '/')
  {
  }

  /** Trailing slashes on the base make no difference. */
  lemma CombineIgnoresTrailingSlash(baseUrl: string, path: string)
    ensures CombineBaseAndPath(baseUrl + "/", path) == CombineBaseAndPath(baseUrl, path)
  {
    TrimEndAbsorbs(baseUrl, '/');
  }

  /** One leading slash on the path makes no difference either. */
  lemma CombineIgnoresLeadingSlash(baseUrl: string, path: string)
    requires !StartsWith(path, '/')
    ensures CombineBaseAndPath(baseUrl, "/" + path) == CombineBaseAndPath(baseUrl, path)
  {
  }
}
