/** What both end-session controllers share: a parsed absolute URI, the
    registered-client directory they query, and the allow-list rule of
    OpenID Connect RP-Initiated Logout 1.0 (sections 2 and 3): a
    post_logout_redirect_uri is accepted only when it matches a URI that a
    client registered beforehand. Each controller supplies its own URI
    comparison (`eq` below). */
module Uris {
  import opened Strings

  /** An absolute URI after `Uri.TryCreate`: `GetLeftPart(UriPartial.Path)`
      (scheme, authority and path), `Query` (with its leading '?', or empty)
      and `Fragment` (with its leading '#', or empty). */
  datatype ParsedUri = ParsedUri(leftPart: string, query: string, fragment: string)

  /** `Uri.ToString()`: the three parts written one after the other. */
  function Text(u: ParsedUri): string {
    u.leftPart + u.query + u.fragment
  }

  /** `Uri.TryCreate(s, UriKind.Absolute, out u)`: library behaviour, supplied
      by the caller; `None` when `s` is not an absolute URI. */
  type Parser = string -> Option<ParsedUri>

  /** A URI comparison such as the controllers' `UriEquals`. */
  type UriComparison = (ParsedUri, ParsedUri) -> bool

  /** The .NET parser refuses a string made only of whitespace. */
  ghost predicate RejectsBlank(parse: Parser) {
    forall s :: IsBlank(s) ==> parse(s).None?
  }

  /** An application registered with the authorization server, as far as
      logout is concerned: its client id and its post-logout redirect URIs
      (strings as stored, not necessarily absolute URIs). */
  datatype Application = Application(clientId: string, postLogoutRedirectUris: seq<string>)

  /** The registered-client directory, in enumeration order. */
  type Directory = seq<Application>

  /** `ListAsync(count: 100, offset: 0)`: only the first page is scanned. */
  const ListPageSize: nat := 100

  /** `FindByClientIdAsync`: the application registered under `id`, if any. */
  function FindByClientId(dir: Directory, id: string): (r: Option<Application>)
    ensures r.Some? ==> r.value in dir && r.value.clientId == id
    ensures r.None? ==> forall k | 0 <= k < |dir| :: dir[k].clientId != id
  {
    if |dir| == 0 then None
    else if dir[0].clientId == id then Some(dir[0])
    else FindByClientId(dir[1..], id)
  }

  /** The applications `ListAsync(100, 0)` yields. */
  function FirstPage(dir: Directory): Directory {
    dir[..Min(|dir|, ListPageSize)]
  }

  /** `uris.Select(TryParseAbsoluteUri).Any(u => u is not null && eq(u, requested))`:
      some registered string parses as an absolute URI that matches. */
  predicate AnyRegisteredMatch(uris: seq<string>, requested: ParsedUri, parse: Parser, eq: UriComparison) {
    exists i | 0 <= i < |uris| :: parse(uris[i]).Some? && eq(parse(uris[i]).value, requested)
  }

  /** The answer `IsPostLogoutRedirectAllowedAsync` must give. A non-blank
      client id restricts the check to that client's own URIs, and an unknown
      one is refused outright; a blank or missing client id falls back to the
      first page of the directory. */
  predicate RedirectAllowed(requested: ParsedUri, clientId: Option<string>, dir: Directory, parse: Parser, eq: UriComparison) {
    if !IsNullOrWhiteSpace(clientId) then
      match FindByClientId(dir, clientId.value)
      case None => false
      case Some(app) => AnyRegisteredMatch(app.postLogoutRedirectUris, requested, parse, eq)
    else
      exists k | 0 <= k < |FirstPage(dir)| :: AnyRegisteredMatch(FirstPage(dir)[k].postLogoutRedirectUris, requested, parse, eq)
  }

  /** The requested URI matches a post-logout URI that some application of
      the directory registered and that parses as an absolute URI. */
  ghost predicate Registered(requested: ParsedUri, dir: Directory, parse: Parser, eq: UriComparison) {
    exists app, s :: app in dir && s in app.postLogoutRedirectUris && parse(s).Some? && eq(parse(s).value, requested)
  }

  /** Whatever the client id, an allowed redirect matches a registered
      post-logout URI: the allow-list is never bypassed. */
  lemma AllowedIsRegistered(requested: ParsedUri, clientId: Option<string>, dir: Directory, parse: Parser, eq: UriComparison)
    requires RedirectAllowed(requested, clientId, dir, parse, eq)
    ensures Registered(requested, dir, parse, eq)
  {
    if !IsNullOrWhiteSpace(clientId) {
      var app := FindByClientId(dir, clientId.value).value;
      var i :| 0 <= i < |app.postLogoutRedirectUris| && parse(app.postLogoutRedirectUris[i]).Some?
        && eq(parse(app.postLogoutRedirectUris[i]).value, requested);
      assert app.postLogoutRedirectUris[i] in app.postLogoutRedirectUris;
    } else {
      var page := FirstPage(dir);
      var k :| 0 <= k < |page| && AnyRegisteredMatch(page[k].postLogoutRedirectUris, requested, parse, eq);
      var app := page[k];
      assert app == dir[k];
      var i :| 0 <= i < |app.postLogoutRedirectUris| && parse(app.postLogoutRedirectUris[i]).Some?
        && eq(parse(app.postLogoutRedirectUris[i]).value, requested);
      assert app.postLogoutRedirectUris[i] in app.postLogoutRedirectUris;
    }
  }

  /** A client id that names no application is refused, even when another
      application registered a matching URI: no cross-client fallback. */
  lemma UnknownClientRefused(requested: ParsedUri, id: string, dir: Directory, parse: Parser, eq: UriComparison)
    requires !IsBlank(id)
    requires forall k | 0 <= k < |dir| :: dir[k].clientId != id
    ensures !RedirectAllowed(requested, Some(id), dir, parse, eq)
  {
  }

  /** A known client id is judged on that client's URIs alone: what other
      applications registered makes no difference. */
  lemma KnownClientIsolated(requested: ParsedUri, app: Application, others: Directory, parse: Parser, eq: UriComparison)
    requires !IsBlank(app.clientId)
    ensures RedirectAllowed(requested, Some(app.clientId), [app] + others, parse, eq)
        == AnyRegisteredMatch(app.postLogoutRedirectUris, requested, parse, eq)
  {
  }

  /** Without a client id only the first page of the directory counts:
      applications listed after the first `ListPageSize` are never consulted. */
  lemma ScanStopsAtFirstPage(requested: ParsedUri, dir: Directory, rest: Directory, parse: Parser, eq: UriComparison)
    requires |dir| >= ListPageSize
    ensures RedirectAllowed(requested, None, dir + rest, parse, eq) == RedirectAllowed(requested, None, dir, parse, eq)
  {
    assert FirstPage(dir + rest) == FirstPage(dir);
  }

  /** A registered string that is not an absolute URI never matches: adding
      one to a client's list changes nothing. */
  lemma {:induction false} UnparsableNeverMatches(uris: seq<string>, bad: string, requested: ParsedUri, parse: Parser, eq: UriComparison)
    requires parse(bad).None?
    ensures AnyRegisteredMatch(uris + [bad], requested, parse, eq) == AnyRegisteredMatch(uris, requested, parse, eq)
  {
    if AnyRegisteredMatch(uris + [bad], requested, parse, eq) {
      var i :| 0 <= i < |uris| + 1 && parse((uris + [bad])[i]).Some? && eq(parse((uris + [bad])[i]).value, requested);
      assert i < |uris| && (uris + [bad])[i] == uris[i];
    }
    if AnyRegisteredMatch(uris, requested, parse, eq) {
      var i :| 0 <= i < |uris| && parse(uris[i]).Some? && eq(parse(uris[i]).value, requested);
      assert (uris + [bad])[i] == uris[i];
    }
  }

  /** A more permissive comparison allows at least as much: the allow-list
      decision is monotone in the URI comparison. */
  lemma {:induction false} AllowedMonotone(requested: ParsedUri, clientId: Option<string>, dir: Directory, parse: Parser, eq1: UriComparison, eq2: UriComparison)
    requires forall a, b :: eq1(a, b) ==> eq2(a, b)
    requires RedirectAllowed(requested, clientId, dir, parse, eq1)
    ensures RedirectAllowed(requested, clientId, dir, parse, eq2)
  {
    if !IsNullOrWhiteSpace(clientId) {
      var app := FindByClientId(dir, clientId.value).value;
      var i :| 0 <= i < |app.postLogoutRedirectUris| && parse(app.postLogoutRedirectUris[i]).Some?
        && eq1(parse(app.postLogoutRedirectUris[i]).value, requested);
      assert eq2(parse(app.postLogoutRedirectUris[i]).value, requested);
    } else {
      var page := FirstPage(dir);
      var k :| 0 <= k < |page| && AnyRegisteredMatch(page[k].postLogoutRedirectUris, requested, parse, eq1);
      var uris := page[k].postLogoutRedirectUris;
      var i :| 0 <= i < |uris| && parse(uris[i]).Some? && eq1(parse(uris[i]).value, requested);
      assert eq2(parse(uris[i]).value, requested);
      assert AnyRegisteredMatch(uris, requested, parse, eq2);
    }
  }
}
