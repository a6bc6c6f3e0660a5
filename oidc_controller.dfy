/** The authorize and token endpoints of the OpenIddict authorization server
    (`OidcController`): which claims a signed-in user's principal carries,
    which API resources the requested scopes resolve to, how each claim is
    routed to the identity and access tokens, and how the token endpoint
    dispatches on the grant type (RFC 6749, sections 4.1, 4.4, 6 and 5.2). */
module OidcController {
  import opened Strings
  import AuthClaims
  import opened ClaimDestinations

  /** A claim: its type, its value and the tokens it is destined for. */
  datatype Claim = Claim(claimType: string, value: string, destinations: set<Destination>)

  /** The values of the claims of type `t`, in order. */
  function ValuesOf(cs: seq<Claim>, t: string): seq<string>
    decreases |cs|
  {
    if |cs| == 0 then []
    else ValuesOf(cs[..|cs| - 1], t) + (if cs[|cs| - 1].claimType == t then [cs[|cs| - 1].value] else [])
  }

  /** The claims whose type is not `t`, in order. */
  function Without(cs: seq<Claim>, t: string): seq<Claim>
    decreases |cs|
  {
    if |cs| == 0 then []
    else Without(cs[..|cs| - 1], t) + (if cs[|cs| - 1].claimType == t then [] else [cs[|cs| - 1]])
  }

  lemma {:induction false} ValuesOfAppend(a: seq<Claim>, b: seq<Claim>, t: string)
    ensures ValuesOf(a + b, t) == ValuesOf(a, t) + ValuesOf(b, t)
    decreases |b|
  {
    if |b| > 0 {
      assert (a + b)[..|a + b| - 1] == a + b[..|b| - 1];
      ValuesOfAppend(a, b[..|b| - 1], t);
    } else {
      assert a + b == a;
    }
  }

  /** Removing the claims of type `t` removes every value of type `t` and
      keeps the values of every other type. */
  lemma {:induction false} ValuesOfWithout(cs: seq<Claim>, t: string, t': string)
    ensures ValuesOf(Without(cs, t), t') == if t' == t then [] else ValuesOf(cs, t')
    decreases |cs|
  {
    if |cs| > 0 {
      var last := cs[|cs| - 1];
      ValuesOfWithout(cs[..|cs| - 1], t, t');
      ValuesOfAppend(Without(cs[..|cs| - 1], t), if last.claimType == t then [] else [last], t');
      if last.claimType != t {
        assert ValuesOf([last], t') == ValuesOf([], t') + (if last.claimType == t' then [last.value] else []);
      }
    }
  }

  /** The claims after `SetOrReplaceClaim(t, v)`. */
  function WithClaim(cs: seq<Claim>, t: string, v: string): seq<Claim> {
    Without(cs, t) + [Claim(t, v, {})]
  }

  /** After SetOrReplaceClaim(t, v) there is exactly one claim of type `t`,
      with value `v`, and the claims of every other type are unchanged. */
  lemma ValuesOfWithClaim(cs: seq<Claim>, t: string, v: string, t': string)
    ensures ValuesOf(WithClaim(cs, t, v), t') == if t' == t then [v] else ValuesOf(cs, t')
  {
    ValuesOfWithout(cs, t, t');
    ValuesOfAppend(Without(cs, t), [Claim(t, v, {})], t');
    assert ValuesOf([Claim(t, v, {})], t') == ValuesOf([], t') + (if t == t' then [v] else []);
  }

  /** Every claim given the destinations `route` assigns to its type. */
  function Routed(cs: seq<Claim>, route: string -> set<Destination>): (r: seq<Claim>)
    ensures |r| == |cs|
  {
    seq(|cs|, i requires 0 <= i < |cs| => cs[i].(destinations := route(cs[i].claimType)))
  }

  /** Setting destinations changes no claim's type or value. */
  lemma {:induction false} ValuesOfRouted(cs: seq<Claim>, route: string -> set<Destination>, t: string)
    ensures ValuesOf(Routed(cs, route), t) == ValuesOf(cs, t)
    decreases |cs|
  {
    if |cs| > 0 {
      assert Routed(cs, route)[..|cs| - 1] == Routed(cs[..|cs| - 1], route);
      ValuesOfRouted(cs[..|cs| - 1], route, t);
    }
  }

  /** The identity being built for a token: its claims, the scopes granted
      and the API resources (audiences), which stay unset (`None`) unless
      `SetResources` is called. */
  class ClaimsPrincipal {
    var claims: seq<Claim>
    var scopes: seq<string>
    var resources: Option<seq<string>>

    constructor (initial: seq<Claim>)
      ensures claims == initial && scopes == [] && resources == None
    {
      claims := initial;
      scopes := [];
      resources := None;
    }

    method AddClaim(c: Claim)
      modifies this
      ensures claims == old(claims) + [c]
      ensures scopes == old(scopes) && resources == old(resources)
    {
      claims := claims + [c];
    }

    /** `SetOrReplaceClaim`: removes every claim of type `t`, then adds a
        fresh claim `(t, v)` with no destinations. */
    method SetOrReplaceClaim(t: string, v: string)
      modifies this
      ensures claims == WithClaim(old(claims), t, v)
      ensures scopes == old(scopes) && resources == old(resources)
    {
      var kept: seq<Claim> := [];
      var i := 0;
      while i < |claims|
        invariant 0 <= i <= |claims|
        invariant kept == Without(claims[..i], t)
      {
        assert claims[..i + 1][..i] == claims[..i];
        if claims[i].claimType != t {
          kept := kept + [claims[i]];
        }
        i := i + 1;
      }
      assert claims[..|claims|] == claims;
      claims := kept + [Claim(t, v, {})];
    }

    method SetScopes(s: seq<string>)
      modifies this
      ensures claims == old(claims) && scopes == s && resources == old(resources)
    {
      scopes := s;
    }

    method SetResources(r: seq<string>)
      modifies this
      ensures claims == old(claims) && scopes == old(scopes) && resources == Some(r)
    {
      resources := Some(r);
    }

    /** `foreach (var claim in principal.Claims) claim.SetDestinations(...)`. */
    method SetDestinations(route: string -> set<Destination>)
      modifies this
      ensures claims == Routed(old(claims), route)
      ensures scopes == old(scopes) && resources == old(resources)
    {
      var i := 0;
      while i < |claims|
        invariant 0 <= i <= |claims| && |claims| == |old(claims)|
        invariant forall k | 0 <= k < i :: claims[k] == old(claims)[k].(destinations := route(old(claims)[k].claimType))
        invariant forall k | i <= k < |claims| :: claims[k] == old(claims)[k]
        invariant scopes == old(scopes) && resources == old(resources)
      {
        claims := claims[i := claims[i].(destinations := route(claims[i].claimType))];
        i := i + 1;
      }
    }
  }

  // ------------------------------------------------------------------
  // Scopes and resources
  // ------------------------------------------------------------------

  /** `IsNonApiScope`: `openid` and `profile` never name an API. */
  predicate IsNonApiScope(s: string): (r: bool)
    ensures r <==> s == "openid" || s == ProfileScope
  {
    s == "openid" || s == "profile"
  }

  predicate NoDuplicates(s: seq<string>) {
    forall i, j | 0 <= i < j < |s| :: s[i] != s[j]
  }

  /** `Distinct(StringComparer.Ordinal)`: the first occurrence of each
      element, in order. */
  function Distinct(s: seq<string>): (r: seq<string>)
    ensures NoDuplicates(r)
    ensures forall x :: x in r <==> x in s
    decreases |s|
  {
    if |s| == 0 then []
    else
      var d := Distinct(s[..|s| - 1]);
      assert forall x :: x in s <==> x in s[..|s| - 1] || x == s[|s| - 1];
      if s[|s| - 1] in d then d else d + [s[|s| - 1]]
  }

  /** `Where(s => !IsNonApiScope(s))`. */
  function ApiScopes(s: seq<string>): (r: seq<string>)
    ensures forall x :: x in r <==> x in s && !IsNonApiScope(x)
    decreases |s|
  {
    if |s| == 0 then []
    else
      assert forall x :: x in s <==> x in s[..|s| - 1] || x == s[|s| - 1];
      ApiScopes(s[..|s| - 1]) + (if IsNonApiScope(s[|s| - 1]) then [] else [s[|s| - 1]])
  }

  /** The resource each requested API scope maps to in `known`, in request
      order, repetitions kept; openid, profile and unknown scopes give none. */
  function Lookup(s: seq<string>, known: map<string, string>): seq<string>
    decreases |s|
  {
    if |s| == 0 then []
    else
      var x := s[|s| - 1];
      Lookup(s[..|s| - 1], known) + (if !IsNonApiScope(x) && x in known then [known[x]] else [])
  }

  lemma {:induction false} LookupAppend(a: seq<string>, b: seq<string>, known: map<string, string>)
    ensures Lookup(a + b, known) == Lookup(a, known) + Lookup(b, known)
    decreases |b|
  {
    if |b| > 0 {
      assert (a + b)[..|a + b| - 1] == a + b[..|b| - 1];
      LookupAppend(a, b[..|b| - 1], known);
    } else {
      assert a + b == a;
    }
  }

  /** A resource is looked up exactly when some requested API scope maps to it. */
  lemma {:induction false} LookupMembership(s: seq<string>, known: map<string, string>, y: string)
    ensures y in Lookup(s, known) <==> exists x | x in s :: !IsNonApiScope(x) && x in known && known[x] == y
    decreases |s|
  {
    if |s| > 0 {
      var p := s[..|s| - 1];
      LookupMembership(p, known, y);
      assert forall x :: x in s <==> x in p || x == s[|s| - 1];
    }
  }

  /** Looking up the scopes after dropping repetitions, then dropping
      repeated resources, gives the same as dropping repeated resources of
      the plain lookup. */
  lemma {:induction false} DistinctLookupDistinct(s: seq<string>, known: map<string, string>)
    ensures Distinct(Lookup(Distinct(s), known)) == Distinct(Lookup(s, known))
    decreases |s|
  {
    if |s| > 0 {
      var p, x := s[..|s| - 1], s[|s| - 1];
      assert s == p + [x];
      DistinctLookupDistinct(p, known);
      var tail := Lookup([x], known);
      assert tail == Lookup([], known) + (if !IsNonApiScope(x) && x in known then [known[x]] else []);
      LookupAppend(p, [x], known);
      assert Lookup(s, known) == Lookup(p, known) + tail;
      if x in Distinct(p) {
        assert Distinct(s) == Distinct(p);
        if tail != [] {
          LookupMembership(p, known, known[x]);
          var t := Lookup(p, known) + tail;
          assert t[..|t| - 1] == Lookup(p, known);
        }
      } else {
        assert Distinct(s) == Distinct(p) + [x];
        LookupAppend(Distinct(p), [x], known);
        if tail != [] {
          var y := known[x];
          var t1 := Lookup(Distinct(p), known) + tail;
          var t2 := Lookup(p, known) + tail;
          assert t1[..|t1| - 1] == Lookup(Distinct(p), known);
          assert t2[..|t2| - 1] == Lookup(p, known);
          assert (y in Lookup(Distinct(p), known)) == (y in Lookup(p, known));
        } else {
          assert Lookup(Distinct(p), known) + tail == Lookup(Distinct(p), known);
          assert Lookup(p, known) + tail == Lookup(p, known);
        }
      }
    }
  }

  lemma {:induction false} LookupOfApiScopes(s: seq<string>, known: map<string, string>)
    ensures Lookup(ApiScopes(s), known) == Lookup(s, known)
    decreases |s|
  {
    if |s| > 0 {
      var p, x := s[..|s| - 1], s[|s| - 1];
      LookupOfApiScopes(p, known);
      LookupAppend(ApiScopes(p), if IsNonApiScope(x) then [] else [x], known);
      if !IsNonApiScope(x) {
        assert Lookup([x], known) == Lookup([], known) + (if x in known then [known[x]] else []);
      }
    }
  }

  /** `ResolveResourcesFromScopes`: the distinct resources of the requested
      API scopes in first-request order; openid and profile are dropped and
      unknown scopes are skipped (with a warning), never failing. */
  method ResolveResourcesFromScopes(requested: seq<string>, known: map<string, string>)
    returns (resources: seq<string>)
    ensures resources == Distinct(Lookup(requested, known))
    ensures NoDuplicates(resources)
    ensures forall y :: y in resources <==>
      exists x | x in requested :: !IsNonApiScope(x) && x in known && known[x] == y
  {
    var apiScopesRequested := Distinct(ApiScopes(requested));
    LookupOfApiScopes(requested, known);
    DistinctLookupDistinct(ApiScopes(requested), known);
    forall y ensures y in Distinct(Lookup(requested, known)) <==>
      exists x | x in requested :: !IsNonApiScope(x) && x in known && known[x] == y
    {
      LookupMembership(requested, known, y);
    }
    if |apiScopesRequested| == 0 {
      assert Lookup(apiScopesRequested, known) == [];
      return [];
    }
    var found: seq<string> := [];
    var i := 0;
    while i < |apiScopesRequested|
      invariant 0 <= i <= |apiScopesRequested|
      invariant found == Lookup(apiScopesRequested[..i], known)
    {
      var scope := apiScopesRequested[i];
      assert apiScopesRequested[..i + 1][..i] == apiScopesRequested[..i];
      assert !IsNonApiScope(scope);
      if scope in known {
        found := found + [known[scope]];
      }
      i := i + 1;
    }
    assert apiScopesRequested[..i] == apiScopesRequested;
    resources := Distinct(found);
  }

  // ------------------------------------------------------------------
  // /connect/authorize
  // ------------------------------------------------------------------

  type Int32 = x: int | -0x8000_0000 <= x < 0x8000_0000

  /** The signed-in user as the Identity store returns it. A timestamp is
      `None` when it holds `default(DateTime)`, otherwise its ISO-8601 UTC
      rendering (`ToUniversalTime().ToString("O")`). */
  datatype User = User(
    id: string,
    email: Option<string>,
    userName: Option<string>,
    adminRights: Int32,
    createdAt: Option<string>,
    updatedAt: Option<string>)

  /** The role mapped from the admin-rights bitmask. */
  function RoleFor(adminRights: int): (r: string)
    ensures r in AuthClaims.RoleValues && r != "Customer"
    ensures r == "Employee" <==> adminRights > 0
  {
    if adminRights > 0 then "Employee" else "Owner"
  }

  function SetIfPresent(cs: seq<Claim>, t: string, v: Option<string>): seq<Claim> {
    if v.Some? then WithClaim(cs, t, v.value) else cs
  }

  function NonBlank(s: Option<string>): Option<string> {
    if IsNullOrWhiteSpace(s) then None else s
  }

  /** The claims of the principal after the claim block of `Authorize`, from
      the claims `CreateUserPrincipalAsync` produced. */
  function UserClaims(initial: seq<Claim>, user: User): seq<Claim> {
    var c1 := WithClaim(initial, AuthClaims.Subject, user.id);
    var c2 := SetIfPresent(c1, AuthClaims.Email, NonBlank(user.email));
    var c3 := SetIfPresent(c2, AuthClaims.PreferredUsername, NonBlank(user.userName));
    var c4 := WithClaim(c3, AuthClaims.Role, RoleFor(user.adminRights));
    var c5 := WithClaim(c4, AuthClaims.AdminRights, IntToDecimal(user.adminRights));
    var c6 := SetIfPresent(c5, AuthClaims.CreatedAt, user.createdAt);
    SetIfPresent(c6, AuthClaims.UpdatedAt, user.updatedAt)
  }

  lemma ValuesOfSetIfPresent(cs: seq<Claim>, t: string, v: Option<string>, t': string)
    ensures ValuesOf(SetIfPresent(cs, t, v), t') == if t' == t && v.Some? then [v.value] else ValuesOf(cs, t')
  {
    if v.Some? {
      ValuesOfWithClaim(cs, t, v.value, t');
    }
  }

  /** What each claim type holds after the claim block, for any type `t`. */
  predicate UserClaimValues(claims: seq<Claim>, initial: seq<Claim>, user: User, t: string) {
    ValuesOf(claims, t) ==
      if t == AuthClaims.Subject then [user.id]
      else if t == AuthClaims.Email && !IsNullOrWhiteSpace(user.email) then [user.email.value]
      else if t == AuthClaims.PreferredUsername && !IsNullOrWhiteSpace(user.userName) then [user.userName.value]
      else if t == AuthClaims.Role then [RoleFor(user.adminRights)]
      else if t == AuthClaims.AdminRights then [IntToDecimal(user.adminRights)]
      else if t == AuthClaims.CreatedAt && user.createdAt.Some? then [user.createdAt.value]
      else if t == AuthClaims.UpdatedAt && user.updatedAt.Some? then [user.updatedAt.value]
      else ValuesOf(initial, t)
  }

  lemma UserClaimsValues(initial: seq<Claim>, user: User, t: string)
    ensures UserClaimValues(UserClaims(initial, user), initial, user, t)
  {
    var c1 := WithClaim(initial, AuthClaims.Subject, user.id);
    var c2 := SetIfPresent(c1, AuthClaims.Email, NonBlank(user.email));
    var c3 := SetIfPresent(c2, AuthClaims.PreferredUsername, NonBlank(user.userName));
    var c4 := WithClaim(c3, AuthClaims.Role, RoleFor(user.adminRights));
    var c5 := WithClaim(c4, AuthClaims.AdminRights, IntToDecimal(user.adminRights));
    var c6 := SetIfPresent(c5, AuthClaims.CreatedAt, user.createdAt);
    ValuesOfWithClaim(initial, AuthClaims.Subject, user.id, t);
    ValuesOfSetIfPresent(c1, AuthClaims.Email, NonBlank(user.email), t);
    ValuesOfSetIfPresent(c2, AuthClaims.PreferredUsername, NonBlank(user.userName), t);
    ValuesOfWithClaim(c3, AuthClaims.Role, RoleFor(user.adminRights), t);
    ValuesOfWithClaim(c4, AuthClaims.AdminRights, IntToDecimal(user.adminRights), t);
    ValuesOfSetIfPresent(c5, AuthClaims.CreatedAt, user.createdAt, t);
    ValuesOfSetIfPresent(c6, AuthClaims.UpdatedAt, user.updatedAt, t);
  }

  /** The claim block of `Authorize`: sub, email, preferred_username, role,
      admin_rights and the timestamps set or replaced in turn. */
  method SetUserClaims(principal: ClaimsPrincipal, u: User)
    modifies principal
    ensures principal.claims == UserClaims(old(principal.claims), u)
    ensures principal.scopes == old(principal.scopes) && principal.resources == old(principal.resources)
  {
    principal.SetOrReplaceClaim(AuthClaims.Subject, u.id);
    if !IsNullOrWhiteSpace(u.email) {
      principal.SetOrReplaceClaim(AuthClaims.Email, u.email.value);
    }
    if !IsNullOrWhiteSpace(u.userName) {
      principal.SetOrReplaceClaim(AuthClaims.PreferredUsername, u.userName.value);
    }
    principal.SetOrReplaceClaim(AuthClaims.Role, RoleFor(u.adminRights));
    principal.SetOrReplaceClaim(AuthClaims.AdminRights, IntToDecimal(u.adminRights));
    if u.createdAt.Some? {
      principal.SetOrReplaceClaim(AuthClaims.CreatedAt, u.createdAt.value);
    }
    if u.updatedAt.Some? {
      principal.SetOrReplaceClaim(AuthClaims.UpdatedAt, u.updatedAt.value);
    }
  }

  /** Routing the claims afterwards keeps what every type holds. */
  lemma RoutedUserClaims(initial: seq<Claim>, user: User, route: string -> set<Destination>)
    ensures forall t :: UserClaimValues(Routed(UserClaims(initial, user), route), initial, user, t)
  {
    forall t ensures UserClaimValues(Routed(UserClaims(initial, user), route), initial, user, t) {
      UserClaimsValues(initial, user, t);
      ValuesOfRouted(UserClaims(initial, user), route, t);
    }
  }

  /** The authorization request: the scopes it asks for. */
  datatype AuthorizeRequest = AuthorizeRequest(scopes: seq<string>)

  datatype AuthorizeResult =
    /** OpenIddict supplied no request: `InvalidOperationException`. */
    | AuthorizeRequestMissing
    /** Back to the Identity login, then to `redirectUri`. */
    | Challenge(redirectUri: string)
    /** Sign-in with the assembled principal. */
    | SignIn(claims: seq<Claim>, scopes: seq<string>, resources: Option<seq<string>>)

  /** `Authorize`. Without an Identity cookie, or when the cookie names no
      user, the browser is challenged back to `returnUrl`. Otherwise the
      principal gets sub, email, preferred_username, role, admin_rights and
      the timestamps, the requested scopes and their resources, and every
      claim the destinations `GetDestinations` gives it. */
  method Authorize(
    request: Option<AuthorizeRequest>,
    returnUrl: string,
    authenticated: bool,
    user: Option<User>,
    initialClaims: seq<Claim>,
    apis: map<string, string>)
    returns (r: AuthorizeResult)
    ensures request.None? <==> r == AuthorizeRequestMissing
    ensures request.Some? && (!authenticated || user.None?) ==> r == Challenge(returnUrl)
    ensures request.Some? && authenticated && user.Some? ==> r.SignIn?
    ensures r.SignIn? ==>
      // sub, role and admin_rights are always set; email and preferred_username
      // only from a non-blank value; the timestamps only when not default;
      // each set type holds exactly one value and the others are untouched
      && (forall t :: UserClaimValues(r.claims, initialClaims, user.value, t))
      // routing
      && (forall i | 0 <= i < |r.claims| :: r.claims[i].destinations == GetDestinations(r.claims[i].claimType, r.scopes))
      && r.scopes == request.value.scopes
      && var resolved := Distinct(Lookup(request.value.scopes, apis));
         r.resources == if |resolved| > 0 then Some(resolved) else None
  {
    if request.None? {
      return AuthorizeRequestMissing;
    }
    if !authenticated || user.None? {
      return Challenge(returnUrl);
    }
    var u := user.value;
    var principal := new ClaimsPrincipal(initialClaims);
    SetUserClaims(principal, u);
    var requestedScopes := request.value.scopes;
    principal.SetScopes(requestedScopes);
    var resources := ResolveResourcesFromScopes(requestedScopes, apis);
    if |resources| > 0 {
      principal.SetResources(resources);
    }

    var granted := principal.scopes;
    principal.SetDestinations(t => GetDestinations(t, granted));

    RoutedUserClaims(initialClaims, u, t => GetDestinations(t, granted));
    return SignIn(principal.claims, principal.scopes, principal.resources);
  }

  // ------------------------------------------------------------------
  // /connect/token
  // ------------------------------------------------------------------

  const AuthorizationCodeGrant := "authorization_code"
  const RefreshTokenGrant := "refresh_token"
  const ClientCredentialsGrant := "client_credentials"
  const UnsupportedGrantType := "unsupported_grant_type"

  /** The token request: grant type, client id and requested scopes. */
  datatype TokenRequest = TokenRequest(grantType: string, clientId: Option<string>, scopes: seq<string>)

  datatype TokenResult =
    /** OpenIddict supplied no request: `InvalidOperationException`. */
    | TokenRequestMissing
    /** Code or refresh grant: tokens reissued from the principal the code
        or refresh token carries. */
    | SignInStored
    /** Client-credentials grant: sign-in with a fresh service principal. */
    | SignInService(claims: seq<Claim>, scopes: seq<string>, resources: Option<seq<string>>)
    /** Client-credentials grant without a client id: `new Claim(type, null)`
        throws `ArgumentNullException`. */
    | ClientIdMissing
    /** Any other grant: `400 Bad Request` with `{ error }`. */
    | BadRequest(error: string)

  /** `Token`: dispatch on the grant type. The client-credentials principal
      carries exactly sub = client id and account_type = "service", both for
      the access token only; any other grant than code, refresh or client
      credentials is refused with `unsupported_grant_type`. */
  method Token(request: Option<TokenRequest>, apis: map<string, string>) returns (r: TokenResult)
    ensures request.None? <==> r == TokenRequestMissing
    ensures request.Some? ==>
      var g := request.value.grantType;
      && ((g == AuthorizationCodeGrant || g == RefreshTokenGrant) <==> r == SignInStored)
      && (g !in {AuthorizationCodeGrant, RefreshTokenGrant, ClientCredentialsGrant} <==> r == BadRequest(UnsupportedGrantType))
      && (g == ClientCredentialsGrant && request.value.clientId.None? <==> r == ClientIdMissing)
      && (g == ClientCredentialsGrant && request.value.clientId.Some? <==> r.SignInService?)
    ensures r.SignInService? ==>
      && request.value.grantType == ClientCredentialsGrant
      && r.claims == [Claim(AuthClaims.Subject, request.value.clientId.value, {AccessToken}),
                      Claim(AuthClaims.AccountType, "service", {AccessToken})]
      && r.scopes == request.value.scopes
      && var resolved := Distinct(Lookup(request.value.scopes, apis));
         r.resources == if |resolved| > 0 then Some(resolved) else None
  {
    if request.None? {
      return TokenRequestMissing;
    }
    var g := request.value.grantType;
    if g == AuthorizationCodeGrant || g == RefreshTokenGrant {
      return SignInStored;
    }
    if g == ClientCredentialsGrant {
      if request.value.clientId.None? {
        return ClientIdMissing;
      }
      var principal := new ClaimsPrincipal([]);
      principal.AddClaim(Claim(AuthClaims.Subject, request.value.clientId.value, {}));
      principal.AddClaim(Claim(AuthClaims.AccountType, "service", {}));
      var requestedScopes := request.value.scopes;
      principal.SetScopes(requestedScopes);
      var resources := ResolveResourcesFromScopes(requestedScopes, apis);
      if |resources| > 0 {
        principal.SetResources(resources);
      }
      principal.SetDestinations(t => {AccessToken});
      return SignInService(principal.claims, principal.scopes, principal.resources);
    }
    return BadRequest(UnsupportedGrantType);
  }
}
