/** The client-registration seed of the authorization server
    (`SeedHostedService`): four OpenIddict applications are created or
    updated at start-up in the application store, a table keyed by client id.
    Confidential clients (RFC 6749, section 2.1) must come with a secret;
    public ones use PKCE (RFC 7636) instead. */
module Seed {
  import opened Strings

  datatype ClientType = Public | Confidential

  datatype Permission =
    | AuthorizationEndpoint
    | TokenEndpoint
    | EndSessionEndpoint
    | AuthorizationCodeGrant
    | ClientCredentialsGrant
    | CodeResponseType
    | Scope(name: string)

  datatype Requirement = ProofKeyForCodeExchange

  /** `OpenIddictApplicationDescriptor`, the fields the seed sets. */
  datatype Descriptor = Descriptor(
    clientId: string,
    clientSecret: Option<string>,
    displayName: string,
    clientType: ClientType,
    redirectUris: set<string>,
    postLogoutRedirectUris: set<string>,
    permissions: set<Permission>,
    requirements: set<Requirement>)

  /** The upsert refuses a client that requires a secret but has none. */
  predicate SecretMissing(d: Descriptor, requiresSecret: bool) {
    requiresSecret && IsNullOrWhiteSpace(d.clientSecret)
  }

  /** The table after one upsert: unchanged when the secret is missing,
      otherwise the descriptor stored under its client id. */
  function Upserted(entries: map<string, Descriptor>, d: Descriptor, requiresSecret: bool): map<string, Descriptor> {
    if SecretMissing(d, requiresSecret) then entries else entries[d.clientId := d]
  }

  /** Upserting the same descriptor twice is the same as once. */
  lemma UpsertIdempotent(entries: map<string, Descriptor>, d: Descriptor, requiresSecret: bool)
    ensures Upserted(Upserted(entries, d, requiresSecret), d, requiresSecret) == Upserted(entries, d, requiresSecret)
  {
  }

  datatype UpsertOutcome =
    | Created
    | Updated
    /** `InvalidOperationException`; `existed` tells which of the two
        messages is raised. */
    | MissingSecret(existed: bool)

  /** One upsert request: the descriptor and whether it must carry a secret. */
  datatype SeedItem = SeedItem(descriptor: Descriptor, requiresSecret: bool)

  datatype SeedOutcome = Seeded | Aborted(clientId: string)

  /** The table and the outcome after upserting `items` in order; the first
      missing secret aborts the run, with the earlier upserts kept. */
  function RunSeed(entries: map<string, Descriptor>, items: seq<SeedItem>): (map<string, Descriptor>, SeedOutcome)
    decreases |items|
  {
    if |items| == 0 then (entries, Seeded)
    else if SecretMissing(items[0].descriptor, items[0].requiresSecret) then (entries, Aborted(items[0].descriptor.clientId))
    else RunSeed(Upserted(entries, items[0].descriptor, items[0].requiresSecret), items[1..])
  }

  /** The entries written by a run, a later write to the same client id
      overriding an earlier one. */
  function Written(items: seq<SeedItem>): map<string, Descriptor>
    decreases |items|
  {
    if |items| == 0 || SecretMissing(items[0].descriptor, items[0].requiresSecret) then map[]
    else map[items[0].descriptor.clientId := items[0].descriptor] + Written(items[1..])
  }

  /** A run overrides the table with what it writes. */
  lemma {:induction false} RunSeedOverrides(entries: map<string, Descriptor>, items: seq<SeedItem>)
    ensures RunSeed(entries, items).0 == entries + Written(items)
    decreases |items|
  {
    if |items| > 0 && !SecretMissing(items[0].descriptor, items[0].requiresSecret) {
      var d := items[0].descriptor;
      RunSeedOverrides(entries[d.clientId := d], items[1..]);
      assert entries[d.clientId := d] + Written(items[1..]) == entries + (map[d.clientId := d] + Written(items[1..]));
    }
  }

  /** Whether a run aborts, and where, does not depend on the table. */
  lemma {:induction false} RunSeedOutcomeIndependent(e1: map<string, Descriptor>, e2: map<string, Descriptor>, items: seq<SeedItem>)
    ensures RunSeed(e1, items).1 == RunSeed(e2, items).1
    decreases |items|
  {
    if |items| > 0 && !SecretMissing(items[0].descriptor, items[0].requiresSecret) {
      RunSeedOutcomeIndependent(Upserted(e1, items[0].descriptor, items[0].requiresSecret),
                                Upserted(e2, items[0].descriptor, items[0].requiresSecret), items[1..]);
    }
  }

  /** Seeding twice leaves the same client ids, descriptors and outcome as
      seeding once, whether or not the first run was aborted. */
  lemma SeedTwiceIsSeedOnce(entries: map<string, Descriptor>, items: seq<SeedItem>)
    ensures RunSeed(RunSeed(entries, items).0, items) == RunSeed(entries, items)
  {
    var once := RunSeed(entries, items).0;
    RunSeedOverrides(entries, items);
    RunSeedOverrides(once, items);
    RunSeedOutcomeIndependent(entries, once, items);
    assert (entries + Written(items)) + Written(items) == entries + Written(items);
  }

  /** The clients the seed registers for a given configuration. The
      redirect URIs and the API scope come from configuration helpers that
      are not part of this model, so they are taken as inputs. */
  datatype SeedInputs = SeedInputs(
    blazorWasmClientId: string,
    blazorWasmRedirectUri: string,
    blazorWasmPostLogoutRedirectUri: string,
    webMvcClientId: string,
    webMvcClientSecret: Option<string>,
    webMvcRedirectUri: string,
    webMvcPostLogoutRedirectUri: string,
    androidClientId: string,
    androidCustomSchemeRedirectUri: string,
    androidLoopbackRedirectUri: string,
    androidPostLogoutRedirectUri: string,
    serviceClientId: string,
    serviceClientSecret: Option<string>,
    scopeApi: string)

  /** The permissions of the three interactive clients: authorization code
      flow with the end-session endpoint and the openid, profile and API scopes. */
  function InteractivePermissions(scopeApi: string): set<Permission> {
    {AuthorizationEndpoint, TokenEndpoint, EndSessionEndpoint, AuthorizationCodeGrant, CodeResponseType,
     Scope("openid"), Scope("profile"), Scope(scopeApi)}
  }

  /** The Blazor WebAssembly app: a public client using the authorization
      code flow with PKCE and no secret. */
  function BlazorWasm(o: SeedInputs): (d: Descriptor)
    ensures d.clientId == o.blazorWasmClientId && d.clientType == Public && d.clientSecret.None?
    ensures d.requirements == {ProofKeyForCodeExchange}
    ensures d.redirectUris == {o.blazorWasmRedirectUri} && d.postLogoutRedirectUris == {o.blazorWasmPostLogoutRedirectUri}
    ensures AuthorizationCodeGrant in d.permissions && ClientCredentialsGrant !in d.permissions
  {
    Descriptor(o.blazorWasmClientId, None, "Blazor WASM", Public,
               {o.blazorWasmRedirectUri}, {o.blazorWasmPostLogoutRedirectUri},
               InteractivePermissions(o.scopeApi), {ProofKeyForCodeExchange})
  }

  /** The MVC web app: a confidential client with the configured secret,
      using the authorization code flow without PKCE. */
  function WebMvc(o: SeedInputs): (d: Descriptor)
    ensures d.clientId == o.webMvcClientId && d.clientType == Confidential && d.clientSecret == o.webMvcClientSecret
    ensures d.requirements == {}
    ensures d.redirectUris == {o.webMvcRedirectUri} && d.postLogoutRedirectUris == {o.webMvcPostLogoutRedirectUri}
    ensures AuthorizationCodeGrant in d.permissions && ClientCredentialsGrant !in d.permissions
  {
    Descriptor(o.webMvcClientId, o.webMvcClientSecret, "WebClient MVC", Confidential,
               {o.webMvcRedirectUri}, {o.webMvcPostLogoutRedirectUri},
               InteractivePermissions(o.scopeApi), {})
  }

  /** The Android app: a public client with PKCE and two redirect URIs, a
      custom scheme and a loopback one (RFC 8252, sections 7.1 and 7.3). */
  function Android(o: SeedInputs): (d: Descriptor)
    ensures d.clientId == o.androidClientId && d.clientType == Public && d.clientSecret.None?
    ensures d.requirements == {ProofKeyForCodeExchange}
    ensures d.redirectUris == {o.androidCustomSchemeRedirectUri, o.androidLoopbackRedirectUri}
    ensures d.postLogoutRedirectUris == {o.androidPostLogoutRedirectUri}
    ensures AuthorizationCodeGrant in d.permissions && ClientCredentialsGrant !in d.permissions
  {
    Descriptor(o.androidClientId, None, "Android App", Public,
               {o.androidCustomSchemeRedirectUri, o.androidLoopbackRedirectUri}, {o.androidPostLogoutRedirectUri},
               InteractivePermissions(o.scopeApi), {ProofKeyForCodeExchange})
  }

  /** The machine-to-machine client: confidential, client credentials only,
      with the token endpoint and the API scope and no redirect URIs. */
  function ServiceClient(o: SeedInputs): (d: Descriptor)
    ensures d.clientId == o.serviceClientId && d.clientType == Confidential && d.clientSecret == o.serviceClientSecret
    ensures d.permissions == {TokenEndpoint, ClientCredentialsGrant, Scope(o.scopeApi)}
    ensures d.redirectUris == {} && d.postLogoutRedirectUris == {}
    ensures AuthorizationCodeGrant !in d.permissions && AuthorizationEndpoint !in d.permissions
  {
    Descriptor(o.serviceClientId, o.serviceClientSecret, "Service Client", Confidential,
               {}, {}, {TokenEndpoint, ClientCredentialsGrant, Scope(o.scopeApi)}, {})
  }

  /** The four upserts of `StartAsync`, in order. */
  function SeedItems(o: SeedInputs): seq<SeedItem> {
    [SeedItem(BlazorWasm(o), false), SeedItem(WebMvc(o), true),
     SeedItem(Android(o), false), SeedItem(ServiceClient(o), true)]
  }

  /** The seeded descriptors: a secret is required exactly of the
      confidential clients; public clients carry no secret and require PKCE;
      only the service client may use client credentials, and it has the
      token endpoint and the API scope only, and no redirect URIs. */
  lemma SeededDescriptors(o: SeedInputs)
    ensures forall it | it in SeedItems(o) ::
      && (it.requiresSecret <==> it.descriptor.clientType == Confidential)
      && (it.descriptor.clientType == Public ==>
            it.descriptor.clientSecret == None && ProofKeyForCodeExchange in it.descriptor.requirements)
      && (ClientCredentialsGrant in it.descriptor.permissions <==> it.descriptor == ServiceClient(o))
    ensures ServiceClient(o).permissions == {TokenEndpoint, ClientCredentialsGrant, Scope(o.scopeApi)}
    ensures ServiceClient(o).redirectUris == {} && ServiceClient(o).postLogoutRedirectUris == {}
  {
  }

  /** A run over the seeded clients never aborts on a public client, and
      aborts exactly when a confidential client's secret is blank. */
  lemma SeedAbortsOnlyOnConfidential(entries: map<string, Descriptor>, o: SeedInputs)
    ensures RunSeed(entries, SeedItems(o)).1 ==
      if IsNullOrWhiteSpace(o.webMvcClientSecret) then Aborted(o.webMvcClientId)
      else if IsNullOrWhiteSpace(o.serviceClientSecret) then Aborted(o.serviceClientId)
      else Seeded
  {
    var items := SeedItems(o);
    var e1 := Upserted(entries, BlazorWasm(o), false);
    assert RunSeed(entries, items) == RunSeed(e1, items[1..]);
    if !IsNullOrWhiteSpace(o.webMvcClientSecret) {
      var e2 := Upserted(e1, WebMvc(o), true);
      assert RunSeed(e1, items[1..]) == RunSeed(e2, items[2..]);
      var e3 := Upserted(e2, Android(o), false);
      assert RunSeed(e2, items[2..]) == RunSeed(e3, items[3..]);
      if !IsNullOrWhiteSpace(o.serviceClientSecret) {
        assert RunSeed(e3, items[3..]) == RunSeed(Upserted(e3, ServiceClient(o), true), items[4..]);
      }
    }
  }

  /** The OpenIddict application store. */
  class ClientTable {
    var entries: map<string, Descriptor>

    constructor (initial: map<string, Descriptor>)
      ensures entries == initial
    {
      entries := initial;
    }

    /** `UpsertAsync`: creates an absent client or replaces an existing one;
        a confidential client with a blank secret is refused in both cases
        and the table is left as it was. */
    method Upsert(d: Descriptor, requiresSecret: bool) returns (outcome: UpsertOutcome)
      modifies this
      ensures entries == Upserted(old(entries), d, requiresSecret)
      ensures outcome ==
        if SecretMissing(d, requiresSecret) then MissingSecret(d.clientId in old(entries))
        else if d.clientId in old(entries) then Updated
        else Created
      ensures forall k | k != d.clientId :: (k in entries <==> k in old(entries)) && (k in entries ==> entries[k] == old(entries)[k])
    {
      if d.clientId !in entries {
        if requiresSecret && IsNullOrWhiteSpace(d.clientSecret) {
          return MissingSecret(false);
        }
        entries := entries[d.clientId := d];
        return Created;
      }
      if requiresSecret && IsNullOrWhiteSpace(d.clientSecret) {
        return MissingSecret(true);
      }
      entries := entries[d.clientId := d];
      return Updated;
    }

    /** `StartAsync`: the four upserts in order; the first refusal ends the
        run with the earlier clients already stored. */
    method SeedClients(o: SeedInputs) returns (outcome: SeedOutcome)
      modifies this
      ensures (entries, outcome) == RunSeed(old(entries), SeedItems(o))
    {
      ghost var items := SeedItems(o);
      var r := Upsert(BlazorWasm(o), false);
      if r.MissingSecret? {
        return Aborted(o.blazorWasmClientId);
      }
      assert RunSeed(old(entries), items) == RunSeed(entries, items[1..]);
      r := Upsert(WebMvc(o), true);
      if r.MissingSecret? {
        return Aborted(o.webMvcClientId);
      }
      assert RunSeed(old(entries), items) == RunSeed(entries, items[2..]);
      r := Upsert(Android(o), false);
      if r.MissingSecret? {
        return Aborted(o.androidClientId);
      }
      assert RunSeed(old(entries), items) == RunSeed(entries, items[3..]);
      r := Upsert(ServiceClient(o), true);
      if r.MissingSecret? {
        return Aborted(o.serviceClientId);
      }
      assert RunSeed(old(entries), items) == RunSeed(entries, items[4..]);
      return Seeded;
    }
  }
}
