# IdentityAccessServer — a verified model of the OIDC authorization-server core

This project models, in Dafny, the part of berndRog/IdentityAccessServer that decides
**which claims go into which token** and **where a user may be sent after logout**, together
with the small string, validation and decision helpers around it:

- the two end-session (logout) endpoints and their post-logout redirect validation. The rule comes
  from OpenID Connect RP-Initiated Logout 1.0, sections 2 and 3: a `post_logout_redirect_uri` must be
  an absolute URI that a client registered beforehand, which is the defence against open
  redirects of RFC 6749, section 10.15.
  - The `OidcOauthServer` variant (`GET /connect/logout`) compares URIs strictly: query and fragment
    must be equal too (module `OidcEndSession`).
  - The `IdentityAccessServer` variant (`GET /connect/endsession`) compares scheme, authority and path
    only (module `IdentityEndSession`).
  - The shared allow-list rule, the client directory and the parsed URI are in module `Uris`.
- the claim vocabulary (`AuthClaims`) and the claim-to-token routing (`ClaimDestinations`);
- the authorize and token endpoints of `OidcController`:
  - the principal's claims, with the replace-by-type helper;
  - the resources the requested scopes resolve to;
  - the destinations of every claim;
  - the grant-type dispatch of the token endpoint;
- the endpoint paths and URL helpers of `AuthServerOptions`, and the derived URIs of the MVC client's
  `OidcClientOptions` (module `MvcClientOptions`);
- the client-registration seed, an upsert into a table keyed by client id (module `Seed`);
- in the Blazor SSR client:
  - the login/logout actions (`IdentityController`);
  - the role dispatcher (`Dispatcher`);
  - the beneficiary form validation (`Beneficiary`);
  - the `Result<T>` type (`Results`).

The code relies on some .NET library behaviour, which is modelled in module `Strings`:

- `string.IsNullOrWhiteSpace`;
- `TrimEnd`;
- `OrdinalIgnoreCase`;
- `ToUpper`;
- `Replace(" ", "")`;
- `int.ToString()`.

Foreign behaviour enters the model as parameters:

- `Uri.TryCreate` is a parser `string -> Option<ParsedUri>`;
- `Url.IsLocalUrl` is a predicate.

The model's main guarantees are these:

- A logout redirect is always either `"/"` or the requested URI, and the requested URI is used only
  when it matches a post-logout URI that some application registered (`OidcEndSession.Logout`,
  `IdentityEndSession.EndSession`).
- Every claim in a signed-in principal carries exactly the destinations `GetDestinations` assigns to
  its type. Every claim type the authorize endpoint sets holds exactly one value, and the other
  types keep what they had.
- Seeding the client table twice leaves it as seeding once does.

Three details of the end-session code matter for what is proved:

- Without a client id, only the first page of `ListAsync(100, 0)` is scanned, not the whole directory.
- An approved redirect is the *requested* URI, not the registered one it matched.
- A differing query is refused by the strict server and ignored only by the lenient one.

Lengths checked by the beneficiary form are .NET `string.Length` values, counted in UTF-16 code units
(`Strings.Utf16Length`): a character outside the Basic Multilingual Plane counts twice.

The strict server serves its end-session action at `/connect/logout`, while
`AuthServerOptions.LogoutEndpointPath` names `connect/endsession`. The model keeps both as written.

## Model

| member | source | states |
|---|---|---|
| Strings.TrimEnd | OidcOauthServer/Auth/Controllers/EndSessionController.cs:123-124 | `TrimEnd('/')` keeps the longest prefix that does not end with the character and after which only that character follows |
| Strings.TrimEndAbsorbs | OidcOauthServer/Auth/Controllers/EndSessionController.cs:123-124 | one more trailing '/' does not change what TrimEnd keeps |
| Strings.TrimEndUnique | OidcOauthServer/Auth/Controllers/EndSessionController.cs:123-124 | any prefix meeting TrimEnd's contract is TrimEnd's result, so the contract determines it |
| Strings.UpperChar | OidcOauthServer/Auth/Controllers/EndSessionController.cs:126 | the case mapping of OrdinalIgnoreCase sends each letter 'a'..'z' to its capital 'A'..'Z' (32 code points lower) and leaves every other character unchanged |
| Strings.EqualsIgnoreCaseToUpper | OidcOauthServer/Auth/Controllers/EndSessionController.cs:126 | two strings are equal ignoring case exactly when their upper-cased forms are equal |
| Strings.EqualsIgnoreCaseIsEquivalence | OidcOauthServer/Auth/Controllers/EndSessionController.cs:126 | OrdinalIgnoreCase equality is reflexive, symmetric and transitive |
| Strings.RemoveSpaces | BankingBlazorSSR/Ui/Models/BeneficiaryCreateModel.cs:26 | `Replace(" ", "")` removes every ' ' and nothing else: the multiset of characters loses exactly its spaces |
| Strings.RemoveSpacesAppend | BankingBlazorSSR/Ui/Models/BeneficiaryCreateModel.cs:26 | `Replace(" ", "")` works piece by piece (the result for `a + b` is the result for `a` followed by that for `b`) and drops a single character exactly when it is a space, so the kept characters stay in order |
| Strings.RemoveSpacesToUpper | BankingBlazorSSR/Ui/Models/BeneficiaryCreateModel.cs:26 | upper-casing and removing spaces commute |
| Strings.ToUpperKeepsBlank | BankingBlazorSSR/Ui/Models/BeneficiaryCreateModel.cs:23-26 | upper-casing does not change whether a string is blank |
| Strings.NatToDecimal | OidcOauthServer/Auth/Controllers/OidcController.cs:89 | the decimal rendering of a natural number is non-empty, all digits, without a leading zero |
| Strings.IntToDecimal | OidcOauthServer/Auth/Controllers/OidcController.cs:89 | `((int)AdminRights).ToString()` starts with the ASCII '-' exactly for negative values, followed by the decimal digits |
| Strings.NatToDecimalRoundTrip | OidcOauthServer/Auth/Controllers/OidcController.cs:89 | parsing the decimal rendering of a natural number gives it back |
| Strings.Utf16Length | BankingBlazorSSR/Ui/Models/BeneficiaryCreateModel.cs:27 | `string.Length` counts UTF-16 code units: between the number of characters and twice it, and equal to it when every character is in the Basic Multilingual Plane |
| Strings.Utf16LengthRemoveSpaces | BankingBlazorSSR/Ui/Models/BeneficiaryCreateModel.cs:26-27 | removing the spaces removes exactly one code unit per space |
| Strings.Utf16LengthToUpper | BankingBlazorSSR/Ui/Models/BeneficiaryCreateModel.cs:26-27 | upper-casing keeps the number of code units |
| Strings.IntToDecimalRoundTrip | OidcOauthServer/Auth/Controllers/OidcController.cs:89 | parsing the admin_rights claim value gives back the int it was rendered from |
| Uris.FindByClientId | OidcOauthServer/Auth/Controllers/EndSessionController.cs:88-90 | `FindByClientIdAsync` returns an application of the directory with that id, and null only when no application has it |
| Uris.AllowedIsRegistered | OidcOauthServer/Auth/Controllers/EndSessionController.cs:86-108 | whatever the client id, an allowed redirect matches a post-logout URI some application registered |
| Uris.UnknownClientRefused | OidcOauthServer/Auth/Controllers/EndSessionController.cs:87-90 | a non-blank client id that names no application is refused, with no directory-wide fallback |
| Uris.KnownClientIsolated | OidcOauthServer/Auth/Controllers/EndSessionController.cs:92-95 | a found client is judged on its own post-logout URIs only; other applications make no difference |
| Uris.ScanStopsAtFirstPage | OidcOauthServer/Auth/Controllers/EndSessionController.cs:99-106 | without a client id, applications after the first 100 are never consulted |
| Uris.UnparsableNeverMatches | OidcOauthServer/Auth/Controllers/EndSessionController.cs:111-115 | a registered string that is not an absolute URI never matches |
| Uris.AllowedMonotone | IdentityAccessServer/Auth/Controllers/EndSessionController.cs:107-111 | a comparison that accepts more pairs allows at least the same redirects |
| OidcEndSession.UriEquals | OidcOauthServer/Auth/Controllers/EndSessionController.cs:122-129 | two URIs are equal iff their left parts without trailing '/' are equal once upper-cased and their queries and fragments are equal |
| OidcEndSession.UriEqualsIsEquivalence | OidcOauthServer/Auth/Controllers/EndSessionController.cs:122-129 | the strict comparison is an equivalence relation |
| OidcEndSession.TrailingSlashIgnored | OidcOauthServer/Auth/Controllers/EndSessionController.cs:123-124 | a trailing '/' on the path makes no difference |
| OidcEndSession.QueryEnforced | OidcOauthServer/Auth/Controllers/EndSessionController.cs:127 | URIs with different queries never compare equal |
| OidcEndSession.IsPostLogoutRedirectAllowed | OidcOauthServer/Auth/Controllers/EndSessionController.cs:81-109 | the lookup and the early-returning scan give exactly the allow-list answer `RedirectAllowed` |
| OidcEndSession.Logout | OidcOauthServer/Auth/Controllers/EndSessionController.cs:22-72 | a blank or non-absolute URI signs out to "/"; otherwise the requested URI is used iff allowed; the redirect is "/" or a registered requested URI |
| IdentityEndSession.UriEquals | IdentityAccessServer/Auth/Controllers/EndSessionController.cs:107-111 | two URIs are equal iff their left parts without trailing '/' are equal once upper-cased; every pair the strict comparison accepts is accepted |
| IdentityEndSession.QueryAndFragmentIgnored | IdentityAccessServer/Auth/Controllers/EndSessionController.cs:107-111 | the lenient comparison ignores query and fragment |
| IdentityEndSession.StrictAllowedImpliesLenientAllowed | IdentityAccessServer/Auth/Controllers/EndSessionController.cs:107-111 | every redirect the strict server allows, the lenient one allows too |
| IdentityEndSession.VariantsDisagreeOnQuery | IdentityAccessServer/Auth/Controllers/EndSessionController.cs:107-111 | a registered URI (say `https://app.example/done`) matches its upper-cased form with a trailing slash and a query (`https://APP.EXAMPLE/done/?x=1`) leniently but not strictly |
| IdentityEndSession.IsPostLogoutRedirectAllowed | IdentityAccessServer/Auth/Controllers/EndSessionController.cs:79-96 | the lookup and the early-returning scan give exactly the allow-list answer `RedirectAllowed` |
| IdentityEndSession.EndSession | IdentityAccessServer/Auth/Controllers/EndSessionController.cs:27-73 | a missing request is a BadRequest without sign-out; otherwise the session is signed out and the redirect stays "/" unless the URI is absolute and allowed, when it is the requested URI with its own query and fragment |
| AuthClaims.Classify | IdentityAccessServer/Auth/Claims/AuthClaims.cs:19-63 | a claim type string is recognised exactly when it is one of the eight names, and then as the claim of that name |
| AuthClaims.NameRoundTrip | IdentityAccessServer/Auth/Claims/AuthClaims.cs:19-63 | classifying a claim's name gives the claim back |
| AuthClaims.NamesDistinct | IdentityAccessServer/Auth/Claims/AuthClaims.cs:19-63 | the eight claim-type names are pairwise distinct |
| ClaimDestinations.GetDestinations | IdentityAccessServer/Auth/Claims/ClaimDestinations.cs:13-47 | sub, role and the timestamps reach both tokens; preferred_username both iff the profile scope is granted; account_type and admin_rights the access token only; email and unknown types none; identity-token claims always reach the access token |
| ClaimDestinations.OnlyProfileScopeMatters | IdentityAccessServer/Auth/Claims/ClaimDestinations.cs:13-47 | the destinations depend on the claim type and on the presence of the profile scope only |
| ClaimDestinations.IdentityTokenClaims | IdentityAccessServer/Auth/Claims/ClaimDestinations.cs:17-34 | the identity token carries exactly sub, role, the timestamps and, with the profile scope, preferred_username |
| OidcController.ClaimsPrincipal.AddClaim | OidcOauthServer/Auth/Controllers/OidcController.cs:166-167 | `AddClaim` appends the claim after the existing ones; scopes and resources unchanged |
| OidcController.ClaimsPrincipal.SetScopes | OidcOauthServer/Auth/Controllers/OidcController.cs:172 | `SetScopes` replaces the scopes; claims and resources unchanged |
| OidcController.ClaimsPrincipal.SetResources | OidcOauthServer/Auth/Controllers/OidcController.cs:176 | `SetResources` sets the resources; claims and scopes unchanged |
| OidcController.ValuesOfWithout | OidcOauthServer/Auth/Controllers/OidcController.cs:128-130 | removing the claims of one type removes all its values and keeps every other type's values |
| OidcController.ValuesOfWithClaim | OidcOauthServer/Auth/Controllers/OidcController.cs:127-133 | after SetOrReplaceClaim(t, v) type t holds exactly [v] and every other type is unchanged |
| OidcController.ValuesOfRouted | OidcOauthServer/Auth/Controllers/OidcController.cs:117-118 | setting destinations changes no claim's type or value |
| OidcController.ClaimsPrincipal.SetOrReplaceClaim | OidcOauthServer/Auth/Controllers/OidcController.cs:127-133 | the remove loop and the add leave the claims `WithClaim(old claims, t, v)`; scopes and resources unchanged |
| OidcController.ClaimsPrincipal.SetDestinations | OidcOauthServer/Auth/Controllers/OidcController.cs:117-118 | the loop gives every claim the destinations the route assigns to its type, nothing else changes |
| OidcController.Distinct | OidcOauthServer/Auth/Controllers/OidcController.cs:250-252 | `Distinct(Ordinal)` has no duplicates and exactly the elements of its input |
| OidcController.IsNonApiScope | OidcOauthServer/Auth/Controllers/OidcController.cs:222-224 | exactly `openid` and the profile scope that gates preferred_username are non-API scopes |
| OidcController.ApiScopes | OidcOauthServer/Auth/Controllers/OidcController.cs:222-227 | the filtered scopes are exactly the requested ones other than openid and profile |
| OidcController.LookupMembership | OidcOauthServer/Auth/Controllers/OidcController.cs:236-248 | a resource is found exactly when some requested API scope maps to it |
| OidcController.DistinctLookupDistinct | OidcOauthServer/Auth/Controllers/OidcController.cs:226-252 | removing repeated scopes before the lookup changes nothing once repeated resources are removed |
| OidcController.LookupOfApiScopes | OidcOauthServer/Auth/Controllers/OidcController.cs:222-227 | filtering out openid and profile before the lookup changes nothing |
| OidcController.ResolveResourcesFromScopes | OidcOauthServer/Auth/Controllers/OidcController.cs:221-253 | the loop returns the distinct resources of the requested API scopes in first-request order, skipping openid, profile and unknown scopes without failing |
| OidcController.RoleFor | OidcOauthServer/Auth/Controllers/OidcController.cs:85-86 | the role is "Employee" iff admin rights > 0, else "Owner", a documented role value |
| OidcController.UserClaimsValues | OidcOauthServer/Auth/Controllers/OidcController.cs:69-96 | after the claim block each claim type holds what `UserClaimValues` says: sub = id, email/preferred_username only when non-blank, role, admin_rights as decimal, timestamps only when set, other types unchanged |
| OidcController.SetUserClaims | OidcOauthServer/Auth/Controllers/OidcController.cs:69-96 | the sequence of SetOrReplaceClaim calls leaves the claims `UserClaims(old claims, user)` |
| OidcController.RoutedUserClaims | OidcOauthServer/Auth/Controllers/OidcController.cs:116-118 | routing the claims afterwards keeps what every type holds |
| OidcController.Authorize | OidcOauthServer/Auth/Controllers/OidcController.cs:31-125 | no request is an error; no cookie or no user is a challenge back to returnUrl; otherwise the claims satisfy `UserClaimValues` for every type, each claim carries `GetDestinations` of its type, the scopes are the requested ones and resources are set iff some resolve |
| OidcController.Token | OidcOauthServer/Auth/Controllers/OidcController.cs:139-193 | code and refresh grants reissue the stored principal; client_credentials with a client id always signs in, with exactly sub = client id and account_type = "service", access token only, and without one fails; every other grant is `unsupported_grant_type` |
| AuthServerOptions.EndpointPaths | OidcOauthServer/Auth/Options/AuthServerOptions.cs:39-48 | the endpoint paths are relative, the protocol ones under `connect/`, discovery under `.well-known`, pairwise distinct |
| AuthServerOptions.EnsureTrailingSlash | OidcOauthServer/Auth/Options/AuthServerOptions.cs:112-113 | the result ends with '/', extends the input and is the shortest such extension |
| AuthServerOptions.EnsureTrailingSlashIdempotent | OidcOauthServer/Auth/Options/AuthServerOptions.cs:113 | applying it twice is applying it once |
| AuthServerOptions.EnsureTrailingSlashKeeps | OidcOauthServer/Auth/Options/AuthServerOptions.cs:113 | a URL that already ends with '/' is unchanged |
| AuthServerOptions.AuthorityBaseUrl | OidcOauthServer/Auth/Options/AuthServerOptions.cs:25 | the authority ends with '/', is the issuer followed by at most one added '/', and is the issuer itself when that already ends with '/' |
| AuthServerOptions.Resolve | OidcOauthServer/Auth/Options/AuthServerOptions.cs:70-74 | `new Uri(Issuer, path)`, which gives every endpoint URI: the issuer, then a '/' only when the issuer lacks one, then the path verbatim; the length, prefix and suffix clauses determine the result |
| AuthServerOptions.ResolveIsBaseThenPath | OidcOauthServer/Auth/Options/AuthServerOptions.cs:25-27 | a resolved URI is the authority base URL `EnsureTrailingSlash(IssuerUri)` followed by the path, so an issuer already ending with '/' gets no second one |
| AuthServerOptions.EndpointsUnderIssuer | OidcOauthServer/Auth/Options/AuthServerOptions.cs:70-74 | every endpoint URI starts with the authority base URL, and distinct endpoints have distinct URIs |
| AuthServerOptions.CombineBaseAndPath | OidcOauthServer/Auth/Options/AuthServerOptions.cs:115-116 | the result is the trimmed base, then a '/' at the seam, then the path verbatim, with one character more when the path has no leading '/' |
| AuthServerOptions.OneSlashAtSeam | OidcOauthServer/Auth/Options/AuthServerOptions.cs:116 | a path without a leading '/' is joined with exactly one '/' at the seam |
| AuthServerOptions.CombineIgnoresTrailingSlash | OidcOauthServer/Auth/Options/AuthServerOptions.cs:116 | a trailing '/' on the base makes no difference |
| AuthServerOptions.CombineIgnoresLeadingSlash | OidcOauthServer/Auth/Options/AuthServerOptions.cs:116 | one leading '/' on the path makes no difference |
| MvcClientOptions.WithoutScopes | WebClientMvc/OidcOptions.cs:13 | options bound without scopes have an empty scope array |
| MvcClientOptions.Derive | WebClientMvc/OidcOptions.cs:16-17 | a derived URI is the base without trailing '/' followed by the path verbatim |
| MvcClientOptions.RedirectUri | WebClientMvc/OidcOptions.cs:16-17 | the base with its trailing '/' removed, then the redirect path verbatim |
| MvcClientOptions.SignedOutCallbackUri | WebClientMvc/OidcOptions.cs:19-20 | the base with its trailing '/' removed, then the signed-out callback path verbatim |
| MvcClientOptions.PostLogoutRedirectUri | WebClientMvc/OidcOptions.cs:22-23 | the base with its trailing '/' removed, then the post-logout path verbatim |
| MvcClientOptions.PostLogoutRedirectFallbackUri | WebClientMvc/OidcOptions.cs:25-26 | the base with its trailing '/' removed, then the fallback path verbatim |
| MvcClientOptions.DerivedUrisShareBase | WebClientMvc/OidcOptions.cs:16-26 | the four derived URIs share the trimmed base and differ only in their paths; two coincide iff their paths do |
| MvcClientOptions.DeriveIgnoresTrailingSlash | WebClientMvc/OidcOptions.cs:17 | all trailing slashes of the base are dropped |
| MvcClientOptions.DeriveVersusCombine | WebClientMvc/OidcOptions.cs:17 | the client inserts no separator: it agrees with the server's CombineBaseAndPath iff the path starts with '/' |
| Seed.UpsertIdempotent | OidcOauthServer/Auth/Boostrap/SeedHostedService.cs:26-47 | upserting a descriptor twice is upserting it once |
| Seed.RunSeedOverrides | OidcOauthServer/Auth/Boostrap/SeedHostedService.cs:26-47 | a run overrides the table with the descriptors it wrote, later writes winning |
| Seed.RunSeedOutcomeIndependent | OidcOauthServer/Auth/Boostrap/SeedHostedService.cs:29-43 | whether and where a run aborts does not depend on what the table holds |
| Seed.SeedTwiceIsSeedOnce | OidcOauthServer/Auth/Boostrap/SeedHostedService.cs:13-153 | seeding twice leaves the same client ids, descriptors and outcome as seeding once |
| Seed.BlazorWasm | OidcOauthServer/Auth/Boostrap/SeedHostedService.cs:52-76 | the Blazor client is public, has no secret, requires PKCE, has its configured redirect and post-logout URIs and the code flow but not client credentials |
| Seed.WebMvc | OidcOauthServer/Auth/Boostrap/SeedHostedService.cs:81-102 | the MVC client is confidential with the configured secret, no PKCE requirement, its configured redirect and post-logout URIs, the code flow but not client credentials |
| Seed.Android | OidcOauthServer/Auth/Boostrap/SeedHostedService.cs:107-136 | the Android client is public, has no secret, requires PKCE, has a custom-scheme and a loopback redirect URI, the code flow but not client credentials |
| Seed.ServiceClient | OidcOauthServer/Auth/Boostrap/SeedHostedService.cs:141-152 | the service client is confidential with the configured secret, may only use the token endpoint, client credentials and the API scope, never the authorization endpoint, and has no redirect URIs |
| Seed.SeededDescriptors | OidcOauthServer/Auth/Boostrap/SeedHostedService.cs:52-152 | a secret is required exactly of the confidential clients; public clients carry no secret and require PKCE; only the service client may use client credentials, with the token endpoint and API scope only and no redirect URIs |
| Seed.SeedAbortsOnlyOnConfidential | OidcOauthServer/Auth/Boostrap/SeedHostedService.cs:52-152 | the seed aborts exactly at the first confidential client with a blank secret |
| Seed.ClientTable.Upsert | OidcOauthServer/Auth/Boostrap/SeedHostedService.cs:26-47 | an absent client is created and an existing one replaced; a blank secret where one is required throws and leaves the table unchanged; other entries never change |
| Seed.ClientTable.SeedClients | OidcOauthServer/Auth/Boostrap/SeedHostedService.cs:13-153 | the four upserts leave the table and outcome `RunSeed` gives |
| IdentityController.SafeTarget | BankingBlazorSSR/Ui/Controllers/IdentityController.cs:46-48 | the target is "/" or the return URL itself, and then a local one |
| IdentityController.Login | BankingBlazorSSR/Ui/Controllers/IdentityController.cs:34-58 | a signed-in user gets a local redirect, anyone else a non-persistent challenge; both target a non-blank local return URL verbatim and "/" otherwise |
| IdentityController.LoginTargetIndependentOfSession | BankingBlazorSSR/Ui/Controllers/IdentityController.cs:37-53 | signed in or not, the user ends up at the same target |
| IdentityController.Logout | BankingBlazorSSR/Ui/Controllers/IdentityController.cs:71-79 | logout returns to "/" and signs out of both the OpenID Connect and the cookie scheme |
| Dispatcher.Dispatch | BankingBlazorSSR/Controllers/DispatcherController.cs:10-28 | anonymous users go to login; Owner (checked first) to /owner; Employee without Owner to /employee; anyone else to /no-access |
| Dispatcher.IssuedRoleDispatch | BankingBlazorSSR/Controllers/DispatcherController.cs:15-23 | with the role the authorization server issues, employees go to /employee and everybody else to /owner, never /no-access |
| Beneficiary.NormalizeIban | BankingBlazorSSR/Ui/Models/BeneficiaryCreateModel.cs:26 | the normalised IBAN is as long as the input without its spaces, counted in characters and in code units |
| Beneficiary.ValidateIban | BankingBlazorSSR/Ui/Models/BeneficiaryCreateModel.cs:22-32 | null or blank fails as empty; otherwise the UTF-16 length without spaces decides: 15 to 34 succeeds, anything else fails as a wrong length |
| Beneficiary.AstralCharacterCountsTwice | BankingBlazorSSR/Ui/Models/BeneficiaryCreateModel.cs:26-27 | 13 characters and one outside the Basic Multilingual Plane have length 15 and are accepted |
| Beneficiary.ValidateIbanIgnoresCase | BankingBlazorSSR/Ui/Models/BeneficiaryCreateModel.cs:26-31 | letter case never changes the outcome |
| Beneficiary.OtherWhiteSpaceCounts | BankingBlazorSSR/Ui/Models/BeneficiaryCreateModel.cs:26-28 | tabs and other non-space white space count toward the length |
| Beneficiary.ValidName | BankingBlazorSSR/Ui/Models/BeneficiaryCreateModel.cs:6-13 | a name is valid iff it is non-null, not blank and 2 to 50 UTF-16 code units long; for names inside the Basic Multilingual Plane that is 2 to 50 characters |
| Beneficiary.SurrogatePairNameValid | BankingBlazorSSR/Ui/Models/BeneficiaryCreateModel.cs:11-13 | a one-character name outside the Basic Multilingual Plane has length 2 and is valid |
| Beneficiary.ValidateForm | BankingBlazorSSR/Ui/Models/BeneficiaryCreateModel.cs:4-19 | the form is valid iff both names are valid and the IBAN is valid |
| Results.IsSuccess | BankingBlazorSSR/Core/Result.cs:6 | a result is a success exactly when it is not a failure |
| Results.Success | BankingBlazorSSR/Core/Result.cs:17 | a success is not a failure, holds the value and no error |
| Results.Failure | BankingBlazorSSR/Core/Result.cs:19 | a failure holds the default value and the error |
| Results.Fold | BankingBlazorSSR/Core/Result.cs:21-27 | `onSuccess` of the value iff success with a non-null value, `onFailure` of the error otherwise |
| Results.FoldOfConstructors | BankingBlazorSSR/Core/Result.cs:17-27 | folding `Success(v)` applies onSuccess to v, folding `Failure(e)` applies onFailure to e |
| Results.FoldOfNullSuccess | BankingBlazorSSR/Core/Result.cs:25-27 | a success holding null falls to onFailure, with a null error |

## Left out

- `Uri.TryCreate`, `GetLeftPart` and `Uri.ToString()` are library behaviour. Parsing is a parameter. `Uris.Text` writes a parsed URI as left part, query and fragment, with no canonicalisation or unescaping.
- `new Uri(Issuer, path)`: `AuthServerOptions.Resolve` appends the relative path to the authority base URL. That is RFC 3986 section 5.2.3 for an issuer with no query, fragment or dot segments; other issuers are not modelled.
- `Strings.UpperChar`: folds ASCII letters only. .NET `ToUpper` and `OrdinalIgnoreCase` also fold non-ASCII letters, so `EqualsIgnoreCase` is weaker than the library for such URIs.
- `Strings.IntToDecimal`: renders the negative sign as the ASCII '-'. `int.ToString()` without arguments uses the current culture's `NegativeSign`, which some cultures set to another character; culture data is not modelled.
- `DateTime.ToUniversalTime().ToString("O")` is not modelled. A timestamp is an optional, already formatted string, and `default(DateTime)` is `None`.
- Sign-in, sign-out and challenge results, cookies, `HttpContext`, `UserManager` and `SignInManager` are not modelled. Their effects appear as returned decision values, for example the `signedOut` flag of `IdentityEndSession.EndSession`.
- The token request context is not modelled. `OidcController.Token`'s `SignInStored` stands for reissuing the principal carried by the code or refresh token; that principal is not modelled.
- The `returnUrl` of `Authorize` (path base, path and query of the request) is an input.
- `OidcController.ResolveResourcesFromScopes` takes the configured APIs as a scope-to-resource map. `ToDictionary` throws when two APIs share a scope, and that exception is not modelled.
- The `UserInfo` endpoint is not modelled. It only echoes the first value of each claim type.
- `OidcController.ClaimsPrincipal` models only the claims, scopes and resources of the OpenIddict principal.
- `Seed.ClientTable.Upsert` models client ids as non-null strings, so a null id (which makes `FindByClientIdAsync` throw) is not modelled. OpenIddict's `UpdateAsync` is modelled as replacing the stored descriptor.
- The redirect-URI helpers `BlazorWasmRedirectUri()`, `WebMvcPostLogoutRedirectUri()` and the others, and `ScopeApi`, are not defined in `AuthServerOptions.cs`. `Seed.SeedInputs` takes them as inputs.
- Logging, `async`/`await`, cancellation tokens and concurrency are not modelled.
- Token signing and storage are not modelled.
- `OidcOauthServer.Auth.Claims` is not part of this model. The authorize endpoint's vocabulary and routing are the `IdentityAccessServer` `AuthClaims` and `ClaimDestinations`.
- The application directory is a sequence in enumeration order. Paging beyond `ListAsync(100, 0)` is not modelled, because the code never requests it.
