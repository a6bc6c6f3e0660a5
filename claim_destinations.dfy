/** `ClaimDestinations.GetDestinations`: which issued token may carry a
    claim. The access token is for APIs, the identity token for the client's
    UI. Unknown claim types reach no token at all. */
module ClaimDestinations {
  import opened Strings
  import AuthClaims

  datatype Destination = IdentityToken | AccessToken

  /** The OpenID Connect `profile` scope (OpenID Connect Core 1.0, 5.4). */
  const ProfileScope := "profile"

  /** `principal.HasScope(Scopes.Profile)`. */
  predicate HasProfileScope(scopes: seq<string>) {
    ProfileScope in scopes
  }

  /** The destinations of a claim of type `claimType` for a principal whose
      granted scopes are `scopes`. */
  function GetDestinations(claimType: string, scopes: seq<string>): (r: set<Destination>)
    // sub, role and the lifecycle timestamps always reach both tokens
    ensures claimType in {AuthClaims.Subject, AuthClaims.Role, AuthClaims.CreatedAt, AuthClaims.UpdatedAt}
      ==> r == {IdentityToken, AccessToken}
    // preferred_username reaches both tokens with the profile scope, none without
    ensures claimType == AuthClaims.PreferredUsername
      ==> r == if HasProfileScope(scopes) then {IdentityToken, AccessToken} else {}
    // data minimisation: account_type and admin_rights never reach the identity token
    ensures claimType in {AuthClaims.AccountType, AuthClaims.AdminRights} ==> r == {AccessToken}
    // everything else, email included, reaches no token
    ensures claimType == AuthClaims.Email || AuthClaims.Classify(claimType).None? ==> r == {}
    // whatever reaches the identity token also reaches the access token
    ensures IdentityToken in r ==> AccessToken in r
  {
    if claimType == AuthClaims.Subject then {IdentityToken, AccessToken}
    else if claimType == AuthClaims.PreferredUsername then
      (if HasProfileScope(scopes) then {IdentityToken, AccessToken} else {})
    else if claimType == AuthClaims.Role then {AccessToken, IdentityToken}
    else if claimType == AuthClaims.CreatedAt || claimType == AuthClaims.UpdatedAt then {AccessToken, IdentityToken}
    else if claimType == AuthClaims.AccountType || claimType == AuthClaims.AdminRights then {AccessToken}
    else {}
  }

  /** The routing depends on the claim type and on the presence of the
      profile scope only; for every type but preferred_username it does not
      depend on the scopes at all. */
  lemma OnlyProfileScopeMatters(claimType: string, scopes1: seq<string>, scopes2: seq<string>)
    requires HasProfileScope(scopes1) == HasProfileScope(scopes2) || claimType != AuthClaims.PreferredUsername
    ensures GetDestinations(claimType, scopes1) == GetDestinations(claimType, scopes2)
  {
  }

  /** The claims an identity token can carry are exactly sub, role, the two
      timestamps and (with the profile scope) preferred_username. */
  lemma IdentityTokenClaims(claimType: string, scopes: seq<string>)
    ensures IdentityToken in GetDestinations(claimType, scopes) <==>
      || claimType in {AuthClaims.Subject, AuthClaims.Role, AuthClaims.CreatedAt, AuthClaims.UpdatedAt}
      || (claimType == AuthClaims.PreferredUsername && HasProfileScope(scopes))
  {
  }
}
