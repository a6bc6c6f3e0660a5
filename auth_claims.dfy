/** The claim-type vocabulary issued by the authorization server
    (`AuthClaims`), its single source of truth. `sub`, `email` and
    `preferred_username` are the standard claim names of OpenID Connect
    Core 1.0, section 5.1; the others are domain and lifecycle claims. */
module AuthClaims {
  import opened Strings

  const Subject := "sub"
  const Email := "email"
  const PreferredUsername := "preferred_username"
  /** Role used by ASP.NET authorization; documented values in `RoleValues`. */
  const Role := "role"
  /** Account classification; documented values in `AccountTypeValues`. */
  const AccountType := "account_type"
  /** The employee authorization bitmask, serialised as its int value. */
  const AdminRights := "admin_rights"
  /** Account creation instant (UTC, ISO-8601). */
  const CreatedAt := "created_at"
  /** Last meaningful activity instant (UTC, ISO-8601). */
  const UpdatedAt := "updated_at"

  const RoleValues: set<string> := {"Customer", "Owner", "Employee"}
  const AccountTypeValues: set<string> := {"customer", "owner", "employee"}

  /** The closed vocabulary: one constructor per constant. */
  datatype KnownClaim = Sub | Mail | Username | RoleClaim | Account | Rights | Created | Updated

  /** The wire name of a known claim type. */
  function Name(k: KnownClaim): string {
    match k
    case Sub => Subject
    case Mail => Email
    case Username => PreferredUsername
    case RoleClaim => Role
    case Account => AccountType
    case Rights => AdminRights
    case Created => CreatedAt
    case Updated => UpdatedAt
  }

  /** Recognises a claim type string; `None` for anything outside the
      vocabulary. The eight names are pairwise distinct, so a name denotes
      exactly one claim type. */
  function Classify(t: string): (r: Option<KnownClaim>)
    ensures r.Some? ==> Name(r.value) == t
    ensures r.None? ==> forall k: KnownClaim :: Name(k) != t
  {
    if t == Subject then Some(Sub)
    else if t == Email then Some(Mail)
    else if t == PreferredUsername then Some(Username)
    else if t == Role then Some(RoleClaim)
    else if t == AccountType then Some(Account)
    else if t == AdminRights then Some(Rights)
    else if t == CreatedAt then Some(Created)
    else if t == UpdatedAt then Some(Updated)
    else None
  }

  /** Name and Classify are inverse: distinct claim types never share a name. */
  lemma NameRoundTrip(k: KnownClaim)
    ensures Classify(Name(k)) == Some(k)
  {
  }

  lemma NamesDistinct(k1: KnownClaim, k2: KnownClaim)
    requires k1 != k2
    ensures Name(k1) != Name(k2)
  {
    NameRoundTrip(k1);
    NameRoundTrip(k2);
  }
}
