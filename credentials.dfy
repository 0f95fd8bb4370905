/**
 * The Kiro OAuth credential record, auth-method canonicalisation and the priority-sorted
 * credential list loaded from the credentials file.
 */
module Credentials {
  import opened Wrappers
  import opened Strings
  import opened Sorting

  /**
   * The `expires_at` field. The source stores an RFC 3339 string; the model keeps the
   * instant it denotes (seconds) when it parses, and `Malformed` when it does not.
   */
  datatype ExpiresAt = Rfc3339(instant: int) | Malformed

  datatype KiroCredentials = KiroCredentials(
    id: Option<nat>,
    accessToken: Option<string>,
    refreshToken: Option<string>,
    profileArn: Option<string>,
    expiresAt: Option<ExpiresAt>,
    authMethod: Option<string>,
    clientId: Option<string>,
    clientSecret: Option<string>,
    priority: nat,
    region: Option<string>,
    machineId: Option<string>,
    poolId: Option<string>,
    proxyUrl: Option<string>,
    proxyUsername: Option<string>,
    proxyPassword: Option<string>,
    successCount: nat,
    totalFailureCount: nat,
    lastCallTime: Option<nat>,
    totalResponseTimeMs: nat,
    tokenRefreshCount: nat,
    tokenRefreshFailureCount: nat,
    lastTokenRefreshTime: Option<nat>)

  /** `KiroCredentials::default()`: every optional field absent and every counter zero. */
  const DefaultCredentials: KiroCredentials :=
    KiroCredentials(None, None, None, None, None, None, None, None, 0, None, None, None, None, None, None,
                    0, 0, None, 0, 0, 0, None)

  /** The spellings that name the IdC flow under another name. */
  predicate IsIdcAlias(value: string)
  {
    EqIgnoreAsciiCase(value, "builder-id") || EqIgnoreAsciiCase(value, "iam")
  }

  lemma IdcIsNotAlias()
    ensures !IsIdcAlias("idc")
  {
    assert AsciiLower("idc"[1]) != AsciiLower("iam"[1]);
  }

  /** `builder-id` and `iam`, in any ASCII case, become `idc`; every other value is kept. */
  function CanonicalizeAuthMethodValue(value: string): (r: string)
    ensures !IsIdcAlias(r)
    ensures r == value || (IsIdcAlias(value) && r == "idc")
    ensures !IsIdcAlias(value) ==> r == value
  {
    IdcIsNotAlias();
    if IsIdcAlias(value) then "idc" else value
  }

  lemma {:induction false} CanonicalizeAuthMethodValueIdempotent(value: string)
    ensures CanonicalizeAuthMethodValue(CanonicalizeAuthMethodValue(value)) == CanonicalizeAuthMethodValue(value)
  {
    var once := CanonicalizeAuthMethodValue(value);
    assert !IsIdcAlias(once);
  }

  /** The record's `auth_method` is absent or already canonical. */
  predicate HasCanonicalAuthMethod(c: KiroCredentials)
  {
    c.authMethod.None? || !IsIdcAlias(c.authMethod.value)
  }

  /**
   * `KiroCredentials::canonicalize_auth_method`, which rewrites the record's own field; the
   * model returns the rewritten record.
   */
  function CanonicalizeAuthMethod(c: KiroCredentials): (r: KiroCredentials)
    ensures HasCanonicalAuthMethod(r)
    ensures c.authMethod.None? ==> r == c
    ensures r.authMethod.Some? <==> c.authMethod.Some?
    ensures r == c.(authMethod := r.authMethod)
    ensures HasCanonicalAuthMethod(c) ==> r == c
  {
    match c.authMethod
    case None => c
    case Some(m) =>
      var canonical := CanonicalizeAuthMethodValue(m);
      if canonical != m then c.(authMethod := Some(canonical)) else c
  }

  lemma {:induction false} CanonicalizeAuthMethodIdempotent(c: KiroCredentials)
    ensures CanonicalizeAuthMethod(CanonicalizeAuthMethod(c)) == CanonicalizeAuthMethod(c)
  {
    var once := CanonicalizeAuthMethod(c);
    assert HasCanonicalAuthMethod(once);
  }

  function PriorityOf(c: KiroCredentials): nat
  {
    c.priority
  }

  /** `creds.sort_by_key(|c| c.priority)`: Rust's stable sort. */
  function SortByPriority(creds: seq<KiroCredentials>): seq<KiroCredentials>
  {
    SortByKey(creds, PriorityOf)
  }

  /** The list `into_sorted_credentials` returns: sorted by priority, each record canonicalised. */
  function SortedCredentials(creds: seq<KiroCredentials>): seq<KiroCredentials>
  {
    var sorted := SortByPriority(creds);
    seq(|sorted|, i requires 0 <= i < |sorted| => CanonicalizeAuthMethod(sorted[i]))
  }

  /**
   * `CredentialsConfig::into_sorted_credentials`: a stable sort by priority, then every
   * record canonicalised in place.
   */
  method IntoSortedCredentials(creds: seq<KiroCredentials>) returns (r: seq<KiroCredentials>)
    ensures r == SortedCredentials(creds)
    ensures var sorted := SortByPriority(creds);
      |sorted| == |creds| && SortedByKey(sorted, PriorityOf) && multiset(sorted) == multiset(creds)
      && (forall p :: WithKey(sorted, PriorityOf, p) == WithKey(creds, PriorityOf, p))
      && |r| == |creds|
      && (forall i :: 0 <= i < |r| ==> r[i] == CanonicalizeAuthMethod(sorted[i]))
    ensures SortedByKey(r, PriorityOf)
    ensures forall i :: 0 <= i < |r| ==> HasCanonicalAuthMethod(r[i])
  {
    var sorted := SortByPriority(creds);
    SortSortedPermutation(creds, PriorityOf);
    forall p ensures WithKey(sorted, PriorityOf, p) == WithKey(creds, PriorityOf, p) {
      SortStable(creds, PriorityOf, p);
    }
    r := sorted;
    var i := 0;
    while i < |r|
      invariant 0 <= i <= |r| == |sorted|
      invariant forall k :: 0 <= k < i ==> r[k] == CanonicalizeAuthMethod(sorted[k])
      invariant forall k :: i <= k < |r| ==> r[k] == sorted[k]
    {
      r := r[i := CanonicalizeAuthMethod(r[i])];
      i := i + 1;
    }
    assert forall k :: 0 <= k < |r| ==> r[k].priority == sorted[k].priority;
  }
}
