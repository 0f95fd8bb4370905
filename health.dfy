/**
 * The `/health` endpoint: credential counts from the token manager's snapshot, one entry
 * per pool snapshot, and the overall status with its HTTP code. The snapshots are the
 * inputs; the timestamp and version strings are passed through.
 */
module Health {
  import opened Wrappers
  import TM = TokenManager
  import PR = PoolRegistry

  datatype HealthStatus = Healthy | Degraded | Unhealthy

  datatype CredentialsHealth = CredentialsHealth(total: nat, available: nat, disabled: nat, failed: nat)

  datatype PoolHealth = PoolHealth(id: string, name: string, enabled: bool,
                                   totalCredentials: nat, availableCredentials: nat)

  datatype HealthResponse = HealthResponse(
    status: HealthStatus,
    timestamp: string,
    version: string,
    credentials: CredentialsHealth,
    pools: Option<seq<PoolHealth>>)

  const HTTP_OK: nat := 200
  const HTTP_SERVICE_UNAVAILABLE: nat := 503

  /** The status rule: nothing available is unhealthy, under half of the total (rounded down) degraded. */
  function DeriveStatus(available: nat, total: nat): (s: HealthStatus)
    ensures s == Unhealthy <==> available == 0
    ensures s == Degraded <==> 0 < available < total / 2
    ensures s == Healthy <==> available > 0 && available >= total / 2
  {
    if available == 0 then Unhealthy
    else if available < total / 2 then Degraded
    else Healthy
  }

  function StatusCode(s: HealthStatus): (code: nat)
    ensures code == HTTP_SERVICE_UNAVAILABLE <==> s == Unhealthy
    ensures code == HTTP_OK <==> s != Unhealthy
  {
    match s
    case Healthy => HTTP_OK
    case Degraded => HTTP_OK
    case Unhealthy => HTTP_SERVICE_UNAVAILABLE
  }

  function CountDisabled(es: seq<TM.CredentialEntrySnapshot>): (n: nat)
    ensures n <= |es|
  {
    if es == [] then 0 else CountDisabled(es[..|es| - 1]) + (if es[|es| - 1].disabled then 1 else 0)
  }

  function CountFailed(es: seq<TM.CredentialEntrySnapshot>): (n: nat)
    ensures n <= |es|
  {
    if es == [] then 0 else CountFailed(es[..|es| - 1]) + (if es[|es| - 1].failureCount > 0 then 1 else 0)
  }

  /** The credential counts: from the snapshot when a token manager is configured, all zero otherwise. */
  function CredentialCounts(tm: Option<TM.ManagerSnapshot>): (h: CredentialsHealth)
    ensures tm.None? ==> h == CredentialsHealth(0, 0, 0, 0)
    ensures tm.Some? ==> (h.total == tm.value.total && h.available == tm.value.available
      && h.disabled == CountDisabled(tm.value.entries) && h.failed == CountFailed(tm.value.entries))
  {
    match tm
    case None => CredentialsHealth(0, 0, 0, 0)
    case Some(s) => CredentialsHealth(s.total, s.available, CountDisabled(s.entries), CountFailed(s.entries))
  }

  function PoolHealthOf(p: PR.PoolSnapshot): PoolHealth
  {
    PoolHealth(p.id, p.name, p.enabled, p.totalCredentials, p.availableCredentials)
  }

  /** `health_check`: the response body and its HTTP status code. */
  function HealthCheck(tm: Option<TM.ManagerSnapshot>, pools: Option<seq<PR.PoolSnapshot>>,
                       timestamp: string, version: string): (r: (HealthResponse, nat))
    ensures r.0.credentials == CredentialCounts(tm)
    ensures r.0.status == DeriveStatus(r.0.credentials.available, r.0.credentials.total)
    ensures r.1 == StatusCode(r.0.status)
    ensures r.0.pools.Some? <==> pools.Some?
    ensures pools.Some? ==> |r.0.pools.value| == |pools.value| && forall i :: 0 <= i < |pools.value| ==>
      (r.0.pools.value[i].id == pools.value[i].id && r.0.pools.value[i].name == pools.value[i].name
      && r.0.pools.value[i].enabled == pools.value[i].enabled
      && r.0.pools.value[i].totalCredentials == pools.value[i].totalCredentials
      && r.0.pools.value[i].availableCredentials == pools.value[i].availableCredentials)
  {
    var credentials := CredentialCounts(tm);
    var poolsHealth := match pools {
      case None => None
      case Some(ps) => Some(seq(|ps|, i requires 0 <= i < |ps| => PoolHealthOf(ps[i])))
    };
    var status := DeriveStatus(credentials.available, credentials.total);
    (HealthResponse(status, timestamp, version, credentials, poolsHealth), StatusCode(status))
  }

  /** Without a token manager the service reports unhealthy with a 503. */
  lemma NoTokenManagerIsUnhealthy(pools: Option<seq<PR.PoolSnapshot>>, timestamp: string, version: string)
    ensures HealthCheck(None, pools, timestamp, version).0.status == Unhealthy
    ensures HealthCheck(None, pools, timestamp, version).1 == HTTP_SERVICE_UNAVAILABLE
  {
  }

  function CountDisabledEntries(es: seq<TM.CredentialEntry>): nat
  {
    if es == [] then 0 else CountDisabledEntries(es[..|es| - 1]) + (if es[|es| - 1].disabled then 1 else 0)
  }

  lemma {:induction false} EnabledPlusDisabled(es: seq<TM.CredentialEntry>)
    ensures |TM.Enabled(es)| + CountDisabledEntries(es) == |es|
  {
    if es != [] {
      EnabledPlusDisabled(es[..|es| - 1]);
    }
  }

  lemma {:induction false} CountDisabledPointwise(ss: seq<TM.CredentialEntrySnapshot>, es: seq<TM.CredentialEntry>)
    requires |ss| == |es| && forall i :: 0 <= i < |es| ==> ss[i].disabled == es[i].disabled
    ensures CountDisabled(ss) == CountDisabledEntries(es)
  {
    if es != [] {
      CountDisabledPointwise(ss[..|ss| - 1], es[..|es| - 1]);
    }
  }

  /** For a real token manager, the available and disabled counts add up to the total. */
  lemma CountsAddUp(m: TM.MultiTokenManager)
    ensures var h := CredentialCounts(Some(m.Snapshot()));
      h.available + h.disabled == h.total && h.failed <= h.total
  {
    var s := m.Snapshot();
    CountDisabledPointwise(s.entries, m.entries);
    EnabledPlusDisabled(m.entries);
  }
}
