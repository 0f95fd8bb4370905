/**
 * The multi-credential scheduler (`MultiTokenManager`): a table of credential entries,
 * the current credential, a round-robin counter, a scheduling mode and a session to
 * credential map. It selects credentials by priority or round robin, keeps sessions on
 * the credential they were given, counts failures and disables a credential at the third,
 * heals itself when every credential was disabled automatically, and carries the admin
 * mutations (disable, priority, reset, delete, add).
 *
 * Time is the `now` parameter; refreshing a token is the `oracle` parameter; whether a
 * write of the credentials file succeeds is the `persisted` parameter. The session cache
 * is a finite map; `EvictSession` stands for the cache dropping an entry on its own.
 */
module TokenManager {
  import opened Wrappers
  import opened Credentials
  import opened TokenRefresh
  import opened HttpClient

  /** Consecutive API failures after which a credential is disabled. */
  const MAX_FAILURES_PER_CREDENTIAL: nat := 3
  const SESSION_CACHE_MAX_CAPACITY: nat := 10000
  const SESSION_CACHE_TTL_SECS: nat := 3600

  datatype DisabledReason = Manual | TooManyFailures | QuotaExceeded | TokenRefreshFailed

  datatype SchedulingMode = RoundRobin | PriorityFill

  const DefaultSchedulingMode: SchedulingMode := RoundRobin

  datatype CredentialEntry = CredentialEntry(
    id: nat,
    credentials: KiroCredentials,
    failureCount: nat,
    disabled: bool,
    disabledReason: Option<DisabledReason>)

  datatype CallContext = CallContext(
    id: nat,
    credentials: KiroCredentials,
    token: string,
    proxyConfig: Option<ProxyConfig>)

  datatype CredentialEntrySnapshot = CredentialEntrySnapshot(
    id: nat,
    priority: nat,
    disabled: bool,
    failureCount: nat,
    authMethod: Option<string>,
    hasProfileArn: bool,
    expiresAt: Option<ExpiresAt>)

  datatype ManagerSnapshot = ManagerSnapshot(
    entries: seq<CredentialEntrySnapshot>,
    currentId: nat,
    total: nat,
    available: nat,
    sessionCacheSize: nat,
    roundRobinCounter: nat,
    schedulingMode: SchedulingMode)

  datatype NewError = DuplicateCredentialIds(ids: seq<nat>)

  /** `{:?}` of a list of ids: `[1, 2]`. */
  function IdListText(ids: seq<nat>): string
  {
    "[" + JoinIds(ids) + "]"
  }

  function JoinIds(ids: seq<nat>): string
  {
    if ids == [] then ""
    else if |ids| == 1 then NatToDecimal(ids[0])
    else NatToDecimal(ids[0]) + ", " + JoinIds(ids[1..])
  }

  function NewErrorText(e: NewError): string
  {
    "检测到重复的凭据 ID: " + IdListText(e.ids)
  }

  datatype AcquireError =
    | AllCredentialsFailed(available: nat, total: nat)
    | AllCredentialsDisabled(available: nat, total: nat)

  datatype EnsureTokenError =
    | CredentialMissing(id: nat)
    | RefreshFailed(cause: RefreshError)
    | StillExpiredAfterRefresh
    | NoAccessToken

  /** How one pass of the acquire loop ended. */
  datatype AttemptOutcome = Acquired(context: CallContext) | Unavailable(error: AcquireError) | AttemptFailed

  datatype AdminError =
    | CredentialNotFound(id: nat)
    | CredentialNotDisabled(id: nat)
    | CredentialRejected(cause: RefreshError)
    | PersistFailed

  /** The text `e.to_string()` gives, on which the disable decision is taken. */
  function EnsureTokenErrorText(e: EnsureTokenError): string
  {
    match e
    case CredentialMissing(id) => "凭据 #" + NatToDecimal(id) + " 不存在"
    case RefreshFailed(cause) => RefreshErrorText(cause)
    case StillExpiredAfterRefresh => "刷新后的 Token 仍然无效或已过期"
    case NoAccessToken => "没有可用的 accessToken"
  }

  // ---------------------------------------------------------------------------
  // The entry table as a value
  // ---------------------------------------------------------------------------

  predicate UniqueIds(es: seq<CredentialEntry>)
  {
    forall i, j :: 0 <= i < |es| && 0 <= j < |es| && i != j ==> es[i].id != es[j].id
  }

  /** `entries.iter().find(|e| e.id == id)`, as an index. */
  function IndexOfId(es: seq<CredentialEntry>, id: nat): (r: Option<nat>)
    ensures r.Some? ==> r.value < |es| && es[r.value].id == id
    ensures r.Some? ==> forall j :: 0 <= j < r.value ==> es[j].id != id
    ensures r.None? <==> forall j :: 0 <= j < |es| ==> es[j].id != id
  {
    if es == [] then None
    else if es[0].id == id then Some(0)
    else match IndexOfId(es[1..], id)
      case None => None
      case Some(k) => Some(k + 1)
  }

  /** With unique ids the entry carrying an id is found wherever it sits. */
  lemma IndexOfUniqueId(es: seq<CredentialEntry>, i: nat)
    requires UniqueIds(es) && i < |es|
    ensures IndexOfId(es, es[i].id) == Some(i)
  {
  }

  /** `entries.iter().find(|e| e.id == id && !e.disabled)`, as an index. */
  function FindEnabled(es: seq<CredentialEntry>, id: nat): (r: Option<nat>)
    ensures r.Some? ==> r.value < |es| && es[r.value].id == id && !es[r.value].disabled
    ensures r.None? <==> forall j :: 0 <= j < |es| ==> es[j].id != id || es[j].disabled
  {
    if es == [] then None
    else if es[0].id == id && !es[0].disabled then Some(0)
    else match FindEnabled(es[1..], id)
      case None => None
      case Some(k) => Some(k + 1)
  }

  predicate AnyEnabled(es: seq<CredentialEntry>)
  {
    exists i :: 0 <= i < |es| && !es[i].disabled
  }

  /** `entries.iter().filter(|e| !e.disabled)`, in table order. */
  function Enabled(es: seq<CredentialEntry>): (r: seq<CredentialEntry>)
    ensures |r| <= |es|
    ensures forall x :: x in r ==> x in es && !x.disabled
    ensures forall i :: 0 <= i < |es| && !es[i].disabled ==> es[i] in r
    ensures r == [] <==> !AnyEnabled(es)
  {
    if es == [] then []
    else
      var init := Enabled(es[..|es| - 1]);
      var last := es[|es| - 1];
      assert forall i :: 0 <= i < |es| - 1 ==> es[..|es| - 1][i] == es[i];
      if last.disabled then init else init + [last]
  }

  /** The entries `min_by_key` may pick from: enabled, and not the excluded id if any. */
  predicate Eligible(e: CredentialEntry, exclude: Option<nat>)
  {
    !e.disabled && (exclude.None? || e.id != exclude.value)
  }

  function Priority(e: CredentialEntry): nat
  {
    e.credentials.priority
  }

  /**
   * `filter(eligible).min_by_key(priority)`: the first eligible entry of least priority
   * value (Rust's `min_by_key` keeps the first of equal minima).
   */
  function BestIndex(es: seq<CredentialEntry>, exclude: Option<nat>): (r: Option<nat>)
    ensures r.Some? ==> r.value < |es| && Eligible(es[r.value], exclude)
    ensures r.Some? ==> forall j :: 0 <= j < |es| && Eligible(es[j], exclude) ==> Priority(es[r.value]) <= Priority(es[j])
    ensures r.Some? ==> forall j :: 0 <= j < r.value && Eligible(es[j], exclude) ==> Priority(es[j]) > Priority(es[r.value])
    ensures r.None? <==> forall j :: 0 <= j < |es| ==> !Eligible(es[j], exclude)
  {
    if es == [] then None
    else
      var init := es[..|es| - 1];
      var last := es[|es| - 1];
      var b := BestIndex(init, exclude);
      assert forall j :: 0 <= j < |init| ==> init[j] == es[j];
      if !Eligible(last, exclude) then b
      else if b.None? || Priority(last) < Priority(init[b.value]) then Some(|es| - 1)
      else b
  }

  /** `select_by_priority`: the id of the first enabled entry of least priority value. */
  function SelectByPriority(es: seq<CredentialEntry>): (r: Option<nat>)
    ensures r.None? <==> !AnyEnabled(es)
  {
    match BestIndex(es, None)
    case None => None
    case Some(i) => Some(es[i].id)
  }

  /** The id `select_by_priority` names belongs to the first enabled entry of least priority value. */
  lemma SelectByPriorityIsBest(es: seq<CredentialEntry>)
    requires AnyEnabled(es)
    ensures var i := BestIndex(es, None).value;
      SelectByPriority(es) == Some(es[i].id) && !es[i].disabled
      && (forall j :: 0 <= j < |es| && !es[j].disabled ==> Priority(es[i]) <= Priority(es[j]))
      && (forall j :: 0 <= j < i && !es[j].disabled ==> Priority(es[j]) > Priority(es[i]))
  {
  }

  /** `select_by_round_robin` as a value: the enabled entry at `counter mod |enabled|`. */
  function RoundRobinPick(es: seq<CredentialEntry>, counter: nat): (r: Option<nat>)
    ensures r.None? <==> !AnyEnabled(es)
    ensures r.Some? ==> r.value == Enabled(es)[counter % |Enabled(es)|].id
  {
    var available := Enabled(es);
    if available == [] then None else Some(available[counter % |available|].id)
  }

  /** Neither selector ever names a disabled credential. */
  lemma {:induction false} SelectorsNeverPickDisabled(es: seq<CredentialEntry>, counter: nat)
    requires UniqueIds(es)
    ensures SelectByPriority(es).Some? ==>
      (var k := IndexOfId(es, SelectByPriority(es).value); k.Some? && !es[k.value].disabled)
    ensures RoundRobinPick(es, counter).Some? ==>
      (var k := IndexOfId(es, RoundRobinPick(es, counter).value); k.Some? && !es[k.value].disabled)
  {
    if SelectByPriority(es).Some? {
      IndexOfUniqueId(es, BestIndex(es, None).value);
    }
    if RoundRobinPick(es, counter).Some? {
      var av := Enabled(es);
      var x := av[counter % |av|];
      assert x in av;
      var i :| 0 <= i < |es| && es[i] == x;
      IndexOfUniqueId(es, i);
    }
  }

  /** The reasons the self-heal undoes: both are set automatically. */
  predicate IsAutomaticReason(r: Option<DisabledReason>)
  {
    r == Some(TooManyFailures) || r == Some(TokenRefreshFailed)
  }

  /** Every entry disabled, and at least one of them disabled automatically. */
  /** Without an exclusion the best pick is missing exactly when no entry is enabled. */
  lemma NoBestIffNoneEnabled(es: seq<CredentialEntry>)
    ensures BestIndex(es, None).None? <==> !AnyEnabled(es)
    ensures BestIndex(es, None).None? ==> |Enabled(es)| == 0
  {
    if BestIndex(es, None).Some? {
      assert !es[BestIndex(es, None).value].disabled;
    } else if AnyEnabled(es) {
      var i :| 0 <= i < |es| && !es[i].disabled;
      assert Eligible(es[i], None);
    }
  }

  predicate NeedsHeal(es: seq<CredentialEntry>)
  {
    !AnyEnabled(es) && exists i :: 0 <= i < |es| && es[i].disabled && IsAutomaticReason(es[i].disabledReason)
  }

  function HealEntry(e: CredentialEntry): CredentialEntry
  {
    if IsAutomaticReason(e.disabledReason) then e.(disabled := false, disabledReason := None, failureCount := 0) else e
  }

  /** The self-heal of `select_any_available`: re-enable every automatically disabled entry. */
  function Heal(es: seq<CredentialEntry>): (r: seq<CredentialEntry>)
    ensures |r| == |es|
    ensures forall i :: 0 <= i < |es| ==> r[i] == HealEntry(es[i])
  {
    seq(|es|, i requires 0 <= i < |es| => HealEntry(es[i]))
  }

  /**
   * The heal re-enables exactly the entries disabled for too many failures or a failed
   * refresh, zeroing their counts, leaves `Manual` and `QuotaExceeded` entries as they were,
   * and always leaves something to select.
   */
  lemma {:induction false} HealReenablesExactlyAutomatic(es: seq<CredentialEntry>)
    requires NeedsHeal(es)
    ensures forall i :: 0 <= i < |es| ==>
      (!Heal(es)[i].disabled <==> IsAutomaticReason(es[i].disabledReason))
    ensures forall i :: 0 <= i < |es| && IsAutomaticReason(es[i].disabledReason) ==>
      Heal(es)[i].failureCount == 0 && Heal(es)[i].disabledReason.None?
    ensures forall i :: 0 <= i < |es| && !IsAutomaticReason(es[i].disabledReason) ==> Heal(es)[i] == es[i]
    ensures forall i :: 0 <= i < |es| ==> Heal(es)[i].id == es[i].id
    ensures AnyEnabled(Heal(es)) && SelectByPriority(Heal(es)).Some?
  {
    var i :| 0 <= i < |es| && es[i].disabled && IsAutomaticReason(es[i].disabledReason);
    assert !Heal(es)[i].disabled;
  }

  function BumpFailure(e: CredentialEntry): CredentialEntry
  {
    var n := e.failureCount + 1;
    if n >= MAX_FAILURES_PER_CREDENTIAL then
      e.(failureCount := n, disabled := true, disabledReason := Some(TooManyFailures))
    else e.(failureCount := n)
  }

  /** The table after `report_failure(id)`. */
  function ReportFailureEntries(es: seq<CredentialEntry>, id: nat): (r: seq<CredentialEntry>)
    ensures |r| == |es|
    ensures IndexOfId(es, id).None? ==> r == es
    ensures IndexOfId(es, id).Some? ==> r == es[IndexOfId(es, id).value := BumpFailure(es[IndexOfId(es, id).value])]
  {
    match IndexOfId(es, id)
    case None => es
    case Some(k) => es[k := BumpFailure(es[k])]
  }

  /** Whether `report_failure(id)` is the failure that disables the entry. */
  predicate CrossesThreshold(es: seq<CredentialEntry>, id: nat)
  {
    IndexOfId(es, id).Some? && es[IndexOfId(es, id).value].failureCount + 1 >= MAX_FAILURES_PER_CREDENTIAL
  }

  /** Changing an entry in place keeps every id where it was. */
  lemma {:induction false} IndexOfIdAfterUpdate(es: seq<CredentialEntry>, k: nat, e: CredentialEntry, id: nat)
    requires k < |es| && e.id == es[k].id
    ensures IndexOfId(es[k := e], id) == IndexOfId(es, id)
  {
    var es' := es[k := e];
    match IndexOfId(es, id)
    case None =>
      assert forall j :: 0 <= j < |es'| ==> es'[j].id == es[j].id;
    case Some(i) =>
      assert forall j :: 0 <= j < |es'| ==> es'[j].id == es[j].id;
      assert es'[i].id == id;
  }

  /**
   * Three consecutive failures of an enabled credential whose count is zero disable it
   * with `TooManyFailures`; the first two leave it enabled.
   */
  lemma {:induction false} ThirdFailureDisables(es: seq<CredentialEntry>, id: nat)
    requires IndexOfId(es, id).Some?
    requires es[IndexOfId(es, id).value].failureCount == 0 && !es[IndexOfId(es, id).value].disabled
    ensures var k := IndexOfId(es, id).value;
      var e1 := ReportFailureEntries(es, id);
      var e2 := ReportFailureEntries(e1, id);
      var e3 := ReportFailureEntries(e2, id);
      !e1[k].disabled && e1[k].failureCount == 1
      && !e2[k].disabled && e2[k].failureCount == 2
      && e3[k].disabled && e3[k].disabledReason == Some(TooManyFailures) && e3[k].failureCount == 3
  {
    var k := IndexOfId(es, id).value;
    var e1 := ReportFailureEntries(es, id);
    IndexOfIdAfterUpdate(es, k, BumpFailure(es[k]), id);
    var e2 := ReportFailureEntries(e1, id);
    IndexOfIdAfterUpdate(e1, k, BumpFailure(e1[k]), id);
    var e3 := ReportFailureEntries(e2, id);
  }

  /** The table after `report_success(id)`: the count of that entry is zeroed, nothing else. */
  function ReportSuccessEntries(es: seq<CredentialEntry>, id: nat): (r: seq<CredentialEntry>)
    ensures IndexOfId(es, id).None? ==> r == es
    ensures IndexOfId(es, id).Some? ==>
      r == es[IndexOfId(es, id).value := es[IndexOfId(es, id).value].(failureCount := 0)]
  {
    match IndexOfId(es, id)
    case None => es
    case Some(k) => es[k := es[k].(failureCount := 0)]
  }

  /** Whether `report_quota_exhausted(id)` acts: the id exists and is enabled. */
  predicate QuotaApplies(es: seq<CredentialEntry>, id: nat)
  {
    IndexOfId(es, id).Some? && !es[IndexOfId(es, id).value].disabled
  }

  /** The table after `report_quota_exhausted(id)`. */
  function QuotaEntries(es: seq<CredentialEntry>, id: nat): (r: seq<CredentialEntry>)
    ensures !QuotaApplies(es, id) ==> r == es
    ensures QuotaApplies(es, id) ==> var k := IndexOfId(es, id).value;
      r == es[k := es[k].(disabled := true, disabledReason := Some(QuotaExceeded),
                          failureCount := MAX_FAILURES_PER_CREDENTIAL)]
  {
    if QuotaApplies(es, id) then
      var k := IndexOfId(es, id).value;
      es[k := es[k].(disabled := true, disabledReason := Some(QuotaExceeded), failureCount := MAX_FAILURES_PER_CREDENTIAL)]
    else es
  }

  /** A quota-exhausted credential is never healed back: it is not disabled automatically. */
  lemma QuotaIsNotHealed(es: seq<CredentialEntry>, id: nat)
    requires QuotaApplies(es, id)
    ensures var k := IndexOfId(es, id).value;
      HealEntry(QuotaEntries(es, id)[k]) == QuotaEntries(es, id)[k] && QuotaEntries(es, id)[k].disabled
  {
  }

  /** The table after a refresh failure that calls for disabling the credential. */
  function DisableForRefresh(es: seq<CredentialEntry>, id: nat): (r: seq<CredentialEntry>)
    ensures IndexOfId(es, id).None? ==> r == es
    ensures IndexOfId(es, id).Some? ==> var k := IndexOfId(es, id).value;
      r == es[k := es[k].(disabled := true, disabledReason := Some(TokenRefreshFailed))]
  {
    match IndexOfId(es, id)
    case None => es
    case Some(k) => es[k := es[k].(disabled := true, disabledReason := Some(TokenRefreshFailed))]
  }

  /** `set_disabled` on one entry. */
  function SetDisabledEntry(e: CredentialEntry, disabled: bool): (r: CredentialEntry)
    ensures r.disabled == disabled && r.id == e.id && r.credentials == e.credentials
    ensures disabled ==> r.disabledReason == Some(Manual) && r.failureCount == e.failureCount
    ensures !disabled ==> r.disabledReason.None? && r.failureCount == 0
  {
    if disabled then e.(disabled := true, disabledReason := Some(Manual))
    else e.(disabled := false, failureCount := 0, disabledReason := None)
  }

  /** `reset_and_enable` on one entry. */
  function ResetEntry(e: CredentialEntry): (r: CredentialEntry)
    ensures !r.disabled && r.failureCount == 0 && r.disabledReason.None?
    ensures r.id == e.id && r.credentials == e.credentials
  {
    e.(failureCount := 0, disabled := false, disabledReason := None)
  }

  /** Enabling through `set_disabled(false)` and `reset_and_enable` leave the same entry. */
  lemma EnableEqualsReset(e: CredentialEntry)
    ensures SetDisabledEntry(e, false) == ResetEntry(e)
  {
  }

  /** `entries.iter().map(|e| e.id).max().unwrap_or(0)`. */
  function MaxEntryId(es: seq<CredentialEntry>): (r: nat)
    ensures forall i :: 0 <= i < |es| ==> es[i].id <= r
    ensures es == [] ==> r == 0
  {
    if es == [] then 0
    else
      var m := MaxEntryId(es[..|es| - 1]);
      assert forall i :: 0 <= i < |es| - 1 ==> es[..|es| - 1][i] == es[i];
      if es[|es| - 1].id > m then es[|es| - 1].id else m
  }

  /** `retain(|e| e.id != id)`. */
  function RemoveId(es: seq<CredentialEntry>, id: nat): (r: seq<CredentialEntry>)
    ensures forall x :: x in r <==> x in es && x.id != id
    ensures |r| <= |es|
  {
    if es == [] then []
    else
      var init := RemoveId(es[..|es| - 1], id);
      var last := es[|es| - 1];
      assert es == es[..|es| - 1] + [last];
      if last.id == id then init else init + [last]
  }

  lemma {:induction false} RemoveIdKeepsUnique(es: seq<CredentialEntry>, id: nat)
    requires UniqueIds(es)
    ensures UniqueIds(RemoveId(es, id))
    decreases |es|
  {
    if es != [] {
      var init := es[..|es| - 1];
      assert UniqueIds(init);
      RemoveIdKeepsUnique(init, id);
      var last := es[|es| - 1];
      if last.id != id {
        var r := RemoveId(init, id);
        forall j | 0 <= j < |r| ensures r[j].id != last.id {
          assert r[j] in r;
          assert r[j] in init;
        }
      }
    }
  }

  /** With unique ids removing an id removes exactly one entry and keeps the others in order. */
  lemma {:induction false} RemoveUniqueIdRemovesOne(es: seq<CredentialEntry>, k: nat)
    requires UniqueIds(es) && k < |es|
    ensures RemoveId(es, es[k].id) == es[..k] + es[k + 1..]
    decreases |es|
  {
    var id := es[k].id;
    var init := es[..|es| - 1];
    var last := es[|es| - 1];
    if k == |es| - 1 {
      RemoveAbsent(init, id);
    } else {
      assert UniqueIds(init);
      RemoveUniqueIdRemovesOne(init, k);
      assert init[k].id == id;
      assert es[..k] + es[k + 1..] == (init[..k] + init[k + 1..]) + [last];
    }
  }

  lemma {:induction false} RemoveAbsent(es: seq<CredentialEntry>, id: nat)
    requires forall j :: 0 <= j < |es| ==> es[j].id != id
    ensures RemoveId(es, id) == es
    decreases |es|
  {
    if es != [] {
      RemoveAbsent(es[..|es| - 1], id);
      assert es == es[..|es| - 1] + [es[|es| - 1]];
    }
  }

  // ---------------------------------------------------------------------------
  // Construction: validation, id allocation, duplicate detection
  // ---------------------------------------------------------------------------

  /** The credentials that pass `validate_refresh_token`, in order. */
  function ValidCredentials(cs: seq<KiroCredentials>): (r: seq<KiroCredentials>)
    ensures |r| <= |cs|
    ensures forall c :: c in r <==> c in cs && ValidateRefreshToken(c).Ok?
  {
    if cs == [] then []
    else
      var init := cs[..|cs| - 1];
      var last := cs[|cs| - 1];
      assert cs == init + [last];
      ValidCredentials(init) + (if ValidateRefreshToken(last).Ok? then [last] else [])
  }

  /** `filter_map(|c| c.id).max().unwrap_or(0)`. */
  function MaxPresentId(cs: seq<KiroCredentials>): (r: nat)
    ensures forall i :: 0 <= i < |cs| && cs[i].id.Some? ==> cs[i].id.value <= r
  {
    if cs == [] then 0
    else
      var m := MaxPresentId(cs[..|cs| - 1]);
      var last := cs[|cs| - 1];
      assert forall i :: 0 <= i < |cs| - 1 ==> cs[..|cs| - 1][i] == cs[i];
      if last.id.Some? && last.id.value > m then last.id.value else m
  }

  /** How many credentials have no id. */
  function CountIdless(cs: seq<KiroCredentials>): (r: nat)
    ensures r <= |cs|
  {
    if cs == [] then 0
    else CountIdless(cs[..|cs| - 1]) + (if cs[|cs| - 1].id.None? then 1 else 0)
  }

  /**
   * The id the k-th valid credential ends up with: its own, or the next free one after
   * `base`, handed out consecutively to the id-less credentials in order.
   */
  function AssignedId(v: seq<KiroCredentials>, k: nat, base: nat): nat
    requires k < |v|
  {
    if v[k].id.Some? then v[k].id.value else base + CountIdless(v[..k])
  }

  /** One credential as `new` stores it: canonical auth method, its id, a machine id if one can be derived. */
  function PrepareCredential(c: KiroCredentials, id: nat, machineIdFor: KiroCredentials -> Option<string>): (r: KiroCredentials)
    ensures r.id == Some(id) && r.priority == c.priority && r.poolId == c.poolId && HasCanonicalAuthMethod(r)
  {
    var withId := CanonicalizeAuthMethod(c).(id := Some(id));
    if withId.machineId.None? && machineIdFor(withId).Some? then withId.(machineId := machineIdFor(withId)) else withId
  }

  function FreshEntry(c: KiroCredentials, id: nat): CredentialEntry
  {
    CredentialEntry(id, c, 0, false, None)
  }

  /** The entry `new` builds for the k-th valid credential. */
  function AllocatedEntry(v: seq<KiroCredentials>, k: nat, base: nat, machineIdFor: KiroCredentials -> Option<string>): CredentialEntry
    requires k < |v|
  {
    FreshEntry(PrepareCredential(v[k], AssignedId(v, k, base), machineIdFor), AssignedId(v, k, base))
  }

  /** The entry table `new` builds before checking for duplicate ids. */
  function BuildEntries(cs: seq<KiroCredentials>, machineIdFor: KiroCredentials -> Option<string>): (r: seq<CredentialEntry>)
    ensures |r| == |ValidCredentials(cs)|
    ensures var v := ValidCredentials(cs); (forall k :: 0 <= k < |r| ==>
        r[k] == FreshEntry(PrepareCredential(v[k], AssignedId(v, k, MaxPresentId(v) + 1), machineIdFor),
                           AssignedId(v, k, MaxPresentId(v) + 1)))
  {
    var v := ValidCredentials(cs);
    var base := MaxPresentId(v) + 1;
    seq(|v|, k requires 0 <= k < |v| => FreshEntry(PrepareCredential(v[k], AssignedId(v, k, base), machineIdFor), AssignedId(v, k, base)))
  }

  function IdSet(es: seq<CredentialEntry>): set<nat>
  {
    set i | 0 <= i < |es| :: es[i].id
  }

  /** The ids `new` reports as duplicates: each entry whose id appeared before it. */
  function DuplicateIds(es: seq<CredentialEntry>): seq<nat>
  {
    if es == [] then []
    else
      var init := es[..|es| - 1];
      DuplicateIds(init) + (if es[|es| - 1].id in IdSet(init) then [es[|es| - 1].id] else [])
  }

  lemma {:induction false} DuplicateIdsEmptyIffUnique(es: seq<CredentialEntry>)
    ensures DuplicateIds(es) == [] <==> UniqueIds(es)
    decreases |es|
  {
    if es != [] {
      var init := es[..|es| - 1];
      var last := es[|es| - 1];
      DuplicateIdsEmptyIffUnique(init);
      assert forall i :: 0 <= i < |init| ==> init[i] == es[i];
      if UniqueIds(es) {
        assert UniqueIds(init);
        assert last.id !in IdSet(init);
      }
      if DuplicateIds(es) == [] {
        assert UniqueIds(init);
        assert last.id !in IdSet(init);
        forall i, j | 0 <= i < |es| && 0 <= j < |es| && i != j ensures es[i].id != es[j].id {
          if j == |es| - 1 { assert es[i].id in IdSet(init); }
          else if i == |es| - 1 { assert es[j].id in IdSet(init); }
        }
      }
    }
  }

  /** Explicit ids among the valid credentials are pairwise distinct. */
  predicate ExplicitIdsDistinct(v: seq<KiroCredentials>)
  {
    forall i, j :: 0 <= i < |v| && 0 <= j < |v| && i != j && v[i].id.Some? && v[j].id.Some? ==> v[i].id != v[j].id
  }

  lemma {:induction false} CountIdlessPrefix(v: seq<KiroCredentials>, i: nat, j: nat)
    requires i < j <= |v| && v[i].id.None?
    ensures CountIdless(v[..i]) < CountIdless(v[..j])
    decreases j
  {
    assert v[..j][..j - 1] == v[..j - 1];
    if j - 1 > i {
      CountIdlessPrefix(v, i, j - 1);
    } else {
      assert v[..j - 1] == v[..i];
    }
    CountIdlessMonotone(v, j - 1, j);
  }

  lemma {:induction false} CountIdlessMonotone(v: seq<KiroCredentials>, i: nat, j: nat)
    requires i <= j <= |v|
    ensures CountIdless(v[..i]) <= CountIdless(v[..j])
    decreases j - i
  {
    if i < j {
      CountIdlessMonotone(v, i, j - 1);
      assert v[..j][..j - 1] == v[..j - 1];
    }
  }

  /**
   * `new` fails exactly when two valid credentials carry the same explicit id: an allocated
   * id lies above every explicit one, and allocated ids are consecutive.
   */
  lemma {:induction false} BuildEntriesUniqueIffExplicitDistinct(cs: seq<KiroCredentials>, g: KiroCredentials -> Option<string>)
    ensures UniqueIds(BuildEntries(cs, g)) <==> ExplicitIdsDistinct(ValidCredentials(cs))
  {
    var v := ValidCredentials(cs);
    var es := BuildEntries(cs, g);
    var base := MaxPresentId(v) + 1;
    if ExplicitIdsDistinct(v) {
      forall i, j | 0 <= i < |es| && 0 <= j < |es| && i != j ensures es[i].id != es[j].id {
        if v[i].id.None? && v[j].id.None? {
          if i < j { CountIdlessPrefix(v, i, j); } else { CountIdlessPrefix(v, j, i); }
        }
      }
    }
    if UniqueIds(es) {
      forall i, j | 0 <= i < |v| && 0 <= j < |v| && i != j && v[i].id.Some? && v[j].id.Some?
        ensures v[i].id != v[j].id
      {
        assert es[i].id == v[i].id.value && es[j].id == v[j].id.value;
      }
    }
  }

  /**
   * What `acquire_context_internal` may do to the table between its start and any later
   * point: ids stay put, a credential disabled by an operator or for quota stays disabled
   * with its reason, and whatever it newly disables carries `TokenRefreshFailed`.
   */
  ghost predicate AcquireKeeps(a: seq<CredentialEntry>, b: seq<CredentialEntry>)
  {
    |a| == |b|
    && (forall i :: 0 <= i < |a| ==> b[i].id == a[i].id)
    && (forall i :: 0 <= i < |a| && a[i].disabled && !IsAutomaticReason(a[i].disabledReason) ==>
          b[i].disabled && b[i].disabledReason == a[i].disabledReason)
    && (forall i :: 0 <= i < |a| && !a[i].disabled && b[i].disabled ==> b[i].disabledReason == Some(TokenRefreshFailed))
  }

  /** One step of an attempt: `AcquireKeeps`, and an entry disabled before and after keeps its reason. */
  ghost predicate AcquireStep(a: seq<CredentialEntry>, b: seq<CredentialEntry>)
  {
    AcquireKeeps(a, b)
    && (forall i :: 0 <= i < |a| && a[i].disabled && b[i].disabled ==> b[i].disabledReason == a[i].disabledReason)
  }

  lemma AcquireKeepsStep(a: seq<CredentialEntry>, b: seq<CredentialEntry>, c: seq<CredentialEntry>)
    requires AcquireKeeps(a, b) && AcquireStep(b, c)
    ensures AcquireKeeps(a, c)
  {
  }

  lemma HealIsAcquireStep(es: seq<CredentialEntry>)
    ensures AcquireStep(es, Heal(es))
  {
  }

  lemma DisableForRefreshIsAcquireStep(es: seq<CredentialEntry>, k: nat)
    requires k < |es| && !es[k].disabled && IndexOfId(es, es[k].id) == Some(k)
    ensures AcquireStep(es, DisableForRefresh(es, es[k].id))
  {
  }

  // ---------------------------------------------------------------------------
  // The scheduler
  // ---------------------------------------------------------------------------

  class MultiTokenManager {
    var entries: seq<CredentialEntry>
    var currentId: nat
    var sessionMap: map<string, nat>
    var roundRobinCounter: nat
    var schedulingMode: SchedulingMode
    /** The pool-level (or global) proxy handed to the manager at construction. */
    const proxy: Option<ProxyConfig>

    /** Every credential id occurs once. */
    ghost predicate Valid()
      reads this
    {
      UniqueIds(entries)
    }

    /** The struct literal at the end of `new`. */
    constructor Init(es: seq<CredentialEntry>, initialId: nat, proxy: Option<ProxyConfig>)
      ensures entries == es && currentId == initialId && this.proxy == proxy
      ensures sessionMap == map[] && roundRobinCounter == 0 && schedulingMode == DefaultSchedulingMode
    {
      entries := es;
      currentId := initialId;
      sessionMap := map[];
      roundRobinCounter := 0;
      schedulingMode := DefaultSchedulingMode;
      this.proxy := proxy;
    }

    /** The validation loop of `new`: keep what passes, count what does not. */
    static method FilterValid(credentials: seq<KiroCredentials>) returns (valid: seq<KiroCredentials>, skipped: nat)
      ensures valid == ValidCredentials(credentials)
      ensures skipped == |credentials| - |valid|
    {
      valid := [];
      skipped := 0;
      var i := 0;
      while i < |credentials|
        invariant 0 <= i <= |credentials|
        invariant valid == ValidCredentials(credentials[..i])
        invariant skipped == i - |valid|
      {
        assert credentials[..i + 1][..i] == credentials[..i];
        if ValidateRefreshToken(credentials[i]).Ok? {
          valid := valid + [credentials[i]];
        } else {
          skipped := skipped + 1;
        }
        i := i + 1;
      }
      assert credentials[..i] == credentials;
    }

    /** The id allocation loop of `new`. */
    static method AllocateIds(valid: seq<KiroCredentials>, machineIdFor: KiroCredentials -> Option<string>)
      returns (entries: seq<CredentialEntry>)
      ensures |entries| == |valid|
      ensures forall j :: 0 <= j < |valid| ==>
        entries[j] == FreshEntry(PrepareCredential(valid[j], AssignedId(valid, j, MaxPresentId(valid) + 1), machineIdFor),
                                 AssignedId(valid, j, MaxPresentId(valid) + 1))
    {
      var base := MaxPresentId(valid) + 1;
      var nextId := base;
      entries := [];
      var k := 0;
      while k < |valid|
        invariant 0 <= k <= |valid|
        invariant nextId == base + CountIdless(valid[..k])
        invariant |entries| == k
        // `== true` keeps `AllocatedUpTo` whole: the loop hands it from one turn to the next as it is
        invariant AllocatedUpTo(entries, valid, base, machineIdFor) == true
      {
        AllocateStep(valid, k, base, nextId);
        var entry;
        entry, nextId := PrepareEntry(valid[k], nextId, machineIdFor);
        AllocatedSnoc(entries, entry, valid, base, machineIdFor);
        entries := entries + [entry];
        k := k + 1;
      }
    }

    /** The entries so far are those `new` builds for the first valid credentials. */
    static ghost predicate AllocatedUpTo(entries: seq<CredentialEntry>, valid: seq<KiroCredentials>, base: nat,
                                         machineIdFor: KiroCredentials -> Option<string>)
    {
      |entries| <= |valid| && forall j :: 0 <= j < |entries| ==> entries[j] == AllocatedEntry(valid, j, base, machineIdFor)
    }

    /** Appending the entry for the next valid credential keeps `AllocatedUpTo`. */
    static lemma AllocatedSnoc(entries: seq<CredentialEntry>, entry: CredentialEntry, valid: seq<KiroCredentials>,
                               base: nat, machineIdFor: KiroCredentials -> Option<string>)
      requires AllocatedUpTo(entries, valid, base, machineIdFor) && |entries| < |valid|
      requires entry == AllocatedEntry(valid, |entries|, base, machineIdFor)
      ensures AllocatedUpTo(entries + [entry], valid, base, machineIdFor)
    {
    }

    /** The k-th turn of the allocation loop hands out `AssignedId` and moves the counter past it. */
    static lemma AllocateStep(valid: seq<KiroCredentials>, k: nat, base: nat, nextId: nat)
      requires k < |valid| && nextId == base + CountIdless(valid[..k])
      ensures (if valid[k].id.Some? then valid[k].id.value else nextId) == AssignedId(valid, k, base)
      ensures nextId + (if valid[k].id.None? then 1 else 0) == base + CountIdless(valid[..k + 1])
    {
      assert valid[..k + 1][..k] == valid[..k];
    }

    /**
     * One turn of the id allocation loop: canonicalise the auth method, keep the
     * credential's own id or hand out `nextId`, and derive a machine id when missing.
     */
    static method PrepareEntry(c: KiroCredentials, nextId: nat, machineIdFor: KiroCredentials -> Option<string>)
      returns (entry: CredentialEntry, next: nat)
      ensures var id := if c.id.Some? then c.id.value else nextId;
        entry == FreshEntry(PrepareCredential(c, id, machineIdFor), id)
      ensures next == nextId + (if c.id.None? then 1 else 0)
    {
      var cred := CanonicalizeAuthMethod(c);
      var id: nat;
      next := nextId;
      if cred.id.Some? {
        id := cred.id.value;
      } else {
        id := nextId;
        next := nextId + 1;
      }
      cred := cred.(id := Some(id));
      if cred.machineId.None? {
        var generated := machineIdFor(cred);
        if generated.Some? {
          cred := cred.(machineId := generated);
        }
      }
      entry := CredentialEntry(id, cred, 0, false, None);
    }

    /** The duplicate detection loop of `new`, with its set of ids seen so far. */
    static method FindDuplicates(entries: seq<CredentialEntry>) returns (duplicates: seq<nat>)
      ensures duplicates == DuplicateIds(entries)
      ensures duplicates == [] <==> UniqueIds(entries)
    {
      var seen: set<nat> := {};
      duplicates := [];
      var m := 0;
      while m < |entries|
        invariant 0 <= m <= |entries|
        invariant seen == IdSet(entries[..m])
        invariant duplicates == DuplicateIds(entries[..m])
      {
        assert entries[..m + 1][..m] == entries[..m];
        assert IdSet(entries[..m + 1]) == IdSet(entries[..m]) + {entries[m].id} by {
          assert forall j :: 0 <= j < m ==> entries[..m + 1][j] == entries[..m][j];
        }
        if entries[m].id in seen {
          duplicates := duplicates + [entries[m].id];
        }
        seen := seen + {entries[m].id};
        m := m + 1;
      }
      assert entries[..m] == entries;
      DuplicateIdsEmptyIffUnique(entries);
    }

    /**
     * `MultiTokenManager::new`: drop credentials that fail validation, allocate ids to the
     * id-less ones from the largest existing id + 1, refuse duplicate ids, and start with
     * every entry enabled, the counter at 0 and the first entry of least priority value
     * as the current credential (0 when there is none).
     */
    static method New(credentials: seq<KiroCredentials>, proxy: Option<ProxyConfig>,
                      machineIdFor: KiroCredentials -> Option<string>)
      returns (r: Result<MultiTokenManager, NewError>, skipped: nat)
      ensures skipped == |credentials| - |ValidCredentials(credentials)|
      ensures r.Ok? <==> UniqueIds(BuildEntries(credentials, machineIdFor))
      ensures r.Err? ==> r.error == DuplicateCredentialIds(DuplicateIds(BuildEntries(credentials, machineIdFor)))
      ensures r.Ok? ==> fresh(r.value) && r.value.Valid()
      ensures r.Ok? ==> var m := r.value;
        m.entries == BuildEntries(credentials, machineIdFor)
        && (forall i :: 0 <= i < |m.entries| ==> (!m.entries[i].disabled && m.entries[i].failureCount == 0
                                               && m.entries[i].disabledReason.None?))
        && m.roundRobinCounter == 0 && m.schedulingMode == RoundRobin && m.sessionMap == map[] && m.proxy == proxy
        && m.currentId == (if m.entries == [] then 0 else m.entries[BestIndex(m.entries, None).value].id)
    {
      var valid;
      valid, skipped := FilterValid(credentials);
      var entries := AllocateIds(valid, machineIdFor);
      assert entries == BuildEntries(credentials, machineIdFor);
      var duplicates := FindDuplicates(entries);
      if duplicates != [] {
        r := Err(DuplicateCredentialIds(duplicates));
        return;
      }
      // Every entry is enabled, so `min_by_key` over all of them is `BestIndex`.
      assert entries != [] ==> BestIndex(entries, None).Some? by {
        if entries != [] { assert Eligible(entries[0], None); }
      }
      var initialId := match BestIndex(entries, None) case Some(b) => entries[b].id case None => 0;
      var manager := new MultiTokenManager.Init(entries, initialId, proxy);
      r := Ok(manager);
    }

    function TotalCount(): (r: nat)
      reads this
      ensures r == |entries|
    {
      |entries|
    }

    /** `available_count`: the enabled entries. */
    function AvailableCount(): (r: nat)
      reads this
      ensures r <= |entries|
      ensures r == 0 <==> !AnyEnabled(entries)
    {
      |Enabled(entries)|
    }

    /** `credentials()`: the current credential, or the default record when it is gone. */
    function CurrentCredentials(): (r: KiroCredentials)
      reads this
      ensures IndexOfId(entries, currentId).Some? ==> r == entries[IndexOfId(entries, currentId).value].credentials
      ensures IndexOfId(entries, currentId).None? ==> r == DefaultCredentials
    {
      match IndexOfId(entries, currentId)
      case Some(k) => entries[k].credentials
      case None => DefaultCredentials
    }

    /** `resolve_proxy_config`: the credential's own proxy first, then the manager's. */
    function ResolveProxyConfig(c: KiroCredentials): (r: Option<ProxyConfig>)
      ensures c.proxyUrl.Some? ==> r == Some(ProxyConfig(c.proxyUrl.value, c.proxyUsername, c.proxyPassword))
      ensures c.proxyUrl.None? ==> r == proxy
    {
      if c.proxyUrl.Some? then Some(ProxyConfig(c.proxyUrl.value, c.proxyUsername, c.proxyPassword)) else proxy
    }

    /** `reset_round_robin_counter`. */
    method ResetRoundRobinCounter()
      modifies this
      ensures roundRobinCounter == 0
      ensures entries == old(entries) && currentId == old(currentId) && sessionMap == old(sessionMap)
      ensures schedulingMode == old(schedulingMode)
    {
      roundRobinCounter := 0;
    }

    /** `select_by_round_robin`: the counter advances by one only when something is enabled. */
    method SelectByRoundRobin() returns (r: Option<nat>)
      modifies this
      ensures r == RoundRobinPick(entries, old(roundRobinCounter))
      ensures roundRobinCounter == if AnyEnabled(entries) then old(roundRobinCounter) + 1 else old(roundRobinCounter)
      ensures entries == old(entries) && currentId == old(currentId) && sessionMap == old(sessionMap)
      ensures schedulingMode == old(schedulingMode)
    {
      var available := Enabled(entries);
      if available == [] {
        return None;
      }
      var counter := roundRobinCounter;
      roundRobinCounter := roundRobinCounter + 1;
      r := Some(available[counter % |available|].id);
    }

    /** The `match mode` that picks a selector. */
    method SelectByMode(mode: SchedulingMode) returns (r: Option<nat>)
      modifies this
      ensures mode == RoundRobin ==> r == RoundRobinPick(entries, old(roundRobinCounter))
      ensures mode == PriorityFill ==> r == SelectByPriority(entries) && roundRobinCounter == old(roundRobinCounter)
      ensures entries == old(entries) && currentId == old(currentId) && sessionMap == old(sessionMap)
      ensures schedulingMode == old(schedulingMode)
      ensures roundRobinCounter >= old(roundRobinCounter)
    {
      match mode
      case RoundRobin => r := SelectByRoundRobin();
      case PriorityFill => r := SelectByPriority(entries);
    }

    /**
     * `select_any_available`: the best enabled entry becomes current; when nothing is
     * enabled and something was disabled automatically, the self-heal runs first.
     */
    method SelectAnyAvailable(total: nat) returns (r: Result<(nat, KiroCredentials), AcquireError>)
      modifies this
      ensures var healed := if NeedsHeal(old(entries)) then Heal(old(entries)) else old(entries);
        entries == healed
        && (BestIndex(healed, None).Some? ==>
              var b := BestIndex(healed, None).value;
              r == Ok((healed[b].id, healed[b].credentials)) && currentId == healed[b].id)
        && (BestIndex(healed, None).None? ==>
              r == Err(AllCredentialsDisabled(0, total)) && currentId == old(currentId))
      ensures r.Ok? ==> exists i :: 0 <= i < |entries| && entries[i].id == r.value.0 && !entries[i].disabled
                                   && entries[i].credentials == r.value.1
      ensures roundRobinCounter == old(roundRobinCounter) && sessionMap == old(sessionMap)
      ensures schedulingMode == old(schedulingMode)
    {
      var best := BestIndex(entries, None);
      NoBestIffNoneEnabled(entries);
      if best.None? && exists i :: 0 <= i < |entries| && entries[i].disabled && IsAutomaticReason(entries[i].disabledReason) {
        entries := Heal(entries);
        best := BestIndex(entries, None);
        NoBestIffNoneEnabled(entries);
      }
      if best.Some? {
        currentId := entries[best.value].id;
        r := Ok((entries[best.value].id, entries[best.value].credentials));
        assert !entries[best.value].disabled;
      } else {
        r := Err(AllCredentialsDisabled(|Enabled(entries)|, total));
      }
    }

    /**
     * `try_ensure_token`: refresh the credential when it is expired or expiring soon
     * (reading the stored record again first), refuse a refreshed token that is still
     * expired, store the refreshed record, and return the access token with its proxy.
     */
    method TryEnsureToken(id: nat, credentials: KiroCredentials, now: int, oracle: RefreshOracle)
      returns (r: Result<CallContext, EnsureTokenError>)
      modifies this
      ensures |entries| == |old(entries)|
      ensures forall i :: 0 <= i < |entries| ==> entries[i] == old(entries[i]).(credentials := entries[i].credentials)
      ensures forall i :: 0 <= i < |entries| && entries[i].credentials != old(entries[i].credentials) ==>
        IndexOfId(old(entries), id) == Some(i) && NeedsRefresh(old(entries[i].credentials), now)
        && RefreshToken(old(entries[i].credentials), now, oracle) == Ok(entries[i].credentials)
      ensures !NeedsRefresh(credentials, now) ==> entries == old(entries)
      ensures r.Ok? ==> (r.value.id == id && r.value.credentials.accessToken == Some(r.value.token)
        && !IsTokenExpired(r.value.credentials, now)
        && r.value.proxyConfig == ResolveProxyConfig(r.value.credentials))
      ensures r.Ok? && !NeedsRefresh(credentials, now) ==> r.value.credentials == credentials
      ensures r.Ok? && NeedsRefresh(credentials, now) ==>
        IndexOfId(entries, id).Some? && entries[IndexOfId(entries, id).value].credentials == r.value.credentials
      ensures currentId == old(currentId) && roundRobinCounter == old(roundRobinCounter)
      ensures sessionMap == old(sessionMap) && schedulingMode == old(schedulingMode)
    {
      var creds := credentials;
      if NeedsRefresh(credentials, now) {
        var k := IndexOfId(entries, id);
        if k.None? {
          return Err(CredentialMissing(id));
        }
        var current := entries[k.value].credentials;
        if NeedsRefresh(current, now) {
          var refreshed := RefreshToken(current, now, oracle);
          if refreshed.Err? {
            return Err(RefreshFailed(refreshed.error));
          }
          if IsTokenExpired(refreshed.value, now) {
            return Err(StillExpiredAfterRefresh);
          }
          entries := entries[k.value := entries[k.value].(credentials := refreshed.value)];
          IndexOfIdAfterUpdate(old(entries), k.value, entries[k.value], id);
          // A failed write of the credentials file is only logged here.
          creds := refreshed.value;
        } else {
          creds := current;
        }
      }
      if creds.accessToken.None? {
        return Err(NoAccessToken);
      }
      r := Ok(CallContext(id, creds, creds.accessToken.value, ResolveProxyConfig(creds)));
    }

    /** The error branch of the acquire loop: disable on a marker, and reset the counter. */
    method DisableOnRefreshFailure(id: nat, text: string)
      modifies this
      ensures ShouldDisable(text) ==> entries == DisableForRefresh(old(entries), id) && roundRobinCounter == 0
      ensures !ShouldDisable(text) ==> entries == old(entries) && roundRobinCounter == old(roundRobinCounter)
      ensures currentId == old(currentId) && sessionMap == old(sessionMap) && schedulingMode == old(schedulingMode)
    {
      if ShouldDisable(text) {
        match IndexOfId(entries, id) {
          case Some(k) =>
            entries := entries[k := entries[k].(disabled := true, disabledReason := Some(TokenRefreshFailed))];
          case None =>
        }
        ResetRoundRobinCounter();
      }
    }

    /**
     * The target check of the acquire loop: an enabled entry with the target id is used
     * as it is; otherwise `select_any_available` decides (and may heal).
     */
    method ResolveTarget(target: Option<nat>, total: nat) returns (r: Result<nat, AcquireError>)
      requires Valid()
      modifies this
      ensures Valid() && AcquireStep(old(entries), entries)
      ensures r.Ok? ==> r.value < |entries| && !entries[r.value].disabled
      ensures target.Some? && FindEnabled(old(entries), target.value).Some? ==>
        r == Ok(FindEnabled(old(entries), target.value).value) && entries == old(entries)
      ensures r.Err? ==> r.error.AllCredentialsDisabled?
      ensures roundRobinCounter == old(roundRobinCounter) && sessionMap == old(sessionMap)
      ensures schedulingMode == old(schedulingMode)
    {
      var found := if target.Some? then FindEnabled(entries, target.value) else None;
      if found.Some? {
        return Ok(found.value);
      }
      ghost var before := entries;
      var any := SelectAnyAvailable(total);
      HealIsAcquireStep(before);
      if any.Err? {
        return Err(any.error);
      }
      var b := BestIndex(entries, None).value;
      IndexOfUniqueId(entries, b);
      r := Ok(b);
    }

    /**
     * One pass of the acquire loop for a chosen target: resolve it to an enabled entry,
     * make sure its token is usable, and on failure let the error text decide whether
     * the credential is disabled.
     */
    method AttemptOnce(target: Option<nat>, total: nat, now: int, oracle: RefreshOracle, ghost start: seq<CredentialEntry>)
      returns (r: AttemptOutcome)
      requires Valid() && AcquireKeeps(start, entries)
      modifies this
      ensures Valid() && AcquireKeeps(start, entries)
      ensures r.Acquired? ==> exists i :: 0 <= i < |entries| && entries[i].id == r.context.id && !entries[i].disabled
                                         && entries[i].credentials == r.context.credentials
      ensures r.Acquired? ==> !IsTokenExpired(r.context.credentials, now)
                              && r.context.credentials.accessToken == Some(r.context.token)
      ensures r.Acquired? && target.Some? && FindEnabled(old(entries), target.value).Some? ==>
        r.context.id == target.value
      ensures r.Unavailable? ==> r.error.AllCredentialsDisabled?
      ensures sessionMap == old(sessionMap) && schedulingMode == old(schedulingMode)
    {
      ghost var before := entries;
      var pick := ResolveTarget(target, total);
      if pick.Err? {
        return Unavailable(pick.error);
      }
      AcquireKeepsStep(start, before, entries);
      var k := pick.value;
      var id, creds := entries[k].id, entries[k].credentials;
      ghost var selected := entries;
      IndexOfUniqueId(selected, k);
      var attempt := TryEnsureToken(id, creds, now, oracle);
      assert AcquireStep(selected, entries);
      AcquireKeepsStep(start, selected, entries);
      IndexOfUniqueId(entries, k);
      if attempt.Ok? {
        assert entries[k].credentials == attempt.value.credentials;
        return Acquired(attempt.value);
      }
      ghost var afterTry := entries;
      DisableOnRefreshFailure(id, EnsureTokenErrorText(attempt.error));
      DisableForRefreshIsAcquireStep(afterTry, k);
      AcquireKeepsStep(start, afterTry, entries);
      r := AttemptFailed;
    }

    /**
     * `acquire_context_internal`. The first attempt uses the session's cached credential,
     * or (no cache hit) a fresh selection for a session, or the current credential without
     * one; retries select by mode. A target that is gone or disabled gives way to
     * `select_any_available`. Every failed attempt may disable its credential; at most
     * `total` attempts are made and the session is bound only on success.
     */
    method AcquireContext(sessionId: Option<string>, now: int, oracle: RefreshOracle)
      returns (r: Result<CallContext, AcquireError>, ghost failedAttempts: nat)
      requires Valid()
      modifies this
      ensures Valid()
      ensures failedAttempts <= |old(entries)|
      ensures old(entries) == [] ==> r == Err(AllCredentialsFailed(0, 0)) && entries == old(entries)
      ensures AcquireKeeps(old(entries), entries)
      ensures r.Ok? ==> exists i :: 0 <= i < |entries| && entries[i].id == r.value.id && !entries[i].disabled
                                   && entries[i].credentials == r.value.credentials
      ensures r.Ok? ==> !IsTokenExpired(r.value.credentials, now) && r.value.credentials.accessToken == Some(r.value.token)
      ensures r.Ok? && sessionId.Some? ==> sessionMap == old(sessionMap)[sessionId.value := r.value.id]
      ensures r.Err? || sessionId.None? ==> sessionMap == old(sessionMap)
      ensures (r.Ok? && failedAttempts == 0 && sessionId.Some? && sessionId.value in old(sessionMap)
               && FindEnabled(old(entries), old(sessionMap)[sessionId.value]).Some?) ==>
              r.value.id == old(sessionMap)[sessionId.value]
      ensures (r.Ok? && failedAttempts == 0 && sessionId.None? && FindEnabled(old(entries), old(currentId)).Some?) ==>
              r.value.id == old(currentId)
      ensures schedulingMode == old(schedulingMode)
    {
      var total := |entries|;
      var tried := 0;
      failedAttempts := 0;
      var cachedId: Option<nat> := None;
      if sessionId.Some? && sessionId.value in sessionMap {
        cachedId := Some(sessionMap[sessionId.value]);
      }
      var mode := schedulingMode;
      while tried < total
        invariant tried <= total && failedAttempts == tried
        invariant Valid() && AcquireKeeps(old(entries), entries)
        invariant sessionMap == old(sessionMap) && schedulingMode == old(schedulingMode)
        invariant tried == 0 ==> entries == old(entries) && currentId == old(currentId)
      {
        var target: Option<nat>;
        if tried == 0 {
          if cachedId.Some? {
            target := cachedId;
          } else if sessionId.Some? {
            target := SelectByMode(mode);
          } else {
            target := Some(currentId);
          }
        } else {
          target := SelectByMode(mode);
        }
        var outcome := AttemptOnce(target, total, now, oracle, old(entries));
        match outcome {
          case Unavailable(e) =>
            return Err(e), failedAttempts;
          case Acquired(ctx) =>
            if sessionId.Some? {
              sessionMap := sessionMap[sessionId.value := ctx.id];
            }
            return Ok(ctx), failedAttempts;
          case AttemptFailed =>
        }
        tried := tried + 1;
        failedAttempts := failedAttempts + 1;
      }
      r := Err(AllCredentialsFailed(|Enabled(entries)|, total));
    }

    /** A session binding may vanish at any time (the cache's own expiry and eviction). */
    method EvictSession(sessionId: string)
      modifies this
      ensures sessionMap == old(sessionMap) - {sessionId}
      ensures entries == old(entries) && currentId == old(currentId)
      ensures roundRobinCounter == old(roundRobinCounter) && schedulingMode == old(schedulingMode)
    {
      sessionMap := sessionMap - {sessionId};
    }

    /** `select_highest_priority`: the best enabled entry becomes current, if there is one. */
    method SelectHighestPriority()
      modifies this
      ensures currentId == if SelectByPriority(entries).Some? then SelectByPriority(entries).value else old(currentId)
      ensures entries == old(entries) && roundRobinCounter == old(roundRobinCounter)
      ensures sessionMap == old(sessionMap) && schedulingMode == old(schedulingMode)
    {
      var best := SelectByPriority(entries);
      if best.Some? {
        currentId := best.value;
      }
    }

    /** `report_success`: only the failure count of that entry is zeroed. */
    method ReportSuccess(id: nat)
      requires Valid()
      modifies this
      ensures Valid()
      ensures entries == ReportSuccessEntries(old(entries), id)
      ensures currentId == old(currentId) && roundRobinCounter == old(roundRobinCounter)
      ensures sessionMap == old(sessionMap) && schedulingMode == old(schedulingMode)
    {
      match IndexOfId(entries, id) {
        case Some(k) => entries := entries[k := entries[k].(failureCount := 0)];
        case None =>
      }
    }

    /**
     * `report_failure`: count one more failure; the third disables the entry with
     * `TooManyFailures`, re-points the current credential at the best enabled entry and
     * resets the counter. Returns whether an enabled entry remains.
     */
    method ReportFailure(id: nat) returns (hasAvailable: bool)
      requires Valid()
      modifies this
      ensures Valid()
      ensures entries == ReportFailureEntries(old(entries), id)
      ensures hasAvailable == AnyEnabled(entries)
      ensures CrossesThreshold(old(entries), id) ==>
        roundRobinCounter == 0
        && currentId == (if SelectByPriority(entries).Some? then SelectByPriority(entries).value else old(currentId))
      ensures !CrossesThreshold(old(entries), id) ==>
        roundRobinCounter == old(roundRobinCounter) && currentId == old(currentId)
      ensures sessionMap == old(sessionMap) && schedulingMode == old(schedulingMode)
    {
      var k := IndexOfId(entries, id);
      if k.None? {
        return AnyEnabled(entries);
      }
      var crossing := entries[k.value].failureCount + 1 >= MAX_FAILURES_PER_CREDENTIAL;
      entries := entries[k.value := BumpFailure(entries[k.value])];
      if crossing {
        var next := SelectByPriority(entries);
        if next.Some? {
          currentId := next.value;
          hasAvailable := true;
        } else {
          hasAvailable := false;
        }
        ResetRoundRobinCounter();
      } else {
        hasAvailable := AnyEnabled(entries);
      }
    }

    /**
     * `report_quota_exhausted`: an enabled entry is disabled at once with `QuotaExceeded`
     * and its count set to the threshold; the current credential moves to the best enabled
     * entry and the counter is reset. Unknown or already disabled ids change nothing.
     */
    method ReportQuotaExhausted(id: nat) returns (hasAvailable: bool)
      requires Valid()
      modifies this
      ensures Valid()
      ensures entries == QuotaEntries(old(entries), id)
      ensures hasAvailable == AnyEnabled(entries)
      ensures QuotaApplies(old(entries), id) ==>
        roundRobinCounter == 0
        && currentId == (if SelectByPriority(entries).Some? then SelectByPriority(entries).value else old(currentId))
      ensures !QuotaApplies(old(entries), id) ==>
        roundRobinCounter == old(roundRobinCounter) && currentId == old(currentId)
      ensures sessionMap == old(sessionMap) && schedulingMode == old(schedulingMode)
    {
      var k := IndexOfId(entries, id);
      if k.None? || entries[k.value].disabled {
        return AnyEnabled(entries);
      }
      entries := entries[k.value := entries[k.value].(disabled := true, disabledReason := Some(QuotaExceeded),
                                                      failureCount := MAX_FAILURES_PER_CREDENTIAL)];
      var next := SelectByPriority(entries);
      if next.Some? {
        currentId := next.value;
        hasAvailable := true;
      } else {
        hasAvailable := false;
      }
      ResetRoundRobinCounter();
    }

    /**
     * `switch_to_next`: the best enabled entry other than the current one becomes current;
     * without one, report whether the current entry itself is usable.
     */
    method SwitchToNext() returns (switched: bool)
      modifies this
      ensures BestIndex(entries, Some(old(currentId))).Some? ==>
        switched && currentId == entries[BestIndex(entries, Some(old(currentId))).value].id
        && currentId != old(currentId)
      ensures BestIndex(entries, Some(old(currentId))).None? ==>
        currentId == old(currentId) && (switched <==> FindEnabled(entries, currentId).Some?)
      ensures entries == old(entries) && roundRobinCounter == old(roundRobinCounter)
      ensures sessionMap == old(sessionMap) && schedulingMode == old(schedulingMode)
    {
      var next := BestIndex(entries, Some(currentId));
      if next.Some? {
        currentId := entries[next.value].id;
        return true;
      }
      switched := FindEnabled(entries, currentId).Some?;
    }

    /** `snapshot`: one record per entry plus the counts the admin API shows. */
    function Snapshot(): (s: ManagerSnapshot)
      reads this
      ensures |s.entries| == |entries| && s.total == |entries|
      ensures s.available == |Enabled(entries)| && s.available <= s.total
      ensures s.available == 0 <==> !AnyEnabled(entries)
      ensures forall i :: 0 <= i < |entries| ==>
        s.entries[i].id == entries[i].id && s.entries[i].disabled == entries[i].disabled
        && s.entries[i].failureCount == entries[i].failureCount
        && s.entries[i].priority == entries[i].credentials.priority
        && (s.entries[i].authMethod.Some? <==> entries[i].credentials.authMethod.Some?)
        && (s.entries[i].authMethod.Some? ==> !IsIdcAlias(s.entries[i].authMethod.value))
      ensures s.currentId == currentId && s.roundRobinCounter == roundRobinCounter
      ensures s.schedulingMode == schedulingMode && s.sessionCacheSize == |sessionMap|
    {
      ManagerSnapshot(
        seq(|entries|, i requires 0 <= i < |entries| reads this =>
          CredentialEntrySnapshot(
            entries[i].id,
            entries[i].credentials.priority,
            entries[i].disabled,
            entries[i].failureCount,
            match entries[i].credentials.authMethod
              case None => None
              case Some(m) => Some(CanonicalizeAuthMethodValue(m)),
            entries[i].credentials.profileArn.Some?,
            entries[i].credentials.expiresAt)),
        currentId,
        |entries|,
        |Enabled(entries)|,
        |sessionMap|,
        roundRobinCounter,
        schedulingMode)
    }

    /**
     * `set_disabled`: disabling records `Manual`; enabling clears the count and the reason.
     * The counter is reset before the credentials file is written.
     */
    method SetDisabled(id: nat, disabled: bool, persisted: bool) returns (r: Result<(), AdminError>)
      requires Valid()
      modifies this
      ensures Valid()
      ensures IndexOfId(old(entries), id).None? ==>
        r == Err(CredentialNotFound(id)) && entries == old(entries) && roundRobinCounter == old(roundRobinCounter)
      ensures IndexOfId(old(entries), id).Some? ==> var k := IndexOfId(old(entries), id).value;
        entries == old(entries)[k := SetDisabledEntry(old(entries[k]), disabled)]
        && roundRobinCounter == 0 && (r.Ok? <==> persisted) && (r.Err? ==> r.error == PersistFailed)
      ensures currentId == old(currentId) && sessionMap == old(sessionMap) && schedulingMode == old(schedulingMode)
    {
      var k := IndexOfId(entries, id);
      if k.None? {
        return Err(CredentialNotFound(id));
      }
      entries := entries[k.value := SetDisabledEntry(entries[k.value], disabled)];
      ResetRoundRobinCounter();
      if !persisted {
        return Err(PersistFailed);
      }
      r := Ok(());
    }

    /**
     * `set_priority`: the new priority takes effect in memory and the best enabled entry
     * becomes current even when the write fails; the counter is left alone.
     */
    method SetPriority(id: nat, priority: nat, persisted: bool) returns (r: Result<(), AdminError>)
      requires Valid()
      modifies this
      ensures Valid()
      ensures IndexOfId(old(entries), id).None? ==>
        r == Err(CredentialNotFound(id)) && entries == old(entries) && currentId == old(currentId)
      ensures IndexOfId(old(entries), id).Some? ==> var k := IndexOfId(old(entries), id).value;
        entries == old(entries)[k := old(entries[k]).(credentials := old(entries[k]).credentials.(priority := priority))]
        && currentId == (if SelectByPriority(entries).Some? then SelectByPriority(entries).value else old(currentId))
        && (r.Ok? <==> persisted) && (r.Err? ==> r.error == PersistFailed)
      ensures roundRobinCounter == old(roundRobinCounter) && sessionMap == old(sessionMap)
      ensures schedulingMode == old(schedulingMode)
    {
      var k := IndexOfId(entries, id);
      if k.None? {
        return Err(CredentialNotFound(id));
      }
      entries := entries[k.value := entries[k.value].(credentials := entries[k.value].credentials.(priority := priority))];
      SelectHighestPriority();
      if !persisted {
        return Err(PersistFailed);
      }
      r := Ok(());
    }

    /** `reset_and_enable`: count and reason cleared, entry enabled; the counter is left alone. */
    method ResetAndEnable(id: nat, persisted: bool) returns (r: Result<(), AdminError>)
      requires Valid()
      modifies this
      ensures Valid()
      ensures IndexOfId(old(entries), id).None? ==> r == Err(CredentialNotFound(id)) && entries == old(entries)
      ensures IndexOfId(old(entries), id).Some? ==> var k := IndexOfId(old(entries), id).value;
        entries == old(entries)[k := ResetEntry(old(entries[k]))]
        && (r.Ok? <==> persisted) && (r.Err? ==> r.error == PersistFailed)
      ensures currentId == old(currentId) && roundRobinCounter == old(roundRobinCounter)
      ensures sessionMap == old(sessionMap) && schedulingMode == old(schedulingMode)
    {
      var k := IndexOfId(entries, id);
      if k.None? {
        return Err(CredentialNotFound(id));
      }
      entries := entries[k.value := ResetEntry(entries[k.value])];
      if !persisted {
        return Err(PersistFailed);
      }
      r := Ok(());
    }

    /**
     * `add_credential`: validate, refresh once to prove the credential works, give it the
     * largest id + 1, keep the caller's priority, canonical auth method, client id and
     * secret, region and machine id, and append it enabled. The counter is reset only
     * after a successful write.
     */
    method AddCredential(newCred: KiroCredentials, now: int, oracle: RefreshOracle, persisted: bool)
      returns (r: Result<nat, AdminError>)
      requires Valid()
      modifies this
      ensures Valid()
      ensures RefreshToken(newCred, now, oracle).Err? ==>
        r == Err(CredentialRejected(RefreshToken(newCred, now, oracle).error)) && entries == old(entries)
        && roundRobinCounter == old(roundRobinCounter)
      ensures RefreshToken(newCred, now, oracle).Ok? ==>
        var newId := MaxEntryId(old(entries)) + 1;
        var refreshed := RefreshToken(newCred, now, oracle).value;
        entries == old(entries) + [CredentialEntry(newId,
          refreshed.(id := Some(newId), priority := newCred.priority,
                     authMethod := CanonicalizeAuthMethod(newCred).authMethod,
                     clientId := newCred.clientId, clientSecret := newCred.clientSecret,
                     region := newCred.region, machineId := newCred.machineId), 0, false, None)]
        && (persisted ==> r == Ok(newId) && roundRobinCounter == 0)
        && (!persisted ==> r == Err(PersistFailed) && roundRobinCounter == old(roundRobinCounter))
      ensures r.Ok? ==> forall i :: 0 <= i < |old(entries)| ==> old(entries[i]).id < r.value
      ensures currentId == old(currentId) && sessionMap == old(sessionMap) && schedulingMode == old(schedulingMode)
    {
      var checked := ValidateRefreshToken(newCred);
      if checked.Err? {
        return Err(CredentialRejected(checked.error));
      }
      var refreshed := RefreshToken(newCred, now, oracle);
      if refreshed.Err? {
        return Err(CredentialRejected(refreshed.error));
      }
      var newId := MaxEntryId(entries) + 1;
      var validated := refreshed.value.(id := Some(newId), priority := newCred.priority,
                                        authMethod := CanonicalizeAuthMethod(newCred).authMethod,
                                        clientId := newCred.clientId, clientSecret := newCred.clientSecret,
                                        region := newCred.region, machineId := newCred.machineId);
      entries := entries + [CredentialEntry(newId, validated, 0, false, None)];
      if !persisted {
        return Err(PersistFailed);
      }
      ResetRoundRobinCounter();
      r := Ok(newId);
    }

    /**
     * `delete_credential`: only a disabled credential may go. When it was the current one
     * the best enabled entry becomes current; an emptied table resets the current id to 0.
     * The counter is reset only after a successful write.
     */
    method DeleteCredential(id: nat, persisted: bool) returns (r: Result<(), AdminError>)
      requires Valid()
      modifies this
      ensures Valid()
      ensures IndexOfId(old(entries), id).None? ==>
        r == Err(CredentialNotFound(id)) && entries == old(entries) && currentId == old(currentId)
      ensures IndexOfId(old(entries), id).Some? && !old(entries)[IndexOfId(old(entries), id).value].disabled ==>
        r == Err(CredentialNotDisabled(id)) && entries == old(entries) && currentId == old(currentId)
      ensures (r.Err? && (r.error.CredentialNotFound? || r.error.CredentialNotDisabled?)) ==>
        roundRobinCounter == old(roundRobinCounter)
      ensures IndexOfId(old(entries), id).Some? && old(entries)[IndexOfId(old(entries), id).value].disabled ==>
        var k := IndexOfId(old(entries), id).value;
        entries == old(entries)[..k] + old(entries)[k + 1..]
        && currentId == (if entries == [] then 0
                         else if old(currentId) == id && SelectByPriority(entries).Some? then SelectByPriority(entries).value
                         else old(currentId))
        && (persisted ==> r == Ok(()) && roundRobinCounter == 0)
        && (!persisted ==> r == Err(PersistFailed) && roundRobinCounter == old(roundRobinCounter))
      ensures sessionMap == old(sessionMap) && schedulingMode == old(schedulingMode)
    {
      var k := IndexOfId(entries, id);
      if k.None? {
        return Err(CredentialNotFound(id));
      }
      if !entries[k.value].disabled {
        return Err(CredentialNotDisabled(id));
      }
      RemoveDisabled(id, k.value);
      if !persisted {
        return Err(PersistFailed);
      }
      ResetRoundRobinCounter();
      r := Ok(());
    }

    /** The in-memory half of `delete_credential`: drop the entry with this id and, when it was
        the current one, choose the next by priority. */
    method RemoveDisabled(id: nat, ghost k: nat)
      requires Valid() && IndexOfId(entries, id) == Some(k)
      modifies this
      ensures Valid()
      ensures entries == old(entries)[..k] + old(entries)[k + 1..]
      ensures currentId == (if entries == [] then 0
                            else if old(currentId) == id && SelectByPriority(entries).Some? then SelectByPriority(entries).value
                            else old(currentId))
      ensures roundRobinCounter == old(roundRobinCounter)
      ensures sessionMap == old(sessionMap) && schedulingMode == old(schedulingMode)
    {
      var wasCurrent := currentId == id;
      RemoveUniqueIdRemovesOne(entries, k);
      RemoveIdKeepsUnique(entries, id);
      entries := RemoveId(entries, id);
      if wasCurrent {
        SelectHighestPriority();
      }
      if entries == [] {
        currentId := 0;
      }
    }

    /** `set_scheduling_mode`. */
    method SetSchedulingMode(mode: SchedulingMode)
      modifies this
      ensures schedulingMode == mode
      ensures entries == old(entries) && currentId == old(currentId)
      ensures roundRobinCounter == old(roundRobinCounter) && sessionMap == old(sessionMap)
    {
      schedulingMode := mode;
    }
  }
}
