/**
 * The pool registry (`PoolManager`): a map from pool id to a runtime made of the pool's
 * configuration, its own scheduler and its resolved proxy. It reloads pools and
 * credentials, routes an API key's binding to a pool, and creates, updates and deletes
 * pools.
 *
 * What the pools file and the credentials file hold on a reload, and whether a write of
 * the pools file succeeds, are parameters; the iteration order of the map, where the
 * source depends on it, is the `order` parameter (any enumeration of the pool ids).
 */
module PoolRegistry {
  import opened Wrappers
  import opened Sorting
  import opened Credentials
  import opened TokenManager
  import opened HttpClient
  import opened Pools
  import opened PoolErrors

  /** The binding value that asks for automatic routing. */
  const AUTO_ROUTE_POOL_ID: string := "__auto__"

  /** `PoolRuntime`; the scheduler is shared by reference, as the source's `Arc` is. */
  datatype PoolRuntime = PoolRuntime(config: Pool, tokenManager: MultiTokenManager, proxyConfig: Option<ProxyConfig>)

  datatype UpdatePoolRequest = UpdatePoolRequest(
    name: Option<string>,
    description: Option<string>,
    enabled: Option<bool>,
    schedulingMode: Option<SchedulingMode>,
    proxyUrl: Option<string>,
    proxyUsername: Option<string>,
    proxyPassword: Option<string>,
    priority: Option<nat>)

  const EmptyUpdate: UpdatePoolRequest := UpdatePoolRequest(None, None, None, None, None, None, None, None)

  datatype PoolSnapshot = PoolSnapshot(
    id: string,
    name: string,
    description: Option<string>,
    enabled: bool,
    schedulingMode: SchedulingMode,
    hasProxy: bool,
    priority: nat,
    totalCredentials: nat,
    availableCredentials: nat,
    currentId: nat,
    sessionCacheSize: nat,
    roundRobinCounter: nat)

  /** The pool a credential belongs to: its `pool_id`, or the default pool. */
  function PoolKey(c: KiroCredentials): string
  {
    c.poolId.UnwrapOr(DEFAULT_POOL_ID)
  }

  /** The grouping loop of `reload`: credentials by pool key, each group in input order. */
  function GroupByPool(cs: seq<KiroCredentials>): (m: map<string, seq<KiroCredentials>>)
    ensures forall k :: k in m ==> forall c :: c in m[k] ==> PoolKey(c) == k
    ensures forall c :: c in cs ==> PoolKey(c) in m && c in m[PoolKey(c)]
    ensures forall k :: k in m ==> forall c :: c in m[k] ==> c in cs
  {
    if cs == [] then map[]
    else
      var init := cs[..|cs| - 1];
      var last := cs[|cs| - 1];
      var m := GroupByPool(init);
      assert cs == init + [last];
      var k := PoolKey(last);
      m[k := (if k in m then m[k] else []) + [last]]
  }

  /** The credentials of `cs` that belong to pool `k`, in input order. */
  function PoolMembers(cs: seq<KiroCredentials>, k: string): seq<KiroCredentials>
  {
    if cs == [] then []
    else PoolMembers(cs[..|cs| - 1], k) + (if PoolKey(cs[|cs| - 1]) == k then [cs[|cs| - 1]] else [])
  }

  /** Each group is exactly its pool's credentials in input order; a pool nobody names has no group. */
  lemma {:induction false} GroupByPoolKeepsOrder(cs: seq<KiroCredentials>)
    ensures forall k :: k in GroupByPool(cs) ==> GroupByPool(cs)[k] == PoolMembers(cs, k)
    ensures forall k :: k !in GroupByPool(cs) ==> PoolMembers(cs, k) == []
    decreases |cs|
  {
    if cs != [] {
      GroupByPoolKeepsOrder(cs[..|cs| - 1]);
    }
  }

  /** The ids of the first n pools of a list. */
  function IdsBefore(ps: seq<Pool>, n: nat): set<string>
    requires n <= |ps|
  {
    if n == 0 then {} else IdsBefore(ps, n - 1) + {ps[n - 1].id}
  }

  /** An id is among the first n pool ids exactly when one of the first n pools has it. */
  lemma {:induction false} IdsBeforeMembers(ps: seq<Pool>, n: nat)
    requires n <= |ps|
    ensures forall id :: id in IdsBefore(ps, n) <==> exists q :: 0 <= q < n && ps[q].id == id
  {
    if n > 0 {
      IdsBeforeMembers(ps, n - 1);
    }
  }

  /** The position of the last of the first n pools with that id: the configuration `reload` keeps for it. */
  function LastIndex(ps: seq<Pool>, n: nat, id: string): (r: nat)
    requires n <= |ps| && id in IdsBefore(ps, n)
    ensures r < n && ps[r].id == id
    ensures forall q :: r < q < n ==> ps[q].id != id
  {
    if ps[n - 1].id == id then n - 1 else LastIndex(ps, n - 1, id)
  }

  /**
   * What `credentials_by_pool.remove(&pool_id)` hands the j-th configured pool: its group,
   * unless an earlier pool with the same id has taken it already.
   */
  function GroupAt(configured: seq<Pool>, groups: map<string, seq<KiroCredentials>>, j: nat): seq<KiroCredentials>
    requires j < |configured|
  {
    var id := configured[j].id;
    if id in IdsBefore(configured, j) || id !in groups then [] else groups[id]
  }

  /**
   * What is left of the grouped credentials after the runtime loop of `reload` has taken
   * the groups of the first j pools: the groups of exactly the other pool ids, untouched.
   */
  ghost predicate Remaining(configured: seq<Pool>, groups: map<string, seq<KiroCredentials>>, j: nat,
                            byPool: map<string, seq<KiroCredentials>>)
    requires j <= |configured|
  {
    (forall k :: k in byPool <==> k in groups && k !in IdsBefore(configured, j))
    && forall k :: k in byPool ==> byPool[k] == groups[k]
  }

  /** Removing the j-th pool's id takes `Remaining` from j to j + 1. */
  lemma RemainingStep(configured: seq<Pool>, groups: map<string, seq<KiroCredentials>>, j: nat,
                      byPool: map<string, seq<KiroCredentials>>)
    requires j < |configured| && Remaining(configured, groups, j, byPool)
    ensures Remaining(configured, groups, j + 1, byPool - {configured[j].id})
  {
    var rest := byPool - {configured[j].id};
    assert forall k :: k in rest ==> k in byPool && rest[k] == byPool[k];
    assert IdsBefore(configured, j + 1) == IdsBefore(configured, j) + {configured[j].id};
  }

  /** What `reload` files under one pool id: a configuration and the entries of its scheduler. */
  datatype PlannedPool = PlannedPool(config: Pool, entries: seq<CredentialEntry>)

  /**
   * What the runtime loop of `reload` has filed after the first n configured pools: each
   * pool, with the entries `MultiTokenManager::new` makes of the group `GroupAt` hands it,
   * under its id, a later pool replacing an earlier one with the same id.
   */
  function ReloadPlan(configured: seq<Pool>, groups: map<string, seq<KiroCredentials>>,
                      machineIdFor: KiroCredentials -> Option<string>, n: nat): (plan: map<string, PlannedPool>)
    requires n <= |configured|
    ensures plan.Keys == IdsBefore(configured, n)
  {
    if n == 0 then map[]
    else
      var pool := configured[n - 1];
      ReloadPlan(configured, groups, machineIdFor, n - 1)[pool.id := PlannedAt(configured, groups, machineIdFor, n - 1)]
  }

  /** What the j-th configured pool files: its configuration and the entries `new` makes of its group. */
  function PlannedAt(configured: seq<Pool>, groups: map<string, seq<KiroCredentials>>,
                     machineIdFor: KiroCredentials -> Option<string>, j: nat): PlannedPool
    requires j < |configured|
  {
    PlannedPool(configured[j], BuildEntries(GroupAt(configured, groups, j), machineIdFor))
  }

  /** Each id of the plan holds what the last configured pool with that id files. */
  lemma {:induction false} ReloadPlanLast(configured: seq<Pool>, groups: map<string, seq<KiroCredentials>>,
                                          machineIdFor: KiroCredentials -> Option<string>, n: nat, id: string)
    requires n <= |configured| && id in IdsBefore(configured, n)
    ensures id in ReloadPlan(configured, groups, machineIdFor, n)
    ensures ReloadPlan(configured, groups, machineIdFor, n)[id] == PlannedAt(configured, groups, machineIdFor, LastIndex(configured, n, id))
  {
    if configured[n - 1].id != id {
      ReloadPlanLast(configured, groups, machineIdFor, n - 1, id);
    }
  }

  /** Every planned scheduler holds only credentials of its own pool. */
  lemma ReloadPlanKeepsPool(configured: seq<Pool>, groups: map<string, seq<KiroCredentials>>,
                            machineIdFor: KiroCredentials -> Option<string>, n: nat)
    requires n <= |configured|
    requires forall k :: k in groups ==> forall c :: c in groups[k] ==> PoolKey(c) == k
    ensures forall id :: id in ReloadPlan(configured, groups, machineIdFor, n) ==>
      forall e :: e in ReloadPlan(configured, groups, machineIdFor, n)[id].entries ==> PoolKey(e.credentials) == id
  {
    var plan := ReloadPlan(configured, groups, machineIdFor, n);
    forall id | id in plan
      ensures forall e :: e in plan[id].entries ==> PoolKey(e.credentials) == id
    {
      ReloadPlanLast(configured, groups, machineIdFor, n, id);
      var q := LastIndex(configured, n, id);
      EntriesKeepPool(GroupAt(configured, groups, q), machineIdFor, id);
    }
  }

  /**
   * Whether the scheduler for the j-th configured pool can be built: the explicit ids of
   * the group's valid credentials are pairwise distinct (by
   * `BuildEntriesUniqueIffExplicitDistinct`, exactly when `new` finds no duplicate id).
   */
  predicate GroupBuilds(configured: seq<Pool>, groups: map<string, seq<KiroCredentials>>, j: nat)
    requires j < |configured|
  {
    ExplicitIdsDistinct(ValidCredentials(GroupAt(configured, groups, j)))
  }

  /** Whether the schedulers for the first n configured pools can all be built. */
  predicate FirstGroupsBuild(configured: seq<Pool>, groups: map<string, seq<KiroCredentials>>, n: nat)
    requires n <= |configured|
  {
    n == 0 || (FirstGroupsBuild(configured, groups, n - 1) && GroupBuilds(configured, groups, n - 1))
  }

  /** `FirstGroupsBuild` says exactly that every one of the first n schedulers can be built. */
  lemma {:induction false} FirstGroupsBuildAll(configured: seq<Pool>, groups: map<string, seq<KiroCredentials>>, n: nat)
    requires n <= |configured|
    ensures FirstGroupsBuild(configured, groups, n) <==>
      forall q :: 0 <= q < n ==> GroupBuilds(configured, groups, q)
  {
    if n > 0 {
      FirstGroupsBuildAll(configured, groups, n - 1);
    }
  }

  /** One scheduler that cannot be built spoils every longer run. */
  lemma {:induction false} FirstGroupsBuildStops(configured: seq<Pool>, groups: map<string, seq<KiroCredentials>>,
                                                 j: nat, n: nat)
    requires j < n <= |configured| && !GroupBuilds(configured, groups, j)
    ensures !FirstGroupsBuild(configured, groups, n)
    decreases n
  {
    if j < n - 1 {
      FirstGroupsBuildStops(configured, groups, j, n - 1);
    }
  }

  /**
   * The runtime loop of `reload` stops at the j-th pool with error e: every earlier
   * scheduler could be built, this one cannot, and e is the error `new` gives for it.
   */
  predicate FailsAt(configured: seq<Pool>, groups: map<string, seq<KiroCredentials>>,
                    machineIdFor: KiroCredentials -> Option<string>, j: int, e: PoolError)
  {
    0 <= j < |configured| && FirstGroupsBuild(configured, groups, j)
    && !GroupBuilds(configured, groups, j) && e == GroupError(configured, groups, machineIdFor, j)
  }

  /** The error `reload` stops with when the j-th pool's scheduler cannot be built. */
  function GroupError(configured: seq<Pool>, groups: map<string, seq<KiroCredentials>>,
                      machineIdFor: KiroCredentials -> Option<string>, j: nat): PoolError
    requires j < |configured|
  {
    TokenManagerError(NewErrorText(DuplicateCredentialIds(DuplicateIds(BuildEntries(GroupAt(configured, groups, j), machineIdFor)))))
  }

  /**
   * When every group builds, every planned scheduler holds entries with pairwise distinct
   * ids, which is `MultiTokenManager`'s own invariant.
   */
  lemma ReloadPlanUnique(configured: seq<Pool>, groups: map<string, seq<KiroCredentials>>,
                         machineIdFor: KiroCredentials -> Option<string>)
    requires FirstGroupsBuild(configured, groups, |configured|)
    ensures forall id :: id in ReloadPlan(configured, groups, machineIdFor, |configured|) ==>
      UniqueIds(ReloadPlan(configured, groups, machineIdFor, |configured|)[id].entries)
  {
    var n := |configured|;
    var plan := ReloadPlan(configured, groups, machineIdFor, n);
    FirstGroupsBuildAll(configured, groups, n);
    forall id | id in plan
      ensures UniqueIds(plan[id].entries)
    {
      ReloadPlanLast(configured, groups, machineIdFor, n, id);
      var q := LastIndex(configured, n, id);
      assert GroupBuilds(configured, groups, q);
      BuildEntriesUniqueIffExplicitDistinct(GroupAt(configured, groups, q), machineIdFor);
    }
  }

  /** `update_pool`'s merge: only fields present in the request change; the proxy can be set but not cleared. */
  function MergePoolUpdate(p: Pool, u: UpdatePoolRequest): (r: Pool)
    ensures r.id == p.id && r.createdAt == p.createdAt
    ensures r.name == (if u.name.Some? then u.name.value else p.name)
    ensures r.description == (if u.description.Some? then u.description else p.description)
    ensures r.enabled == (if u.enabled.Some? then u.enabled.value else p.enabled)
    ensures r.schedulingMode == (if u.schedulingMode.Some? then u.schedulingMode.value else p.schedulingMode)
    ensures r.proxyUrl == (if u.proxyUrl.Some? then u.proxyUrl else p.proxyUrl)
    ensures r.proxyUsername == (if u.proxyUsername.Some? then u.proxyUsername else p.proxyUsername)
    ensures r.proxyPassword == (if u.proxyPassword.Some? then u.proxyPassword else p.proxyPassword)
    ensures r.priority == (if u.priority.Some? then u.priority.value else p.priority)
  {
    Pool(p.id,
         if u.name.Some? then u.name.value else p.name,
         if u.description.Some? then u.description else p.description,
         if u.enabled.Some? then u.enabled.value else p.enabled,
         if u.schedulingMode.Some? then u.schedulingMode.value else p.schedulingMode,
         if u.proxyUrl.Some? then u.proxyUrl else p.proxyUrl,
         if u.proxyUsername.Some? then u.proxyUsername else p.proxyUsername,
         if u.proxyPassword.Some? then u.proxyPassword else p.proxyPassword,
         if u.priority.Some? then u.priority.value else p.priority,
         p.createdAt)
  }

  /** The empty request changes nothing, and a pool proxy once set stays set. */
  lemma MergePoolUpdateLaws(p: Pool, u: UpdatePoolRequest)
    ensures MergePoolUpdate(p, EmptyUpdate) == p
    ensures HasProxy(p) ==> HasProxy(MergePoolUpdate(p, u))
  {
  }

  /** The request `set_pool_disabled` sends. */
  function DisableRequest(disabled: bool): (u: UpdatePoolRequest)
    ensures u == EmptyUpdate.(enabled := Some(!disabled))
  {
    EmptyUpdate.(enabled := Some(!disabled))
  }

  /** `set_pool_disabled(d)` changes exactly the enabled flag, to `!d`. */
  lemma DisableRequestOnlyFlipsEnabled(p: Pool, disabled: bool)
    ensures MergePoolUpdate(p, DisableRequest(disabled)) == p.(enabled := !disabled)
  {
  }

  function Available(rt: PoolRuntime): nat
    reads rt.tokenManager
  {
    rt.tokenManager.AvailableCount()
  }

  function PoolPriority(rt: PoolRuntime): nat
  {
    rt.config.priority
  }

  function Managers(rs: seq<PoolRuntime>): set<MultiTokenManager>
  {
    set i | 0 <= i < |rs| :: rs[i].tokenManager
  }

  /** The first runtime's scheduler and those of the others are all among the schedulers of the list. */
  lemma ManagersTail(rs: seq<PoolRuntime>)
    requires rs != []
    ensures rs[0].tokenManager in Managers(rs) && Managers(rs[1..]) <= Managers(rs)
  {
    forall m | m in Managers(rs[1..]) ensures m in Managers(rs) {
      var i :| 0 <= i < |rs[1..]| && rs[1..][i].tokenManager == m;
      assert rs[i + 1].tokenManager == m;
    }
  }

  /** The enabled runtimes, in order. */
  function EnabledRuntimes(rs: seq<PoolRuntime>): (r: seq<PoolRuntime>)
    ensures forall i :: 0 <= i < |r| ==> r[i] in rs && r[i].config.enabled
    ensures forall i :: 0 <= i < |rs| && rs[i].config.enabled ==> rs[i] in r
  {
    if rs == [] then []
    else
      var init := rs[..|rs| - 1];
      var last := rs[|rs| - 1];
      assert rs == init + [last];
      EnabledRuntimes(init) + (if last.config.enabled then [last] else [])
  }

  /** The first runtime whose scheduler has an enabled credential, as an index. */
  function FirstAvailable(rs: seq<PoolRuntime>): (r: Option<nat>)
    reads Managers(rs)
    ensures r.Some? ==> r.value < |rs| && Available(rs[r.value]) > 0
    ensures r.Some? ==> forall j :: 0 <= j < r.value ==> Available(rs[j]) == 0
    ensures r.None? <==> forall j :: 0 <= j < |rs| ==> Available(rs[j]) == 0
  {
    if rs == [] then None
    else if (ManagersTail(rs); Available(rs[0]) > 0) then Some(0)
    else
      match FirstAvailable(rs[1..])
      case None => None
      case Some(k) => Some(k + 1)
  }

  /** `auto_route_pool` over the runtimes in map order: enabled pools by ascending priority (stable), first with an enabled credential. */
  function AutoRoute(rs: seq<PoolRuntime>): (r: Option<PoolRuntime>)
    reads Managers(rs)
  {
    var sorted := SortByKey(EnabledRuntimes(rs), PoolPriority);
    SortSortedPermutation(EnabledRuntimes(rs), PoolPriority);
    assert Managers(sorted) <= Managers(rs) by {
      forall m | m in Managers(sorted) ensures m in Managers(rs) {
        var i :| 0 <= i < |sorted| && sorted[i].tokenManager == m;
        assert sorted[i] in multiset(sorted);
        assert sorted[i] in EnabledRuntimes(rs);
        var j :| 0 <= j < |rs| && rs[j] == sorted[i];
      }
    }
    match FirstAvailable(sorted)
    case None => None
    case Some(k) => Some(sorted[k])
  }

  /**
   * Automatic routing picks an enabled pool with an enabled credential, of least priority
   * value among all such pools, and finds none exactly when no enabled pool has one.
   */
  lemma AutoRouteIsBest(rs: seq<PoolRuntime>)
    ensures AutoRoute(rs).Some? ==> var p := AutoRoute(rs).value;
      p in rs && p.config.enabled && Available(p) > 0
      && forall q :: q in rs && q.config.enabled && Available(q) > 0 ==> p.config.priority <= q.config.priority
    ensures AutoRoute(rs).None? <==> forall q :: q in rs && q.config.enabled ==> Available(q) == 0
  {
    var en := EnabledRuntimes(rs);
    var sorted := SortByKey(en, PoolPriority);
    SortSortedPermutation(en, PoolPriority);
    assert SortedByKey(sorted, PoolPriority);
    var f := FirstAvailable(sorted);
    assert AutoRoute(rs) == if f.Some? then Some(sorted[f.value]) else None;
    if f.Some? {
      var k := f.value;
      var p := sorted[k];
      assert p in multiset(en);
      var pi :| 0 <= pi < |en| && en[pi] == p;
      assert p in rs && p.config.enabled;
      forall q | q in rs && q.config.enabled && Available(q) > 0 ensures p.config.priority <= q.config.priority {
        var qi :| 0 <= qi < |rs| && rs[qi] == q;
        assert q in en;
        assert q in multiset(sorted);
        var j :| 0 <= j < |sorted| && sorted[j] == q;
        assert j >= k;
        if j > k {
          assert PoolPriority(sorted[k]) <= PoolPriority(sorted[j]);
        }
      }
    } else {
      forall q | q in rs && q.config.enabled ensures Available(q) == 0 {
        var qi :| 0 <= qi < |rs| && rs[qi] == q;
        assert q in en;
        assert q in multiset(sorted);
        var j :| 0 <= j < |sorted| && sorted[j] == q;
      }
    }
  }

  /** `snapshot` for one pool. */
  function PoolSnapshotOf(rt: PoolRuntime): (s: PoolSnapshot)
    reads rt.tokenManager
    ensures s.id == rt.config.id && s.enabled == rt.config.enabled && s.priority == rt.config.priority
    ensures s.hasProxy <==> rt.config.proxyUrl.Some?
    ensures s.totalCredentials == |rt.tokenManager.entries| && s.availableCredentials <= s.totalCredentials
    ensures s.availableCredentials == 0 <==> !AnyEnabled(rt.tokenManager.entries)
    ensures s.name == rt.config.name && s.description == rt.config.description
    ensures s.schedulingMode == rt.config.schedulingMode
    ensures s.currentId == rt.tokenManager.currentId && s.roundRobinCounter == rt.tokenManager.roundRobinCounter
    ensures s.sessionCacheSize == |rt.tokenManager.sessionMap|
  {
    var m := rt.tokenManager.Snapshot();
    PoolSnapshot(rt.config.id, rt.config.name, rt.config.description, rt.config.enabled, rt.config.schedulingMode,
                 HasProxy(rt.config), rt.config.priority, m.total, m.available, m.currentId, m.sessionCacheSize,
                 m.roundRobinCounter)
  }

  class PoolManager {
    var pools: map<string, PoolRuntime>
    const globalProxy: Option<ProxyConfig>

    /** The default pool is always present and every runtime sits under its own pool id. */
    ghost predicate Valid()
      reads this
    {
      DEFAULT_POOL_ID in pools && forall id :: id in pools ==> pools[id].config.id == id
    }

    ghost function Repr(): set<MultiTokenManager>
      reads this
    {
      set id | id in pools :: pools[id].tokenManager
    }

    /** `resolve_pool_proxy`: the pool's proxy when it has a url, the global proxy otherwise. */
    function ResolvePoolProxy(p: Pool): (r: Option<ProxyConfig>)
      ensures HasProxy(p) ==> r == Some(ProxyConfig(p.proxyUrl.value, p.proxyUsername, p.proxyPassword))
      ensures !HasProxy(p) ==> r == globalProxy
    {
      if p.proxyUrl.Some? then Some(ProxyConfig(p.proxyUrl.value, p.proxyUsername, p.proxyPassword)) else globalProxy
    }

    /** A manager with no pools yet; `PoolManager::new` follows it with a `Reload`. */
    constructor Empty(globalProxy: Option<ProxyConfig>)
      ensures pools == map[] && this.globalProxy == globalProxy
    {
      pools := map[];
      this.globalProxy := globalProxy;
    }

    /**
     * A runtime as `reload` builds it for pool `id` out of `credentials`: under its own id,
     * behind the pool's resolved proxy, with a scheduler in the pool's scheduling mode that
     * holds exactly the entries `MultiTokenManager::new` makes of those credentials, all of
     * that pool, with fresh counters.
     */
    ghost predicate RuntimeMatches(rt: PoolRuntime, id: string, entries: seq<CredentialEntry>)
      reads rt.tokenManager
    {
      rt.config.id == id
      && rt.tokenManager.schedulingMode == rt.config.schedulingMode
      && rt.proxyConfig == ResolvePoolProxy(rt.config)
      && rt.tokenManager.proxy == rt.proxyConfig
      && rt.tokenManager.entries == entries
      && rt.tokenManager.roundRobinCounter == 0 && rt.tokenManager.sessionMap == map[]
    }

    /**
     * The runtimes the loop of `reload` has built for a plan: one per planned id, over the
     * planned configuration and group, each with a scheduler of its own taken from `made`.
     */
    ghost predicate RuntimesFor(built: map<string, PoolRuntime>, plan: map<string, PlannedPool>, made: set<MultiTokenManager>)
      reads made
    {
      built.Keys == plan.Keys
      && (forall id :: id in built ==> built[id].tokenManager in made)
      && (forall a, b :: a in built && b in built && a != b ==> built[a].tokenManager != built[b].tokenManager)
      && forall id :: id in built ==>
        built[id].config == plan[id].config && RuntimeMatches(built[id], id, plan[id].entries)
    }

    /** One more runtime, filed under its id, keeps `RuntimesFor` for a plan grown by the same id. */
    lemma RuntimesForStep(built: map<string, PoolRuntime>, plan: map<string, PlannedPool>, made: set<MultiTokenManager>,
                          id: string, p: PlannedPool, rt: PoolRuntime)
      requires RuntimesFor(built, plan, made)
      requires rt.config == p.config && rt.tokenManager !in made
      requires RuntimeMatches(rt, id, p.entries)
      ensures RuntimesFor(built[id := rt], plan[id := p], made + {rt.tokenManager})
    {
    }

    /** Runtimes installed after a plan with the default pool make a valid registry, held by the schedulers made. */
    lemma InstalledValid(plan: map<string, PlannedPool>, made: set<MultiTokenManager>)
      requires RuntimesFor(pools, plan, made) && DEFAULT_POOL_ID in plan
      ensures Valid() && Repr() <= made && RuntimesFor(pools, plan, Repr())
    {
      RuntimesForNarrow(pools, plan, made, Repr());
    }

    /** `RuntimesFor` only needs the schedulers the runtimes actually hold. */
    lemma RuntimesForNarrow(built: map<string, PoolRuntime>, plan: map<string, PlannedPool>,
                            made: set<MultiTokenManager>, held: set<MultiTokenManager>)
      requires RuntimesFor(built, plan, made)
      requires forall id :: id in built ==> built[id].tokenManager in held
      ensures RuntimesFor(built, plan, held)
    {
    }

    /** The grouping loop of `reload`. */
    static method GroupCredentials(all: seq<KiroCredentials>) returns (byPool: map<string, seq<KiroCredentials>>)
      ensures byPool == GroupByPool(all)
    {
      byPool := map[];
      var i := 0;
      while i < |all|
        invariant 0 <= i <= |all|
        invariant byPool == GroupByPool(all[..i])
      {
        assert all[..i + 1][..i] == all[..i];
        var key := PoolKey(all[i]);
        byPool := byPool[key := (if key in byPool then byPool[key] else []) + [all[i]]];
        i := i + 1;
      }
      assert all[..i] == all;
    }

    /**
     * One pass of the runtime loop of `reload`: a fresh scheduler for one pool's group,
     * which fails exactly when `MultiTokenManager::new` refuses duplicate ids.
     */
    method BuildRuntime(pool: Pool, credentials: seq<KiroCredentials>, machineIdFor: KiroCredentials -> Option<string>)
      returns (r: Result<PoolRuntime, PoolError>)
      ensures r.Ok? <==> UniqueIds(BuildEntries(credentials, machineIdFor))
      ensures r.Ok? <==> ExplicitIdsDistinct(ValidCredentials(credentials))
      ensures r.Err? ==> r.error == TokenManagerError(NewErrorText(DuplicateCredentialIds(DuplicateIds(BuildEntries(credentials, machineIdFor)))))
      ensures r.Ok? ==> r.value.config == pool && fresh(r.value.tokenManager)
      ensures r.Ok? ==> RuntimeMatches(r.value, pool.id, BuildEntries(credentials, machineIdFor))
    {
      var poolProxy := ResolvePoolProxy(pool);
      var created, _ := MultiTokenManager.New(credentials, poolProxy, machineIdFor);
      BuildEntriesUniqueIffExplicitDistinct(credentials, machineIdFor);
      if created.Err? {
        return Err(TokenManagerError(NewErrorText(created.error)));
      }
      var tm := created.value;
      tm.SetSchedulingMode(pool.schedulingMode);
      r := Ok(PoolRuntime(pool, tm, poolProxy));
    }

    /**
     * The runtime loop of `reload`: one fresh scheduler per configured pool, over the group
     * taken out of the grouping under the pool's id (so a repeated pool id ends up with the
     * later configuration and no credentials); the first scheduler that cannot be built
     * stops the loop with its error. `made` collects the schedulers created and `failed`
     * is the position of the pool that stopped the loop.
     */
    method BuildRuntimes(configured: seq<Pool>, groups: map<string, seq<KiroCredentials>>,
                         machineIdFor: KiroCredentials -> Option<string>)
      returns (r: Result<map<string, PoolRuntime>, PoolError>, ghost made: set<MultiTokenManager>, ghost failed: nat)
      ensures r.Ok? <==> FirstGroupsBuild(configured, groups, |configured|)
      ensures r.Err? ==> FailsAt(configured, groups, machineIdFor, failed, r.error)
      ensures r.Ok? ==> fresh(made) && RuntimesFor(r.value, ReloadPlan(configured, groups, machineIdFor, |configured|), made)
    {
      var byPool := groups;
      var newPools: map<string, PoolRuntime> := map[];
      made := {};
      failed := 0;
      var j := 0;
      while j < |configured|
        invariant j <= |configured| && fresh(made)
        // `== true` keeps `Progress` whole: the loop hands it from one turn to the next as it is
        invariant Progress(configured, groups, machineIdFor, j, byPool, newPools, made) == true
      {
        var next, rest, more := RuntimeStep(configured, groups, machineIdFor, j, byPool, newPools, made);
        if next.Err? {
          FirstGroupsBuildStops(configured, groups, j, |configured|);
          return Err(next.error), made, j;
        }
        assert fresh(more);
        byPool, newPools, made, j := rest, next.value, more, j + 1;
      }
      r := Ok(newPools);
    }

    /**
     * Where the runtime loop of `reload` stands after the first j configured pools: the
     * groups of the pool ids not met yet are still there, every pool so far could be
     * built, and the runtimes follow the plan.
     */
    ghost predicate Progress(configured: seq<Pool>, groups: map<string, seq<KiroCredentials>>,
                             machineIdFor: KiroCredentials -> Option<string>, j: nat,
                             byPool: map<string, seq<KiroCredentials>>, built: map<string, PoolRuntime>,
                             made: set<MultiTokenManager>)
      requires j <= |configured|
      reads made
    {
      Remaining(configured, groups, j, byPool)
      && FirstGroupsBuild(configured, groups, j)
      && RuntimesFor(built, ReloadPlan(configured, groups, machineIdFor, j), made)
    }

    /** A runtime built for the j-th pool's group moves `Progress` on to j + 1. */
    lemma ProgressStep(configured: seq<Pool>, groups: map<string, seq<KiroCredentials>>,
                       machineIdFor: KiroCredentials -> Option<string>, j: nat,
                       byPool: map<string, seq<KiroCredentials>>, built: map<string, PoolRuntime>,
                       made: set<MultiTokenManager>, rt: PoolRuntime)
      requires j < |configured| && Progress(configured, groups, machineIdFor, j, byPool, built, made)
      requires GroupBuilds(configured, groups, j)
      requires rt.config == configured[j] && rt.tokenManager !in made
      requires RuntimeMatches(rt, configured[j].id, PlannedAt(configured, groups, machineIdFor, j).entries)
      ensures Progress(configured, groups, machineIdFor, j + 1, byPool - {configured[j].id},
                       built[configured[j].id := rt], made + {rt.tokenManager})
    {
      var pool := configured[j];
      RemainingStep(configured, groups, j, byPool);
      var plan := ReloadPlan(configured, groups, machineIdFor, j);
      var p := PlannedAt(configured, groups, machineIdFor, j);
      assert ReloadPlan(configured, groups, machineIdFor, j + 1) == plan[pool.id := p];
      assert FirstGroupsBuild(configured, groups, j + 1);
      RuntimesForStep(built, plan, made, pool.id, p, rt);
    }

    /**
     * One turn of the runtime loop of `reload`: take the j-th pool's group out of the
     * grouping, build its runtime and file it under its id.
     */
    method RuntimeStep(configured: seq<Pool>, groups: map<string, seq<KiroCredentials>>,
                       machineIdFor: KiroCredentials -> Option<string>, j: nat,
                       byPool: map<string, seq<KiroCredentials>>, built: map<string, PoolRuntime>,
                       ghost made: set<MultiTokenManager>)
      returns (r: Result<map<string, PoolRuntime>, PoolError>, rest: map<string, seq<KiroCredentials>>,
               ghost more: set<MultiTokenManager>)
      requires j < |configured| && Progress(configured, groups, machineIdFor, j, byPool, built, made) == true
      ensures r.Ok? <==> GroupBuilds(configured, groups, j)
      ensures r.Err? ==> r.error == GroupError(configured, groups, machineIdFor, j)
      ensures r.Ok? ==> Progress(configured, groups, machineIdFor, j + 1, rest, r.value, more) == true
      ensures r.Ok? ==> configured[j].id in r.value && fresh(r.value[configured[j].id].tokenManager)
      ensures r.Ok? ==> more == made + {r.value[configured[j].id].tokenManager}
    {
      var pool := configured[j];
      var credentials := if pool.id in byPool then byPool[pool.id] else [];
      assert credentials == GroupAt(configured, groups, j);
      rest := byPool - {pool.id};
      var runtime := BuildRuntime(pool, credentials, machineIdFor);
      if runtime.Err? {
        return Err(runtime.error), rest, made;
      }
      ProgressStep(configured, groups, machineIdFor, j, byPool, built, made, runtime.value);
      r := Ok(built[pool.id := runtime.value]);
      more := made + {runtime.value.tokenManager};
    }

    /** `*self.pools.write() = new_pools`: the runtimes are installed and the schedulers they hold are left alone. */
    method InstallPools(built: map<string, PoolRuntime>, ghost plan: map<string, PlannedPool>, ghost made: set<MultiTokenManager>)
      modifies this
      requires RuntimesFor(built, plan, made)
      ensures pools == built && RuntimesFor(pools, plan, made)
    {
      pools := built;
    }

    /**
     * `reload`: make sure of the default pool, sort the credentials, group them by pool,
     * and give each configured pool a fresh scheduler of its own over the group it takes,
     * in the pool's scheduling mode and behind its resolved proxy. Credentials naming a
     * pool that is not configured land nowhere. On error nothing changes.
     */
    method Reload(poolsFile: Result<seq<Pool>, string>, credentialsFile: Result<seq<KiroCredentials>, string>,
                  createdAt: int, machineIdFor: KiroCredentials -> Option<string>)
      returns (r: Result<(), PoolError>)
      modifies this
      ensures poolsFile.Err? ==> r == Err(ConfigLoadFailed("加载池配置失败: " + poolsFile.error))
      ensures poolsFile.Ok? && credentialsFile.Err? ==> r == Err(ConfigLoadFailed("加载凭据配置失败: " + credentialsFile.error))
      ensures poolsFile.Ok? && credentialsFile.Ok? ==>
        var configured := WithDefaultPool(poolsFile.value, createdAt);
        var groups := GroupByPool(SortedCredentials(credentialsFile.value));
        (r.Ok? <==> FirstGroupsBuild(configured, groups, |configured|))
        && (r.Err? ==> exists j :: FailsAt(configured, groups, machineIdFor, j, r.error))
        && (r.Ok? ==> RuntimesFor(pools, ReloadPlan(configured, groups, machineIdFor, |configured|), Repr()))
      ensures r.Err? ==> pools == old(pools)
      ensures r.Ok? ==> Valid() && fresh(Repr())
    {
      if poolsFile.Err? {
        return Err(ConfigLoadFailed("加载池配置失败: " + poolsFile.error));
      }
      var poolsConfig := new PoolsConfig.FromPools(poolsFile.value);
      poolsConfig.EnsureDefaultPool(createdAt);
      if credentialsFile.Err? {
        return Err(ConfigLoadFailed("加载凭据配置失败: " + credentialsFile.error));
      }
      var all := IntoSortedCredentials(credentialsFile.value);
      var byPool := GroupCredentials(all);
      r := ReplacePools(poolsConfig.pools, byPool, machineIdFor);
    }

    /**
     * The second half of `reload`: build a runtime for every configured pool and, only
     * when all of them could be built, swap them in for the old ones.
     */
    method ReplacePools(configured: seq<Pool>, groups: map<string, seq<KiroCredentials>>,
                        machineIdFor: KiroCredentials -> Option<string>)
      returns (r: Result<(), PoolError>)
      modifies this
      requires HasPool(configured, DEFAULT_POOL_ID)
      ensures r.Ok? <==> FirstGroupsBuild(configured, groups, |configured|)
      ensures r.Err? ==> exists j :: FailsAt(configured, groups, machineIdFor, j, r.error)
      ensures r.Ok? ==> RuntimesFor(pools, ReloadPlan(configured, groups, machineIdFor, |configured|), Repr())
      ensures r.Err? ==> pools == old(pools)
      ensures r.Ok? ==> Valid() && fresh(Repr())
    {
      var built, made, failed := BuildRuntimes(configured, groups, machineIdFor);
      if built.Err? {
        assert FailsAt(configured, groups, machineIdFor, failed, built.error);
        return Err(built.error);
      }
      ghost var plan := ReloadPlan(configured, groups, machineIdFor, |configured|);
      InstallPools(built.value, plan, made);
      IdsBeforeMembers(configured, |configured|);
      InstalledValid(plan, made);
      r := Ok(());
    }

    /** `PoolManager::new`: an empty registry followed by a first `reload`, whose error it returns. */
    static method New(globalProxy: Option<ProxyConfig>, poolsFile: Result<seq<Pool>, string>,
                      credentialsFile: Result<seq<KiroCredentials>, string>, createdAt: int,
                      machineIdFor: KiroCredentials -> Option<string>)
      returns (r: Result<PoolManager, PoolError>)
      ensures poolsFile.Err? ==> r == Err(ConfigLoadFailed("加载池配置失败: " + poolsFile.error))
      ensures poolsFile.Ok? && credentialsFile.Err? ==> r == Err(ConfigLoadFailed("加载凭据配置失败: " + credentialsFile.error))
      ensures poolsFile.Ok? && credentialsFile.Ok? ==>
        var configured := WithDefaultPool(poolsFile.value, createdAt);
        var groups := GroupByPool(SortedCredentials(credentialsFile.value));
        (r.Ok? <==> FirstGroupsBuild(configured, groups, |configured|))
        && (r.Ok? ==> r.value.RuntimesFor(r.value.pools, ReloadPlan(configured, groups, machineIdFor, |configured|), r.value.Repr()))
      ensures r.Ok? ==> fresh(r.value) && fresh(r.value.Repr()) && r.value.globalProxy == globalProxy && r.value.Valid()
    {
      var manager := new PoolManager.Empty(globalProxy);
      var loaded := manager.Reload(poolsFile, credentialsFile, createdAt, machineIdFor);
      if loaded.Err? {
        return Err(loaded.error);
      }
      r := Ok(manager);
    }

    /** `get_pool`. */
    function GetPool(id: string): (r: Option<PoolRuntime>)
      reads this
      ensures r.Some? <==> id in pools
      ensures r.Some? ==> r.value == pools[id]
    {
      if id in pools then Some(pools[id]) else None
    }

    /** `get_default_pool`: under `Valid` it is always found. */
    function GetDefaultPool(): (r: Option<PoolRuntime>)
      reads this
      requires Valid()
      ensures r.Some? && r.value.config.id == DEFAULT_POOL_ID
    {
      GetPool(DEFAULT_POOL_ID)
    }

    function PoolCount(): (r: nat)
      reads this
      ensures r == |pools.Keys|
    {
      |pools|
    }

    /** Whether `order` enumerates the pool ids once each, as a walk over the map does. */
    predicate IsKeyOrder(order: seq<string>)
      reads this
    {
      (forall i :: 0 <= i < |order| ==> order[i] in pools)
      && (forall id :: id in pools ==> id in order)
      && (forall i, j :: 0 <= i < j < |order| ==> order[i] != order[j])
    }

    function Runtimes(order: seq<string>): (rs: seq<PoolRuntime>)
      reads this
      requires IsKeyOrder(order)
      ensures |rs| == |order| && forall i :: 0 <= i < |order| ==> rs[i] == pools[order[i]]
      ensures forall id :: id in pools ==> pools[id] in rs
    {
      var rs := seq(|order|, i requires 0 <= i < |order| reads this requires IsKeyOrder(order) => pools[order[i]]);
      assert forall id :: id in pools ==> pools[id] in rs by {
        forall id | id in pools ensures pools[id] in rs {
          var i :| 0 <= i < |order| && order[i] == id;
          assert rs[i] == pools[id];
        }
      }
      rs
    }

    /**
     * `auto_route_pool`: an enabled pool with an enabled credential and the least priority
     * value among such pools, or none exactly when no enabled pool has an enabled credential.
     */
    function AutoRoutePool(order: seq<string>): (r: Option<PoolRuntime>)
      reads this, Repr()
      requires IsKeyOrder(order)
      ensures r.Some? ==> r.value in pools.Values && r.value.config.enabled && Available(r.value) > 0
      ensures r.Some? ==> forall id :: id in pools && pools[id].config.enabled && Available(pools[id]) > 0 ==>
        r.value.config.priority <= pools[id].config.priority
      ensures r.None? <==> forall id :: id in pools && pools[id].config.enabled ==> Available(pools[id]) == 0
    {
      var rs := Runtimes(order);
      assert Managers(rs) <= Repr() by {
        forall m | m in Managers(rs) ensures m in Repr() {
          var i :| 0 <= i < |rs| && rs[i].tokenManager == m;
          assert rs[i] == pools[order[i]];
        }
      }
      AutoRouteIsBest(rs);
      assert AutoRoute(rs).Some? ==> AutoRoute(rs).value in pools.Values by {
        if AutoRoute(rs).Some? {
          var i :| 0 <= i < |rs| && rs[i] == AutoRoute(rs).value;
          assert pools[order[i]] == AutoRoute(rs).value;
        }
      }
      AutoRoute(rs)
    }

    /**
     * `get_pool_for_api_key`: no binding means the default pool, `"__auto__"` means
     * automatic routing, any other id means that pool; a disabled pool is never returned.
     */
    function GetPoolForApiKey(binding: Option<string>, order: seq<string>): (r: Option<PoolRuntime>)
      reads this, Repr()
      requires IsKeyOrder(order)
      ensures binding.None? ==>
        r == (if DEFAULT_POOL_ID in pools && pools[DEFAULT_POOL_ID].config.enabled then Some(pools[DEFAULT_POOL_ID]) else None)
      ensures binding == Some(AUTO_ROUTE_POOL_ID) ==> r == AutoRoutePool(order)
      ensures binding.Some? && binding.value != AUTO_ROUTE_POOL_ID ==>
        r == (if binding.value in pools && pools[binding.value].config.enabled then Some(pools[binding.value]) else None)
    {
      match binding
      case None =>
        if DEFAULT_POOL_ID in pools && pools[DEFAULT_POOL_ID].config.enabled then Some(pools[DEFAULT_POOL_ID]) else None
      case Some(id) =>
        if id == AUTO_ROUTE_POOL_ID then AutoRoutePool(order)
        else if id in pools && pools[id].config.enabled then Some(pools[id]) else None
    }

    /** Routing never hands out a disabled pool. */
    lemma RoutedPoolIsEnabled(binding: Option<string>, order: seq<string>)
      requires IsKeyOrder(order)
      ensures GetPoolForApiKey(binding, order).Some? ==> GetPoolForApiKey(binding, order).value.config.enabled
    {
      if binding == Some(AUTO_ROUTE_POOL_ID) {
        AutoRouteIsBest(Runtimes(order));
      }
    }

    /** `snapshot`: one record per pool in map order. */
    function Snapshot(order: seq<string>): (s: seq<PoolSnapshot>)
      reads this, Repr()
      requires Valid() && IsKeyOrder(order)
      ensures |s| == |order| && forall i :: 0 <= i < |order| ==> s[i] == PoolSnapshotOf(pools[order[i]])
      ensures forall i :: 0 <= i < |order| ==> s[i].id == order[i]
    {
      var rs := Runtimes(order);
      assert Managers(rs) <= Repr() by {
        forall m | m in Managers(rs) ensures m in Repr() {
          var i :| 0 <= i < |rs| && rs[i].tokenManager == m;
          assert rs[i] == pools[order[i]];
        }
      }
      SnapshotAll(rs)
    }

    /**
     * `create_pool`: an existing id (the default one included) is refused and nothing
     * changes; otherwise exactly one pool is added, with an empty scheduler in the pool's
     * scheduling mode.
     */
    method CreatePool(pool: Pool, machineIdFor: KiroCredentials -> Option<string>, saveFailure: Option<string>)
      returns (r: Result<(), PoolError>)
      requires Valid()
      modifies this
      ensures Valid()
      ensures pool.id in old(pools) ==> r == Err(PoolAlreadyExists(pool.id)) && pools == old(pools)
      ensures pool.id !in old(pools) ==>
        pool.id in pools && pools.Keys == old(pools.Keys) + {pool.id}
        && (forall id :: id in old(pools) ==> pools[id] == old(pools[id]))
        && pools[pool.id].config == pool && fresh(pools[pool.id].tokenManager)
        && pools[pool.id].tokenManager.entries == []
        && pools[pool.id].tokenManager.schedulingMode == pool.schedulingMode
        && pools[pool.id].proxyConfig == ResolvePoolProxy(pool)
        && (r.Ok? <==> saveFailure.None?) && (r.Err? ==> r.error == IoError(saveFailure.value))
    {
      if pool.id in pools {
        return Err(PoolAlreadyExists(pool.id));
      }
      var poolProxy := ResolvePoolProxy(pool);
      var created, _ := MultiTokenManager.New([], poolProxy, machineIdFor);
      assert created.Ok? by {
        assert ValidCredentials([]) == [];
        assert BuildEntries([], machineIdFor) == [];
      }
      var tm := created.value;
      tm.SetSchedulingMode(pool.schedulingMode);
      pools := pools[pool.id := PoolRuntime(pool, tm, poolProxy)];
      if saveFailure.Some? {
        return Err(IoError(saveFailure.value));
      }
      r := Ok(());
    }

    /**
     * `update_pool`: an unknown id is refused; otherwise the merged configuration replaces
     * the old one behind the same scheduler, whose scheduling mode follows a new mode.
     */
    method UpdatePool(id: string, updates: UpdatePoolRequest, saveFailure: Option<string>)
      returns (r: Result<(), PoolError>)
      requires Valid()
      modifies this, Repr()
      ensures Valid()
      ensures id !in old(pools) ==> r == Err(PoolNotFound(id)) && pools == old(pools)
      ensures id in old(pools) ==>
        var tm := old(pools[id]).tokenManager;
        var config := MergePoolUpdate(old(pools[id]).config, updates);
        pools == old(pools)[id := PoolRuntime(config, tm, ResolvePoolProxy(config))]
        && tm.schedulingMode == (if updates.schedulingMode.Some? then updates.schedulingMode.value else old(tm.schedulingMode))
        && tm.entries == old(tm.entries) && tm.roundRobinCounter == old(tm.roundRobinCounter)
        && (r.Ok? <==> saveFailure.None?) && (r.Err? ==> r.error == IoError(saveFailure.value))
      ensures forall m :: m in old(Repr()) && (id !in old(pools) || m != old(pools[id]).tokenManager) ==>
        m.schedulingMode == old(m.schedulingMode) && m.entries == old(m.entries)
    {
      if id !in pools {
        return Err(PoolNotFound(id));
      }
      var runtime := pools[id];
      var config := MergePoolUpdate(runtime.config, updates);
      if updates.schedulingMode.Some? {
        runtime.tokenManager.SetSchedulingMode(updates.schedulingMode.value);
      }
      pools := pools[id := PoolRuntime(config, runtime.tokenManager, ResolvePoolProxy(config))];
      if saveFailure.Some? {
        return Err(IoError(saveFailure.value));
      }
      r := Ok(());
    }

    /**
     * `delete_pool`: the default pool can never go and an unknown id is refused; any
     * other pool is removed whatever credentials it holds.
     */
    method DeletePool(id: string, saveFailure: Option<string>) returns (r: Result<(), PoolError>)
      requires Valid()
      modifies this
      ensures Valid()
      ensures id == DEFAULT_POOL_ID ==> r == Err(CannotDeleteDefaultPool) && pools == old(pools)
      ensures id != DEFAULT_POOL_ID && id !in old(pools) ==> r == Err(PoolNotFound(id)) && pools == old(pools)
      ensures id != DEFAULT_POOL_ID && id in old(pools) ==>
        pools == old(pools) - {id} && (r.Ok? <==> saveFailure.None?) && (r.Err? ==> r.error == IoError(saveFailure.value))
    {
      if id == DEFAULT_POOL_ID {
        return Err(CannotDeleteDefaultPool);
      }
      if id !in pools {
        return Err(PoolNotFound(id));
      }
      pools := pools - {id};
      if saveFailure.Some? {
        return Err(IoError(saveFailure.value));
      }
      r := Ok(());
    }

    /** `set_pool_disabled`: `update_pool` with only the enabled flag, the default pool included. */
    method SetPoolDisabled(id: string, disabled: bool, saveFailure: Option<string>) returns (r: Result<(), PoolError>)
      requires Valid()
      modifies this, Repr()
      ensures Valid()
      ensures id !in old(pools) ==> r == Err(PoolNotFound(id)) && pools == old(pools)
      ensures id in old(pools) ==>
        var config := old(pools[id]).config.(enabled := !disabled);
        pools == old(pools)[id := PoolRuntime(config, old(pools[id]).tokenManager, ResolvePoolProxy(config))]
        && (r.Ok? <==> saveFailure.None?)
      ensures forall m :: m in old(Repr()) ==> m.schedulingMode == old(m.schedulingMode) && m.entries == old(m.entries)
    {
      if id in pools {
        DisableRequestOnlyFlipsEnabled(pools[id].config, disabled);
      }
      r := UpdatePool(id, DisableRequest(disabled), saveFailure);
    }

    /**
     * The in-memory part of `assign_credential_to_pool`: the target pool must exist and
     * the stored credential list must hold the id; the first credential with that id gets
     * the pool. Writing the file and reloading are left to the caller.
     */
    function AssignCredentialToPool(credentialId: nat, poolId: string, stored: seq<KiroCredentials>)
      : (r: Result<seq<KiroCredentials>, PoolError>)
      reads this
      ensures poolId !in pools ==> r == Err(PoolNotFound(poolId))
      ensures poolId in pools && (forall i :: 0 <= i < |stored| ==> stored[i].id != Some(credentialId)) ==>
        r == Err(PoolError.CredentialNotFound(credentialId))
      ensures r.Ok? ==> exists k :: (0 <= k < |stored| && stored[k].id == Some(credentialId)
        && (forall j :: 0 <= j < k ==> stored[j].id != Some(credentialId))
        && r.value == stored[k := stored[k].(poolId := Some(poolId))])
    {
      if poolId !in pools then Err(PoolNotFound(poolId))
      else match FirstWithId(stored, credentialId)
        case None => Err(PoolError.CredentialNotFound(credentialId))
        case Some(k) => Ok(stored[k := stored[k].(poolId := Some(poolId))])
    }
  }

  /** One `PoolSnapshot` per runtime, in order. */
  function SnapshotAll(rs: seq<PoolRuntime>): (s: seq<PoolSnapshot>)
    reads Managers(rs)
    ensures |s| == |rs| && forall i :: 0 <= i < |rs| ==> s[i] == PoolSnapshotOf(rs[i])
  {
    if rs == [] then []
    else
      ManagersTail(rs);
      var rest := SnapshotAll(rs[1..]);
      assert forall i :: 0 < i < |rs| ==> rs[1..][i - 1] == rs[i];
      [PoolSnapshotOf(rs[0])] + rest
  }

  function FirstWithId(cs: seq<KiroCredentials>, id: nat): (r: Option<nat>)
    ensures r.Some? ==> r.value < |cs| && cs[r.value].id == Some(id) && forall j :: 0 <= j < r.value ==> cs[j].id != Some(id)
    ensures r.None? <==> forall j :: 0 <= j < |cs| ==> cs[j].id != Some(id)
  {
    if cs == [] then None
    else if cs[0].id == Some(id) then Some(0)
    else match FirstWithId(cs[1..], id)
      case None => None
      case Some(k) => Some(k + 1)
  }

  /** A scheduler built from one pool's group holds only credentials of that pool. */
  lemma EntriesKeepPool(cs: seq<KiroCredentials>, g: KiroCredentials -> Option<string>, id: string)
    requires forall c :: c in cs ==> PoolKey(c) == id
    ensures forall e :: e in BuildEntries(cs, g) ==> PoolKey(e.credentials) == id
  {
    var v := ValidCredentials(cs);
    forall e | e in BuildEntries(cs, g) ensures PoolKey(e.credentials) == id {
      var k :| 0 <= k < |BuildEntries(cs, g)| && BuildEntries(cs, g)[k] == e;
      assert v[k] in v;
    }
  }
}
