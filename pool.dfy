/**
 * A credential pool's configuration (`Pool`), its by-value builders, and the pool list
 * of the pools file (`PoolsConfig`), which makes sure a `"default"` pool is present.
 * The creation time is the `createdAt` parameter.
 */
module Pools {
  import opened Wrappers
  import opened TokenManager

  const DEFAULT_POOL_ID: string := "default"
  const DEFAULT_POOL_NAME: string := "默认池"

  datatype Pool = Pool(
    id: string,
    name: string,
    description: Option<string>,
    enabled: bool,
    schedulingMode: SchedulingMode,
    proxyUrl: Option<string>,
    proxyUsername: Option<string>,
    proxyPassword: Option<string>,
    priority: nat,
    createdAt: int)

  /** `Pool::new`: enabled, round robin, priority 0, no description and no proxy. */
  function NewPool(id: string, name: string, createdAt: int): (p: Pool)
    ensures p.id == id && p.name == name && p.createdAt == createdAt
    ensures p.enabled && p.schedulingMode == RoundRobin && p.priority == 0
    ensures p.description.None? && !HasProxy(p) && p.proxyUsername.None? && p.proxyPassword.None?
  {
    Pool(id, name, None, true, DefaultSchedulingMode, None, None, None, 0, createdAt)
  }

  /** `Pool::default_pool`, which is also `Pool::default`. */
  function DefaultPool(createdAt: int): (p: Pool)
    ensures p == NewPool(DEFAULT_POOL_ID, DEFAULT_POOL_NAME, createdAt)
  {
    NewPool(DEFAULT_POOL_ID, DEFAULT_POOL_NAME, createdAt)
  }

  function WithDescription(p: Pool, description: string): (r: Pool)
    ensures r.description == Some(description)
    ensures r.(description := p.description) == p
  {
    p.(description := Some(description))
  }

  function WithSchedulingMode(p: Pool, mode: SchedulingMode): (r: Pool)
    ensures r.schedulingMode == mode
    ensures r.(schedulingMode := p.schedulingMode) == p
  {
    p.(schedulingMode := mode)
  }

  /** `with_proxy` sets the url, the username and the password together. */
  function WithProxy(p: Pool, url: string, username: Option<string>, password: Option<string>): (r: Pool)
    ensures HasProxy(r) && r.proxyUrl == Some(url) && r.proxyUsername == username && r.proxyPassword == password
    ensures r.(proxyUrl := p.proxyUrl, proxyUsername := p.proxyUsername, proxyPassword := p.proxyPassword) == p
  {
    p.(proxyUrl := Some(url), proxyUsername := username, proxyPassword := password)
  }

  function WithPriority(p: Pool, priority: nat): (r: Pool)
    ensures r.priority == priority
    ensures r.(priority := p.priority) == p
  {
    p.(priority := priority)
  }

  predicate HasProxy(p: Pool)
  {
    p.proxyUrl.Some?
  }

  /** The builders touch disjoint fields, so they commute. */
  lemma BuildersCommute(p: Pool, d: string, m: SchedulingMode, url: string, u: Option<string>, w: Option<string>, prio: nat)
    ensures WithProxy(WithDescription(p, d), url, u, w) == WithDescription(WithProxy(p, url, u, w), d)
    ensures WithPriority(WithSchedulingMode(p, m), prio) == WithSchedulingMode(WithPriority(p, prio), m)
  {
  }

  predicate HasPool(ps: seq<Pool>, id: string)
  {
    exists i :: 0 <= i < |ps| && ps[i].id == id
  }

  /** `PoolsConfig::get`: the first pool with that id. */
  function GetPool(ps: seq<Pool>, id: string): (r: Option<Pool>)
    ensures r.None? <==> !HasPool(ps, id)
    ensures r.Some? ==> exists i :: 0 <= i < |ps| && ps[i] == r.value && r.value.id == id
                                    && forall j :: 0 <= j < i ==> ps[j].id != id
  {
    if ps == [] then None
    else if ps[0].id == id then Some(ps[0])
    else
      var r := GetPool(ps[1..], id);
      assert forall j :: 0 <= j < |ps| - 1 ==> ps[1..][j] == ps[j + 1];
      assert HasPool(ps[1..], id) ==> HasPool(ps, id);
      r
  }

  /** The pool list after `ensure_default_pool`. */
  function WithDefaultPool(ps: seq<Pool>, createdAt: int): (r: seq<Pool>)
    ensures HasPool(r, DEFAULT_POOL_ID)
    ensures HasPool(ps, DEFAULT_POOL_ID) ==> r == ps
    ensures !HasPool(ps, DEFAULT_POOL_ID) ==> r == [DefaultPool(createdAt)] + ps
  {
    if HasPool(ps, DEFAULT_POOL_ID) then ps
    else
      assert ([DefaultPool(createdAt)] + ps)[0].id == DEFAULT_POOL_ID;
      [DefaultPool(createdAt)] + ps
  }

  /** Making sure of the default pool twice is making sure once. */
  lemma WithDefaultPoolIdempotent(ps: seq<Pool>, t1: int, t2: int)
    ensures WithDefaultPool(WithDefaultPool(ps, t1), t2) == WithDefaultPool(ps, t1)
  {
  }

  /** The pools file's content. */
  class PoolsConfig {
    var pools: seq<Pool>

    /** `PoolsConfig::default()`: exactly the default pool. */
    constructor Default(createdAt: int)
      ensures pools == [DefaultPool(createdAt)]
    {
      pools := [DefaultPool(createdAt)];
    }

    /** A configuration as it was read from the pools file. */
    constructor FromPools(ps: seq<Pool>)
      ensures pools == ps
    {
      pools := ps;
    }

    /** `ensure_default_pool`: insert the default pool at the front when none is present. */
    method EnsureDefaultPool(createdAt: int)
      modifies this
      ensures pools == WithDefaultPool(old(pools), createdAt)
    {
      if !(exists i :: 0 <= i < |pools| && pools[i].id == DEFAULT_POOL_ID) {
        pools := [DefaultPool(createdAt)] + pools;
      }
    }

    function Get(id: string): (r: Option<Pool>)
      reads this
      ensures r.None? <==> !HasPool(pools, id)
      ensures r.Some? ==> r.value.id == id && r.value in pools
    {
      GetPool(pools, id)
    }
  }

  /** The default configuration holds one pool, and it is the default pool. */
  lemma DefaultConfigHasOnlyDefault(createdAt: int)
    ensures var ps := [DefaultPool(createdAt)];
      |ps| == 1 && ps[0].id == DEFAULT_POOL_ID && GetPool(ps, DEFAULT_POOL_ID) == Some(DefaultPool(createdAt))
  {
  }
}
