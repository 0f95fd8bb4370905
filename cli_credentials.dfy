/**
 * The id bookkeeping of the `credentials` CLI commands: `add` allocates the next id,
 * `delete` removes every record carrying an id, and `import` merges a list of records into
 * an existing one, keeping an imported id only when it is not yet taken. Every command
 * works on the list as loaded from the file and sorted by `IntoSortedCredentials`; reading
 * and writing the file is not modelled.
 */
module CliCredentials {
  import opened Wrappers
  import opened Credentials

  /** `iter().filter_map(|c| c.id).max().unwrap_or(0)`. */
  function MaxId(creds: seq<KiroCredentials>): (r: nat)
    ensures forall i :: 0 <= i < |creds| && creds[i].id.Some? ==> creds[i].id.value <= r
    ensures r == 0 || exists i :: 0 <= i < |creds| && creds[i].id == Some(r)
  {
    if creds == [] then 0
    else
      var init := creds[..|creds| - 1];
      var m := MaxId(init);
      var last := creds[|creds| - 1];
      assert forall i :: 0 <= i < |init| ==> creds[i] == init[i];
      if last.id.Some? && last.id.value > m then last.id.value else m
  }

  /** `iter().any(|c| c.id == id)`. */
  predicate HasId(creds: seq<KiroCredentials>, id: Option<nat>)
  {
    exists i :: 0 <= i < |creds| && creds[i].id == id
  }

  /** An id above every present id is not present. */
  lemma AboveMaxIsFree(creds: seq<KiroCredentials>, id: nat)
    requires id > MaxId(creds)
    ensures !HasId(creds, Some(id))
  {
  }

  // ---------------------------------------------------------------------------------------
  // add

  /** The record `add` builds: the given fields, every other field absent, every counter zero. */
  function NewCredential(id: nat, refreshToken: string, authMethod: string, priority: nat, region: Option<string>,
                         clientId: Option<string>, clientSecret: Option<string>): KiroCredentials
  {
    KiroCredentials(Some(id), None, Some(refreshToken), None, None, Some(authMethod), clientId, clientSecret,
                    priority, region, None, None, None, None, None, 0, 0, None, 0, 0, 0, None)
  }

  /** `add`: appends one record under id `MaxId + 1`. */
  method Add(credentials: seq<KiroCredentials>, refreshToken: string, authMethod: string, priority: nat,
             region: Option<string>, clientId: Option<string>, clientSecret: Option<string>)
    returns (r: seq<KiroCredentials>, newId: nat)
    ensures newId == MaxId(credentials) + 1 && !HasId(credentials, Some(newId))
    ensures r == credentials + [NewCredential(newId, refreshToken, authMethod, priority, region, clientId, clientSecret)]
    ensures var c := r[|r| - 1];
      c.accessToken.None? && c.profileArn.None? && c.expiresAt.None? && c.machineId.None? && c.poolId.None?
      && c.successCount == 0 && c.totalFailureCount == 0 && c.lastCallTime.None? && c.totalResponseTimeMs == 0
      && c.tokenRefreshCount == 0 && c.tokenRefreshFailureCount == 0 && c.lastTokenRefreshTime.None?
  {
    newId := MaxId(credentials) + 1;
    AboveMaxIsFree(credentials, newId);
    var newCred := NewCredential(newId, refreshToken, authMethod, priority, region, clientId, clientSecret);
    r := credentials + [newCred];
  }

  // ---------------------------------------------------------------------------------------
  // delete

  datatype CliError = NotFound(id: nat)

  /** `retain(|c| c.id != Some(id))`. */
  function Without(creds: seq<KiroCredentials>, id: nat): (r: seq<KiroCredentials>)
    ensures |r| <= |creds|
  {
    if creds == [] then []
    else
      Without(creds[..|creds| - 1], id) + (if creds[|creds| - 1].id == Some(id) then [] else [creds[|creds| - 1]])
  }

  /** The retained list loses exactly the records carrying the id, and nothing else. */
  lemma {:induction false} WithoutContents(creds: seq<KiroCredentials>, id: nat)
    ensures forall c :: multiset(Without(creds, id))[c] == if c.id == Some(id) then 0 else multiset(creds)[c]
    decreases |creds|
  {
    if creds != [] {
      var init := creds[..|creds| - 1];
      var last := creds[|creds| - 1];
      WithoutContents(init, id);
      assert creds == init + [last];
      var kept := if last.id == Some(id) then [] else [last];
      assert Without(creds, id) == Without(init, id) + kept;
      assert multiset(Without(creds, id)) == multiset(Without(init, id)) + multiset(kept);
      assert multiset(creds) == multiset(init) + multiset([last]);
    }
  }

  /** Retaining shortens the list exactly when some record carries the id. */
  lemma {:induction false} WithoutShortens(creds: seq<KiroCredentials>, id: nat)
    ensures |Without(creds, id)| == |creds| <==> !HasId(creds, Some(id))
    decreases |creds|
  {
    if creds != [] {
      var init := creds[..|creds| - 1];
      var last := creds[|creds| - 1];
      WithoutShortens(init, id);
      if HasId(init, Some(id)) {
        var i :| 0 <= i < |init| && init[i].id == Some(id);
        assert creds[i] == init[i];
      }
      if HasId(creds, Some(id)) && last.id != Some(id) {
        var i :| 0 <= i < |creds| && creds[i].id == Some(id);
        assert init[i] == creds[i];
      }
    }
  }

  /** `delete`: an error when no record has the id, otherwise the list without those records. */
  method Delete(credentials: seq<KiroCredentials>, id: nat) returns (r: Result<seq<KiroCredentials>, CliError>)
    ensures r.Err? <==> !HasId(credentials, Some(id))
    ensures r.Err? ==> r.error == NotFound(id)
    ensures r.Ok? ==> r.value == Without(credentials, id)
    ensures r.Ok? ==> forall c :: multiset(r.value)[c] == if c.id == Some(id) then 0 else multiset(credentials)[c]
  {
    var originalLen := |credentials|;
    WithoutContents(credentials, id);
    var kept := Without(credentials, id);
    WithoutShortens(credentials, id);
    if |kept| == originalLen {
      return Err(NotFound(id));
    }
    return Ok(kept);
  }

  // ---------------------------------------------------------------------------------------
  // import

  /** One step of the merge: keep the record's id when it is present and free, else assign `next`. */
  function AssignId(list: seq<KiroCredentials>, next: nat, c: KiroCredentials): (KiroCredentials, nat)
  {
    if c.id.None? || HasId(list, c.id) then (c.(id := Some(next)), next + 1) else (c, next)
  }

  /** The records after merging `items` into `list`, ids assigned from `next` upwards. */
  function Merge(list: seq<KiroCredentials>, next: nat, items: seq<KiroCredentials>): seq<KiroCredentials>
    decreases |items|
  {
    if items == [] then list
    else
      var step := AssignId(list, next, items[0]);
      Merge(list + [step.0], step.1, items[1..])
  }

  /** The value of `next_id` after the merge. */
  function MergeNext(list: seq<KiroCredentials>, next: nat, items: seq<KiroCredentials>): nat
    decreases |items|
  {
    if items == [] then next
    else
      var step := AssignId(list, next, items[0]);
      MergeNext(list + [step.0], step.1, items[1..])
  }

  /** The `k`-th imported record was given a fresh id: it had none, or its id was taken. */
  predicate Reassigned(r: seq<KiroCredentials>, offset: nat, items: seq<KiroCredentials>, k: nat)
    requires k < |items| && offset + k <= |r|
  {
    items[k].id.None? || HasId(r[..offset + k], items[k].id)
  }

  /**
   * The shape of a merge: the original list is kept as a prefix, then one record per item,
   * equal to the item except for its id; a free id is kept, any other item gets an id
   * from `next` upwards, strictly increasing and below the final `next_id`.
   */
  lemma {:induction false} MergeShape(list: seq<KiroCredentials>, next: nat, items: seq<KiroCredentials>)
    ensures var r := Merge(list, next, items);
      |r| == |list| + |items| && r[..|list|] == list
      && (forall k :: 0 <= k < |items| ==> r[|list| + k] == items[k].(id := r[|list| + k].id) && r[|list| + k].id.Some?)
      && (forall k :: 0 <= k < |items| && !Reassigned(r, |list|, items, k) ==> r[|list| + k].id == items[k].id)
      && (forall k :: 0 <= k < |items| && Reassigned(r, |list|, items, k) ==>
            next <= r[|list| + k].id.value < MergeNext(list, next, items))
      && (forall k, l :: 0 <= k < l < |items| && Reassigned(r, |list|, items, k) && Reassigned(r, |list|, items, l) ==>
            r[|list| + k].id.value < r[|list| + l].id.value)
    decreases |items|
  {
    if items != [] {
      var step := AssignId(list, next, items[0]);
      var list' := list + [step.0];
      var rest := items[1..];
      MergeShape(list', step.1, rest);
      var r := Merge(list, next, items);
      assert r == Merge(list', step.1, rest);
      assert r[..|list'|] == list';
      assert r[..|list|] == list' [..|list|] == list;
      assert r[|list|] == step.0;
      assert r[..|list| + 0] == list;
      forall k | 0 < k < |items|
        ensures r[|list| + k] == r[|list'| + (k - 1)] && items[k] == rest[k - 1]
        ensures Reassigned(r, |list|, items, k) == Reassigned(r, |list'|, rest, k - 1)
      {
      }
      assert MergeNext(list, next, items) == MergeNext(list', step.1, rest);
      assert step.1 <= MergeNext(list', step.1, rest) by {
        MergeNextGrows(list', step.1, rest);
      }
    }
  }

  lemma {:induction false} MergeNextGrows(list: seq<KiroCredentials>, next: nat, items: seq<KiroCredentials>)
    ensures next <= MergeNext(list, next, items)
    decreases |items|
  {
    if items != [] {
      var step := AssignId(list, next, items[0]);
      MergeNextGrows(list + [step.0], step.1, items[1..]);
    }
  }

  /**
   * `import`: an empty list changes nothing; otherwise each imported record is appended in
   * order, keeping its id when present and not yet in the growing list, and otherwise
   * taking `next_id`, which starts above the largest existing id.
   */
  method Import(existing: seq<KiroCredentials>, imported: seq<KiroCredentials>)
    returns (r: seq<KiroCredentials>, addedCount: nat)
    ensures r == Merge(existing, MaxId(existing) + 1, imported)
    ensures addedCount == |imported|
  {
    if imported == [] {
      return existing, 0;
    }
    var nextId: nat := MaxId(existing) + 1;
    r := existing;
    addedCount := 0;
    var i := 0;
    while i < |imported|
      invariant 0 <= i <= |imported| && addedCount == i
      invariant Merge(r, nextId, imported[i..]) == Merge(existing, MaxId(existing) + 1, imported)
    {
      var cred := imported[i];
      assert imported[i..][0] == cred && imported[i..][1..] == imported[i + 1..];
      if cred.id.None? || HasId(r, cred.id) {
        cred := cred.(id := Some(nextId));
        nextId := nextId + 1;
      }
      r := r + [cred];
      addedCount := addedCount + 1;
      i := i + 1;
    }
  }

  /**
   * What `import` guarantees: existing records are untouched, every imported record
   * arrives with an id, and every id it hands out is above all existing ids.
   */
  lemma ImportFacts(existing: seq<KiroCredentials>, imported: seq<KiroCredentials>)
    ensures var r := Merge(existing, MaxId(existing) + 1, imported);
      |r| == |existing| + |imported| && r[..|existing|] == existing
      && (forall k :: 0 <= k < |imported| ==> r[|existing| + k] == imported[k].(id := r[|existing| + k].id))
      && (forall k :: 0 <= k < |imported| && Reassigned(r, |existing|, imported, k) ==>
            !HasId(existing, r[|existing| + k].id))
    ensures imported == [] ==> Merge(existing, MaxId(existing) + 1, imported) == existing
  {
    var next := MaxId(existing) + 1;
    var r := Merge(existing, next, imported);
    MergeShape(existing, next, imported);
    forall k | 0 <= k < |imported| && Reassigned(r, |existing|, imported, k)
      ensures !HasId(existing, r[|existing| + k].id)
    {
      AboveMaxIsFree(existing, r[|existing| + k].id.value);
    }
  }

  /**
   * `import` does not keep ids unique: an imported id above the existing maximum is kept,
   * and the next record without an id is then given the same value.
   */
  lemma ImportCanDuplicateIds()
    ensures var existing := [DefaultCredentials.(id := Some(1))];
      var r := Merge(existing, MaxId(existing) + 1, [DefaultCredentials.(id := Some(2)), DefaultCredentials]);
      |r| == 3 && r[1].id == Some(2) && r[2].id == Some(2)
  {
    var existing := [DefaultCredentials.(id := Some(1))];
    assert MaxId(existing) == 1;
    var a := DefaultCredentials.(id := Some(2));
    assert !HasId(existing, Some(2));
    var list1 := existing + [a];
    assert AssignId(existing, 2, a) == (a, 2);
    var b := DefaultCredentials.(id := Some(2));
    assert AssignId(list1, 2, DefaultCredentials) == (b, 3);
    assert [a, DefaultCredentials][1..] == [DefaultCredentials];
    assert [DefaultCredentials][1..] == [];
    assert Merge(list1 + [b], 3, []) == list1 + [b];
    assert Merge(list1, 2, [DefaultCredentials]) == list1 + [b];
    assert Merge(existing, 2, [a, DefaultCredentials]) == list1 + [b];
  }
}
