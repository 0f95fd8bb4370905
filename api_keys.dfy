/**
 * The admin API-key table (`ApiKeyManager`): keys with unique-on-create names, ids from a
 * counter that only grows, a three-state pool binding on update, lookups and masking.
 * The creation time and the random part of a generated key are parameters; whether the
 * write of the key file succeeds is the `saveFailure` parameter.
 */
module ApiKeys {
  import opened Wrappers
  import opened Strings

  datatype ApiKey = ApiKey(
    id: nat,
    name: string,
    key: string,
    description: Option<string>,
    createdAt: int,
    enabled: bool,
    poolId: Option<string>)

  datatype ApiKeyMasked = ApiKeyMasked(
    id: nat,
    name: string,
    key: string,
    description: Option<string>,
    createdAt: int,
    enabled: bool,
    poolId: Option<string>)

  datatype CreateApiKeyRequest = CreateApiKeyRequest(
    name: string,
    description: Option<string>,
    key: Option<string>,
    poolId: Option<string>)

  /** `poolId`: None keeps the binding, Some(None) clears it, Some(Some(p)) binds to p. */
  datatype UpdateApiKeyRequest = UpdateApiKeyRequest(
    name: Option<string>,
    description: Option<string>,
    enabled: Option<bool>,
    poolId: Option<Option<string>>)

  datatype ApiKeyError =
    | NotFound(id: nat)
    | DuplicateName(name: string)
    | PersistError(message: string)
    | SerializeError(message: string)

  const MASK_VISIBLE_PREFIX: nat := 8
  const MASK_SUFFIX: string := "***"

  /** The key the admin list shows: its first 8 characters and `***`, or just `***`. */
  function MaskKey(key: string): (r: string)
    ensures EndsWith(r, MASK_SUFFIX)
    ensures |key| > MASK_VISIBLE_PREFIX ==> r == key[..MASK_VISIBLE_PREFIX] + MASK_SUFFIX && StartsWith(key, r[..MASK_VISIBLE_PREFIX])
    ensures |key| <= MASK_VISIBLE_PREFIX ==> r == MASK_SUFFIX
    ensures |r| <= MASK_VISIBLE_PREFIX + |MASK_SUFFIX|
  {
    if |key| > MASK_VISIBLE_PREFIX then
      var r := key[..MASK_VISIBLE_PREFIX] + MASK_SUFFIX;
      assert r[..MASK_VISIBLE_PREFIX] == key[..MASK_VISIBLE_PREFIX];
      assert r[|r| - |MASK_SUFFIX|..] == MASK_SUFFIX;
      r
    else MASK_SUFFIX
  }

  /** `ApiKeyMasked::from`: every field copied except the key, which is masked. */
  function Masked(k: ApiKey): (m: ApiKeyMasked)
    ensures m.id == k.id && m.name == k.name && m.description == k.description
    ensures m.createdAt == k.createdAt && m.enabled == k.enabled && m.poolId == k.poolId
    ensures m.key == MaskKey(k.key)
  {
    ApiKeyMasked(k.id, k.name, MaskKey(k.key), k.description, k.createdAt, k.enabled, k.poolId)
  }

  /** A generated key: `sk-` and the 32 random alphanumeric characters. */
  function GeneratedKey(randomChars: string): (r: string)
    ensures StartsWith(r, "sk-") && |r| == 3 + |randomChars|
  {
    "sk-" + randomChars
  }

  /** `keys.iter().map(|k| k.id).max().unwrap_or(0)`. */
  function MaxKeyId(keys: seq<ApiKey>): (r: nat)
    ensures forall i :: 0 <= i < |keys| ==> keys[i].id <= r
    ensures keys == [] ==> r == 0
    ensures keys != [] ==> exists i :: 0 <= i < |keys| && keys[i].id == r
  {
    if keys == [] then 0
    else
      var m := MaxKeyId(keys[..|keys| - 1]);
      assert forall i :: 0 <= i < |keys| - 1 ==> keys[..|keys| - 1][i] == keys[i];
      if keys[|keys| - 1].id > m then keys[|keys| - 1].id else m
  }

  predicate NameInUse(keys: seq<ApiKey>, name: string)
  {
    exists i :: 0 <= i < |keys| && keys[i].name == name
  }

  /** The first enabled key with that value, as an index. */
  function FindEnabledKey(keys: seq<ApiKey>, value: string): (r: Option<nat>)
    ensures r.Some? ==> r.value < |keys| && keys[r.value].enabled && keys[r.value].key == value
    ensures r.Some? ==> forall j :: 0 <= j < r.value ==> !(keys[j].enabled && keys[j].key == value)
    ensures r.None? <==> forall j :: 0 <= j < |keys| ==> !(keys[j].enabled && keys[j].key == value)
  {
    if keys == [] then None
    else if keys[0].enabled && keys[0].key == value then Some(0)
    else match FindEnabledKey(keys[1..], value)
      case None => None
      case Some(k) => Some(k + 1)
  }

  function IndexOfKeyId(keys: seq<ApiKey>, id: nat): (r: Option<nat>)
    ensures r.Some? ==> r.value < |keys| && keys[r.value].id == id && forall j :: 0 <= j < r.value ==> keys[j].id != id
    ensures r.None? <==> forall j :: 0 <= j < |keys| ==> keys[j].id != id
  {
    if keys == [] then None
    else if keys[0].id == id then Some(0)
    else match IndexOfKeyId(keys[1..], id)
      case None => None
      case Some(k) => Some(k + 1)
  }

  /** `update`'s merge on one key; the id, the value and the creation time never change. */
  function ApplyKeyUpdate(k: ApiKey, u: UpdateApiKeyRequest): (r: ApiKey)
    ensures r.id == k.id && r.key == k.key && r.createdAt == k.createdAt
    ensures r.name == (if u.name.Some? then u.name.value else k.name)
    ensures r.description == (if u.description.Some? then u.description else k.description)
    ensures r.enabled == (if u.enabled.Some? then u.enabled.value else k.enabled)
    ensures u.poolId.None? ==> r.poolId == k.poolId
    ensures u.poolId == Some(None) ==> r.poolId.None?
    ensures u.poolId.Some? && u.poolId.value.Some? ==> r.poolId == u.poolId.value
  {
    k.(name := if u.name.Some? then u.name.value else k.name,
       description := if u.description.Some? then u.description else k.description,
       enabled := if u.enabled.Some? then u.enabled.value else k.enabled,
       poolId := if u.poolId.Some? then u.poolId.value else k.poolId)
  }

  class ApiKeyManager {
    var keys: seq<ApiKey>
    var nextId: nat

    /** Every key's id lies below the next id to be issued. */
    ghost predicate Valid()
      reads this
    {
      forall i :: 0 <= i < |keys| ==> keys[i].id < nextId
    }

    /** `ApiKeyManager::new` over the keys read from the file: the next id is max + 1, or 1. */
    constructor New(loaded: seq<ApiKey>)
      ensures keys == loaded && nextId == MaxKeyId(loaded) + 1
      ensures Valid()
    {
      keys := loaded;
      nextId := MaxKeyId(loaded) + 1;
    }

    /** `validate_and_get_pool`: the binding of the first enabled key with that value. */
    function ValidateAndGetPool(value: string): (r: Option<Option<string>>)
      reads this
      ensures r.Some? <==> exists i :: 0 <= i < |keys| && keys[i].enabled && keys[i].key == value
      ensures r.Some? ==> r.value == keys[FindEnabledKey(keys, value).value].poolId
    {
      match FindEnabledKey(keys, value)
      case None => None
      case Some(i) => Some(keys[i].poolId)
    }

    /** `validate`: some enabled key has that value. */
    predicate ValidateKey(value: string)
      reads this
    {
      exists i :: 0 <= i < |keys| && keys[i].enabled && keys[i].key == value
    }

    lemma ValidateAgreesWithLookup(value: string)
      ensures ValidateKey(value) <==> ValidateAndGetPool(value).Some?
    {
    }

    function List(): (r: seq<ApiKeyMasked>)
      reads this
      ensures |r| == |keys| && forall i :: 0 <= i < |keys| ==> r[i] == Masked(keys[i])
    {
      seq(|keys|, i requires 0 <= i < |keys| reads this => Masked(keys[i]))
    }

    function Count(): (r: nat)
      reads this
      ensures r == |keys|
    {
      |keys|
    }

    /** `enabled_count`. */
    function EnabledCount(): (r: nat)
      reads this
      ensures r <= |keys|
      ensures r == 0 <==> forall i :: 0 <= i < |keys| ==> !keys[i].enabled
    {
      CountEnabled(keys)
    }

    /**
     * `create_with_full_key`: a name in use is refused and nothing changes; otherwise one
     * enabled key with the next id, the requested binding, and the requested or a
     * generated value is appended, and the next id goes up by one.
     */
    method CreateWithFullKey(req: CreateApiKeyRequest, randomChars: string, now: int, saveFailure: Option<string>)
      returns (r: Result<ApiKey, ApiKeyError>)
      requires Valid()
      modifies this
      ensures Valid()
      ensures NameInUse(old(keys), req.name) ==>
        r == Err(DuplicateName(req.name)) && keys == old(keys) && nextId == old(nextId)
      ensures !NameInUse(old(keys), req.name) ==>
        var created := ApiKey(old(nextId), req.name,
                              if req.key.Some? then req.key.value else GeneratedKey(randomChars),
                              req.description, now, true, req.poolId);
        keys == old(keys) + [created] && nextId == old(nextId) + 1
        && (saveFailure.None? ==> r == Ok(created))
        && (saveFailure.Some? ==> r == Err(PersistError(saveFailure.value)))
      ensures r.Ok? ==> forall i :: 0 <= i < |old(keys)| ==> old(keys)[i].id < r.value.id
    {
      if exists i :: 0 <= i < |keys| && keys[i].name == req.name {
        return Err(DuplicateName(req.name));
      }
      var keyValue := if req.key.Some? then req.key.value else GeneratedKey(randomChars);
      var id := nextId;
      nextId := nextId + 1;
      var apiKey := ApiKey(id, req.name, keyValue, req.description, now, true, req.poolId);
      keys := keys + [apiKey];
      if saveFailure.Some? {
        return Err(PersistError(saveFailure.value));
      }
      r := Ok(apiKey);
    }

    /** `create`: the same as `create_with_full_key`, answering with the masked key. */
    method Create(req: CreateApiKeyRequest, randomChars: string, now: int, saveFailure: Option<string>)
      returns (r: Result<ApiKeyMasked, ApiKeyError>)
      requires Valid()
      modifies this
      ensures Valid()
      ensures NameInUse(old(keys), req.name) ==>
        r == Err(DuplicateName(req.name)) && keys == old(keys) && nextId == old(nextId)
      ensures !NameInUse(old(keys), req.name) ==>
        var created := ApiKey(old(nextId), req.name,
                              if req.key.Some? then req.key.value else GeneratedKey(randomChars),
                              req.description, now, true, req.poolId);
        keys == old(keys) + [created] && nextId == old(nextId) + 1
        && (saveFailure.None? ==> r == Ok(Masked(created)))
        && (saveFailure.Some? ==> r == Err(PersistError(saveFailure.value)))
    {
      var full := CreateWithFullKey(req, randomChars, now, saveFailure);
      match full {
        case Ok(k) => r := Ok(Masked(k));
        case Err(e) => r := Err(e);
      }
    }

    /**
     * `update`: an unknown id is refused; otherwise the first key with that id takes the
     * request's present fields and its three-state binding, nothing else changes.
     */
    method Update(id: nat, req: UpdateApiKeyRequest, saveFailure: Option<string>)
      returns (r: Result<ApiKeyMasked, ApiKeyError>)
      requires Valid()
      modifies this
      ensures Valid() && nextId == old(nextId)
      ensures IndexOfKeyId(old(keys), id).None? ==> r == Err(NotFound(id)) && keys == old(keys)
      ensures IndexOfKeyId(old(keys), id).Some? ==> var k := IndexOfKeyId(old(keys), id).value;
        keys == old(keys)[k := ApplyKeyUpdate(old(keys)[k], req)]
        && (saveFailure.None? ==> r == Ok(Masked(keys[k])))
        && (saveFailure.Some? ==> r == Err(PersistError(saveFailure.value)))
    {
      var k := IndexOfKeyId(keys, id);
      if k.None? {
        return Err(NotFound(id));
      }
      keys := keys[k.value := ApplyKeyUpdate(keys[k.value], req)];
      var masked := Masked(keys[k.value]);
      if saveFailure.Some? {
        return Err(PersistError(saveFailure.value));
      }
      r := Ok(masked);
    }

    /**
     * `delete`: an unknown id is refused; otherwise exactly the first key with that id is
     * removed, the others keep their order, and the next id stays where it was, so a
     * deleted id is never issued again.
     */
    method Delete(id: nat, saveFailure: Option<string>) returns (r: Result<(), ApiKeyError>)
      requires Valid()
      modifies this
      ensures Valid() && nextId == old(nextId)
      ensures IndexOfKeyId(old(keys), id).None? ==> r == Err(NotFound(id)) && keys == old(keys)
      ensures IndexOfKeyId(old(keys), id).Some? ==> var k := IndexOfKeyId(old(keys), id).value;
        keys == old(keys)[..k] + old(keys)[k + 1..]
        && (r.Ok? <==> saveFailure.None?)
    {
      var k := IndexOfKeyId(keys, id);
      if k.None? {
        return Err(NotFound(id));
      }
      keys := keys[..k.value] + keys[k.value + 1..];
      if saveFailure.Some? {
        return Err(PersistError(saveFailure.value));
      }
      r := Ok(());
    }
  }

  function CountEnabled(keys: seq<ApiKey>): (r: nat)
    ensures r <= |keys|
    ensures r == 0 <==> forall i :: 0 <= i < |keys| ==> !keys[i].enabled
  {
    if keys == [] then 0
    else (if keys[0].enabled then 1 else 0) + CountEnabled(keys[1..])
  }
}
