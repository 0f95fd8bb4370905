/** The shape of a `serde_json::Value`, as far as the request handling looks inside one. */
module Json {
  import opened Wrappers

  /** Numbers are kept as integers; objects keep their fields in order, keys unique. */
  datatype Value =
    | JNull
    | JBool(b: bool)
    | JNum(n: int)
    | JStr(s: string)
    | JArr(items: seq<Value>)
    | JObj(fields: seq<(string, Value)>)

  /** `value.get(key)`: the field of an object, None for an absent key or a non-object. */
  function Get(v: Value, key: string): (r: Option<Value>)
    ensures r.Some? ==> v.JObj? && exists i :: 0 <= i < |v.fields| && v.fields[i] == (key, r.value)
    ensures v.JObj? && (exists i :: 0 <= i < |v.fields| && v.fields[i].0 == key) ==> r.Some?
    ensures !v.JObj? ==> r.None?
  {
    match v
    case JObj(fields) => GetField(fields, key)
    case _ => None
  }

  function GetField(fields: seq<(string, Value)>, key: string): (r: Option<Value>)
    ensures r.Some? ==> exists i :: 0 <= i < |fields| && fields[i] == (key, r.value)
    ensures r.None? ==> forall i :: 0 <= i < |fields| ==> fields[i].0 != key
  {
    if fields == [] then None
    else if fields[0].0 == key then Some(fields[0].1)
    else
      var r := GetField(fields[1..], key);
      assert r.Some? ==> exists i :: 0 <= i < |fields[1..]| && fields[1..][i] == (key, r.value);
      assert r.Some? ==> exists i :: 0 <= i < |fields| && fields[i] == (key, r.value) by {
        if r.Some? {
          var i :| 0 <= i < |fields[1..]| && fields[1..][i] == (key, r.value);
          assert fields[i + 1] == (key, r.value);
        }
      }
      r
  }

  /** `value.get(key).and_then(|v| v.as_str())`. */
  function GetStr(v: Value, key: string): (r: Option<string>)
    ensures r.Some? <==> Get(v, key).Some? && Get(v, key).value.JStr?
    ensures r.Some? ==> Get(v, key).value == JStr(r.value)
  {
    match Get(v, key)
    case Some(JStr(s)) => Some(s)
    case _ => None
  }
}
