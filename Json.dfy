/** JSON values as `json.loads` produces them and `JSON.stringify` sends them.
    Numbers are integers here; objects keep their members in order. */
module Json {
  import opened Wrappers

  datatype Json =
    | JNull
    | JBool(b: bool)
    | JNum(n: int)
    | JStr(s: string)
    | JArray(items: seq<Json>)
    | JObject(members: seq<(string, Json)>)

  /** Python truthiness of the value `json.loads` returns (`not x` is its negation):
      `None`, `False`, `0`, `""`, `[]` and `{}` are false. */
  predicate Truthy(j: Json) {
    match j
    case JNull => false
    case JBool(b) => b
    case JNum(n) => n != 0
    case JStr(s) => s != ""
    case JArray(items) => items != []
    case JObject(members) => members != []
  }

  /** A two-member object `{k1: v1, k2: v2}`. */
  function Object2(k1: string, v1: Json, k2: string, v2: Json): Json {
    JObject([(k1, v1), (k2, v2)])
  }

  /** The value of member `key` of an object, if it has one. */
  function Get(j: Json, key: string): (r: Option<Json>)
    ensures r.Some? ==> j.JObject? && exists i :: 0 <= i < |j.members| && j.members[i] == (key, r.value)
  {
    if j.JObject? then Lookup(j.members, key) else None
  }

  /** The value paired with the first occurrence of `key`. */
  function Lookup(members: seq<(string, Json)>, key: string): (r: Option<Json>)
    ensures r.Some? ==> exists i :: 0 <= i < |members| && members[i] == (key, r.value)
    ensures r.None? ==> forall i :: 0 <= i < |members| ==> members[i].0 != key
  {
    if members == [] then None
    else if members[0].0 == key then Some(members[0].1)
    else Lookup(members[1..], key)
  }

  /** Each member of a two-member object with distinct keys is found. */
  lemma GetObject2(k1: string, v1: Json, k2: string, v2: Json)
    requires k1 != k2
    ensures Get(Object2(k1, v1, k2, v2), k1) == Some(v1)
    ensures Get(Object2(k1, v1, k2, v2), k2) == Some(v2)
  {
    var ms := Object2(k1, v1, k2, v2).members;
    assert ms[0].0 == k1 && ms[1..] == [(k2, v2)];
    assert Lookup([(k2, v2)], k2) == Some(v2);
  }
}
