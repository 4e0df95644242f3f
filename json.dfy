/**
 * JSON values as JavaScript builds them before `JSON.stringify`: objects keep
 * their members in insertion order, and a member whose value is `undefined`
 * is simply absent (it is dropped when serialised).
 */
module Json {
  import opened Wrappers

  datatype Json =
    | JNull
    | JBool(b: bool)
    | JNumber(n: int)
    | JString(s: string)
    | JArray(items: seq<Json>)
    | JObject(members: seq<(string, Json)>)

  /** `value[key]`: the first member named `key` of an object, missing otherwise. */
  function Get(value: Json, key: string): (r: Option<Json>)
    ensures r.Some? ==> value.JObject? && exists i :: 0 <= i < |value.members| && value.members[i] == (key, r.value)
    ensures r.None? && value.JObject? ==> forall i :: 0 <= i < |value.members| ==> value.members[i].0 != key
  {
    if !value.JObject? then None else Lookup(value.members, key)
  }

  function Lookup<V>(members: seq<(string, V)>, key: string): (r: Option<V>)
    ensures r.Some? ==> exists i :: 0 <= i < |members| && members[i] == (key, r.value)
    ensures r.None? ==> forall i :: 0 <= i < |members| ==> members[i].0 != key
  {
    if members == [] then None
    else if members[0].0 == key then Some(members[0].1)
    else Lookup(members[1..], key)
  }

  /** `value[k1][k2]`, missing when either step is. */
  function Get2(value: Json, k1: string, k2: string): Option<Json>
  {
    match Get(value, k1)
    case None => None
    case Some(inner) => Get(inner, k2)
  }

  /** The keys of an object's members. */
  function KeySet<V>(members: seq<(string, V)>): (keys: set<string>)
    ensures forall k :: k in keys <==> exists i :: 0 <= i < |members| && members[i].0 == k
  {
    if members == [] then {} else {members[0].0} + KeySet(members[1..])
  }

  lemma {:induction false} KeySetAppend<V>(a: seq<(string, V)>, b: seq<(string, V)>)
    ensures KeySet(a + b) == KeySet(a) + KeySet(b)
  {
    if a == [] {
      assert a + b == b;
    } else {
      assert (a + b)[0] == a[0] && (a + b)[1..] == a[1..] + b;
      KeySetAppend(a[1..], b);
    }
  }

  /** The members of a parsed JSON object have distinct keys. */
  predicate DistinctKeys<V>(members: seq<(string, V)>)
  {
    forall i, j :: 0 <= i < j < |members| ==> members[i].0 != members[j].0
  }
}
