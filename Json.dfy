/** The JSON documents the commandlets write (RFC 8259 values), as trees.
    Objects keep their members in the order they are written. */
module Json {
  import opened Wrappers
  import OrderedMap

  datatype Json =
    | Null
    | Bool(b: bool)
    | Number(n: int)
    | String(s: string)
    | Array(items: seq<Json>)
    | Object(members: seq<(string, Json)>)

  /** The value of the first member named `key` of an object. */
  function Get(j: Json, key: string): (r: Option<Json>)
    ensures r.Some? <==> j.Object? && key in OrderedMap.Keys(j.members)
    ensures r.Some? ==> (key, r.value) in j.members
  {
    if j.Object? then Lookup(j.members, key) else None
  }

  /** The value of the first member named `key`. */
  function Lookup(members: seq<(string, Json)>, key: string): (r: Option<Json>)
    ensures r.Some? <==> key in OrderedMap.Keys(members)
    ensures r.Some? ==> (key, r.value) in members
    decreases |members|
  {
    if |members| == 0 then None
    else if members[0].0 == key then Some(members[0].1)
    else
      var r := Lookup(members[1..], key);
      assert OrderedMap.Keys(members) == [members[0].0] + OrderedMap.Keys(members[1..]);
      r
  }

  /** An array of numbers. */
  function Numbers(ns: seq<int>): (r: Json)
    ensures r.Array? && |r.items| == |ns|
    ensures forall i :: 0 <= i < |ns| ==> r.items[i] == Number(ns[i])
  {
    Array(seq(|ns|, i requires 0 <= i < |ns| => Number(ns[i])))
  }
}
