/** The values `json.loads` produces and `json.dumps` accepts: the payload the
    webhook action interpolates and sends. A JSON object becomes a Python dict,
    kept here as its members in insertion order. The datatype can also hold a
    member list with a repeated key, which no dict can; `DistinctKeys` says
    which member lists are dicts, and the operations that rebuild a dict keep
    it. */
module JsonValues {

  datatype Json =
    | JNull
    | JBool(b: bool)
    | JInt(i: int)
    | JFloat(literal: string)      // floating point is not modelled: only its text
    | JString(s: string)
    | JArray(items: seq<Json>)     // a Python list
    | JObject(members: seq<Member>) // a Python dict

  datatype Member = Member(key: string, value: Json)

  /** The keys of a dict, in order. */
  function Keys(ms: seq<Member>): seq<string>
  {
    seq(|ms|, i requires 0 <= i < |ms| => ms[i].key)
  }

  /** No key occurs twice, as in every Python dict. */
  predicate DistinctKeys(ms: seq<Member>) {
    forall i, j :: 0 <= i < j < |ms| ==> ms[i].key != ms[j].key
  }

  /** Members with the same keys in the same order are equally free of
      duplicates. */
  lemma SameKeysDistinct(ms: seq<Member>, ns: seq<Member>)
    requires Keys(ms) == Keys(ns)
    ensures DistinctKeys(ms) <==> DistinctKeys(ns)
  {
    assert |ms| == |Keys(ms)| == |Keys(ns)| == |ns|;
    forall i | 0 <= i < |ms|
      ensures ms[i].key == ns[i].key
    {
      assert Keys(ms)[i] == Keys(ns)[i];
    }
  }

  /** The value with the text of every string leaf erased: what is left is its
      structure, the keys of its dicts and its non-string leaves. */
  function Shape(v: Json): Json
    decreases v
  {
    match v
    case JString(_) => JString("")
    case JArray(xs) => JArray(ItemsShape(xs))
    case JObject(ms) => JObject(MembersShape(ms))
    case _ => v
  }

  function ItemsShape(xs: seq<Json>): seq<Json>
    decreases xs
  {
    if xs == [] then [] else [Shape(xs[0])] + ItemsShape(xs[1..])
  }

  function MembersShape(ms: seq<Member>): seq<Member>
    decreases ms
  {
    if ms == [] then [] else [Member(ms[0].key, Shape(ms[0].value))] + MembersShape(ms[1..])
  }

  /** The string leaves of a value, in document order (dict keys are not leaves). */
  function Leaves(v: Json): seq<string>
    decreases v
  {
    match v
    case JString(s) => [s]
    case JArray(xs) => ItemsLeaves(xs)
    case JObject(ms) => MembersLeaves(ms)
    case _ => []
  }

  function ItemsLeaves(xs: seq<Json>): seq<string>
    decreases xs
  {
    if xs == [] then [] else Leaves(xs[0]) + ItemsLeaves(xs[1..])
  }

  function MembersLeaves(ms: seq<Member>): seq<string>
    decreases ms
  {
    if ms == [] then [] else Leaves(ms[0].value) + MembersLeaves(ms[1..])
  }
}
