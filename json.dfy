/** Parsed JSON values as `response.json()` returns them. A JSON object is a
    Python `dict`, whose members keep insertion order. */
module Json {
  import opened Runtime

  datatype Json =
    | JNull
    | JBool(b: bool)
    | JNumber(n: real)
    | JString(s: string)
    | JArray(items: seq<Json>)
    | JObject(members: seq<Member>)

  datatype Member = Member(key: string, value: Json)

  /** A `dict`: no key occurs twice. */
  ghost predicate DistinctKeys(members: seq<Member>) {
    forall i, j :: 0 <= i < j < |members| ==> members[i].key != members[j].key
  }

  /** `d.get(key)` on a dict: the value stored under `key`, or `None`. */
  function Get(members: seq<Member>, key: string): (r: Option<Json>)
    ensures r.None? <==> forall i :: 0 <= i < |members| ==> members[i].key != key
    ensures r.Some? ==> Member(key, r.value) in members
    decreases |members|
  {
    if members == [] then None
    else if members[0].key == key then Some(members[0].value)
    else Get(members[1..], key)
  }
}
