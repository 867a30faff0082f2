/** The small part of JSON the request records need: objects of strings and
    booleans, and `null` for a nil pointer. Members keep their encoding order. */
module Json {
  import opened Wrappers

  datatype Value = Null | Bool(b: bool) | Str(s: string) | Object(members: seq<Member>)

  datatype Member = Member(key: string, value: Value)

  /** No key is emitted twice. */
  predicate DistinctKeys(members: seq<Member>)
  {
    forall a, b | 0 <= a < b < |members| :: members[a].key != members[b].key
  }

  /** The value a decoder ends up with for `key`: it assigns every member in
      turn, so the last one named `key` wins. */
  function Lookup(members: seq<Member>, key: string): (v: Option<Value>)
    ensures v.Some? <==> exists k :: 0 <= k < |members| && members[k].key == key
    ensures v.Some? ==> exists k :: 0 <= k < |members| && members[k] == Member(key, v.value)
    ensures v.Some? ==> forall k | 0 <= k < |members| && members[k].key == key ::
      members[k].value == v.value || exists j :: k < j < |members| && members[j].key == key
  {
    if members == [] then None
    else if members[|members| - 1].key == key then Some(members[|members| - 1].value)
    else
      var v := Lookup(members[..|members| - 1], key);
      assert forall k :: 0 <= k < |members| - 1 ==> members[..|members| - 1][k] == members[k];
      v
  }
}
