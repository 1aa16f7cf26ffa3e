/** JSON values as the request bodies and the user converter see them. */
module Json {
  import opened Wrappers

  /** A JSON value; an object keeps its members in document order. */
  datatype Json =
    | JNull
    | JBool(b: bool)
    | JNumber(n: int)
    | JString(s: string)
    | JArray(items: seq<Json>)
    | JObject(members: seq<(string, Json)>)

  /** The keys of the members, in order. */
  function Keys(members: seq<(string, Json)>): (ks: seq<string>)
    ensures |ks| == |members|
  {
    if members == [] then [] else [members[0].0] + Keys(members[1..])
  }

  /** The value of the first member named `key`, as a JObject indexer reads it. */
  function Member(members: seq<(string, Json)>, key: string): (r: Option<Json>)
    ensures r.None? <==> key !in Keys(members)
    ensures r.Some? ==> (key, r.value) in members
  {
    if members == [] then None
    else if members[0].0 == key then Some(members[0].1)
    else
      assert Keys(members) == [members[0].0] + Keys(members[1..]);
      Member(members[1..], key)
  }

  /**
   * A JObject indexer assignment `obj[key] = value`: the first member named `key` gets the new
   * value in place, or, when there is none, the member is added at the end.
   */
  function SetMember(members: seq<(string, Json)>, key: string, value: Json): (r: seq<(string, Json)>)
    ensures Member(r, key) == Some(value)
  {
    if members == [] then [(key, value)]
    else if members[0].0 == key then [(key, value)] + members[1..]
    else
      var rest := SetMember(members[1..], key, value);
      assert ([members[0]] + rest)[1..] == rest;
      [members[0]] + rest
  }

  /** Setting one member leaves the value of every other member as it was. */
  lemma {:induction false} SetMemberKeepsOthers(members: seq<(string, Json)>, key: string, value: Json, other: string)
    requires other != key
    ensures Member(SetMember(members, key, value), other) == Member(members, other)
  {
    if members != [] && members[0].0 != key {
      SetMemberKeepsOthers(members[1..], key, value, other);
    }
  }

  /** Setting a member keeps the member order; a new member goes last. */
  lemma {:induction false} SetMemberKeys(members: seq<(string, Json)>, key: string, value: Json)
    ensures Keys(SetMember(members, key, value))
         == if key in Keys(members) then Keys(members) else Keys(members) + [key]
  {
    if members != [] {
      assert Keys(members) == [members[0].0] + Keys(members[1..]);
      if members[0].0 != key {
        var rest := SetMember(members[1..], key, value);
        SetMemberKeys(members[1..], key, value);
        assert Keys([members[0]] + rest) == [members[0].0] + Keys(rest);
      } else {
        assert Keys([(key, value)] + members[1..]) == [key] + Keys(members[1..]);
      }
    }
  }
}
