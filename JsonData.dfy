/** JSON values as both sides of the application exchange them. */
module JsonData {

  import opened Wrappers

  /** A JSON value (numbers are integers here: every number the two sides exchange is one). */
  datatype Json =
    | JNull
    | JBool(b: bool)
    | JNumber(n: int)
    | JString(s: string)
    | JArray(items: seq<Json>)
    | JObject(members: seq<(string, Json)>)

  /** The value of property `key` of an object, `None` for anything else. A
      key repeated in an object resolves to its last occurrence, as both
      `JSON.parse` and Python's `json.loads` resolve it. */
  function Member(j: Json, key: string): Option<Json> {
    match j
    case JObject(members) => LastMember(members, key)
    case _ => None
  }

  function LastMember(members: seq<(string, Json)>, key: string): Option<Json> {
    if members == [] then None
    else if members[|members| - 1].0 == key then Some(members[|members| - 1].1)
    else LastMember(members[..|members| - 1], key)
  }

  /** A member found by key is one of the object's members, and a key the object lacks is not found. */
  lemma {:induction false} LastMemberFound(members: seq<(string, Json)>, key: string)
    ensures LastMember(members, key).Some? ==> (key, LastMember(members, key).value) in members
    ensures LastMember(members, key).None? <==> forall m :: m in members ==> m.0 != key
    decreases |members|
  {
    if members != [] {
      var init := members[..|members| - 1];
      LastMemberFound(init, key);
      assert members == init + [members[|members| - 1]];
    }
  }

  /** `{a, b, c}` in that key order: each key reads its own value. */
  lemma MembersOfThree(a: string, x: Json, b: string, y: Json, c: string, z: Json)
    requires a != b && a != c && b != c
    ensures Member(JObject([(a, x), (b, y), (c, z)]), a) == Some(x)
    ensures Member(JObject([(a, x), (b, y), (c, z)]), b) == Some(y)
    ensures Member(JObject([(a, x), (b, y), (c, z)]), c) == Some(z)
  {
    var m := [(a, x), (b, y), (c, z)];
    assert m[..2] == [(a, x), (b, y)];
    assert m[..2][..1] == [(a, x)];
    assert LastMember(m, a) == LastMember(m[..2], a) == LastMember(m[..2][..1], a);
    assert LastMember(m, b) == LastMember(m[..2], b);
  }

  /** `{a, b}`: each key reads its own value. */
  lemma MembersOfTwo(a: string, x: Json, b: string, y: Json)
    requires a != b
    ensures Member(JObject([(a, x), (b, y)]), a) == Some(x)
    ensures Member(JObject([(a, x), (b, y)]), b) == Some(y)
  {
    var m := [(a, x), (b, y)];
    assert m[..1] == [(a, x)];
    assert LastMember(m, a) == LastMember(m[..1], a);
  }
}
