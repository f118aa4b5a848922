/** The values `JSON.parse` produces and `NextResponse.json` serialises.
    Only the shape of the data is modelled, not the JSON grammar. */
module JsonValues {

  import opened Wrappers

  /** A JSON value, as shape only: numbers are integers, and an object is the
      list of its members in the order they are written. */
  datatype JsonValue =
    | JNull
    | JBool(b: bool)
    | JNumber(n: int)
    | JString(s: string)
    | JArray(items: seq<JsonValue>)
    | JObject(members: seq<(string, JsonValue)>)

  /** Property access `obj[key]` on an object: the value of the first member
      with that key, or `undefined`. */
  function Get(v: JsonValue, key: string): Option<JsonValue> {
    if !v.JObject? then None else Lookup(v.members, key)
  }

  function Lookup(members: seq<(string, JsonValue)>, key: string): Option<JsonValue> {
    if members == [] then None
    else if members[0].0 == key then Some(members[0].1)
    else Lookup(members[1..], key)
  }

  /** A lookup misses exactly when no member has the key. */
  lemma {:induction false} LookupMisses(members: seq<(string, JsonValue)>, key: string)
    ensures Lookup(members, key).None? <==> forall i :: 0 <= i < |members| ==> members[i].0 != key
  {
    if members != [] && members[0].0 != key {
      LookupMisses(members[1..], key);
      assert forall i :: 1 <= i < |members| ==> members[i] == members[1..][i - 1];
    }
  }

  /** The member at `i` answers the lookup when no earlier member has its key. */
  lemma {:induction false} LookupAt(members: seq<(string, JsonValue)>, i: nat, key: string)
    requires i < |members| && members[i].0 == key
    requires forall j :: 0 <= j < i ==> members[j].0 != key
    ensures Lookup(members, key) == Some(members[i].1)
  {
    if i > 0 {
      LookupAt(members[1..], i - 1, key);
    }
  }
}
