/** The shape of a JSON value as serde_json and Python's json module see it.
    Objects keep every entry in wire order, duplicates included, because
    the custom serde visitors read them one by one. */
module Json {
  import opened Wrappers

  datatype Json =
    | JNull
    | JBool(b: bool)
    | JInt(i: int)
    | JFloat(f: real)
    | JString(s: string)
    | JArray(items: seq<Json>)
    | JObject(entries: seq<(string, Json)>)

  const U64Limit: int := 0x1_0000_0000_0000_0000

  /** serde's `u64` from a JSON value: only in-range integer literals. */
  function AsU64(j: Json): (r: Option<nat>)
    ensures r.Some? <==> j.JInt? && 0 <= j.i < U64Limit
    ensures r.Some? ==> r.value == j.i
  {
    if j.JInt? && 0 <= j.i < U64Limit then Some(j.i) else None
  }

  /** No later entry repeats the key of entry `i`. */
  predicate LastOccurrence(entries: seq<(string, Json)>, i: int)
    requires 0 <= i < |entries|
  {
    forall j :: i < j < |entries| ==> entries[j].0 != entries[i].0
  }

  /** Python's `json.loads` object: a dict in which the last duplicate key wins. */
  function ObjectToDict(entries: seq<(string, Json)>): (d: map<string, Json>)
    ensures forall i :: 0 <= i < |entries| ==> entries[i].0 in d
    ensures forall k :: k in d ==> exists i :: 0 <= i < |entries| && entries[i].0 == k
    ensures forall i :: 0 <= i < |entries| && LastOccurrence(entries, i) ==> d[entries[i].0] == entries[i].1
    decreases |entries|
  {
    if entries == [] then map[]
    else
      var init := entries[..|entries| - 1];
      var last := entries[|entries| - 1];
      var d := ObjectToDict(init);
      DictStepKeys(entries, init, d, d[last.0 := last.1]);
      DictStepValues(entries, init, d, d[last.0 := last.1]);
      d[last.0 := last.1]
  }

  /** One more entry: the dict still holds only keys of the entries. */
  lemma DictStepKeys(entries: seq<(string, Json)>, init: seq<(string, Json)>, d: map<string, Json>, d': map<string, Json>)
    requires entries != [] && init == entries[..|entries| - 1]
    requires d' == d[entries[|entries| - 1].0 := entries[|entries| - 1].1]
    requires forall k :: k in d ==> exists i :: 0 <= i < |init| && init[i].0 == k
    ensures forall k :: k in d' ==> exists i :: 0 <= i < |entries| && entries[i].0 == k
  {
    forall k | k in d'
      ensures exists i :: 0 <= i < |entries| && entries[i].0 == k
    {
      if k == entries[|entries| - 1].0 {
        assert entries[|entries| - 1].0 == k;
      } else {
        var i :| 0 <= i < |init| && init[i].0 == k;
        assert entries[i].0 == k;
      }
    }
  }

  /** One more entry: its key now maps to its value, and every other key
      keeps the value of its last occurrence so far. */
  lemma DictStepValues(entries: seq<(string, Json)>, init: seq<(string, Json)>, d: map<string, Json>, d': map<string, Json>)
    requires entries != [] && init == entries[..|entries| - 1]
    requires d' == d[entries[|entries| - 1].0 := entries[|entries| - 1].1]
    requires forall i :: 0 <= i < |init| ==> init[i].0 in d
    requires forall i :: 0 <= i < |init| && LastOccurrence(init, i) ==> d[init[i].0] == init[i].1
    ensures forall i :: 0 <= i < |entries| ==> entries[i].0 in d'
    ensures forall i :: 0 <= i < |entries| && LastOccurrence(entries, i) ==> d'[entries[i].0] == entries[i].1
  {
    assert forall i :: 0 <= i < |init| ==> init[i] == entries[i];
    forall i | 0 <= i < |entries| - 1 && LastOccurrence(entries, i)
      ensures LastOccurrence(init, i) && entries[|entries| - 1].0 != entries[i].0
    {
    }
  }
}
