/**
 * JSON values as `json.load` returns them. An object keeps its keys in
 * document order; when a key repeats, the last value is the one read.
 */
module Json {
  import opened Wrappers
  import opened Sorting

  datatype Json =
    | JNull
    | JBool(b: bool)
    | JNumber(n: real)
    | JString(s: string)
    | JArray(items: seq<Json>)
    | JObject(entries: seq<(string, Json)>)

  function Keys(entries: seq<(string, Json)>): (r: seq<string>)
    ensures |r| == |entries| && forall i :: 0 <= i < |r| ==> r[i] == entries[i].0
  {
    seq(|entries|, i requires 0 <= i < |entries| => entries[i].0)
  }

  /** `obj.get(key)`: the value of the last entry with that key. */
  function Get(entries: seq<(string, Json)>, key: string): (r: Option<Json>)
  {
    if entries == [] then None
    else
      var n := |entries| - 1;
      if entries[n].0 == key then Some(entries[n].1) else Get(entries[..n], key)
  }

  /** A key reads as None exactly when no entry carries it, and otherwise as the value of one of its entries. */
  lemma {:induction false} GetSpec(entries: seq<(string, Json)>, key: string)
    ensures Get(entries, key).None? <==> key !in Keys(entries)
    ensures Get(entries, key).Some? ==> (key, Get(entries, key).value) in entries
  {
    if entries != [] {
      var n := |entries| - 1;
      assert Keys(entries) == Keys(entries[..n]) + [entries[n].0];
      GetSpec(entries[..n], key);
    }
  }

  /** The value json.load keeps for a key that appears in an object. */
  function ValueOf(entries: seq<(string, Json)>, key: string): (v: Json)
    requires key in Keys(entries)
    ensures (key, v) in entries
  {
    GetSpec(entries, key);
    Get(entries, key).value
  }

  /** The entry written last decides: its own key reads as its value, other keys as before. */
  lemma GetSnoc(entries: seq<(string, Json)>, k: string, v: Json, key: string)
    ensures Get(entries + [(k, v)], key) == if k == key then Some(v) else Get(entries, key)
  {
    assert (entries + [(k, v)])[..|entries|] == entries;
  }

  /** The keys of an object as the dict json.load builds has them: in order of first appearance. */
  function ObjectKeys(entries: seq<(string, Json)>): (names: seq<string>)
    ensures forall k :: 0 <= k < |names| ==> names[k] in Keys(entries)
    ensures forall k, m :: 0 <= k < m < |names| ==> names[k] != names[m]
    ensures forall i :: 0 <= i < |entries| ==> entries[i].0 in names
  {
    FirstSeenSpec(Keys(entries));
    FirstSeen(Keys(entries))
  }

  /** What `for x in v` yields: a list's items, a dict's keys, a string's characters; None when v is not iterable. */
  function Iterated(v: Json): (r: Option<seq<Json>>)
    ensures v.JArray? ==> r == Some(v.items)
    ensures (v.JNull? || v.JBool? || v.JNumber?) <==> r.None?
  {
    match v
    case JArray(items) => Some(items)
    case JObject(entries) =>
      var keys := ObjectKeys(entries);
      Some(seq(|keys|, i requires 0 <= i < |keys| => JString(keys[i])))
    case JString(s) => Some(seq(|s|, i requires 0 <= i < |s| => JString([s[i]])))
    case _ => None
  }

  /** `v.items()`: the (key, value) pairs of a dict, in dict order; None (AttributeError) when v is not a dict. */
  function Items(v: Json): (r: Option<seq<(string, Json)>>)
    ensures v.JObject? <==> r.Some?
  {
    match v
    case JObject(entries) =>
      var keys := ObjectKeys(entries);
      Some(seq(|keys|, i requires 0 <= i < |keys| => (keys[i], ValueOf(entries, keys[i]))))
    case _ => None
  }

  /** Whether a JSON value can be a dict key (lists and dicts are unhashable). */
  predicate Hashable(u: Json)
  {
    !u.JArray? && !u.JObject?
  }

  /** An object whose keys are all different reads back entry by entry, in order. */
  lemma ItemsOfDistinct(entries: seq<(string, Json)>)
    requires forall i, j :: 0 <= i < j < |entries| ==> entries[i].0 != entries[j].0
    ensures Items(JObject(entries)) == Some(entries)
  {
    var keys := Keys(entries);
    FirstSeenDistinct(keys);
    forall i | 0 <= i < |entries| ensures ValueOf(entries, keys[i]) == entries[i].1 {
      var j :| 0 <= j < |entries| && entries[j] == (keys[i], ValueOf(entries, keys[i]));
      assert i == j;
    }
    assert ObjectKeys(entries) == keys;
    var items := seq(|keys|, i requires 0 <= i < |keys| => (keys[i], ValueOf(entries, keys[i])));
    assert items == entries;
  }

  /** The items of an object have no key twice. */
  lemma ItemsDistinct(v: Json)
    requires v.JObject?
    ensures forall i, j :: 0 <= i < j < |Items(v).value| ==> Items(v).value[i].0 != Items(v).value[j].0
  {
  }
}
