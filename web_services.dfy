/**
 * The web platform's dataset creation helpers
 * (web-platform/backend/network/services.py): the classes of a label
 * properties file are its leaves, each class gets a colour no other class
 * has, and a new dataset is named after its id.
 *
 * Parsing the uploaded JSON or YAML file is not modelled: the parsed value
 * is an input. The random colour generator is an oracle `draw` that, given
 * the colours used so far, returns one that is not among them.
 */
module LabelProperties {
  import opened Wrappers
  import opened Text
  import opened Json

  /** A dict with at least one key: Python treats it as true. */
  predicate NonEmptyDict(v: Json)
  {
    v.JObject? && v.entries != []
  }

  /** A list with at least one element. */
  predicate NonEmptyList(v: Json)
  {
    v.JArray? && v.items != []
  }

  /**
   * extract_leaf_classes: a list is returned as it is; a dict contributes,
   * key by key, the leaves of a non-empty dict value, the elements of a
   * non-empty list value, or else the key itself; anything else has no
   * classes.
   */
  function ExtractLeafClasses(data: Json): (r: seq<Json>)
    ensures data.JArray? ==> r == data.items
    ensures !data.JArray? && !data.JObject? ==> r == []
    decreases data, 1
  {
    match data
    case JArray(items) => items
    case JObject(entries) => LeavesOfKeys(entries, ObjectKeys(entries))
    case _ => []
  }

  /** What one key of a dict contributes. */
  function Contribution(key: string, value: Json): seq<Json>
    decreases value, 2
  {
    if NonEmptyDict(value) then ExtractLeafClasses(value)
    else if NonEmptyList(value) then value.items
    else [JString(key)]
  }

  /** The classes the given keys of a dict contribute, in key order. */
  function LeavesOfKeys(entries: seq<(string, Json)>, keys: seq<string>): (r: seq<Json>)
    requires forall i :: 0 <= i < |keys| ==> keys[i] in Keys(entries)
    decreases JObject(entries), 0, |keys|
  {
    if keys == [] then []
    else
      var n := |keys| - 1;
      var value := ValueOf(entries, keys[n]);
      assert (keys[n], value) in entries;
      LeavesOfKeys(entries, keys[..n]) + Contribution(keys[n], value)
  }

  lemma {:induction false} LeavesOfKeysMembers(entries: seq<(string, Json)>, keys: seq<string>, x: Json)
    requires forall i :: 0 <= i < |keys| ==> keys[i] in Keys(entries)
    ensures x in LeavesOfKeys(entries, keys) <==>
      exists i :: 0 <= i < |keys| && x in Contribution(keys[i], ValueOf(entries, keys[i]))
  {
    if keys != [] {
      var n := |keys| - 1;
      var prefix := keys[..n];
      var last := Contribution(keys[n], ValueOf(entries, keys[n]));
      assert forall i :: 0 <= i < n ==> prefix[i] == keys[i];
      LeavesOfKeysMembers(entries, prefix, x);
      assert LeavesOfKeys(entries, keys) == LeavesOfKeys(entries, prefix) + last;
      if x !in last && x in LeavesOfKeys(entries, prefix) {
        var i :| 0 <= i < n && x in Contribution(prefix[i], ValueOf(entries, prefix[i]));
        assert keys[i] == prefix[i];
      }
    }
  }

  /**
   * A class of a dict comes from one of its keys: it is a leaf of that
   * key's non-empty dict, an element of its non-empty list, or the key
   * itself when the value is anything else.
   */
  lemma LeavesOfDict(entries: seq<(string, Json)>, x: Json)
    ensures x in ExtractLeafClasses(JObject(entries)) <==>
      exists key :: key in Keys(entries) && x in Contribution(key, ValueOf(entries, key))
  {
    var keys := ObjectKeys(entries);
    LeavesOfKeysMembers(entries, keys, x);
    if exists key :: key in Keys(entries) && x in Contribution(key, ValueOf(entries, key)) {
      var key :| key in Keys(entries) && x in Contribution(key, ValueOf(entries, key));
      var j :| 0 <= j < |entries| && entries[j].0 == key;
      assert key in keys;
    }
  }

  /** The classes of a dict whose values are all scalars or empty: its keys, in dict order. */
  lemma {:induction false} FlatDictLeaves(entries: seq<(string, Json)>)
    requires forall i :: 0 <= i < |entries| ==> !NonEmptyDict(entries[i].1) && !NonEmptyList(entries[i].1)
    ensures Iterated(JObject(entries)).Some? && ExtractLeafClasses(JObject(entries)) == Iterated(JObject(entries)).value
  {
    var keys := ObjectKeys(entries);
    FlatKeysLeaves(entries, keys);
  }

  lemma {:induction false} FlatKeysLeaves(entries: seq<(string, Json)>, keys: seq<string>)
    requires forall i :: 0 <= i < |entries| ==> !NonEmptyDict(entries[i].1) && !NonEmptyList(entries[i].1)
    requires forall i :: 0 <= i < |keys| ==> keys[i] in Keys(entries)
    ensures LeavesOfKeys(entries, keys) == seq(|keys|, i requires 0 <= i < |keys| => JString(keys[i]))
  {
    if keys != [] {
      var n := |keys| - 1;
      var value := ValueOf(entries, keys[n]);
      var front := seq(n, i requires 0 <= i < n => JString(keys[i]));
      assert LeavesOfKeys(entries, keys[..n]) == front by {
        FlatKeysLeaves(entries, keys[..n]);
      }
      assert Contribution(keys[n], value) == [JString(keys[n])] by {
        var j :| 0 <= j < |entries| && entries[j] == (keys[n], value);
      }
      assert seq(|keys|, i requires 0 <= i < |keys| => JString(keys[i])) == front + [JString(keys[n])];
    }
  }

  /** Giving one more class a fresh colour keeps the colours distinct and accounted for. */
  lemma ColourStep<T>(result: map<T, string>, used: set<string>, classes: seq<T>, i: nat, colour: string,
                      next: map<T, string>, grown: seq<T>)
    requires i < |classes| && colour !in used && next == result[classes[i] := colour] && grown == classes[..i + 1]
    requires result.Keys == set c | c in classes[..i]
    requires result.Values <= used && |used| == i
    requires forall a, b :: a in result && b in result && a != b ==> result[a] != result[b]
    ensures next.Keys == set c | c in grown
    ensures next.Values <= used + {colour} && |used + {colour}| == i + 1
    ensures forall a, b :: a in next && b in next && a != b ==> next[a] != next[b]
  {
    assert grown == classes[..i] + [classes[i]];
  }

  /**
   * The dict comprehension of process_label_properties: every class in
   * turn gets a colour drawn among those not used yet, which is then marked
   * used; a class that cannot be a dict key stops it (TypeError).
   */
  method AssignColours<T>(classes: seq<T>, hashable: T -> bool, draw: set<string> -> string)
    returns (r: Option<map<T, string>>, usedColors: set<string>)
    requires forall used :: draw(used) !in used
    ensures r.Some? <==> forall k :: 0 <= k < |classes| ==> hashable(classes[k])
    ensures r.Some? ==> r.value.Keys == set c | c in classes
    ensures r.Some? ==> forall a, b :: a in r.value && b in r.value && a != b ==> r.value[a] != r.value[b]
    ensures r.Some? ==> r.value.Values <= usedColors && |usedColors| == |classes|
  {
    var result: map<T, string> := map[];
    usedColors := {};
    var i := 0;
    while i < |classes|
      invariant 0 <= i <= |classes|
      invariant forall k :: 0 <= k < i ==> hashable(classes[k])
      invariant result.Keys == set c | c in classes[..i]
      invariant result.Values <= usedColors && |usedColors| == i
      invariant forall a, b :: a in result && b in result && a != b ==> result[a] != result[b]
    {
      var colour := draw(usedColors);
      ColourStep(result, usedColors, classes, i, colour, result[classes[i] := colour], classes[..i + 1]);
      usedColors := usedColors + {colour};
      if !hashable(classes[i]) {
        return None, usedColors;
      }
      result := result[classes[i] := colour];
      i := i + 1;
    }
    assert classes[..i] == classes;
    r := Some(result);
  }

  /**
   * process_label_properties on the parsed file: the classes are the file
   * itself when it is a list, else its leaves, and each gets a colour of
   * its own; a class that is a list or a dict raises TypeError.
   */
  method ProcessLabelProperties(data: Json, draw: set<string> -> string)
    returns (r: Result<map<Json, string>>, usedColors: set<string>)
    requires forall used :: draw(used) !in used
    ensures r.Ok? <==> forall c :: c in ExtractLeafClasses(data) ==> Hashable(c)
    ensures r.Ok? ==> r.value.Keys == set c | c in ExtractLeafClasses(data)
    ensures r.Ok? ==> forall a, b :: a in r.value && b in r.value && a != b ==> r.value[a] != r.value[b]
    ensures r.Ok? ==> r.value.Values <= usedColors && |usedColors| == |ExtractLeafClasses(data)|
  {
    var classes := if data.JArray? then data.items else ExtractLeafClasses(data);
    var colours;
    colours, usedColors := AssignColours(classes, (c: Json) => Hashable(c), draw);
    if colours.None? {
      return Err("TypeError: unhashable type"), usedColors;
    }
    r := Ok(colours.value);
  }

  /** The label properties of a dataset created without a file. */
  const DEFAULT_LABEL_PROPERTIES: map<Json, string> := map[JString("Standart_label") := "#FF0000"]

  /** The stored name of a new dataset: its id, an underscore, the requested name. */
  function DatasetName(datasetId: nat, name: string): (r: string)
    ensures StartsWith(r, NatToString(datasetId) + "_") && EndsWith(r, name)
  {
    var r := NatToString(datasetId) + "_" + name;
    assert r[..|NatToString(datasetId) + "_"|] == NatToString(datasetId) + "_";
    assert r[|r| - |name|..] == name;
    r
  }

  /**
   * create_dataset, for the name and the label properties: the dataset is
   * named after its id, and its label properties are those of the
   * uploaded file, or one red "Standart_label" without one. `labelFile`
   * is the parsed file, if one was uploaded.
   */
  method CreateDataset(datasetId: nat, name: string, labelFile: Option<Json>, draw: set<string> -> string)
    returns (datasetName: string, labels: Result<map<Json, string>>)
    requires forall used :: draw(used) !in used
    ensures datasetName == DatasetName(datasetId, name)
    ensures labelFile.None? ==> labels == Ok(DEFAULT_LABEL_PROPERTIES)
    ensures labelFile.Some? ==>
      && (labels.Ok? <==> forall c :: c in ExtractLeafClasses(labelFile.value) ==> Hashable(c))
      && (labels.Ok? ==> labels.value.Keys == set c | c in ExtractLeafClasses(labelFile.value))
      && (labels.Ok? ==> forall a, b :: a in labels.value && b in labels.value && a != b ==> labels.value[a] != labels.value[b])
  {
    datasetName := DatasetName(datasetId, name);
    labels := Ok(DEFAULT_LABEL_PROPERTIES);
    if labelFile.Some? {
      var used;
      labels, used := ProcessLabelProperties(labelFile.value, draw);
    }
  }
}
