/**
 * The detection handler's bookkeeping (detection_model.py): the number of
 * 30-image training stages, the GPU memory check, the `classN` alias
 * mapping written next to the training data, and the rewriting of a COCO
 * file's categories onto those aliases.
 */
module DetectionModel {
  import opened Wrappers
  import opened Text
  import opened Coco
  import opened Sorting
  import DinoDataProcessor

  /** Images per training stage. */
  const BATCH_SIZE: nat := 30

  /** Number of stages: the ceiling of n / 30. */
  function StageCount(n: nat): (k: nat)
    ensures k * BATCH_SIZE >= n
    ensures k > 0 ==> (k - 1) * BATCH_SIZE < n
    ensures k == 0 <==> n == 0
  {
    (n + BATCH_SIZE - 1) / BATCH_SIZE
  }

  /**
   * run_train's stages 0 .. StageCount(n)-1, each selecting its slice of the
   * shuffled images, visit every image once: the slices back to back are the
   * shuffled list.
   */
  lemma StagesVisitEveryImage<T>(shuffled: seq<T>)
    ensures Flatten(DinoDataProcessor.StageSlices(shuffled, BATCH_SIZE, StageCount(|shuffled|))) == shuffled
  {
    assert StageCount(|shuffled|) == DinoDataProcessor.CeilDiv(|shuffled|, BATCH_SIZE);
    DinoDataProcessor.SlicesCover(shuffled, BATCH_SIZE);
  }

  const BYTES_PER_GB: real := 1073741824.0

  /**
   * check_memory_available: `first` is the free memory (in bytes) read on
   * entry, `afterClear` the reading taken after clearing the cache. Returns
   * how many times the cache was cleared and whether the check passed (false
   * is the RuntimeError).
   */
  method CheckMemoryAvailable(minGb: real, first: nat, afterClear: nat) returns (clears: nat, ok: bool)
    ensures first as real / BYTES_PER_GB >= minGb ==> clears == 0 && ok
    ensures first as real / BYTES_PER_GB < minGb ==> clears == 1
    ensures !ok <==> first as real / BYTES_PER_GB < minGb && afterClear as real / BYTES_PER_GB < minGb
  {
    clears := 0;
    ok := true;
    var freeGb := first as real / BYTES_PER_GB;
    if freeGb < minGb {
      clears := clears + 1;
      freeGb := afterClear as real / BYTES_PER_GB;
      if freeGb < minGb {
        ok := false;
      }
    }
  }

  /** The alias of the class at 1-based position `i`: "class{i}". */
  function Alias(i: nat): (a: string)
    ensures StartsWith(a, "class") && NoLineBreak(a) && a != []
  {
    var a := "class" + NatToString(i);
    assert forall k :: 5 <= k < |a| ==> a[k] == NatToString(i)[k - 5];
    a
  }

  lemma AliasInjective(i: nat, j: nat)
    requires Alias(i) == Alias(j)
    ensures i == j
  {
    assert Alias(i)[5..] == NatToString(i);
    assert Alias(j)[5..] == NatToString(j);
    NatToStringInjective(i, j);
  }

  /**
   * The classes of a labels.txt: the file's lines as text-mode iteration
   * gives them, each stripped, blank lines dropped.
   */
  function RealClasses(text: string): (rc: seq<string>)
    ensures forall i :: 0 <= i < |rc| ==> rc[i] != [] && Strip(rc[i]) == rc[i]
  {
    NonBlank(Split(UniversalNewlines(text), '\n'))
  }

  function NonBlank(lines: seq<string>): (rc: seq<string>)
    ensures |rc| <= |lines|
    ensures forall i :: 0 <= i < |rc| ==> rc[i] != [] && Strip(rc[i]) == rc[i]
  {
    if lines == [] then []
    else
      var rest := NonBlank(lines[1..]);
      var line := Strip(lines[0]);
      StripIdempotent(lines[0]);
      if line == [] then rest else [line] + rest
  }

  /** The aliases "class1" .. "class{n}". */
  function AliasList(n: nat): (r: seq<string>)
    ensures |r| == n && forall i :: 0 <= i < n ==> r[i] == Alias(i + 1)
  {
    seq(n, i requires 0 <= i => Alias(i + 1))
  }

  /**
   * create_class_mapping. `labels` is the text of labels.txt, None when the
   * file is missing. Returns the forward map (class to alias), the reverse
   * map and the text of the alias labels.txt (None when nothing is written).
   * A class listed twice keeps the alias of its last position.
   */
  method CreateClassMapping(labels: Option<string>)
    returns (forward: map<string, string>, reverse: map<string, string>, aliasLabels: Option<string>)
    ensures labels.None? ==> forward == map[] && reverse == map[] && aliasLabels.None?
    ensures labels.Some? ==> (
      var rc := RealClasses(labels.value);
      && aliasLabels.Some?
      && SplitLines(aliasLabels.value) == AliasList(|rc|)
      && MapsSoFar(rc, |rc|, forward, reverse))
  {
    forward, reverse, aliasLabels := map[], map[], None;
    if labels.None? {
      return;
    }
    var rc := RealClasses(labels.value);
    var k := 0;
    while k < |rc|
      invariant 0 <= k <= |rc|
      invariant MapsSoFar(rc, k, forward, reverse)
    {
      MapsStep(rc, k, forward, reverse);
      forward := forward[rc[k] := Alias(k + 1)];
      reverse := reverse[Alias(k + 1) := rc[k]];
      k := k + 1;
    }
    assert rc[..k] == rc;
    var text := AliasLabelsText(|rc|);
    aliasLabels := Some(text);
  }

  /** What the forward and reverse maps hold after the first `k` classes. */
  ghost predicate MapsSoFar(rc: seq<string>, k: nat, forward: map<string, string>, reverse: map<string, string>)
    requires k <= |rc|
  {
    ForwardSoFar(rc, k, forward) && ReverseSoFar(rc, k, reverse) && InverseMaps(forward, reverse)
  }

  /** The forward map sends each of the first `k` classes to the alias of its last position among them. */
  ghost predicate ForwardSoFar(rc: seq<string>, k: nat, forward: map<string, string>)
    requires k <= |rc|
  {
    && (forall i :: 0 <= i < k ==> rc[i] in forward)
    && (forall c :: c in forward ==> c in rc[..k])
    && (forall i :: 0 <= i < k && (forall j :: i < j < k ==> rc[j] != rc[i]) ==> forward[rc[i]] == Alias(i + 1))
    && (forall c :: c in forward ==> forward[c] in AliasList(k))
  }

  /** The reverse map sends "class{n}" to the n-th class, for n = 1 .. k, and holds nothing else. */
  ghost predicate ReverseSoFar(rc: seq<string>, k: nat, reverse: map<string, string>)
    requires k <= |rc|
  {
    && (forall n :: 1 <= n <= k ==> Alias(n) in reverse && reverse[Alias(n)] == rc[n - 1])
    && (forall a :: a in reverse ==> a in AliasList(k))
  }

  /** Every class comes back from its alias. */
  ghost predicate InverseMaps(forward: map<string, string>, reverse: map<string, string>) {
    forall c :: c in forward ==> forward[c] in reverse && reverse[forward[c]] == c
  }

  /** Adding the (k+1)-th class to both maps keeps them consistent. */
  lemma MapsStep(rc: seq<string>, k: nat, forward: map<string, string>, reverse: map<string, string>)
    requires k < |rc| && MapsSoFar(rc, k, forward, reverse)
    ensures MapsSoFar(rc, k + 1, forward[rc[k] := Alias(k + 1)], reverse[Alias(k + 1) := rc[k]])
  {
    AliasFresh(k);
    assert AliasList(k + 1) == AliasList(k) + [Alias(k + 1)];
    ForwardStep(rc, k, forward);
    ReverseStep(rc, k, reverse);
    var a := Alias(k + 1);
    var f := forward[rc[k] := a];
    var r := reverse[a := rc[k]];
    forall c | c in f ensures f[c] in r && r[f[c]] == c {
      if c != rc[k] {
        assert f[c] == forward[c] && forward[c] in AliasList(k);
      }
    }
  }

  lemma ForwardStep(rc: seq<string>, k: nat, forward: map<string, string>)
    requires k < |rc| && ForwardSoFar(rc, k, forward)
    requires AliasList(k + 1) == AliasList(k) + [Alias(k + 1)]
    ensures ForwardSoFar(rc, k + 1, forward[rc[k] := Alias(k + 1)])
  {
    var f := forward[rc[k] := Alias(k + 1)];
    assert rc[..k + 1] == rc[..k] + [rc[k]];
    forall i | 0 <= i < k + 1 && (forall j :: i < j < k + 1 ==> rc[j] != rc[i]) ensures f[rc[i]] == Alias(i + 1) {
      if i < k {
        assert rc[k] != rc[i];
      }
    }
  }

  lemma ReverseStep(rc: seq<string>, k: nat, reverse: map<string, string>)
    requires k < |rc| && ReverseSoFar(rc, k, reverse)
    requires Alias(k + 1) !in AliasList(k) && AliasList(k + 1) == AliasList(k) + [Alias(k + 1)]
    ensures ReverseSoFar(rc, k + 1, reverse[Alias(k + 1) := rc[k]])
  {
    var r := reverse[Alias(k + 1) := rc[k]];
    forall n | 1 <= n <= k + 1 ensures Alias(n) in r && r[Alias(n)] == rc[n - 1] {
      if n <= k {
        assert AliasList(k)[n - 1] == Alias(n);
        assert Alias(n) != Alias(k + 1);
      }
    }
    forall a | a in r ensures a in AliasList(k + 1) {
      if a != Alias(k + 1) {
        assert a in AliasList(k);
      }
    }
  }

  /** The alias labels.txt: "class{i}\n" for i = 1 .. n. */
  method AliasLabelsText(n: nat) returns (text: string)
    ensures SplitLines(text) == AliasList(n)
  {
    text := "";
    var idx := 1;
    while idx <= n
      invariant 1 <= idx <= n + 1
      invariant text == [] || text[|text| - 1] == '\n'
      invariant SplitLines(text) == AliasList(idx - 1)
    {
      var line := Alias(idx) + "\n";
      SplitLinesConcat(text, line);
      OneLine(Alias(idx));
      assert AliasList(idx) == AliasList(idx - 1) + [Alias(idx)];
      text := text + line;
      idx := idx + 1;
    }
  }

  /** The next alias is none of the earlier ones. */
  lemma AliasFresh(k: nat)
    ensures Alias(k + 1) !in AliasList(k)
  {
    if Alias(k + 1) in AliasList(k) {
      var i :| 0 <= i < k && AliasList(k)[i] == Alias(k + 1);
      AliasInjective(i + 1, k + 1);
    }
  }

  /** The entry update_json_classes puts in place of `cat`, the `idx`-th (1-based) category. */
  function Renamed(cat: Category, idx: nat, mapping: map<string, string>): (r: Category)
    ensures cat.name in mapping ==> r.id == idx && r.name == mapping[cat.name] && r.supercategory.Some?
    ensures cat.name in mapping && cat.supercategory.Some? ==> r.supercategory == cat.supercategory
    ensures cat.name !in mapping ==> r == cat
  {
    if cat.name in mapping then
      Category(idx, mapping[cat.name], Some(if cat.supercategory.Some? then cat.supercategory.value else ""))
    else cat
  }

  /** Old category id to new one, built over the categories in order (a later entry with the same id wins). */
  function IdMap(cats: seq<Category>, mapping: map<string, string>): (m: map<int, int>)
  {
    if cats == [] then map[]
    else
      var n := |cats| - 1;
      IdMap(cats[..n], mapping)[cats[n].id := Renamed(cats[n], n + 1, mapping).id]
  }

  /** The id map holds exactly the old category ids. */
  lemma {:induction false} IdMapKeys(cats: seq<Category>, mapping: map<string, string>)
    ensures forall i :: 0 <= i < |cats| ==> cats[i].id in IdMap(cats, mapping)
    ensures forall id :: id in IdMap(cats, mapping) ==> exists i :: 0 <= i < |cats| && cats[i].id == id
  {
    if cats != [] {
      var n := |cats| - 1;
      IdMapKeys(cats[..n], mapping);
      forall i | 0 <= i < n ensures cats[i].id in IdMap(cats, mapping) {
        assert cats[..n][i] == cats[i];
      }
      forall id | id in IdMap(cats, mapping) ensures exists i :: 0 <= i < |cats| && cats[i].id == id {
        if id != cats[n].id {
          assert id in IdMap(cats[..n], mapping);
          var i :| 0 <= i < n && cats[..n][i].id == id;
          assert cats[i].id == id;
        }
      }
    }
  }

  /** One more category sets (or resets) the entry of its own id. */
  lemma IdMapStep(cats: seq<Category>, mapping: map<string, string>, k: nat)
    requires k < |cats|
    ensures IdMap(cats[..k + 1], mapping) == IdMap(cats[..k], mapping)[cats[k].id := Renamed(cats[k], k + 1, mapping).id]
  {
    assert cats[..k + 1][..k] == cats[..k];
  }

  /** The new id of an old id is that of the last category that carried it. */
  lemma {:induction false} IdMapLast(cats: seq<Category>, mapping: map<string, string>, i: nat)
    requires i < |cats| && forall j :: i < j < |cats| ==> cats[j].id != cats[i].id
    ensures cats[i].id in IdMap(cats, mapping) && IdMap(cats, mapping)[cats[i].id] == Renamed(cats[i], i + 1, mapping).id
  {
    var n := |cats| - 1;
    if i < n {
      assert cats[..n][i] == cats[i];
      IdMapKeys(cats[..n], mapping);
      IdMapLast(cats[..n], mapping, i);
    }
  }

  /** The annotation with its category id moved through `m`; an unknown id is left alone. */
  function Remapped(ann: Annotation, m: map<int, int>): (r: Annotation)
    ensures ann.categoryId in m ==> r == ann.(categoryId := m[ann.categoryId])
    ensures ann.categoryId !in m ==> r == ann
  {
    if ann.categoryId in m then ann.(categoryId := m[ann.categoryId]) else ann
  }

  /**
   * update_json_classes. `file` is the COCO file, None when it is missing;
   * the result is what is written back, None when the file is left alone
   * (missing, or without "categories").
   */
  method UpdateJsonClasses(file: Option<CocoFile>, mapping: map<string, string>) returns (written: Option<CocoFile>)
    ensures file.None? || file.value.categories.None? ==> written.None?
    ensures file.Some? && file.value.categories.Some? ==> (
      var cats := file.value.categories.value;
      var m := IdMap(cats, mapping);
      && written.Some?
      && written.value.images == file.value.images
      && written.value.info == file.value.info
      && written.value.licenses == file.value.licenses
      && written.value.categories.Some?
      && |written.value.categories.value| == |cats|
      && (forall i :: 0 <= i < |cats| ==> written.value.categories.value[i] == Renamed(cats[i], i + 1, mapping))
      && written.value.annotations.Some? == file.value.annotations.Some?
      && (file.value.annotations.Some? ==>
        var anns := file.value.annotations.value;
        |written.value.annotations.value| == |anns| &&
        forall j :: 0 <= j < |anns| ==> written.value.annotations.value[j] == Remapped(anns[j], m)))
  {
    if file.None? || file.value.categories.None? {
      return None;
    }
    var data := file.value;
    var newCats, idMap := RenameCategories(data.categories.value, mapping);
    data := data.(categories := Some(newCats));
    if data.annotations.Some? {
      var anns := RemapAnnotations(data.annotations.value, idMap);
      data := data.(annotations := Some(anns));
    }
    written := Some(data);
  }

  /** The category loop of update_json_classes: the new entries and the old-to-new id map. */
  method RenameCategories(cats: seq<Category>, mapping: map<string, string>) returns (newCats: seq<Category>, idMap: map<int, int>)
    ensures idMap == IdMap(cats, mapping)
    ensures |newCats| == |cats|
    ensures forall i :: 0 <= i < |cats| ==> newCats[i] == Renamed(cats[i], i + 1, mapping)
  {
    idMap := map[];
    newCats := [];
    var k := 0;
    while k < |cats|
      invariant 0 <= k <= |cats|
      invariant idMap == IdMap(cats[..k], mapping)
      invariant |newCats| == k
      invariant forall i :: 0 <= i < k ==> newCats[i] == Renamed(cats[i], i + 1, mapping)
    {
      IdMapStep(cats, mapping, k);
      newCats := newCats + [Renamed(cats[k], k + 1, mapping)];
      idMap := idMap[cats[k].id := Renamed(cats[k], k + 1, mapping).id];
      k := k + 1;
    }
    assert cats[..k] == cats;
  }

  /** The annotation loop of update_json_classes, rewriting each category id in place. */
  method RemapAnnotations(anns: seq<Annotation>, idMap: map<int, int>) returns (r: seq<Annotation>)
    ensures |r| == |anns|
    ensures forall j :: 0 <= j < |anns| ==> r[j] == Remapped(anns[j], idMap)
  {
    r := anns;
    var j := 0;
    while j < |r|
      invariant 0 <= j <= |r| && |r| == |anns|
      invariant forall t :: 0 <= t < j ==> r[t] == Remapped(anns[t], idMap)
      invariant forall t :: j <= t < |r| ==> r[t] == anns[t]
    {
      r := r[j := Remapped(r[j], idMap)];
      j := j + 1;
    }
  }

  /**
   * When every category is mapped and old ids are distinct, an annotation that
   * pointed at the i-th category points at its new id, whose entry carries the
   * alias of the old name.
   */
  lemma AnnotationsFollowCategories(cats: seq<Category>, mapping: map<string, string>, ann: Annotation, i: nat)
    requires i < |cats| && ann.categoryId == cats[i].id
    requires forall a, b :: 0 <= a < b < |cats| ==> cats[a].id != cats[b].id
    requires cats[i].name in mapping
    ensures Remapped(ann, IdMap(cats, mapping)).categoryId == i + 1
    ensures Renamed(cats[i], i + 1, mapping).id == i + 1
    ensures Renamed(cats[i], i + 1, mapping).name == mapping[cats[i].name]
  {
    IdMapLast(cats, mapping, i);
  }
}
