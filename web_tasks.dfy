/**
 * Background tasks of the web platform (web-platform/backend/network/tasks.py):
 * the name a dataset copy gets, the progress a copy reports, and the
 * clean-up of detection annotation files after a class is deleted.
 *
 * The database and the stored files are values: a detection file is its
 * parsed content (None when the link is empty or the file does not parse),
 * and the clean-up returns the new content of every file instead of saving
 * it.
 */
module PlatformTasks {
  import opened Wrappers
  import opened Text
  import opened Sorting
  import opened Json
  import opened LabelProperties

  // ---------------------------------------------------------------------
  // copy_dataset: the name of the copy
  // ---------------------------------------------------------------------

  /** A stored dataset name without its "<id>_" prefix: everything after the first underscore. */
  function StripIdPrefix(name: string): (r: string)
    ensures '_' !in name ==> r == []
  {
    Join(Split(name, '_')[1..], "_")
  }

  /** The first `c` of `p + [c] + q`, when `p` has none, is the one after `p`. */
  lemma IndexOfAfter(p: string, c: char, q: string)
    requires c !in p
    ensures IndexOf(p + [c] + q, c) == |p|
  {
    var s := p + [c] + q;
    assert s[..|p|] == p && s[|p|] == c;
  }

  /** Stripping the prefix of a name the platform gave a dataset gives back the requested name. */
  lemma StripDatasetName(datasetId: nat, name: string)
    ensures StripIdPrefix(DatasetName(datasetId, name)) == name
  {
    var p := NatToString(datasetId);
    var s := DatasetName(datasetId, name);
    assert s == p + ['_'] + name;
    assert '_' !in p by {
      forall k | 0 <= k < |p| ensures p[k] != '_' {
        assert IsDigit(p[k]);
      }
    }
    IndexOfAfter(p, '_', name);
    assert s[|p| + 1..] == name;
    assert s[..|p|] == p;
    assert Split(s, '_') == [p] + Split(name, '_');
    assert Split(s, '_')[1..] == Split(name, '_');
  }

  /**
   * The name of a copy: the requested name, unless it is the original's
   * name without its id prefix, in which case "_copy" is appended to it.
   */
  function CopyName(original: string, requested: string): (r: string)
    ensures r != StripIdPrefix(original)
    ensures r == requested <==> requested != StripIdPrefix(original)
    ensures r != requested ==> r == requested + "_copy"
  {
    var stripped := StripIdPrefix(original);
    if stripped == requested then stripped + "_copy" else requested
  }

  /** Copying a dataset under the name it was created with gives that name with "_copy". */
  lemma CopyUnderOwnName(datasetId: nat, name: string)
    ensures CopyName(DatasetName(datasetId, name), name) == name + "_copy"
  {
    StripDatasetName(datasetId, name);
  }

  // ---------------------------------------------------------------------
  // copy_dataset: progress
  // ---------------------------------------------------------------------

  /** The number of steps progress is measured against: the counted steps, at least one. */
  function TotalSteps(counted: nat): (r: nat)
    ensures r >= 1 && r >= counted
    ensures counted >= 1 ==> r == counted
  {
    if counted >= 1 then counted else 1
  }

  /** The percentage reported after `current` of `total` steps, rounded down. */
  function Progress(current: nat, total: nat): nat
    requires total >= 1
  {
    current * 100 / total
  }

  /** What floor division says about a quotient: it times the divisor fits in the dividend, one more does not. */
  lemma Quotient(a: nat, t: nat)
    requires t >= 1
    ensures (a / t) * t <= a < (a / t + 1) * t
  {
  }

  /** Multiplying by a positive number keeps order strict both ways. */
  lemma MulLess(x: nat, y: nat, t: nat)
    requires t >= 1 && x * t < y * t
    ensures x < y
  {
  }

  /** While no more steps are done than counted, progress stays within 0..100. */
  lemma ProgressBounded(current: nat, total: nat)
    requires 1 <= total && current <= total
    ensures Progress(current, total) <= 100
  {
    var q := Progress(current, total);
    Quotient(current * 100, total);
    assert current * 100 <= total * 100;
    MulLess(q, 101, total);
  }

  /** Progress reaches 100 exactly when the last counted step is done. */
  lemma ProgressComplete(current: nat, total: nat)
    requires 1 <= total && current <= total
    ensures Progress(current, total) == 100 <==> current == total
  {
    var q := Progress(current, total);
    Quotient(current * 100, total);
    if current < total {
      assert q * total < 100 * total;
      MulLess(q, 100, total);
    } else {
      assert q * total < 101 * total;
      MulLess(q, 101, total);
      assert 100 * total < (q + 1) * total;
      MulLess(100, q + 1, total);
    }
  }

  /** Progress never goes back as steps are done. */
  lemma ProgressMonotone(before: nat, after: nat, total: nat)
    requires 1 <= total && before <= after
    ensures Progress(before, total) <= Progress(after, total)
  {
    var qa := Progress(before, total);
    var qb := Progress(after, total);
    Quotient(before * 100, total);
    Quotient(after * 100, total);
    assert before * 100 <= after * 100;
    MulLess(qa, qb + 1, total);
  }

  // ---------------------------------------------------------------------
  // copy_dataset: the steps counted and the steps taken
  // ---------------------------------------------------------------------

  /** A record to copy: its detection and segmentation rows, and whether its copy passes validation. */
  datatype RecordShape = RecordShape(annotations: nat, copied: bool)

  /** An asset to copy: whether it has dynamic metadata, and its records. */
  datatype AssetShape = AssetShape(hasDynamic: bool, records: seq<RecordShape>)

  /** Static metadata: whether its arbitrary-data and asset-structure files are set. */
  datatype StaticShape = StaticShape(hasArbitraryData: bool, hasAssetStructure: bool)

  /**
   * What of a dataset decides the progress of its copy: its label
   * properties file, its static metadata, its assets, and whether the copy
   * of the dataset itself passes validation.
   */
  datatype DatasetShape = DatasetShape(hasLabelProperties: bool, staticMetadata: Option<StaticShape>, assets: seq<AssetShape>, copied: bool)

  function Flag(b: bool): nat
  {
    if b then 1 else 0
  }

  /** The detection and segmentation rows of some records. */
  function Annotations(rs: seq<RecordShape>): nat
  {
    if |rs| == 0 then 0 else Annotations(rs[..|rs| - 1]) + rs[|rs| - 1].annotations
  }

  /** The detection and segmentation rows of those records whose copy passes validation. */
  function CopiedAnnotations(rs: seq<RecordShape>): nat
  {
    if |rs| == 0 then 0
    else CopiedAnnotations(rs[..|rs| - 1]) + (if rs[|rs| - 1].copied then rs[|rs| - 1].annotations else 0)
  }

  /** The steps counted for an asset: one per record, one per annotation when records are validated, one for dynamic metadata. */
  function AssetCounted(a: AssetShape, validation: bool): nat
  {
    |a.records| + (if validation then Annotations(a.records) else 0) + Flag(a.hasDynamic)
  }

  /** The steps taken for an asset: annotations are only stepped through for records whose copy validates. */
  function AssetDone(a: AssetShape, validation: bool): nat
  {
    Flag(a.hasDynamic) + |a.records| + (if validation then CopiedAnnotations(a.records) else 0)
  }

  function AssetsCounted(assets: seq<AssetShape>, validation: bool): nat
  {
    if |assets| == 0 then 0
    else AssetsCounted(assets[..|assets| - 1], validation) + AssetCounted(assets[|assets| - 1], validation)
  }

  function AssetsDone(assets: seq<AssetShape>, validation: bool): nat
  {
    if |assets| == 0 then 0
    else AssetsDone(assets[..|assets| - 1], validation) + AssetDone(assets[|assets| - 1], validation)
  }

  /** The steps counted for static metadata as written: one per file it holds. */
  function StaticCountedAsWritten(meta: Option<StaticShape>): nat
  {
    match meta
    case None => 0
    case Some(s) => Flag(s.hasArbitraryData) + Flag(s.hasAssetStructure)
  }

  /** The steps counted for static metadata, corrected: the one step the copy takes for it. */
  function StaticCounted(meta: Option<StaticShape>): nat
  {
    Flag(meta.Some?)
  }

  /** `total_steps` before it is raised to one, as written. */
  function CountedStepsAsWritten(d: DatasetShape, validation: bool): nat
  {
    StaticCountedAsWritten(d.staticMetadata) + Flag(d.hasLabelProperties) + AssetsCounted(d.assets, validation)
  }

  /** `total_steps` before it is raised to one, with static metadata counted as the one step it takes. */
  function CountedSteps(d: DatasetShape, validation: bool): nat
  {
    StaticCounted(d.staticMetadata) + Flag(d.hasLabelProperties) + AssetsCounted(d.assets, validation)
  }

  /** `current_step` at the end of the copy; assets are only walked when the dataset's copy validates. */
  function StepsDone(d: DatasetShape, validation: bool): nat
  {
    Flag(d.hasLabelProperties) + Flag(d.staticMetadata.Some?) + (if d.copied then AssetsDone(d.assets, validation) else 0)
  }

  predicate RecordsCopied(rs: seq<RecordShape>)
  {
    forall r :: r in rs ==> r.copied
  }

  /** Every copy validates, so every counted step is taken. */
  predicate FullyCopied(d: DatasetShape, validation: bool)
  {
    d.copied && (validation ==> forall a :: a in d.assets ==> RecordsCopied(a.records))
  }

  /** The percentages reported after each of the first `n` steps, in order. */
  function ProgressTrail(n: nat, total: nat): (r: seq<nat>)
    requires total >= 1
    ensures |r| == n
    ensures forall k :: 0 <= k < n ==> r[k] == Progress(k + 1, total)
  {
    if n == 0 then [] else ProgressTrail(n - 1, total) + [Progress(n, total)]
  }

  lemma {:induction false} CopiedAnnotationsWithin(rs: seq<RecordShape>)
    ensures CopiedAnnotations(rs) <= Annotations(rs)
    ensures RecordsCopied(rs) ==> CopiedAnnotations(rs) == Annotations(rs)
  {
    if |rs| > 0 {
      var p := rs[..|rs| - 1];
      CopiedAnnotationsWithin(p);
      if RecordsCopied(rs) {
        assert forall r :: r in p ==> r in rs;
        assert rs[|rs| - 1] in rs;
      }
    }
  }

  lemma {:induction false} AssetsDoneWithin(assets: seq<AssetShape>, validation: bool)
    ensures AssetsDone(assets, validation) <= AssetsCounted(assets, validation)
    ensures (validation ==> forall a :: a in assets ==> RecordsCopied(a.records)) ==>
              AssetsDone(assets, validation) == AssetsCounted(assets, validation)
  {
    if |assets| > 0 {
      var p := assets[..|assets| - 1];
      var last := assets[|assets| - 1];
      AssetsDoneWithin(p, validation);
      CopiedAnnotationsWithin(last.records);
      if validation && forall a :: a in assets ==> RecordsCopied(a.records) {
        assert forall a :: a in p ==> a in assets;
        assert last in assets;
      }
    }
  }

  /** With static metadata counted as the step it takes, a copy never takes more steps than counted, and takes them all when every copy validates. */
  lemma StepsWithinCounted(d: DatasetShape, validation: bool)
    ensures StepsDone(d, validation) <= CountedSteps(d, validation)
    ensures FullyCopied(d, validation) ==> StepsDone(d, validation) == CountedSteps(d, validation)
  {
    AssetsDoneWithin(d.assets, validation);
  }

  /** Every percentage a copy reports is at most 100, and they never decrease. */
  lemma CopyProgressBounded(d: DatasetShape, validation: bool)
    ensures forall k :: 1 <= k <= StepsDone(d, validation) ==> Progress(k, TotalSteps(CountedSteps(d, validation))) <= 100
    ensures forall i, j :: 1 <= i <= j <= StepsDone(d, validation) ==>
              Progress(i, TotalSteps(CountedSteps(d, validation))) <= Progress(j, TotalSteps(CountedSteps(d, validation)))
  {
    var total := TotalSteps(CountedSteps(d, validation));
    StepsWithinCounted(d, validation);
    forall k | 1 <= k <= StepsDone(d, validation)
      ensures Progress(k, total) <= 100
    {
      ProgressBounded(k, total);
    }
    forall i, j | 1 <= i <= j <= StepsDone(d, validation)
      ensures Progress(i, total) <= Progress(j, total)
    {
      ProgressMonotone(i, j, total);
    }
  }

  /** The last step reports 100 exactly when it is the last counted step; when every copy validates, it is. */
  lemma CopyProgressComplete(d: DatasetShape, validation: bool)
    ensures Progress(StepsDone(d, validation), TotalSteps(CountedSteps(d, validation))) == 100 <==>
              StepsDone(d, validation) == TotalSteps(CountedSteps(d, validation))
    ensures FullyCopied(d, validation) && CountedSteps(d, validation) >= 1 ==>
              Progress(StepsDone(d, validation), TotalSteps(CountedSteps(d, validation))) == 100
  {
    StepsWithinCounted(d, validation);
    ProgressComplete(StepsDone(d, validation), TotalSteps(CountedSteps(d, validation)));
  }

  /** As written, a copy takes at most one step more than counted, and only static metadata holding neither file causes it. */
  lemma AsWrittenWithin(d: DatasetShape, validation: bool)
    ensures StepsDone(d, validation) <= CountedStepsAsWritten(d, validation) + 1
    ensures d.staticMetadata != Some(StaticShape(false, false)) ==> StepsDone(d, validation) <= CountedStepsAsWritten(d, validation)
  {
    StepsWithinCounted(d, validation);
  }

  /** One more than `t` steps of `t` rounds to at least 100 percent, and above 100 while `t` is at most 100. */
  lemma OneStepOver(t: nat)
    requires t >= 1
    ensures Progress(t + 1, t) >= 100
    ensures t <= 100 ==> Progress(t + 1, t) > 100
  {
    var q := Progress(t + 1, t);
    Quotient((t + 1) * 100, t);
    assert (t + 1) * 100 == 100 * t + 100;
    assert 100 * t < (q + 1) * t;
    MulLess(100, q + 1, t);
    if t <= 100 {
      assert 101 * t < (q + 1) * t;
      MulLess(101, q + 1, t);
    }
  }

  /**
   * As written, a copy whose static metadata holds neither file, and whose
   * other copies all validate, takes one step more than `total_steps`: its
   * last report is at least 100, above 100 for at most 100 counted steps.
   */
  lemma AsWrittenOvershoots(d: DatasetShape, validation: bool)
    requires d.staticMetadata == Some(StaticShape(false, false)) && FullyCopied(d, validation)
    requires CountedStepsAsWritten(d, validation) >= 1
    ensures StepsDone(d, validation) == TotalSteps(CountedStepsAsWritten(d, validation)) + 1
    ensures Progress(StepsDone(d, validation), TotalSteps(CountedStepsAsWritten(d, validation))) >= 100
    ensures TotalSteps(CountedStepsAsWritten(d, validation)) <= 100 ==>
              Progress(StepsDone(d, validation), TotalSteps(CountedStepsAsWritten(d, validation))) > 100
  {
    StepsWithinCounted(d, validation);
    OneStepOver(TotalSteps(CountedStepsAsWritten(d, validation)));
  }

  /** A dataset with label properties and static metadata holding neither file, and no assets: its copy reports 200. */
  lemma AsWrittenProgressExample()
    ensures var d := DatasetShape(true, Some(StaticShape(false, false)), [], true);
            StepsDone(d, false) == 2 && TotalSteps(CountedStepsAsWritten(d, false)) == 1 &&
            Progress(StepsDone(d, false), TotalSteps(CountedStepsAsWritten(d, false))) == 200
  {
  }

  /** The steps counted for an asset, as the counting loop adds them up: its records, then their annotations. */
  method CountAssetSteps(a: AssetShape, validation: bool) returns (n: nat)
    ensures n == AssetCounted(a, validation)
  {
    n := |a.records|;
    if validation {
      var j := 0;
      while j < |a.records|
        invariant 0 <= j <= |a.records|
        invariant n == |a.records| + Annotations(a.records[..j])
      {
        assert a.records[..j + 1][..j] == a.records[..j];
        n := n + a.records[j].annotations;
        j := j + 1;
      }
      assert a.records[..j] == a.records;
    }
    n := n + Flag(a.hasDynamic);
  }

  /** The steps an asset's copy takes after `start` of `total`, each followed by its report. */
  method StepAsset(a: AssetShape, validation: bool, start: nat, total: nat, before: seq<nat>) returns (current: nat, reports: seq<nat>)
    requires total >= 1 && before == ProgressTrail(start, total)
    ensures current == start + AssetDone(a, validation)
    ensures reports == ProgressTrail(current, total)
  {
    current, reports := start, before;
    if a.hasDynamic {
      current := current + 1;
      reports := reports + [Progress(current, total)];
    }
    var base := current;
    var j := 0;
    while j < |a.records|
      invariant 0 <= j <= |a.records|
      invariant current == base + j + (if validation then CopiedAnnotations(a.records[..j]) else 0)
      invariant reports == ProgressTrail(current, total)
    {
      var r := a.records[j];
      assert a.records[..j + 1][..j] == a.records[..j];
      current := current + 1;
      reports := reports + [Progress(current, total)];
      if validation && r.copied {
        var m := 0;
        var inner := current;
        while m < r.annotations
          invariant 0 <= m <= r.annotations
          invariant current == inner + m
          invariant reports == ProgressTrail(current, total)
        {
          current := current + 1;
          reports := reports + [Progress(current, total)];
          m := m + 1;
        }
      }
      j := j + 1;
    }
    assert a.records[..j] == a.records;
  }

  /** `total_steps` as the counting loop of a copy computes it, with static metadata counted as one step. */
  method CountSteps(d: DatasetShape, validation: bool) returns (total: nat)
    ensures total == TotalSteps(CountedSteps(d, validation))
  {
    var counted := Flag(d.staticMetadata.Some?) + Flag(d.hasLabelProperties);
    var i := 0;
    while i < |d.assets|
      invariant 0 <= i <= |d.assets|
      invariant counted == Flag(d.staticMetadata.Some?) + Flag(d.hasLabelProperties) + AssetsCounted(d.assets[..i], validation)
    {
      assert d.assets[..i + 1][..i] == d.assets[..i];
      var n := CountAssetSteps(d.assets[i], validation);
      counted := counted + n;
      i := i + 1;
    }
    assert d.assets[..i] == d.assets;
    total := if counted >= 1 then counted else 1;
  }

  /** The steps of a copy against `total`, each followed by its report. */
  method StepCopy(d: DatasetShape, validation: bool, total: nat) returns (reports: seq<nat>)
    requires total >= 1
    ensures reports == ProgressTrail(StepsDone(d, validation), total)
  {
    var current := 0;
    reports := [];
    if d.hasLabelProperties {
      current := current + 1;
      reports := reports + [Progress(current, total)];
    }
    if d.staticMetadata.Some? {
      current := current + 1;
      reports := reports + [Progress(current, total)];
    }
    if d.copied {
      var base := current;
      var i := 0;
      while i < |d.assets|
        invariant 0 <= i <= |d.assets|
        invariant current == base + AssetsDone(d.assets[..i], validation)
        invariant reports == ProgressTrail(current, total)
      {
        assert d.assets[..i + 1][..i] == d.assets[..i];
        current, reports := StepAsset(d.assets[i], validation, current, total, reports);
        i := i + 1;
      }
      assert d.assets[..i] == d.assets;
    }
  }

  /**
   * The progress a dataset copy reports, with static metadata counted as
   * the one step it takes: `total_steps` is counted first, then each step
   * is followed by its report.
   */
  method CopyProgress(d: DatasetShape, validation: bool) returns (reports: seq<nat>)
    ensures |reports| == StepsDone(d, validation)
    ensures forall k :: 0 <= k < |reports| ==> reports[k] == Progress(k + 1, TotalSteps(CountedSteps(d, validation)))
    ensures forall k :: 0 <= k < |reports| ==> reports[k] <= 100
    ensures forall i, j :: 0 <= i <= j < |reports| ==> reports[i] <= reports[j]
    ensures FullyCopied(d, validation) && |reports| > 0 ==> reports[|reports| - 1] == 100
  {
    var total := CountSteps(d, validation);
    reports := StepCopy(d, validation, total);
    CopyProgressBounded(d, validation);
    CopyProgressComplete(d, validation);
    StepsWithinCounted(d, validation);
    assert forall k :: 0 <= k < |reports| ==> reports[k] == Progress(k + 1, total);
  }

  // ---------------------------------------------------------------------
  // clean_detection_after_class_delete
  // ---------------------------------------------------------------------

  /** An annotation with the deleted class: a dict whose "label_name" is that class. */
  predicate Labelled(ann: Json, className: string)
  {
    ann.JObject? && Get(ann.entries, "label_name") == Some(JString(className))
  }

  /** The test the list comprehension keeps annotations by. */
  function Unlabelled(className: string): Json -> bool
  {
    (ann: Json) => !Labelled(ann, className)
  }

  /** Its complement: the annotations that go. */
  function LabelledWith(className: string): Json -> bool
  {
    (ann: Json) => Labelled(ann, className)
  }

  /**
   * The annotations of one image as the loop sees them: what iterating the
   * value yields, provided every element is a dict (anything else has no
   * `get` and raises, as does a value that has no length).
   */
  function ImageAnnotations(v: Json): (r: Option<seq<Json>>)
    ensures r.Some? ==> forall k :: 0 <= k < |r.value| ==> r.value[k].JObject?
    ensures v.JArray? ==> (r.Some? <==> forall k :: 0 <= k < |v.items| ==> v.items[k].JObject?)
    ensures v.JArray? && r.Some? ==> r.value == v.items
    ensures v.JNull? || v.JBool? || v.JNumber? ==> r.None?
  {
    var it := Iterated(v);
    if it.Some? && forall k :: 0 <= k < |it.value| ==> it.value[k].JObject? then it else None
  }

  // Two traversals the clean-up is built from, stated for any keys and values.

  /**
   * A dict rebuilt value by value: every value is replaced by what `step`
   * makes of it, and the counts `step` returns are added up; None as soon
   * as one step fails.
   */
  function MapCount<K, V>(pairs: seq<(K, V)>, step: V -> Option<(V, nat)>): Option<(seq<(K, V)>, nat)>
  {
    if pairs == [] then Some(([], 0))
    else
      var n := |pairs| - 1;
      var prev := MapCount(pairs[..n], step);
      var one := step(pairs[n].1);
      if prev.None? || one.None? then None
      else Some((prev.value.0 + [(pairs[n].0, one.value.0)], prev.value.1 + one.value.1))
  }

  /** The sum of the counts of the steps, when every step succeeds. */
  function CountSum<K, V>(pairs: seq<(K, V)>, step: V -> Option<(V, nat)>): nat
    requires forall i :: 0 <= i < |pairs| ==> step(pairs[i].1).Some?
  {
    if pairs == [] then 0
    else
      var n := |pairs| - 1;
      CountSum(pairs[..n], step) + step(pairs[n].1).value.1
  }

  /**
   * The rebuilt dict succeeds exactly when every step does; it then keeps
   * every key in its place with the value its step made, and its count is
   * the sum of the steps' counts, zero exactly when every step counted zero.
   */
  lemma {:induction false} MapCountSpec<K, V>(pairs: seq<(K, V)>, step: V -> Option<(V, nat)>)
    ensures MapCount(pairs, step).Some? <==> forall i :: 0 <= i < |pairs| ==> step(pairs[i].1).Some?
    ensures MapCount(pairs, step).Some? ==>
      && |MapCount(pairs, step).value.0| == |pairs|
      && (forall i :: 0 <= i < |pairs| ==> MapCount(pairs, step).value.0[i] == (pairs[i].0, step(pairs[i].1).value.0))
      && MapCount(pairs, step).value.1 == CountSum(pairs, step)
      && (MapCount(pairs, step).value.1 == 0 <==> forall i :: 0 <= i < |pairs| ==> step(pairs[i].1).value.1 == 0)
  {
    if pairs != [] {
      var n := |pairs| - 1;
      MapCountSpec(pairs[..n], step);
      assert forall i :: 0 <= i < n ==> pairs[..n][i] == pairs[i];
    }
  }

  /** The rebuilt prefix grows by one step. */
  lemma MapCountSnoc<K, V>(pairs: seq<(K, V)>, step: V -> Option<(V, nat)>, i: nat)
    requires i < |pairs|
    ensures MapCount(pairs[..i + 1], step) ==
      var prev := MapCount(pairs[..i], step);
      var one := step(pairs[i].1);
      if prev.None? || one.None? then None
      else Some((prev.value.0 + [(pairs[i].0, one.value.0)], prev.value.1 + one.value.1))
  {
    assert pairs[..i + 1][..i] == pairs[..i];
  }

  /** Once a prefix fails, the whole dict does. */
  lemma MapCountPrefixFails<K, V>(pairs: seq<(K, V)>, step: V -> Option<(V, nat)>, n: nat)
    requires n <= |pairs| && MapCount(pairs[..n], step).None?
    ensures MapCount(pairs, step).None?
  {
    MapCountSpec(pairs[..n], step);
    MapCountSpec(pairs, step);
    assert forall i :: 0 <= i < n ==> pairs[..n][i] == pairs[i];
  }

  /**
   * A list of files swept one by one: a file for which `clean` counts more
   * than zero is replaced by what it made and counted; the others stay.
   * The result is the new files, the total count and the number replaced.
   */
  function Sweep<T>(files: seq<T>, clean: T -> Option<(T, nat)>): (seq<T>, nat, nat)
  {
    if files == [] then ([], 0, 0)
    else
      var n := |files| - 1;
      var prev := Sweep(files[..n], clean);
      var c := clean(files[n]);
      if c.Some? && c.value.1 > 0 then (prev.0 + [c.value.0], prev.1 + c.value.1, prev.2 + 1)
      else (prev.0 + [files[n]], prev.1, prev.2)
  }

  /** Whether `clean` replaces a file. */
  predicate Replaced<T>(file: T, clean: T -> Option<(T, nat)>)
  {
    clean(file).Some? && clean(file).value.1 > 0
  }

  /** The number of files that are replaced: an independent count. */
  function ReplacedCount<T>(files: seq<T>, clean: T -> Option<(T, nat)>): nat
  {
    if files == [] then 0
    else
      var n := |files| - 1;
      ReplacedCount(files[..n], clean) + if Replaced(files[n], clean) then 1 else 0
  }

  /**
   * A sweep replaces exactly the files `clean` counts something in, leaves
   * the others as they are, counts the replaced files, and has a zero
   * total exactly when nothing was replaced.
   */
  lemma {:induction false} SweepSpec<T>(files: seq<T>, clean: T -> Option<(T, nat)>)
    ensures |Sweep(files, clean).0| == |files|
    ensures forall k :: 0 <= k < |files| ==>
      Sweep(files, clean).0[k] == if Replaced(files[k], clean) then clean(files[k]).value.0 else files[k]
    ensures Sweep(files, clean).2 == ReplacedCount(files, clean) <= |files|
    ensures Sweep(files, clean).2 <= Sweep(files, clean).1
    ensures Sweep(files, clean).1 == 0 <==> Sweep(files, clean).2 == 0
  {
    if files != [] {
      var n := |files| - 1;
      SweepSpec(files[..n], clean);
      assert forall k :: 0 <= k < n ==> files[..n][k] == files[k];
    }
  }

  /** The swept prefix grows by one file. */
  lemma SweepSnoc<T>(files: seq<T>, clean: T -> Option<(T, nat)>, k: nat)
    requires k < |files|
    ensures Sweep(files[..k + 1], clean) ==
      var prev := Sweep(files[..k], clean);
      var c := clean(files[k]);
      if c.Some? && c.value.1 > 0 then (prev.0 + [c.value.0], prev.1 + c.value.1, prev.2 + 1)
      else (prev.0 + [files[k]], prev.1, prev.2)
  {
    assert files[..k + 1][..k] == files[..k];
  }

  /**
   * The loop that rebuilds a dict value by value, adding up the counts;
   * it stops with None at the first step that fails.
   */
  method RebuildDict<K, V>(pairs: seq<(K, V)>, step: V -> Option<(V, nat)>) returns (rebuilt: Option<(seq<(K, V)>, nat)>)
    ensures rebuilt == MapCount(pairs, step)
  {
    var filtered: seq<(K, V)> := [];
    var count: nat := 0;
    var i := 0;
    while i < |pairs|
      invariant 0 <= i <= |pairs|
      invariant MapCount(pairs[..i], step) == Some((filtered, count))
    {
      MapCountSnoc(pairs, step, i);
      var one := step(pairs[i].1);
      if one.None? {
        MapCountPrefixFails(pairs, step, i + 1);
        return None;
      }
      count := count + one.value.1;
      filtered := filtered + [(pairs[i].0, one.value.0)];
      i := i + 1;
    }
    assert pairs[..i] == pairs;
    rebuilt := Some((filtered, count));
  }

  /**
   * The loop that sweeps a list of files: a file in which `clean` counts
   * something is replaced and counted, the others are kept.
   */
  method SweepFiles<T>(files: seq<T>, clean: T -> Option<(T, nat)>) returns (newFiles: seq<T>, total: nat, replaced: nat)
    ensures (newFiles, total, replaced) == Sweep(files, clean)
  {
    newFiles := [];
    total := 0;
    replaced := 0;
    var k := 0;
    while k < |files|
      invariant 0 <= k <= |files|
      invariant Sweep(files[..k], clean) == (newFiles, total, replaced)
    {
      SweepSnoc(files, clean, k);
      var cleaned := clean(files[k]);
      if cleaned.Some? && cleaned.value.1 > 0 {
        newFiles := newFiles + [cleaned.value.0];
        total := total + cleaned.value.1;
        replaced := replaced + 1;
      } else {
        newFiles := newFiles + [files[k]];
      }
      k := k + 1;
    }
    assert files[..k] == files;
  }

  /** A list comprehension with a test, and how many elements it dropped. */
  function KeepCount<A>(xs: seq<A>, keep: A -> bool): (seq<A>, nat)
  {
    var kept := Filter(xs, keep);
    (kept, |xs| - |kept|)
  }

  /**
   * The dropped count is the number of elements failing the test, zero
   * exactly when every element passes; what is kept all passes, and
   * filtering it again keeps all of it and drops nothing.
   */
  lemma KeepCountSpec<A>(xs: seq<A>, keep: A -> bool, drop: A -> bool)
    requires forall x :: drop(x) == !keep(x)
    ensures KeepCount(xs, keep).1 == |Filter(xs, drop)|
    ensures KeepCount(xs, keep).1 == 0 <==> forall k :: 0 <= k < |xs| ==> keep(xs[k])
    ensures forall k :: 0 <= k < |KeepCount(xs, keep).0| ==> keep(KeepCount(xs, keep).0[k])
    ensures KeepCount(KeepCount(xs, keep).0, keep) == (KeepCount(xs, keep).0, 0)
  {
    var kept := Filter(xs, keep);
    FilterComplement(xs, keep, drop);
    FilterEmpty(xs, drop);
    FilterAll(kept, keep);
  }

  /**
   * A step that leaves what it made as it is, counting zero, makes the
   * rebuild idempotent: rebuilding the rebuilt dict changes nothing and
   * counts zero.
   */
  lemma MapCountIdempotent<K, V>(pairs: seq<(K, V)>, step: V -> Option<(V, nat)>)
    requires forall v :: step(v).Some? ==> step(step(v).value.0) == Some((step(v).value.0, 0))
    requires MapCount(pairs, step).Some?
    ensures MapCount(MapCount(pairs, step).value.0, step) == Some((MapCount(pairs, step).value.0, 0))
  {
    MapCountSpec(pairs, step);
    var out := MapCount(pairs, step).value.0;
    MapCountSpec(out, step);
    assert MapCount(out, step).value.0 == out;
  }

  /** The rebuilt dict has the keys of the original, in their places. */
  lemma MapCountKeys<K, V>(pairs: seq<(K, V)>, step: V -> Option<(V, nat)>)
    requires MapCount(pairs, step).Some?
    ensures |MapCount(pairs, step).value.0| == |pairs|
    ensures forall i :: 0 <= i < |pairs| ==> MapCount(pairs, step).value.0[i].0 == pairs[i].0
  {
    MapCountSpec(pairs, step);
  }

  // The steps for detection annotation files.

  /**
   * One image: its annotations without those of the class, and how many
   * went (the length before minus the length after); None when it raises.
   */
  function CleanImage(v: Json, className: string): Option<(Json, nat)>
  {
    var anns := ImageAnnotations(v);
    if anns.None? then None
    else
      var (kept, deleted) := KeepCount(anns.value, Unlabelled(className));
      Some((JArray(kept), deleted))
  }

  /** The image step, as the traversal takes it. */
  function ImageStep(className: string): Json -> Option<(Json, nat)>
  {
    (v: Json) => CleanImage(v, className)
  }

  /**
   * An image is cleaned exactly when it iterates as dicts; it then keeps
   * exactly its annotations without the class, in order, the count is the
   * number of annotations with the class, and cleaning it again changes
   * nothing and counts zero.
   */
  lemma CleanImageSpec(v: Json, className: string)
    ensures CleanImage(v, className).Some? <==> ImageAnnotations(v).Some?
    ensures CleanImage(v, className).Some? ==>
      var anns := ImageAnnotations(v).value;
      var (out, deleted) := CleanImage(v, className).value;
      && out == JArray(Filter(anns, Unlabelled(className)))
      && deleted == |Filter(anns, LabelledWith(className))|
      && (deleted == 0 <==> forall k :: 0 <= k < |anns| ==> !Labelled(anns[k], className))
      && (forall k :: 0 <= k < |out.items| ==> !Labelled(out.items[k], className))
      && CleanImage(out, className) == Some((out, 0))
  {
    var anns := ImageAnnotations(v);
    if anns.Some? {
      var keep := Unlabelled(className);
      KeepCountSpec(anns.value, keep, LabelledWith(className));
      var kept := KeepCount(anns.value, keep).0;
      assert forall k :: 0 <= k < |kept| ==> kept[k].JObject? by {
        forall k | 0 <= k < |kept| ensures kept[k].JObject? {
          assert kept[k] in anns.value;
        }
      }
      assert ImageAnnotations(JArray(kept)) == Some(kept);
      assert CleanImage(v, className) == Some((JArray(kept), KeepCount(anns.value, keep).1));
    }
  }

  /**
   * What cleaning one stored file gives: the file to write and the number
   * of annotations deleted from it; None when the file is skipped (no
   * link, does not parse, is not a dict, or an image raises).
   */
  function CleanedFile(content: Option<Json>, className: string): Option<(Json, nat)>
  {
    if content.None? then None
    else
      var pairs := Items(content.value);
      if pairs.None? then None
      else
        var cleaned := MapCount(pairs.value, ImageStep(className));
        if cleaned.None? then None else Some((JObject(cleaned.value.0), cleaned.value.1))
  }

  /**
   * A file is cleaned exactly when it is a dict whose images all iterate
   * as dicts; every image then keeps, under its own name and in its place,
   * exactly its annotations without the class, and the deleted count is
   * zero exactly when no image had an annotation with the class.
   */
  lemma CleanedFileSpec(content: Option<Json>, className: string)
    ensures CleanedFile(content, className).Some? <==>
      && content.Some? && content.value.JObject?
      && forall i :: 0 <= i < |Items(content.value).value| ==> ImageAnnotations(Items(content.value).value[i].1).Some?
    ensures CleanedFile(content, className).Some? ==>
      var pairs := Items(content.value).value;
      var (out, deleted) := CleanedFile(content, className).value;
      && |out.entries| == |pairs|
      && (forall i :: 0 <= i < |pairs| ==>
            out.entries[i] == (pairs[i].0, JArray(Filter(ImageAnnotations(pairs[i].1).value, Unlabelled(className)))))
      && (deleted == 0 <==> forall i, k :: 0 <= i < |pairs| && 0 <= k < |ImageAnnotations(pairs[i].1).value| ==>
            !Labelled(ImageAnnotations(pairs[i].1).value[k], className))
  {
    if content.Some? && content.value.JObject? {
      var pairs := Items(content.value).value;
      var step := ImageStep(className);
      MapCountSpec(pairs, step);
      forall i | 0 <= i < |pairs| ensures step(pairs[i].1).Some? <==> ImageAnnotations(pairs[i].1).Some? {
        CleanImageSpec(pairs[i].1, className);
      }
      if MapCount(pairs, step).Some? {
        forall i | 0 <= i < |pairs|
          ensures step(pairs[i].1).value.0 == JArray(Filter(ImageAnnotations(pairs[i].1).value, Unlabelled(className)))
          ensures step(pairs[i].1).value.1 == 0 <==> forall k :: 0 <= k < |ImageAnnotations(pairs[i].1).value| ==>
            !Labelled(ImageAnnotations(pairs[i].1).value[k], className)
        {
          CleanImageSpec(pairs[i].1, className);
        }
      }
    }
  }

  /** Cleaning a file that was just cleaned deletes nothing and leaves it as it is. */
  lemma CleanedFileIdempotent(content: Option<Json>, className: string)
    requires CleanedFile(content, className).Some?
    ensures CleanedFile(Some(CleanedFile(content, className).value.0), className) ==
      Some((CleanedFile(content, className).value.0, 0))
  {
    var pairs := Items(content.value).value;
    var step := ImageStep(className);
    forall v | step(v).Some? ensures step(step(v).value.0) == Some((step(v).value.0, 0)) {
      CleanImageSpec(v, className);
    }
    MapCountIdempotent(pairs, step);
    MapCountKeys(pairs, step);
    ItemsDistinct(content.value);
    ItemsOfDistinct(MapCount(pairs, step).value.0);
  }

  /**
   * The loop body for one file: the images are cleaned one by one while
   * the deleted count grows; `cleaned` is None when the file is skipped.
   */
  method CleanDetectionFile(content: Option<Json>, className: string) returns (cleaned: Option<(Json, nat)>)
    ensures cleaned == CleanedFile(content, className)
  {
    if content.None? {
      return None;
    }
    var items := Items(content.value);
    if items.None? {
      return None;
    }
    var rebuilt := RebuildDict(items.value, ImageStep(className));
    if rebuilt.None? {
      return None;
    }
    cleaned := Some((JObject(rebuilt.value.0), rebuilt.value.1));
  }

  /** The file step, as the sweep takes it: a cleaned file is written back as new content. */
  function FileStep(className: string): Option<Json> -> Option<(Option<Json>, nat)>
  {
    (content: Option<Json>) =>
      var c := CleanedFile(content, className);
      if c.None? then None else Some((Some(c.value.0), c.value.1))
  }

  /**
   * What the clean-up does to a dataset: a file is replaced by its cleaned
   * content exactly when annotations with the class were deleted from it,
   * and left as it is otherwise; the updated count is the number of such
   * files, and the deleted count is zero exactly when no file was updated.
   */
  lemma CleanupSpec(files: seq<Option<Json>>, className: string)
    ensures var (out, deleted, updated) := Sweep(files, FileStep(className));
      && |out| == |files|
      && (forall k :: 0 <= k < |files| ==>
            var c := CleanedFile(files[k], className);
            out[k] == if c.Some? && c.value.1 > 0 then Some(c.value.0) else files[k])
      && updated <= |files| && updated <= deleted
      && (deleted == 0 <==> updated == 0)
  {
    SweepSpec(files, FileStep(className));
  }

  /**
   * clean_detection_after_class_delete for one dataset: every file in
   * turn is cleaned; one from which something was deleted is written back
   * and counted.
   */
  method CleanDetectionAfterClassDelete(files: seq<Option<Json>>, className: string)
    returns (newFiles: seq<Option<Json>>, deletedCount: nat, updatedRecords: nat)
    ensures (newFiles, deletedCount, updatedRecords) == Sweep(files, FileStep(className))
  {
    newFiles, deletedCount, updatedRecords := SweepFiles(files, FileStep(className));
  }
}
