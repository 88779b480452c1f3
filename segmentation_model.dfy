/**
 * Chunked training of the segmentation model (segmentation/segmentation_model.py):
 * how many chunks the training CSV is cut into, which rows each chunk loads,
 * and the stage loop of run_train. Model fitting is a foreign call and is
 * not modelled; only the rows handed to each stage are.
 */
module SegmentationModel {
  import opened Wrappers
  import opened Sorting
  import opened Numbers

  /** One chunk per this many rows when no chunk count is requested. */
  const ROWS_PER_CHUNK: nat := 50

  /** What get_data_chunks returns: the row count, the chunk size and the chunk count. */
  datatype Chunking = Chunking(total: nat, size: nat, count: nat)

  /**
   * get_data_chunks for a CSV of `total` rows. The default count is
   * max(1, total // 50); a requested count of 0 is the division by zero.
   */
  function GetDataChunks(total: nat, target: Option<nat>): (r: Result<Chunking>)
    ensures r.Err? <==> target == Some(0)
    ensures r.Ok? ==> r.value.total == total && r.value.count >= 1
    ensures r.Ok? ==> r.value.size * r.value.count <= total < (r.value.size + 1) * r.value.count
    ensures target.Some? && r.Ok? ==> r.value.count == target.value
    ensures target == None ==> r.Ok? && (total < ROWS_PER_CHUNK ==> r.value.count == 1)
    ensures target == None && total >= ROWS_PER_CHUNK ==>
      ROWS_PER_CHUNK * r.value.count <= total < ROWS_PER_CHUNK * (r.value.count + 1)
    ensures target == None && total >= 1 ==> r.value.size >= 1
  {
    var count := if target.Some? then target.value else (if total / ROWS_PER_CHUNK >= 1 then total / ROWS_PER_CHUNK else 1);
    if count == 0 then Err("ZeroDivisionError: integer division or modulo by zero")
    else
      DivBounds(total, count);
      Ok(Chunking(total, total / count, count))
  }

  lemma DivMod(a: nat, b: nat)
    requires b >= 1
    ensures b * (a / b) == a - a % b && a % b < b
  {
  }

  lemma DivBounds(a: nat, b: nat)
    requires b >= 1
    ensures (a / b) * b <= a < (a / b + 1) * b
  {
  }

  /** The rows [lo, hi) of the CSV, as pandas reads them with skiprows and nrows (clamped to the file). */
  function Rows<T>(rows: seq<T>, lo: nat, hi: nat): (r: seq<T>)
    ensures |r| <= |rows|
  {
    var a := Min(lo, |rows|);
    rows[a..Max(a, Min(hi, |rows|))]
  }

  /**
   * load_data_chunk as written: chunk `index` starts at index*size and holds
   * `size` rows, except that when index == total // size it holds all the
   * remaining rows. A size of 0 is the division by zero.
   */
  function LoadDataChunkAsWritten<T>(rows: seq<T>, index: nat, size: nat): (r: Result<seq<T>>)
    ensures r.Err? <==> size == 0
    ensures r.Ok? ==> |r.value| <= |rows|
  {
    if size == 0 then Err("ZeroDivisionError: integer division or modulo by zero")
    else
      var start := index * size;
      if index == |rows| / size then Ok(Rows(rows, start, |rows|))
      else Ok(Rows(rows, start, start + size))
  }

  /** In run_train every stage index is below the chunk count, and the "remaining rows" branch never fires. */
  lemma LastBranchNeverFires(total: nat, count: nat, index: nat)
    requires 1 <= count && index < count && total / count >= 1
    ensures index != total / (total / count)
  {
    var size := total / count;
    DivBounds(total, count);
    DivAtLeast(total, size, count);
  }

  lemma DivAtLeast(a: nat, b: nat, q: nat)
    requires b >= 1 && q * b <= a
    ensures q <= a / b
  {
    DivBounds(a, b);
    if a / b < q {
      MulMonotone(a / b + 1, q, b);
    }
  }

  /** Stage k-1 starts at (k-1)*size and ends where stage k starts, within the first count*size rows. */
  lemma StepFacts(k: nat, size: nat, count: nat)
    requires 1 <= k <= count
    ensures 0 <= (k - 1) * size && (k - 1) * size + size == k * size && k * size <= count * size
  {
    MulMonotone(k, count, size);
  }

  lemma MulMonotone(x: nat, y: nat, b: nat)
    requires x <= y
    ensures x * b <= y * b
  {
  }

  /** The chunks of stages 0..k-1 as run_train loads them, with the loader as written. */
  function StagesAsWritten<T>(rows: seq<T>, size: nat, k: nat): (r: seq<seq<T>>)
    requires size >= 1
    ensures |r| == k
  {
    if k == 0 then [] else StagesAsWritten(rows, size, k - 1) + [LoadDataChunkAsWritten(rows, k - 1, size).value]
  }

  /** With the loader as written, the first k stages (k up to the chunk count) load exactly rows [0, k*size). */
  lemma {:induction false} StagesAsWrittenPrefix<T>(rows: seq<T>, count: nat, k: nat)
    requires 1 <= count && k <= count && |rows| / count >= 1
    ensures Flatten(StagesAsWritten(rows, |rows| / count, k)) == rows[..Min(k * (|rows| / count), |rows|)]
  {
    var size := |rows| / count;
    if k == 0 {
      assert Min(k * size, |rows|) == 0;
    } else {
      var start := AsWrittenChunk(rows, count, k - 1);
      assert Min(k * size, |rows|) == start + size;
      var prev := StagesAsWritten(rows, size, k - 1);
      var chunk := rows[start..start + size];
      assert Flatten(prev) == rows[..start] by { StagesAsWrittenPrefix(rows, count, k - 1); }
      assert StagesAsWritten(rows, size, k) == prev + [chunk];
      FlattenAppend(prev, chunk);
      TakeConcat(rows, start, start + size);
    }
  }

  /** Stage `index` of run_train loads `size` rows from index*size on, all inside the file. */
  lemma AsWrittenChunk<T>(rows: seq<T>, count: nat, index: nat) returns (start: nat)
    requires 1 <= count && index < count && |rows| / count >= 1
    ensures start == index * (|rows| / count) && start + |rows| / count <= |rows|
    ensures Min(index * (|rows| / count), |rows|) == start
    ensures Min((index + 1) * (|rows| / count), |rows|) == start + |rows| / count
    ensures LoadDataChunkAsWritten(rows, index, |rows| / count) == Ok(rows[start..start + |rows| / count])
  {
    var size := |rows| / count;
    DivBounds(|rows|, count);
    LastBranchNeverFires(|rows|, count, index);
    StepFacts(index + 1, size, count);
    start := index * size;
  }

  /**
   * run_train with the loader as written: all stages together load only
   * the first total - total % count rows; the remainder is never trained on.
   */
  lemma RemainderNeverLoaded<T>(rows: seq<T>, count: nat)
    requires 1 <= count && |rows| / count >= 1
    ensures Flatten(StagesAsWritten(rows, |rows| / count, count)) == rows[..|rows| - |rows| % count]
  {
    StagesAsWrittenPrefix(rows, count, count);
    DivMod(|rows|, count);
  }

  /** With 101 training rows the default is 2 chunks of 50, and row 100 is never loaded. */
  lemma RemainderExample<T>(rows: seq<T>)
    requires |rows| == 101
    ensures GetDataChunks(|rows|, None) == Ok(Chunking(101, 50, 2))
    ensures |Flatten(StagesAsWritten(rows, 50, 2))| == 100
  {
    RemainderNeverLoaded(rows, 2);
  }

  /** The loader as evidently intended: the last of `count` chunks takes all remaining rows. */
  function LoadDataChunk<T>(rows: seq<T>, index: nat, size: nat, count: nat): (r: seq<T>)
    ensures |r| <= |rows|
  {
    var start := index * size;
    if index + 1 == count then Rows(rows, start, |rows|) else Rows(rows, start, start + size)
  }

  function Stages<T>(rows: seq<T>, size: nat, count: nat, k: nat): (r: seq<seq<T>>)
    ensures |r| == k
  {
    if k == 0 then [] else Stages(rows, size, count, k - 1) + [LoadDataChunk(rows, k - 1, size, count)]
  }

  lemma {:induction false} StagesPrefix<T>(rows: seq<T>, size: nat, count: nat, k: nat)
    requires k < count && count * size <= |rows|
    ensures Flatten(Stages(rows, size, count, k)) == rows[..Min(k * size, |rows|)]
  {
    if k > 0 {
      StagesPrefix(rows, size, count, k - 1);
      StepFacts(k, size, count);
      var start: nat := (k - 1) * size;
      FlattenAppend(Stages(rows, size, count, k - 1), LoadDataChunk(rows, k - 1, size, count));
      TakeConcat(rows, start, start + size);
    }
  }

  /** With the corrected loader the stages are contiguous, disjoint and together hold every row, in order. */
  lemma StagesCoverAllRows<T>(rows: seq<T>, count: nat)
    requires count >= 1
    ensures Flatten(Stages(rows, |rows| / count, count, count)) == rows
  {
    var size := |rows| / count;
    DivBounds(|rows|, count);
    StagesPrefix(rows, size, count, count - 1);
    StepFacts(count, size, count);
    var start: nat := (count - 1) * size;
    FlattenAppend(Stages(rows, size, count, count - 1), LoadDataChunk(rows, count - 1, size, count));
    TakeConcat(rows, start, |rows|);
    TakeAll(rows);
  }

  /**
   * The stage loop of run_train with the corrected loader: the default
   * chunking of the training rows, then one chunk loaded per stage.
   */
  method RunTrain<T>(train: seq<T>) returns (chunks: seq<seq<T>>)
    ensures |chunks| == GetDataChunks(|train|, None).value.count
    ensures Flatten(chunks) == train
  {
    var chunking := GetDataChunks(|train|, None).value;
    var stage := 0;
    chunks := [];
    while stage < chunking.count
      invariant 0 <= stage <= chunking.count
      invariant chunks == Stages(train, chunking.size, chunking.count, stage)
    {
      var chunk := LoadDataChunk(train, stage, chunking.size, chunking.count);
      chunks := chunks + [chunk];
      stage := stage + 1;
    }
    StagesCoverAllRows(train, chunking.count);
  }
}
