/**
 * The helpers shared by the results-to-platform converters
 * (common/results_to_platform_converter/base.py): the inversion of the
 * record-files mapping, the guard around the upload request, the closing
 * of opened file handles, and the batched upload both converters run.
 *
 * The file system and the platform are oracles: whether a file is there,
 * whether closing a handle raises, and the HTTP status each upload request
 * gets are inputs.
 */
module ResultsToPlatformBase {
  import opened Wrappers
  import opened Sorting
  import opened Numbers
  import opened Json
  import opened PlatformToTaskBase
  import opened PlatformToTaskDetection

  /** One file to upload: the record it belongs to and its name in the results folder. */
  datatype FileInfo = FileInfo(recordId: string, fileName: string)

  /** A loop that appends what `f` makes of each element and skips (`continue`) the elements it gives nothing for. */
  function Kept<T, R>(xs: seq<T>, f: T -> Option<R>): (r: seq<R>)
    ensures |r| <= |xs|
  {
    if xs == [] then []
    else
      var n := |xs| - 1;
      Kept(xs[..n], f) + match f(xs[n]) case Some(y) => [y] case None => []
  }

  /** What the loop keeps is exactly what `f` gives for some element. */
  lemma {:induction false} KeptSpec<T, R>(xs: seq<T>, f: T -> Option<R>)
    ensures forall y :: y in Kept(xs, f) <==> exists i :: 0 <= i < |xs| && f(xs[i]) == Some(y)
  {
    if xs != [] {
      var n := |xs| - 1;
      KeptSpec(xs[..n], f);
      assert forall i :: 0 <= i < n ==> xs[..n][i] == xs[i];
    }
  }

  /** The same, by element rather than by position. */
  lemma KeptMember<T, R>(xs: seq<T>, f: T -> Option<R>, y: R)
    ensures y in Kept(xs, f) <==> exists x :: x in xs && f(x) == Some(y)
  {
    KeptSpec(xs, f);
    if exists x :: x in xs && f(x) == Some(y) {
      var x :| x in xs && f(x) == Some(y);
      var i :| 0 <= i < |xs| && xs[i] == x;
    }
  }

  /** One more element. */
  lemma KeptSnoc<T, R>(xs: seq<T>, f: T -> Option<R>, i: nat)
    requires i < |xs|
    ensures Kept(xs[..i + 1], f) == Kept(xs[..i], f) + match f(xs[i]) case Some(y) => [y] case None => []
  {
    assert xs[..i + 1][..i] == xs[..i];
  }

  /** The pairs with key and value swapped. */
  function Swapped<K, V>(ps: seq<(K, V)>): (r: seq<(V, K)>)
    ensures |r| == |ps| && forall i :: 0 <= i < |ps| ==> r[i] == (ps[i].1, ps[i].0)
  {
    seq(|ps|, i requires 0 <= i < |ps| => (ps[i].1, ps[i].0))
  }

  /** Every record id is kept as it is. */
  function KeepKey(k: string): Option<string>
  {
    Some(k)
  }

  /**
   * create_filename_to_record_map: `{v: k for k, v in m.items()}`, where a
   * later record with the same value wins; {} when the mapping is not a
   * dict or a value cannot be a dict key (the exception is caught).
   */
  function FilenameToRecord(mapping: Json): (r: map<Json, string>)
  {
    match Items(mapping)
    case None => map[]
    case Some(ps) =>
      if forall i :: 0 <= i < |ps| ==> Hashable(ps[i].1) then MapFrom(Swapped(ps), KeepKey) else map[]
  }

  /** A mapping with a list (or dict) value, as a segmentation mapping has, inverts to {}. */
  lemma ListValuedInvertsToEmpty(mapping: Json, k: nat)
    requires Items(mapping).Some? && k < |Items(mapping).value| && !Hashable(Items(mapping).value[k].1)
    ensures FilenameToRecord(mapping) == map[]
  {
  }

  /**
   * On a dict whose values are all hashable, a value is a key of the
   * inverse exactly when some record has it, and it maps back to the last
   * such record.
   */
  lemma FilenameToRecordSpec(mapping: Json, v: Json)
    requires Items(mapping).Some? && forall i :: 0 <= i < |Items(mapping).value| ==> Hashable(Items(mapping).value[i].1)
    ensures var ps := Items(mapping).value;
      && (v in FilenameToRecord(mapping) <==> exists k :: 0 <= k < |ps| && ps[k].1 == v)
      && (v in FilenameToRecord(mapping) ==>
        exists k :: 0 <= k < |ps| && ps[k] == (FilenameToRecord(mapping)[v], v) &&
          (forall j :: k < j < |ps| ==> ps[j].1 != v))
  {
    var ps := Items(mapping).value;
    assert FilenameToRecord(mapping) == MapFrom(Swapped(ps), KeepKey);
    InvertedSpec(ps, KeepKey, v);
  }

  /** The pairs inverted, each key kept: a value is a key exactly when some pair has it, and it maps to the last such pair's key. */
  lemma InvertedSpec<K, V>(ps: seq<(K, V)>, keep: K -> Option<K>, v: V)
    requires forall k :: keep(k) == Some(k)
    ensures v in MapFrom(Swapped(ps), keep) <==> exists k :: 0 <= k < |ps| && ps[k].1 == v
    ensures v in MapFrom(Swapped(ps), keep) ==>
      exists k :: 0 <= k < |ps| && ps[k] == (MapFrom(Swapped(ps), keep)[v], v) && (forall j :: k < j < |ps| ==> ps[j].1 != v)
  {
    var sw := Swapped(ps);
    var m := MapFrom(sw, keep);
    MapFromSpec(sw, keep, v);
    if v in m {
      var k :| 0 <= k < |sw| && sw[k].0 == v && keep(sw[k].1) == Some(m[v]) &&
        forall j :: k < j < |sw| && sw[j].0 == v ==> keep(sw[j].1).None?;
      assert ps[k] == (m[v], v);
      forall j | k < j < |ps| ensures ps[j].1 != v {
        assert sw[j].0 == ps[j].1 && keep(sw[j].1).Some?;
      }
    } else {
      forall k | 0 <= k < |ps| ensures ps[k].1 != v {
        assert sw[k].0 == ps[k].1 && keep(sw[k].1).Some?;
      }
    }
  }

  /**
   * With distinct hashable values the inversion loses nothing: every
   * record's value maps back to that record, and every key of the inverse
   * is some record's value, so inverting twice gives the mapping back.
   */
  lemma InverseOfInverse(mapping: Json)
    requires Items(mapping).Some?
    requires var ps := Items(mapping).value;
      && (forall i :: 0 <= i < |ps| ==> Hashable(ps[i].1))
      && (forall i, j :: 0 <= i < j < |ps| ==> ps[i].1 != ps[j].1)
    ensures var ps := Items(mapping).value;
      && (forall i :: 0 <= i < |ps| ==> ps[i].1 in FilenameToRecord(mapping) && FilenameToRecord(mapping)[ps[i].1] == ps[i].0)
      && (forall v :: v in FilenameToRecord(mapping) ==> exists i :: 0 <= i < |ps| && ps[i].1 == v)
  {
    var ps := Items(mapping).value;
    forall i | 0 <= i < |ps|
      ensures ps[i].1 in FilenameToRecord(mapping) && FilenameToRecord(mapping)[ps[i].1] == ps[i].0
    {
      FilenameToRecordSpec(mapping, ps[i].1);
      var k :| 0 <= k < |ps| && ps[k] == (FilenameToRecord(mapping)[ps[i].1], ps[i].1) &&
        (forall j :: k < j < |ps| ==> ps[j].1 != ps[i].1);
      assert k == i;
    }
    forall v | v in FilenameToRecord(mapping) ensures exists i :: 0 <= i < |ps| && ps[i].1 == v {
      FilenameToRecordSpec(mapping, v);
    }
  }

  /**
   * upload_files_to_platform: with no files it succeeds without sending a
   * request; otherwise the request is sent and succeeds exactly on HTTP
   * 200. `status` is what the request gives (None when it raises). The
   * result is (success, whether a request was sent).
   */
  function UploadFilesToPlatform<F>(files: seq<F>, status: Option<int>): (r: (bool, bool))
    ensures r.1 <==> files != []
    ensures r.0 <==> files == [] || status == Some(200)
  {
    if files == [] then (true, false) else (status == Some(200), true)
  }

  /** An open file handle: whether it has a close method, whether closing it raises, and how often close was called. */
  class FileHandle {
    const hasClose: bool
    const closeRaises: bool
    var closeCalls: nat

    constructor(hasClose: bool, closeRaises: bool)
      ensures this.hasClose == hasClose && this.closeRaises == closeRaises && closeCalls == 0
    {
      this.hasClose := hasClose;
      this.closeRaises := closeRaises;
      closeCalls := 0;
    }

    /** `close()`: counted whether or not it raises. */
    method Close() returns (raised: bool)
      modifies this
      ensures closeCalls == old(closeCalls) + 1 && raised == closeRaises
    {
      closeCalls := closeCalls + 1;
      raised := closeRaises;
    }
  }

  /**
   * close_opened_files: close is tried on every handle that has it, once
   * per occurrence in the list, even after an earlier close raised; the
   * warnings are the only trace of failures.
   */
  method CloseOpenedFiles(handles: seq<FileHandle>)
    modifies set h | h in handles
    ensures forall h :: h in handles ==> h.closeCalls == old(h.closeCalls) + if h.hasClose then multiset(handles)[h] else 0
  {
    var i := 0;
    while i < |handles|
      invariant 0 <= i <= |handles|
      invariant forall h :: h in handles ==> h.closeCalls == old(h.closeCalls) + if h.hasClose then multiset(handles[..i])[h] else 0
    {
      var h := handles[i];
      if h.hasClose {
        var raised := h.Close();
      }
      assert handles[..i + 1] == handles[..i] + [h];
      i := i + 1;
    }
    assert handles[..i] == handles;
  }

  /** Whether a file of the batch is there to open. */
  function IsPresent(present: string -> bool): FileInfo -> bool
  {
    (f: FileInfo) => present(f.fileName)
  }

  /** The files of a batch that are there to open, in order. */
  function Available(batch: seq<FileInfo>, present: string -> bool): (r: seq<FileInfo>)
    ensures forall f :: f in r <==> f in batch && present(f.fileName)
  {
    Filter(batch, IsPresent(present))
  }

  /** Whether uploading a batch succeeds: nothing to open, or the request gets HTTP 200. */
  predicate BatchOk(batch: seq<FileInfo>, present: string -> bool, status: Option<int>)
  {
    UploadFilesToPlatform(Available(batch, present), status).0
  }

  /**
   * _upload_file_batch: opens every file of the batch that is there, posts
   * them in one request (none when there are none) and closes every
   * opened handle whatever happened. `closeRaises` says whether closing a
   * file raises.
   */
  method UploadFileBatch(batch: seq<FileInfo>, present: string -> bool, closeRaises: string -> bool, status: Option<int>)
    returns (ok: bool, sent: seq<FileInfo>, handles: seq<FileHandle>)
    ensures ok == BatchOk(batch, present, status)
    ensures sent == Available(batch, present) && |handles| == |sent|
    ensures forall h :: h in handles ==> fresh(h) && h.closeCalls == 1
  {
    sent, handles := OpenAvailable(batch, present, closeRaises);
    ok := UploadFilesToPlatform(sent, status).0;
    CloseOpenedFiles(handles);
  }

  /** Opens, in order, every file of the batch that is there: one fresh handle per opened file. */
  method OpenAvailable(batch: seq<FileInfo>, present: string -> bool, closeRaises: string -> bool)
    returns (sent: seq<FileInfo>, handles: seq<FileHandle>)
    ensures sent == Available(batch, present) && |handles| == |sent|
    ensures forall h :: h in handles ==> fresh(h) && h.hasClose && h.closeCalls == 0 && multiset(handles)[h] == 1
  {
    sent, handles := [], [];
    var i := 0;
    while i < |batch|
      invariant 0 <= i <= |batch|
      invariant sent == OpenedUpTo(batch, present, i) && |handles| == |sent|
      invariant forall h :: h in handles ==> fresh(h) && h.hasClose && h.closeCalls == 0 && multiset(handles)[h] == 1
    {
      var f := batch[i];
      if present(f.fileName) {
        var h := new FileHandle(true, closeRaises(f.fileName));
        handles := handles + [h];
        sent := sent + [f];
      }
      i := i + 1;
    }
    OpenedAll(batch, present, i);
  }

  /** The files among the first `i` of the batch that are there to open, taken left to right. */
  function OpenedUpTo(batch: seq<FileInfo>, present: string -> bool, i: nat): seq<FileInfo>
    requires i <= |batch|
  {
    if i == 0 then []
    else OpenedUpTo(batch, present, i - 1) + if present(batch[i - 1].fileName) then [batch[i - 1]] else []
  }

  /** Taking the files left to right keeps exactly the available ones, in order. */
  lemma {:induction false} OpenedAll(batch: seq<FileInfo>, present: string -> bool, i: nat)
    requires i <= |batch|
    ensures OpenedUpTo(batch, present, i) == Filter(batch[..i], IsPresent(present))
    ensures i == |batch| ==> OpenedUpTo(batch, present, i) == Available(batch, present)
  {
    if i > 0 {
      OpenedAll(batch, present, i - 1);
      FilterPrefixSnoc(batch, IsPresent(present), i - 1);
    }
    if i == |batch| {
      assert batch[..i] == batch;
    }
  }

  /**
   * _upload_files_in_batches: the files go out in batches of batch_size,
   * in order, and the first batch that fails ends the upload with False.
   * `status(k)` is what the k-th request gives. A batch_size of 0 makes
   * range() raise; a negative one uploads nothing and succeeds. The
   * result also says how many batches were attempted.
   */
  method UploadFilesInBatches(infos: seq<FileInfo>, batchSize: int, present: string -> bool, closeRaises: string -> bool,
                              status: nat -> Option<int>)
    returns (r: Result<bool>, attempted: nat)
    ensures batchSize == 0 <==> r.Err?
    ensures batchSize < 0 ==> r == Ok(true) && attempted == 0
    ensures batchSize > 0 ==>
      var batches := Batches(infos, batchSize);
      && r.Ok? && attempted <= |batches|
      && (forall k :: 0 <= k < attempted - 1 ==> BatchOk(batches[k], present, status(k)))
      && (r.value <==> forall k :: 0 <= k < |batches| ==> BatchOk(batches[k], present, status(k)))
      && (r.value ==> attempted == |batches|)
      && (!r.value ==> attempted >= 1 && !BatchOk(batches[attempted - 1], present, status(attempted - 1)))
  {
    if batchSize == 0 {
      return Err("ValueError: range() arg 3 must not be zero"), 0;
    }
    if batchSize < 0 {
      return Ok(true), 0;
    }
    ghost var batches := Batches(infos, batchSize);
    var i := 0;
    var k := 0;
    while i < |infos|
      invariant 0 <= k <= |batches|
      invariant Batches(infos[Min(i, |infos|)..], batchSize) == batches[k..]
      invariant forall j :: 0 <= j < k ==> BatchOk(batches[j], present, status(j))
      decreases |infos| - i
    {
      var next := Min(i + batchSize, |infos|);
      var batch := infos[i..next];
      BatchStep(infos, batchSize, i);
      TailStep(batches, k, batch, Batches(infos[next..], batchSize));
      var ok, sent, handles := UploadFileBatch(batch, present, closeRaises, status(k));
      if !ok {
        return Ok(false), k + 1;
      }
      i := i + batchSize;
      k := k + 1;
      assert Min(i, |infos|) == next;
    }
    assert batches[k..] == [];
    return Ok(true), k;
  }

  lemma TailStep<T>(xs: seq<T>, k: nat, x: T, rest: seq<T>)
    requires k <= |xs| && xs[k..] == [x] + rest
    ensures k < |xs| && xs[k] == x && xs[k + 1..] == rest
  {
    assert xs[k..][0] == x;
    assert xs[k..][1..] == xs[k + 1..];
  }

  /** The batches from offset i on: the one at i, then those from the next offset. */
  lemma BatchStep<T>(s: seq<T>, size: nat, i: nat)
    requires size >= 1 && i < |s|
    ensures Batches(s[i..], size) == [s[i..Min(i + size, |s|)]] + Batches(s[Min(i + size, |s|)..], size)
  {
    var m := Min(size, |s| - i);
    assert s[i..][..m] == s[i..Min(i + size, |s|)];
    assert s[i..][m..] == s[Min(i + size, |s|)..];
  }
}
