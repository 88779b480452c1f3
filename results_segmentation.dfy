/**
 * The segmentation results converter
 * (common/results_to_platform_converter/segmentation_converter.py): every
 * image file of every record whose "<base>_mask.png" the model wrote is
 * converted to "<base>_mask.webp", the PNG mask is removed, and the WebP
 * masks are uploaded in batches.
 *
 * The results folder and the platform are oracles: whether a PNG mask was
 * written, whether it converts, whether removing it succeeds, whether a WebP
 * file is there to open and the HTTP status of each upload request are
 * inputs. The PNG masks removed so far are threaded through the loop.
 */
module ResultsToPlatformSegmentation {
  import opened Wrappers
  import opened Sorting
  import opened Text
  import opened Json
  import opened PlatformToTaskBase
  import opened ResultsToPlatformBase

  /** Files per upload request unless the constructor is given another batch size. */
  const DEFAULT_BATCH_SIZE: int := 10

  /** The PNG mask the model writes for an image file: "<base>_mask.png". */
  function PngMaskName(filename: string): (r: string)
    ensures EndsWith(r, "_mask.png")
    ensures r[..|r| - 9] == Splitext(filename).0
  {
    var r := Splitext(filename).0 + "_mask.png";
    assert r[|r| - 9..] == "_mask.png";
    assert r[..|r| - 9] == Splitext(filename).0;
    r
  }

  /**
   * Two image files share one PNG mask exactly when their names agree
   * without the extension ("a.jpg" and "a.png" do), which is why removing
   * a mask after conversion matters for the files listed after it.
   */
  lemma PngMaskShared(a: string, b: string)
    ensures PngMaskName(a) == PngMaskName(b) <==> Splitext(a).0 == Splitext(b).0
  {
  }

  /** The WebP mask that is uploaded for it: "<base>_mask.webp"; its name gives back the PNG mask's. */
  function WebpMaskName(filename: string): (r: string)
    ensures EndsWith(r, "_mask.webp")
    ensures PngOfWebp(r) == PngMaskName(filename)
  {
    var r := Splitext(filename).0 + "_mask.webp";
    assert r[|r| - 10..] == "_mask.webp";
    assert r[..|r| - 10] == Splitext(filename).0;
    r
  }

  /** The PNG mask a WebP mask name was converted from: "<base>_mask.webp" to "<base>_mask.png". */
  function PngOfWebp(webp: string): string
  {
    if |webp| >= 10 then webp[..|webp| - 10] + "_mask.png" else webp
  }

  /**
   * What the results folder does with a PNG mask: whether the model wrote
   * it, whether convert_png_to_webp succeeds on it, and whether os.remove
   * deletes it after the conversion (false: the OSError is logged and
   * ignored, and the PNG mask stays).
   */
  datatype MaskFolder = MaskFolder(pngExists: string -> bool, converts: string -> bool, removes: string -> bool)

  /** Whether every value of the mapping is a list, as run checks before anything else. */
  predicate AllLists(ps: seq<(string, Json)>)
  {
    forall i :: 0 <= i < |ps| ==> ps[i].1.JArray?
  }

  /** The (record id, file name) pairs of one record, in the order of its file names. */
  function RecordListings(pair: (string, Json)): (r: seq<(string, Json)>)
    requires pair.1.JArray?
    ensures |r| == |pair.1.items|
    ensures forall k :: 0 <= k < |r| ==> r[k] == (pair.0, pair.1.items[k])
  {
    seq(|pair.1.items|, k requires 0 <= k < |pair.1.items| => (pair.0, pair.1.items[k]))
  }

  /** The (record id, file name) pairs of the mapping, in the order the nested loop visits them. */
  function Listings(ps: seq<(string, Json)>): seq<(string, Json)>
    requires AllLists(ps)
  {
    if ps == [] then []
    else
      var n := |ps| - 1;
      Listings(ps[..n]) + RecordListings(ps[n])
  }

  /**
   * One file name of a record, given the PNG masks removed so far: skipped
   * when it is not a string (splitext raises, the exception is caught), when
   * its PNG mask is not there (never written, or removed after an earlier
   * conversion of the same mask) or does not convert; otherwise the record
   * and the WebP mask name are kept, and the PNG mask is gone afterwards
   * when os.remove succeeds.
   */
  function MaskStep(fs: MaskFolder, removed: set<string>, listing: (string, Json)): (Option<FileInfo>, set<string>)
  {
    if !listing.1.JString? then (None, removed)
    else
      var png := PngMaskName(listing.1.s);
      if !fs.pngExists(png) || png in removed || !fs.converts(png) then (None, removed)
      else (Some(FileInfo(listing.0, WebpMaskName(listing.1.s))), if fs.removes(png) then removed + {png} else removed)
  }

  /** The upload entries prepared for some listings, and the PNG masks removed by the end, from `removed` on. */
  function Masks(listings: seq<(string, Json)>, fs: MaskFolder, removed: set<string>): (seq<FileInfo>, set<string>)
  {
    if listings == [] then ([], removed)
    else
      var n := |listings| - 1;
      var prev := Masks(listings[..n], fs, removed);
      var step := MaskStep(fs, prev.1, listings[n]);
      (prev.0 + (if step.0.Some? then [step.0.value] else []), step.1)
  }

  /** The masks of one record, in the order of its file names, from the PNG masks already removed. */
  function RecordMasks(pair: (string, Json), fs: MaskFolder, removed: set<string>): (seq<FileInfo>, set<string>)
    requires pair.1.JArray?
  {
    Masks(RecordListings(pair), fs, removed)
  }

  /** What _process_segmentation_masks returns: the masks of every record, record by record. */
  function MaskInfos(ps: seq<(string, Json)>, fs: MaskFolder): seq<FileInfo>
    requires AllLists(ps)
  {
    Masks(Listings(ps), fs, {}).0
  }

  /** A pair is listed exactly when some record lists that file name. */
  lemma {:induction false} ListingsSpec(ps: seq<(string, Json)>, listing: (string, Json))
    requires AllLists(ps)
    ensures listing in Listings(ps) <==> exists i :: 0 <= i < |ps| && listing.0 == ps[i].0 && listing.1 in ps[i].1.items
  {
    if ps != [] {
      var n := |ps| - 1;
      assert AllLists(ps[..n]);
      ListingsSpec(ps[..n], listing);
      assert forall i :: 0 <= i < n ==> ps[..n][i] == ps[i];
      var rl := RecordListings(ps[n]);
      if listing in rl {
        var k :| 0 <= k < |rl| && rl[k] == listing;
        assert listing.1 == ps[n].1.items[k];
      }
      if listing.0 == ps[n].0 && listing.1 in ps[n].1.items {
        var k :| 0 <= k < |ps[n].1.items| && ps[n].1.items[k] == listing.1;
        assert rl[k] == listing;
      }
    }
  }

  /** One more listing: the entries so far, then what the step over it adds. */
  lemma MasksSnoc(listings: seq<(string, Json)>, fs: MaskFolder, removed: set<string>, j: nat)
    requires j < |listings|
    ensures var prev := Masks(listings[..j], fs, removed);
      var step := MaskStep(fs, prev.1, listings[j]);
      Masks(listings[..j + 1], fs, removed) == (prev.0 + (if step.0.Some? then [step.0.value] else []), step.1)
  {
    assert listings[..j + 1][..j] == listings[..j];
  }

  /** Preparing two runs of listings one after the other is preparing them together. */
  lemma {:induction false} MasksAppend(a: seq<(string, Json)>, b: seq<(string, Json)>, fs: MaskFolder, removed: set<string>)
    ensures Masks(a + b, fs, removed).0 == Masks(a, fs, removed).0 + Masks(b, fs, Masks(a, fs, removed).1).0
    ensures Masks(a + b, fs, removed).1 == Masks(b, fs, Masks(a, fs, removed).1).1
  {
    if b == [] {
      assert a + b == a;
      assert Masks(a, fs, removed).0 + [] == Masks(a, fs, removed).0;
    } else {
      var n := |b| - 1;
      var ab := a + b;
      assert ab[..|ab| - 1] == a + b[..n];
      assert ab[|ab| - 1] == b[n];
      MasksAppend(a, b[..n], fs, removed);
      var first := Masks(a, fs, removed);
      var prev := Masks(b[..n], fs, first.1);
      var step := MaskStep(fs, prev.1, b[n]);
      var extra := if step.0.Some? then [step.0.value] else [];
      assert Masks(ab, fs, removed).0 == (first.0 + prev.0) + extra;
      assert (first.0 + prev.0) + extra == first.0 + (prev.0 + extra);
    }
  }

  /**
   * The removed PNG masks only grow, and every one removed on the way is
   * the PNG mask of a listed string file name.
   */
  lemma {:induction false} MasksRemoved(listings: seq<(string, Json)>, fs: MaskFolder, removed: set<string>)
    ensures removed <= Masks(listings, fs, removed).1
    ensures forall p :: p in Masks(listings, fs, removed).1 && p !in removed ==>
      exists j :: 0 <= j < |listings| && listings[j].1.JString? && PngMaskName(listings[j].1.s) == p
  {
    if listings != [] {
      var n := |listings| - 1;
      MasksRemoved(listings[..n], fs, removed);
      assert forall j :: 0 <= j < n ==> listings[..n][j] == listings[j];
    }
  }

  /**
   * Every entry comes from a listed string file name whose PNG mask was
   * there, not yet removed, and converted; the entry holds that record and
   * the WebP mask name.
   */
  lemma {:induction false} MasksSound(listings: seq<(string, Json)>, fs: MaskFolder, removed: set<string>, fi: FileInfo)
    ensures fi in Masks(listings, fs, removed).0 ==>
      exists j :: 0 <= j < |listings| && listings[j].1.JString? &&
        fs.pngExists(PngMaskName(listings[j].1.s)) && PngMaskName(listings[j].1.s) !in removed &&
        fs.converts(PngMaskName(listings[j].1.s)) && fi == FileInfo(listings[j].0, WebpMaskName(listings[j].1.s))
  {
    if listings != [] {
      var n := |listings| - 1;
      var prev := Masks(listings[..n], fs, removed);
      MasksSound(listings[..n], fs, removed, fi);
      MasksRemoved(listings[..n], fs, removed);
      assert forall j :: 0 <= j < n ==> listings[..n][j] == listings[j];
    }
  }

  /**
   * The first listing of a PNG mask that is there, not yet removed and
   * converts always gets its entry, whatever follows.
   */
  lemma {:induction false} MasksFirst(listings: seq<(string, Json)>, fs: MaskFolder, removed: set<string>, k: nat)
    requires k < |listings| && listings[k].1.JString?
    requires fs.pngExists(PngMaskName(listings[k].1.s)) && fs.converts(PngMaskName(listings[k].1.s))
    requires PngMaskName(listings[k].1.s) !in removed
    requires forall j :: 0 <= j < k && listings[j].1.JString? ==> PngMaskName(listings[j].1.s) != PngMaskName(listings[k].1.s)
    ensures FileInfo(listings[k].0, WebpMaskName(listings[k].1.s)) in Masks(listings, fs, removed).0
  {
    NotRemovedBefore(listings, fs, removed, k);
    MasksSnoc(listings, fs, removed, k);
    MasksAppend(listings[..k + 1], listings[k + 1..], fs, removed);
    assert listings[..k + 1] + listings[k + 1..] == listings;
  }

  /** A PNG mask no earlier listing names is not removed before its first listing. */
  lemma NotRemovedBefore(listings: seq<(string, Json)>, fs: MaskFolder, removed: set<string>, k: nat)
    requires k < |listings| && listings[k].1.JString?
    requires PngMaskName(listings[k].1.s) !in removed
    requires forall j :: 0 <= j < k && listings[j].1.JString? ==> PngMaskName(listings[j].1.s) != PngMaskName(listings[k].1.s)
    ensures PngMaskName(listings[k].1.s) !in Masks(listings[..k], fs, removed).1
  {
    MasksRemoved(listings[..k], fs, removed);
    assert forall j :: 0 <= j < k ==> listings[..k][j] == listings[j];
  }

  /**
   * When os.remove always succeeds, no PNG mask is converted twice: the
   * entries name pairwise different WebP masks, each of whose PNG masks is
   * gone by the end.
   */
  lemma {:induction false} MasksOnce(listings: seq<(string, Json)>, fs: MaskFolder, removed: set<string>)
    requires forall p :: fs.removes(p)
    ensures forall k :: 0 <= k < |Masks(listings, fs, removed).0| ==>
      PngOfWebp(Masks(listings, fs, removed).0[k].fileName) in Masks(listings, fs, removed).1
    ensures forall k, l :: 0 <= k < l < |Masks(listings, fs, removed).0| ==>
      Masks(listings, fs, removed).0[k].fileName != Masks(listings, fs, removed).0[l].fileName
  {
    if listings != [] {
      var n := |listings| - 1;
      MasksOnce(listings[..n], fs, removed);
      var prev := Masks(listings[..n], fs, removed);
      var step := MaskStep(fs, prev.1, listings[n]);
      assert prev.1 <= step.1;
      if step.0.Some? {
        var w := step.0.value.fileName;
        assert PngOfWebp(w) !in prev.1 && PngOfWebp(w) in step.1;
        assert forall k :: 0 <= k < |prev.0| ==> prev.0[k].fileName != w;
      }
    }
  }

  /** One more record: the masks so far, then that record's masks from the PNG masks removed so far. */
  lemma MaskInfosSnoc(ps: seq<(string, Json)>, fs: MaskFolder, i: nat)
    requires AllLists(ps) && i < |ps|
    ensures AllLists(ps[..i]) && AllLists(ps[..i + 1])
    ensures var prev := Masks(Listings(ps[..i]), fs, {});
      var part := RecordMasks(ps[i], fs, prev.1);
      Masks(Listings(ps[..i + 1]), fs, {}) == (prev.0 + part.0, part.1)
  {
    assert ps[..i + 1][..i] == ps[..i];
    MasksAppend(Listings(ps[..i]), RecordListings(ps[i]), fs, {});
  }

  /**
   * An upload entry names a record of the mapping and the WebP mask of one of
   * its string file names whose PNG mask was written and converts.
   */
  lemma MaskInfosSound(ps: seq<(string, Json)>, fs: MaskFolder, fi: FileInfo)
    requires AllLists(ps)
    ensures fi in MaskInfos(ps, fs) ==>
      exists i, f :: 0 <= i < |ps| && f in ps[i].1.items && f.JString? &&
        fs.pngExists(PngMaskName(f.s)) && fs.converts(PngMaskName(f.s)) && fi == FileInfo(ps[i].0, WebpMaskName(f.s))
  {
    var ls := Listings(ps);
    MasksSound(ls, fs, {}, fi);
    if fi in MaskInfos(ps, fs) {
      var j :| 0 <= j < |ls| && ls[j].1.JString? && fs.pngExists(PngMaskName(ls[j].1.s)) &&
        fs.converts(PngMaskName(ls[j].1.s)) && fi == FileInfo(ls[j].0, WebpMaskName(ls[j].1.s));
      ListingsSpec(ps, ls[j]);
    }
  }

  /**
   * The first listing, across all records, of a PNG mask that was written
   * and converts gets an upload entry for its record; later listings of the
   * same mask find it removed unless os.remove failed.
   */
  lemma MaskInfosFirst(ps: seq<(string, Json)>, fs: MaskFolder, k: nat)
    requires AllLists(ps) && k < |Listings(ps)| && Listings(ps)[k].1.JString?
    requires fs.pngExists(PngMaskName(Listings(ps)[k].1.s)) && fs.converts(PngMaskName(Listings(ps)[k].1.s))
    requires forall j :: 0 <= j < k && Listings(ps)[j].1.JString? ==>
      PngMaskName(Listings(ps)[j].1.s) != PngMaskName(Listings(ps)[k].1.s)
    ensures FileInfo(Listings(ps)[k].0, WebpMaskName(Listings(ps)[k].1.s)) in MaskInfos(ps, fs)
  {
    MasksFirst(Listings(ps), fs, {}, k);
  }

  /** When os.remove always succeeds, no WebP mask is uploaded twice, even if file names repeat across records. */
  lemma MaskInfosOnce(ps: seq<(string, Json)>, fs: MaskFolder)
    requires AllLists(ps)
    requires forall p :: fs.removes(p)
    ensures forall k, l :: 0 <= k < l < |MaskInfos(ps, fs)| ==> MaskInfos(ps, fs)[k].fileName != MaskInfos(ps, fs)[l].fileName
  {
    MasksOnce(Listings(ps), fs, {});
  }

  /** Every uploaded name is a WebP mask name. */
  lemma MasksAreWebp(ps: seq<(string, Json)>, fs: MaskFolder)
    requires AllLists(ps)
    ensures forall fi :: fi in MaskInfos(ps, fs) ==> EndsWith(fi.fileName, "_mask.webp")
  {
    forall fi | fi in MaskInfos(ps, fs) ensures EndsWith(fi.fileName, "_mask.webp") {
      MaskInfosSound(ps, fs, fi);
    }
  }

  /**
   * _process_segmentation_masks: for every record, for every file name, the
   * PNG mask is converted to WebP, removed, and the WebP mask recorded for
   * upload; names whose mask is missing (or already removed) or does not
   * convert are skipped.
   */
  method ProcessSegmentationMasks(ps: seq<(string, Json)>, fs: MaskFolder) returns (infos: seq<FileInfo>)
    requires AllLists(ps)
    ensures infos == MaskInfos(ps, fs)
  {
    infos := [];
    var removed: set<string> := {};
    var i := 0;
    while i < |ps|
      invariant 0 <= i <= |ps|
      invariant AllLists(ps[..i]) && (infos, removed) == Masks(Listings(ps[..i]), fs, {})
    {
      MaskInfosSnoc(ps, fs, i);
      var part;
      part, removed := RecordMasksOf(ps[i], fs, removed);
      infos := infos + part;
      i := i + 1;
    }
    assert ps[..i] == ps;
  }

  /**
   * The inner loop of _process_segmentation_masks: the masks of one record,
   * in the order of its file names, and the PNG masks removed afterwards.
   */
  method RecordMasksOf(pair: (string, Json), fs: MaskFolder, removed0: set<string>)
    returns (part: seq<FileInfo>, removed: set<string>)
    requires pair.1.JArray?
    ensures (part, removed) == RecordMasks(pair, fs, removed0)
  {
    var recordId := pair.0;
    var filenames := pair.1.items;
    ghost var listings := RecordListings(pair);
    part, removed := [], removed0;
    var j := 0;
    while j < |filenames|
      invariant 0 <= j <= |filenames|
      invariant (part, removed) == Masks(listings[..j], fs, removed0)
    {
      MasksSnoc(listings, fs, removed0, j);
      var filename := filenames[j];
      assert listings[j] == (recordId, filename);
      ghost var step := MaskStep(fs, removed, (recordId, filename));
      ghost var before := part;
      assert before + [] == before;
      if filename.JString? {
        var png := PngMaskName(filename.s);
        // a PNG mask removed after an earlier conversion no longer exists
        if fs.pngExists(png) && png !in removed && fs.converts(png) {
          if fs.removes(png) {
            removed := removed + {png};
          }
          part := part + [FileInfo(recordId, WebpMaskName(filename.s))];
        }
      }
      assert (part, removed) == (before + (if step.0.Some? then [step.0.value] else []), step.1);
      j := j + 1;
    }
    assert listings[..j] == listings;
  }

  class SegmentationResultsConverter {
    /** Files per upload request. */
    const batchSize: int

    constructor(batchSize: int)
      ensures this.batchSize == batchSize
    {
      this.batchSize := batchSize;
    }

    /**
     * run: fails when the mapping cannot be loaded, is not a dict, has a
     * value that is not a list, or no mask could be prepared (unlike the
     * detection converter, nothing to upload is a failure); otherwise the
     * upload decides. `mapping` is the loaded mapping (None when missing or
     * malformed), `fs`, `present` and `closeRaises` what the file system
     * does, `status(k)` what the k-th upload request gets.
     * A batch size of 0 raises out of run (Err).
     */
    method Run(mapping: Option<Json>, fs: MaskFolder, present: string -> bool,
               closeRaises: string -> bool, status: nat -> Option<int>)
      returns (r: Result<bool>)
      ensures mapping.None? || Items(mapping.value).None? || !AllLists(Items(mapping.value).value) ==> r == Ok(false)
      ensures mapping.Some? && Items(mapping.value).Some? && AllLists(Items(mapping.value).value) ==>
        var infos := MaskInfos(Items(mapping.value).value, fs);
        && (infos == [] ==> r == Ok(false))
        && (infos != [] && batchSize == 0 ==> r.Err?)
        && (infos != [] && batchSize < 0 ==> r == Ok(true))
        && (infos != [] && batchSize > 0 ==>
          var batches := Batches(infos, batchSize);
          r == Ok(forall k :: 0 <= k < |batches| ==> BatchOk(batches[k], present, status(k))))
    {
      if mapping.None? {
        return Ok(false);
      }
      var items := Items(mapping.value);
      if items.None? {
        return Ok(false);
      }
      var ps := items.value;
      var i := 0;
      while i < |ps|
        invariant 0 <= i <= |ps|
        invariant forall k :: 0 <= k < i ==> ps[k].1.JArray?
      {
        if !ps[i].1.JArray? {
          return Ok(false);
        }
        i := i + 1;
      }
      var infos := ProcessSegmentationMasks(ps, fs);
      if infos == [] {
        return Ok(false);
      }
      var attempted;
      r, attempted := UploadFilesInBatches(infos, batchSize, present, closeRaises, status);
    }
  }
}
