/**
 * The detection results converter
 * (common/results_to_platform_converter/detection_converter.py): every
 * entry of the model's output.json whose image belongs to a record becomes
 * a "<prefix>_bbox.json" file for that record, and the files are uploaded
 * in batches.
 *
 * The results folder, the saves and the platform are oracles: whether a
 * file is saved, whether it is there to open and the HTTP status of each
 * upload request are inputs.
 */
module ResultsToPlatformDetection {
  import opened Wrappers
  import opened Text
  import opened Json
  import opened PlatformToTaskBase
  import opened ResultsToPlatformBase

  /** Files per upload request unless the constructor is given another batch size. */
  const DEFAULT_BATCH_SIZE: int := 100

  /** `image_name.split('_bbox')[0]`: the image name up to its first "_bbox". */
  function ImagePrefix(imageName: string): (r: string)
    ensures StartsWith(imageName, r) && !Contains(r, "_bbox")
    ensures !Contains(imageName, "_bbox") ==> r == imageName
  {
    BeforeFirst(imageName, "_bbox")
  }

  /** The file written for one result entry: "<prefix>_bbox.json". */
  function DetectionFileName(imageName: string): (r: string)
    ensures EndsWith(r, "_bbox.json")
  {
    var r := ImagePrefix(imageName) + "_bbox.json";
    assert r[|r| - 10..] == "_bbox.json";
    r
  }

  /** What that file holds: {prefix: detections}, a dict with the one key. */
  function DetectionFileContent(imageName: string, detections: Json): (r: Json)
    ensures r.JObject? && Keys(r.entries) == [ImagePrefix(imageName)]
    ensures Get(r.entries, ImagePrefix(imageName)) == Some(detections)
  {
    JObject([(ImagePrefix(imageName), detections)])
  }

  /**
   * One result entry: skipped when "<prefix>.png" has no record or its
   * file cannot be saved; otherwise the record and the file name.
   */
  function DetectionInfo(f2r: map<Json, string>, saved: string -> bool): ((string, Json)) -> Option<FileInfo>
  {
    (item: (string, Json)) =>
      var base := JString(ImagePrefix(item.0) + ".png");
      if base !in f2r || !saved(DetectionFileName(item.0)) then None
      else Some(FileInfo(f2r[base], DetectionFileName(item.0)))
  }

  /** What _process_detection_results returns for the entries of output.json. */
  function DetectionInfos(items: seq<(string, Json)>, f2r: map<Json, string>, saved: string -> bool): (r: seq<FileInfo>)
  {
    Kept(items, DetectionInfo(f2r, saved))
  }

  /**
   * A file goes up exactly for an entry whose image has a record and whose
   * file was saved; it goes to that record, under "<prefix>_bbox.json".
   */
  lemma DetectionInfosSpec(items: seq<(string, Json)>, f2r: map<Json, string>, saved: string -> bool, fi: FileInfo)
    ensures fi in DetectionInfos(items, f2r, saved) <==>
      exists i :: 0 <= i < |items| && JString(ImagePrefix(items[i].0) + ".png") in f2r &&
        saved(DetectionFileName(items[i].0)) &&
        fi == FileInfo(f2r[JString(ImagePrefix(items[i].0) + ".png")], DetectionFileName(items[i].0))
  {
    KeptSpec(items, DetectionInfo(f2r, saved));
  }

  /** Entries whose image has no record are skipped: with an empty map nothing goes up. */
  lemma {:induction false} NoRecordsNoFiles(items: seq<(string, Json)>, saved: string -> bool)
    ensures DetectionInfos(items, map[], saved) == []
  {
    if items != [] {
      NoRecordsNoFiles(items[..|items| - 1], saved);
    }
  }

  /**
   * _process_detection_results: each entry of output.json in turn, saving
   * its file and recording it for upload, skipping entries without a
   * record and files that could not be saved.
   */
  method ProcessDetectionResults(items: seq<(string, Json)>, f2r: map<Json, string>, saved: string -> bool)
    returns (infos: seq<FileInfo>)
    ensures infos == DetectionInfos(items, f2r, saved)
  {
    infos := [];
    var i := 0;
    while i < |items|
      invariant 0 <= i <= |items|
      invariant infos == Kept(items[..i], DetectionInfo(f2r, saved))
    {
      KeptSnoc(items, DetectionInfo(f2r, saved), i);
      var imageName := items[i].0;
      var prefix := ImagePrefix(imageName);
      var base := JString(prefix + ".png");
      if base in f2r && saved(DetectionFileName(imageName)) {
        infos := infos + [FileInfo(f2r[base], DetectionFileName(imageName))];
      }
      i := i + 1;
    }
    assert items[..i] == items;
  }

  class DetectionResultsConverter {
    /** Files per upload request. */
    const batchSize: int

    constructor(batchSize: int)
      ensures this.batchSize == batchSize
    {
      this.batchSize := batchSize;
    }

    /**
     * run: fails when the mapping cannot be loaded or inverts to {}, or
     * output.json is missing, malformed or null; succeeds when no file is
     * left to upload; otherwise the upload decides. `mapping` and `output`
     * are the loaded files (None when missing or malformed; a file holding
     * JSON null loads as None too), `saved`, `present` and `closeRaises`
     * what the file system does, `status(k)` what the k-th upload request
     * gets. An output.json that is neither null nor a dict, or a batch size
     * of 0, raises out of run (Err).
     */
    method Run(mapping: Option<Json>, output: Option<Json>, saved: string -> bool, present: string -> bool,
               closeRaises: string -> bool, status: nat -> Option<int>)
      returns (r: Result<bool>)
      ensures mapping.None? || FilenameToRecord(mapping.value) == map[] ==> r == Ok(false)
      ensures mapping.Some? && FilenameToRecord(mapping.value) != map[] ==>
        && (output.None? || output.value.JNull? ==> r == Ok(false))
        && (output.Some? && !output.value.JNull? && !output.value.JObject? ==> r.Err?)
        && (output.Some? && output.value.JObject? ==>
          var infos := DetectionInfos(Items(output.value).value, FilenameToRecord(mapping.value), saved);
          && (infos == [] ==> r == Ok(true))
          && (infos != [] && batchSize == 0 ==> r.Err?)
          && (infos != [] && batchSize < 0 ==> r == Ok(true))
          && (infos != [] && batchSize > 0 ==>
            var batches := Batches(infos, batchSize);
            r == Ok(forall k :: 0 <= k < |batches| ==> BatchOk(batches[k], present, status(k)))))
    {
      if mapping.None? {
        return Ok(false);
      }
      var f2r := FilenameToRecord(mapping.value);
      if f2r == map[] {
        return Ok(false);
      }
      // a file holding JSON null loads as None
      if output.None? || output.value.JNull? {
        return Ok(false);
      }
      var items := Items(output.value);
      if items.None? {
        return Err("AttributeError: object has no attribute 'items'");
      }
      var infos := ProcessDetectionResults(items.value, f2r, saved);
      if infos == [] {
        return Ok(true);
      }
      var attempted;
      r, attempted := UploadFilesInBatches(infos, batchSize, present, closeRaises, status);
    }
  }
}
