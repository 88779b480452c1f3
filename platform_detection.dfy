/**
 * The detection converter from the platform's package to the worker's task
 * folder (common/platform_to_task_converter/detection_converter.py): which
 * PNG name each record gets, the list of URLs to download, how each
 * downloaded file is handled, and when a run counts as successful.
 *
 * The package JSON, the downloads, the WebP-to-PNG conversion and the file
 * writes are oracle inputs; the package is a JSON value as json.load gives it.
 */
module PlatformToTaskDetection {
  import opened Wrappers
  import opened Text
  import opened Json
  import opened PlatformToTaskBase

  /** A downloaded response: its body parsed as JSON (None when it does not parse), and whether PIL converts it to PNG. */
  datatype Response = Response(body: Option<Json>, convertsToPng: bool)

  /** The empty JSON object. */
  const EMPTY_OBJECT: Json := JObject([])

  /** `needle in x`: a substring test on a string, membership in a list or among a dict's keys; None (TypeError) otherwise. */
  function Member(needle: string, x: Json): (r: Option<bool>)
    ensures x.JString? ==> r == Some(Contains(x.s, needle))
  {
    match x
    case JString(s) => Some(Contains(s, needle))
    case JArray(items) => Some(JString(needle) in items)
    case JObject(entries) => Some(needle in Keys(entries))
    case _ => None
  }

  /** `url.split('/')[-1].split('?')[0]`: the last path segment without the query. */
  function UrlFileName(url: string): (r: string)
    ensures '/' !in r && !Contains(r, "?")
  {
    var seg := AfterLast(url, '/');
    var r := BeforeFirst(seg, "?");
    assert '/' !in r by {
      assert StartsWith(seg, r);
      assert forall i :: 0 <= i < |r| ==> r[i] == seg[i];
    }
    r
  }

  /** The PNG name for a WebP URL: the file name with its extension replaced by ".png". */
  function PngName(url: string): (r: string)
    ensures EndsWith(r, ".png")
  {
    Splitext(UrlFileName(url)).0 + ".png"
  }

  /**
   * A search loop that stops at the first element whose test is true and
   * returns what `pick` makes of it; a test or a pick that fails (None)
   * ends the search with None.
   */
  function FirstHit<T, R>(xs: seq<T>, test: T -> Option<bool>, pick: T -> Option<R>): (r: Option<R>)
  {
    if xs == [] then None
    else
      match test(xs[0])
      case None => None
      case Some(false) => FirstHit(xs[1..], test, pick)
      case Some(true) => pick(xs[0])
  }

  /** When every test succeeds and every hit can be picked, the search finds exactly the first hit. */
  lemma {:induction false} FirstHitSpec<T, R>(xs: seq<T>, test: T -> Option<bool>, pick: T -> Option<R>)
    requires forall i :: 0 <= i < |xs| ==> test(xs[i]).Some? && (test(xs[i]) == Some(true) ==> pick(xs[i]).Some?)
    ensures FirstHit(xs, test, pick).Some? <==> exists k :: 0 <= k < |xs| && test(xs[k]) == Some(true)
    ensures FirstHit(xs, test, pick).Some? ==>
      exists k :: 0 <= k < |xs| && test(xs[k]) == Some(true) && FirstHit(xs, test, pick) == pick(xs[k]) &&
        forall j :: 0 <= j < k ==> test(xs[j]) == Some(false)
  {
    if xs != [] && test(xs[0]) == Some(false) {
      var rest := xs[1..];
      assert forall i :: 0 <= i < |rest| ==> rest[i] == xs[i + 1];
      FirstHitSpec(rest, test, pick);
      if FirstHit(rest, test, pick).Some? {
        var k :| 0 <= k < |rest| && test(rest[k]) == Some(true) && FirstHit(rest, test, pick) == pick(rest[k]) &&
          forall j :: 0 <= j < k ==> test(rest[j]) == Some(false);
        assert test(xs[k + 1]) == Some(true);
        assert forall j :: 0 <= j < k + 1 ==> test(xs[j]) == Some(false) by {
          forall j | 0 <= j < k + 1 ensures test(xs[j]) == Some(false) {
            if j > 0 {
              assert xs[j] == rest[j - 1];
            }
          }
        }
      } else {
        forall k | 0 <= k < |xs| ensures test(xs[k]) != Some(true) {
          if k > 0 {
            assert xs[k] == rest[k - 1];
          }
        }
      }
    }
  }

  /** Whether a URL value yielded by the loop mentions ".webp". */
  function WebpTest(x: Json): Option<bool>
  {
    Member(".webp", x)
  }

  /** The PNG name of a hit; a hit that is not a string fails on `split`. */
  function WebpPick(x: Json): Option<string>
  {
    if x.JString? then Some(PngName(x.s)) else None
  }

  /** _find_webp_file: the PNG name of the first URL containing ".webp", or None (also when an exception is caught). */
  function FindWebpFile(urls: Json): (r: Option<string>)
  {
    match Iterated(urls)
    case None => None
    case Some(xs) => FirstHit(xs, WebpTest, WebpPick)
  }

  /**
   * On a list of URL strings, _find_webp_file finds a name exactly when
   * some URL contains ".webp", and the name is the PNG name of the first
   * such URL.
   */
  lemma FindWebpInStrings(items: seq<Json>)
    requires forall i :: 0 <= i < |items| ==> items[i].JString?
    ensures FindWebpFile(JArray(items)).Some? <==> exists k :: 0 <= k < |items| && Contains(items[k].s, ".webp")
    ensures FindWebpFile(JArray(items)).Some? ==>
      exists k :: 0 <= k < |items| && Contains(items[k].s, ".webp") && FindWebpFile(JArray(items)) == Some(PngName(items[k].s)) &&
        forall j :: 0 <= j < k ==> !Contains(items[j].s, ".webp")
  {
    var hit := FirstHit(items, WebpTest, WebpPick);
    assert FindWebpFile(JArray(items)) == hit;
    assert forall i :: 0 <= i < |items| ==> WebpTest(items[i]) == Some(Contains(items[i].s, ".webp"));
    FirstHitSpec(items, WebpTest, WebpPick);
    if hit.Some? {
      var k :| 0 <= k < |items| && WebpTest(items[k]) == Some(true) && hit == WebpPick(items[k]) &&
        forall j :: 0 <= j < k ==> WebpTest(items[j]) == Some(false);
      assert Contains(items[k].s, ".webp") && hit == Some(PngName(items[k].s));
    }
  }

  /**
   * Nested loops that append, for each element in turn, what `f` gives
   * for it; the first failure (an exception) ends the whole with None.
   */
  function ConcatMap<T, P>(xs: seq<T>, f: T -> Option<seq<P>>): (r: Option<seq<P>>)
  {
    if xs == [] then Some([])
    else
      match ConcatMap(xs[..|xs| - 1], f)
      case None => None
      case Some(ps) =>
        match f(xs[|xs| - 1])
        case None => None
        case Some(qs) => Some(ps + qs)
  }

  /** Once an element has failed, the later elements do not matter. */
  lemma {:induction false} ConcatMapStop<T, P>(xs: seq<T>, f: T -> Option<seq<P>>, i: nat)
    requires i <= |xs| && ConcatMap(xs[..i], f) == None
    ensures ConcatMap(xs, f) == None
    decreases |xs| - i
  {
    if i < |xs| {
      assert xs[..i + 1][..i] == xs[..i];
      ConcatMapStop(xs, f, i + 1);
    } else {
      assert xs[..i] == xs;
    }
  }

  /** One more element. */
  lemma ConcatMapSnoc<T, P>(xs: seq<T>, f: T -> Option<seq<P>>, i: nat)
    requires i < |xs|
    ensures ConcatMap(xs[..i + 1], f) ==
      match ConcatMap(xs[..i], f)
      case None => None
      case Some(ps) => (match f(xs[i]) case None => None case Some(qs) => Some(ps + qs))
  {
    assert xs[..i + 1][..i] == xs[..i];
  }

  /** With no failure, the result is every element's part, in order: each element's part is in it. */
  lemma {:induction false} ConcatMapParts<T, P>(xs: seq<T>, f: T -> Option<seq<P>>)
    requires forall i :: 0 <= i < |xs| ==> f(xs[i]).Some?
    ensures ConcatMap(xs, f).Some?
    ensures forall i, y :: 0 <= i < |xs| && y in f(xs[i]).value ==> y in ConcatMap(xs, f).value
    ensures forall y :: y in ConcatMap(xs, f).value ==> exists i :: 0 <= i < |xs| && y in f(xs[i]).value
  {
    if xs != [] {
      var n := |xs| - 1;
      assert forall i :: 0 <= i < n ==> xs[..n][i] == xs[i];
      ConcatMapParts(xs[..n], f);
    }
  }

  /** The (record_id, urls) pairs of all records, in order; None once a record is not a dict. */
  function PairsOf(records: seq<Json>): (r: Option<seq<(string, Json)>>)
  {
    ConcatMap(records, Items)
  }

  /** The name stored for one pair: the decoded PNG name of its first WebP URL, when there is one and it is not empty. */
  function PairFile(urls: Json): (r: Option<string>)
    ensures r.Some? ==> FindWebpFile(urls).Some? && r == DecodeFilename(FindWebpFile(urls)) && r.value != []
  {
    var png := DecodeFilename(FindWebpFile(urls));
    if png.Some? && png.value != [] then png else None
  }

  /** A map built from pairs in order: a later pair with a value overwrites an earlier one; a pair without one is skipped. */
  function MapFrom<K, V, F>(pairs: seq<(K, V)>, file: V -> Option<F>): (m: map<K, F>)
  {
    if pairs == [] then map[]
    else
      var n := |pairs| - 1;
      var m := MapFrom(pairs[..n], file);
      match file(pairs[n].1)
      case Some(f) => m[pairs[n].0 := f]
      case None => m
  }

  /** A key is in the map exactly when some pair with that key has a value, and it maps to the value of the last such pair. */
  lemma {:induction false} MapFromSpec<K, V, F>(pairs: seq<(K, V)>, file: V -> Option<F>, id: K)
    ensures id in MapFrom(pairs, file) <==> exists k :: 0 <= k < |pairs| && pairs[k].0 == id && file(pairs[k].1).Some?
    ensures id in MapFrom(pairs, file) ==>
      exists k :: 0 <= k < |pairs| && pairs[k].0 == id && file(pairs[k].1) == Some(MapFrom(pairs, file)[id]) &&
        forall j :: k < j < |pairs| && pairs[j].0 == id ==> file(pairs[j].1).None?
  {
    if pairs != [] {
      var n := |pairs| - 1;
      var prefix := pairs[..n];
      MapFromSpec(prefix, file, id);
      assert forall k :: 0 <= k < n ==> prefix[k] == pairs[k];
      if pairs[n].0 == id && file(pairs[n].1).Some? {
        assert MapFrom(pairs, file)[id] == file(pairs[n].1).value;
      } else {
        assert id in MapFrom(pairs, file) <==> id in MapFrom(prefix, file);
        if id in MapFrom(pairs, file) {
          assert MapFrom(pairs, file)[id] == MapFrom(prefix, file)[id];
          var k :| 0 <= k < n && prefix[k].0 == id && file(prefix[k].1) == Some(MapFrom(prefix, file)[id]) &&
            forall j :: k < j < n && prefix[j].0 == id ==> file(prefix[j].1).None?;
          assert pairs[k] == prefix[k];
        }
      }
    }
  }

  /** What _build_record_files_map returns: {} when records cannot be iterated or a record is not a dict. */
  function RecordFilesMap(records: Json): (m: map<string, string>)
  {
    match Iterated(records)
    case None => map[]
    case Some(recs) =>
      match PairsOf(recs)
      case None => map[]
      case Some(ps) => MapFrom(ps, PairFile)
  }

  /**
   * On well-formed records, a record id is in the map exactly when one of
   * its pairs has a WebP file, and the file is that of the last such pair.
   */
  lemma RecordFilesMapSpec(records: Json, id: string)
    requires Iterated(records).Some? && PairsOf(Iterated(records).value).Some?
    ensures var ps := PairsOf(Iterated(records).value).value;
      && (id in RecordFilesMap(records) <==> exists k :: 0 <= k < |ps| && ps[k].0 == id && PairFile(ps[k].1).Some?)
      && (id in RecordFilesMap(records) ==>
        exists k :: 0 <= k < |ps| && ps[k].0 == id && PairFile(ps[k].1) == Some(RecordFilesMap(records)[id]) &&
          forall j :: k < j < |ps| && ps[j].0 == id ==> PairFile(ps[j].1).None?)
  {
    MapFromSpec(PairsOf(Iterated(records).value).value, PairFile, id);
  }

  /** One more pair after those already processed. */
  lemma MapFromExtend<K, V, F>(done: seq<(K, V)>, ps: seq<(K, V)>, file: V -> Option<F>, j: nat)
    requires j < |ps|
    ensures MapFrom(done + ps[..j + 1], file) ==
      match file(ps[j].1) case Some(f) => MapFrom(done + ps[..j], file)[ps[j].0 := f] case None => MapFrom(done + ps[..j], file)
  {
    assert (done + ps[..j + 1])[..|done| + j] == done + ps[..j];
    assert (done + ps[..j + 1])[|done| + j] == ps[j];
  }

  /** All of a record's pairs processed. */
  lemma MapFromAll<K, V, F>(done: seq<(K, V)>, ps: seq<(K, V)>, file: V -> Option<F>)
    ensures MapFrom(done + ps[..|ps|], file) == MapFrom(done + ps, file) && MapFrom(done + ps[..0], file) == MapFrom(done, file)
  {
    assert ps[..|ps|] == ps;
    assert done + ps[..0] == done;
  }

  /**
   * _build_record_files_map: for every record, for every (record_id, urls)
   * pair, the decoded PNG name of the first WebP URL is stored under the
   * record id; any exception on the way gives {}.
   */
  method BuildRecordFilesMap(records: Json) returns (m: map<string, string>)
    ensures m == RecordFilesMap(records)
  {
    var it := Iterated(records);
    if it.None? {
      return map[];
    }
    var recs := it.value;
    m := map[];
    ghost var done: seq<(string, Json)> := [];
    var i := 0;
    while i < |recs|
      invariant 0 <= i <= |recs|
      invariant ConcatMap(recs[..i], Items) == Some(done) && m == MapFrom(done, PairFile)
    {
      ConcatMapSnoc(recs, Items, i);
      var pairs := Items(recs[i]);
      if pairs.None? {
        ConcatMapStop(recs, Items, i + 1);
        return map[];
      }
      var ps := pairs.value;
      MapFromAll(done, ps, PairFile);
      var j := 0;
      while j < |ps|
        invariant 0 <= j <= |ps|
        invariant m == MapFrom(done + ps[..j], PairFile)
      {
        MapFromExtend(done, ps, PairFile, j);
        var png := PairFile(ps[j].1);
        if png.Some? {
          m := m[ps[j].0 := png.value];
        }
        j := j + 1;
      }
      done := done + ps;
      i := i + 1;
    }
    assert recs[..i] == recs;
  }

  /** What one pair adds to the URL list: everything its URL value yields. */
  function PairUrls(p: (string, Json)): Option<seq<Json>>
  {
    Iterated(p.1)
  }

  /** What one record adds to the URL list; None when it is not a dict or a URL value cannot be iterated. */
  function RecordUrls(record: Json): Option<seq<Json>>
  {
    match Items(record)
    case None => None
    case Some(ps) => ConcatMap(ps, PairUrls)
  }

  /** What _collect_all_urls returns, or None when it raises. */
  function AllUrls(records: Json): (r: Option<seq<Json>>)
  {
    match Iterated(records)
    case None => None
    case Some(recs) => ConcatMap(recs, RecordUrls)
  }

  /**
   * On records that are dicts of URL lists, every URL of every record is
   * collected, and nothing else is.
   */
  lemma AllUrlsOfLists(recs: seq<Json>)
    requires forall i :: 0 <= i < |recs| ==>
      (recs[i].JObject? && forall p :: p in Items(recs[i]).value ==> p.1.JArray?)
    ensures AllUrls(JArray(recs)).Some?
    ensures forall i, p, u :: 0 <= i < |recs| && p in Items(recs[i]).value && u in p.1.items ==> u in AllUrls(JArray(recs)).value
    ensures forall u :: u in AllUrls(JArray(recs)).value ==>
      exists i, p :: 0 <= i < |recs| && p in Items(recs[i]).value && u in p.1.items
  {
    forall i | 0 <= i < |recs| ensures RecordUrls(recs[i]).Some? {
      ConcatMapParts(Items(recs[i]).value, PairUrls);
    }
    ConcatMapParts(recs, RecordUrls);
    forall i, p, u | 0 <= i < |recs| && p in Items(recs[i]).value && u in p.1.items
      ensures u in AllUrls(JArray(recs)).value
    {
      ConcatMapParts(Items(recs[i]).value, PairUrls);
    }
    forall u | u in AllUrls(JArray(recs)).value
      ensures exists i, p :: 0 <= i < |recs| && p in Items(recs[i]).value && u in p.1.items
    {
      var i :| 0 <= i < |recs| && u in RecordUrls(recs[i]).value;
      ConcatMapParts(Items(recs[i]).value, PairUrls);
    }
  }

  /**
   * _collect_all_urls: every URL list of every record appended in order;
   * a record that is not a dict or a URL value that cannot be iterated
   * raises.
   */
  method CollectAllUrls(records: Json) returns (r: Option<seq<Json>>)
    ensures r == AllUrls(records)
  {
    var it := Iterated(records);
    if it.None? {
      return None;
    }
    var recs := it.value;
    var all: seq<Json> := [];
    var i := 0;
    while i < |recs|
      invariant 0 <= i <= |recs|
      invariant ConcatMap(recs[..i], RecordUrls) == Some(all)
    {
      ConcatMapSnoc(recs, RecordUrls, i);
      var part := RecordUrlsOf(recs[i]);
      if part.None? {
        ConcatMapStop(recs, RecordUrls, i + 1);
        return None;
      }
      all := all + part.value;
      i := i + 1;
    }
    assert recs[..i] == recs;
    return Some(all);
  }

  /** The inner loop of _collect_all_urls: the URL lists of one record, appended in key order. */
  method RecordUrlsOf(record: Json) returns (part: Option<seq<Json>>)
    ensures part == RecordUrls(record)
  {
    var pairs := Items(record);
    if pairs.None? {
      return None;
    }
    var ps := pairs.value;
    var urls: seq<Json> := [];
    var j := 0;
    while j < |ps|
      invariant 0 <= j <= |ps|
      invariant ConcatMap(ps[..j], PairUrls) == Some(urls)
    {
      ConcatMapSnoc(ps, PairUrls, j);
      var these := Iterated(ps[j].1);
      if these.None? {
        ConcatMapStop(ps, PairUrls, j + 1);
        return None;
      }
      urls := urls + these.value;
      j := j + 1;
    }
    assert ps[..j] == ps;
    return Some(urls);
  }

  /** The JSON key a "<stem>_bbox.json" file is stored under: the stem without one trailing "_bbox". */
  function ImageKey(filename: string): (r: string)
    ensures var stem := Splitext(filename).0;
      (EndsWith(stem, "_bbox") ==> r + "_bbox" == stem) && (!EndsWith(stem, "_bbox") ==> r == stem)
  {
    var stem := Splitext(filename).0;
    if EndsWith(stem, "_bbox") then
      assert stem[..|stem| - 5] + "_bbox" == stem;
      stem[..|stem| - 5]
    else stem
  }

  /**
   * _process_json_file: a body that is a JSON object stores, under the
   * file's image key, the body's entry for that key ({} if absent),
   * overwriting any earlier value; anything else fails and changes nothing.
   */
  function ProcessJsonFile(merged: map<string, Json>, body: Option<Json>, filename: string): (r: (map<string, Json>, bool))
    ensures r.1 <==> body.Some? && body.value.JObject?
    ensures !r.1 ==> r.0 == merged
    ensures r.1 ==>
      (ImageKey(filename) in r.0 &&
       r.0[ImageKey(filename)] == (match Get(body.value.entries, ImageKey(filename)) case Some(v) => v case None => EMPTY_OBJECT))
    ensures forall k :: k != ImageKey(filename) ==> (k in r.0 <==> k in merged) && (k in merged ==> r.0[k] == merged[k])
  {
    if body.None? || !body.value.JObject? then (merged, false)
    else
      var key := ImageKey(filename);
      var v := match Get(body.value.entries, key) case Some(v) => v case None => EMPTY_OBJECT;
      (merged[key := v], true)
  }

  /**
   * process_file, the download callback: a ".webp" file succeeds when it
   * converts to PNG, a ".json" file is merged, anything else succeeds
   * untouched. Every exception is caught, so the callback never raises.
   */
  function ProcessFile(merged: map<string, Json>, url: Json, response: Response): (r: (map<string, Json>, Outcome))
    ensures r.1.Returned?
    ensures !url.JString? ==> r == (merged, Returned(false))
    ensures url.JString? ==> var filename := DecodeFilename(Some(UrlFileName(url.s))).value;
      && (r.1.ok <==> (EndsWith(filename, ".webp") && response.convertsToPng) ||
                      (!EndsWith(filename, ".webp") && (!EndsWith(filename, ".json") ||
                         (response.body.Some? && response.body.value.JObject?))))
      && (EndsWith(filename, ".json") && !EndsWith(filename, ".webp") ==> r.0 == ProcessJsonFile(merged, response.body, filename).0)
      && (!EndsWith(filename, ".json") || EndsWith(filename, ".webp") ==> r.0 == merged)
  {
    if !url.JString? then (merged, Returned(false))
    else
      var filename := DecodeFilename(Some(UrlFileName(url.s))).value;
      if EndsWith(filename, ".webp") then (merged, Returned(response.convertsToPng))
      else if EndsWith(filename, ".json") then
        var after := ProcessJsonFile(merged, response.body, filename);
        (after.0, Returned(after.1))
      else (merged, Returned(true))
  }

  /** Only JSON files change the merged JSON, and only under their own image key. */
  lemma ProcessFileFrame(merged: map<string, Json>, url: Json, response: Response, key: string)
    requires url.JString?
    requires var filename := DecodeFilename(Some(UrlFileName(url.s))).value;
      !EndsWith(filename, ".json") || EndsWith(filename, ".webp") || key != ImageKey(filename)
    ensures key in ProcessFile(merged, url, response).0 <==> key in merged
    ensures key in merged ==> ProcessFile(merged, url, response).0[key] == merged[key]
  {
  }

  /** The responses the downloads give: a URL that is not a string gets no response (requests raises). */
  function Responses<R>(urls: seq<Json>, network: seq<Option<R>>): (r: seq<Option<R>>)
    requires |network| == |urls|
    ensures |r| == |urls|
    ensures forall k :: 0 <= k < |urls| ==> r[k] == if urls[k].JString? then network[k] else None
  {
    seq(|urls|, k requires 0 <= k < |urls| => if urls[k].JString? then network[k] else None)
  }

  /** The package's records, when it is a JSON object with a "records" key; any other package makes run fail. */
  function RecordsOf(package: Json): (r: Option<Json>)
    ensures r.Some? <==> package.JObject? && "records" in Keys(package.entries)
  {
    if package.JObject? && "records" in Keys(package.entries) then Some(ValueOf(package.entries, "records")) else None
  }

  class DetectionConverter {
    /** The merged annotations, keyed by image name, written to bbox.json. */
    var mergedJson: map<string, Json>
    /**
     * The record-files map the last run built once it had the records; it
     * is written to record_files_mapping.json only when that run reaches
     * the saving step.
     */
    var recordFiles: map<string, string>

    constructor()
      ensures mergedJson == map[] && recordFiles == map[]
    {
      mergedJson := map[];
      recordFiles := map[];
    }

    /**
     * run: resets the merged JSON, fails when the upload folder cannot be
     * made or the package cannot be fetched, parsed or has no "records";
     * otherwise builds the record map, collects the URLs, downloads them
     * all through process_file and succeeds when both files are saved and
     * not every download failed. `network` is what the downloads return,
     * `folderOk`, `jsonSaved` and `mappingSaved` the outcomes of the file
     * system calls.
     */
    method Run(folderOk: bool, package: Option<Json>, network: seq<Option<Response>>, jsonSaved: bool, mappingSaved: bool)
      returns (ok: bool)
      modifies this
      ensures !folderOk || package.None? || RecordsOf(package.value).None? ==> !ok && mergedJson == map[] && recordFiles == old(recordFiles)
      ensures folderOk && package.Some? && RecordsOf(package.value).Some? ==>
        var records := RecordsOf(package.value).value;
        recordFiles == RecordFilesMap(records) &&
        match AllUrls(records)
        case None => !ok && mergedJson == map[]
        case Some(urls) =>
          |network| == |urls| ==>
            var p := Downloads(urls, Responses(urls, network), ProcessFile, map[], |urls|);
            mergedJson == p.state && (ok <==> jsonSaved && mappingSaved && (p.failed == 0 || p.successful > 0))
    {
      mergedJson := map[];
      if !folderOk || package.None? {
        return false;
      }
      var records := RecordsOf(package.value);
      if records.None? {
        return false;
      }
      recordFiles := BuildRecordFilesMap(records.value);
      var urls := CollectAllUrls(records.value);
      if urls.None? {
        return false;
      }
      if |network| != |urls.value| {
        return false;
      }
      var r, state, closed := ParallelDownload(urls.value, Responses(urls.value, network), ProcessFile, map[], COUNT_DOWNLOAD_FILES);
      mergedJson := state;
      var successful, failed := r.value.0, r.value.1;
      ok := jsonSaved && mappingSaved && (failed == 0 || successful > 0);
    }
  }

  /** A run whose every download fails (none returned True) fails, whatever else happens, as soon as there is a URL. */
  lemma AllFailedRunFails(urls: seq<Json>, network: seq<Option<Response>>)
    requires |network| == |urls| >= 1
    requires forall k :: 0 <= k < |urls| ==> !Succeeds(urls, Responses(urls, network), ProcessFile, map[], k)
    ensures var p := Downloads(urls, Responses(urls, network), ProcessFile, map[], |urls|);
      p.successful == 0 && p.failed == |urls|
  {
    var rs := Responses(urls, network);
    DownloadsCount(urls, rs, ProcessFile, map[], |urls|);
    DownloadsSucceeded(urls, rs, ProcessFile, map[], |urls|);
    var p := Downloads(urls, rs, ProcessFile, map[], |urls|);
    NoneTrue(p.succeeded);
  }

  lemma {:induction false} NoneTrue(bs: seq<bool>)
    requires forall k :: 0 <= k < |bs| ==> !bs[k]
    ensures CountTrue(bs) == 0
  {
    if bs != [] {
      NoneTrue(bs[..|bs| - 1]);
    }
  }
}
