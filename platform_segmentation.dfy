/**
 * The segmentation converter from the platform's package to the worker's
 * task folder (common/platform_to_task_converter/segmentation_converter.py):
 * which record every image URL belongs to, how each downloaded image is
 * filed under its record, and when a run counts as successful.
 *
 * The package JSON, the downloads, the PNG conversion and the file writes
 * are oracle inputs; a downloaded image is represented only by whether it
 * converts to PNG.
 */
module PlatformToTaskSegmentation {
  import opened Wrappers
  import opened Text
  import opened Json
  import opened PlatformToTaskBase
  import opened PlatformToTaskDetection

  /** What the converter keeps per record id: the PNG names of its converted images, in the order they were handled. */
  type RecordFiles = map<string, seq<string>>

  /** The (url, record_id) entry one URL of a record adds; None when the URL cannot be a dict key (TypeError). */
  function UrlEntry(recordId: string): Json -> Option<seq<(Json, string)>>
  {
    u => if Hashable(u) then Some([(u, recordId)]) else None
  }

  /** The entries of one (record_id, urls) pair; None when the URL value cannot be iterated or holds an unhashable URL. */
  function PairEntries(p: (string, Json)): Option<seq<(Json, string)>>
  {
    match Iterated(p.1)
    case None => None
    case Some(us) => ConcatMap(us, UrlEntry(p.0))
  }

  /** The entries of one record; None when it is not a dict or one of its pairs fails. */
  function RecordEntries(record: Json): Option<seq<(Json, string)>>
  {
    match Items(record)
    case None => None
    case Some(ps) => ConcatMap(ps, PairEntries)
  }

  /** Every (url, record_id) entry of the records, in loop order; None when the loops raise. */
  function UrlEntries(records: Json): Option<seq<(Json, string)>>
  {
    match Iterated(records)
    case None => None
    case Some(recs) => ConcatMap(recs, RecordEntries)
  }

  /** The URLs of some entries, in order. */
  function UrlsOf(es: seq<(Json, string)>): (r: seq<Json>)
    ensures |r| == |es| && forall i :: 0 <= i < |es| ==> r[i] == es[i].0
  {
    seq(|es|, i requires 0 <= i < |es| => es[i].0)
  }

  /** Every record id is stored as it is. */
  function Always(recordId: string): Option<string>
  {
    Some(recordId)
  }

  /** What _build_url_to_record_map returns: the URL-to-record map and every URL in order, or ({}, []) when it raises. */
  function UrlToRecordMap(records: Json): (r: (map<Json, string>, seq<Json>))
  {
    match UrlEntries(records)
    case None => (map[], [])
    case Some(es) => (MapFrom(es, Always), UrlsOf(es))
  }

  /**
   * On records it can walk, the map holds exactly the collected URLs, and
   * each maps to the record id of its last occurrence.
   */
  lemma UrlToRecordMapSpec(records: Json, u: Json)
    requires UrlEntries(records).Some?
    ensures var (m, urls) := UrlToRecordMap(records);
      && (u in m <==> u in urls)
      && (u in m ==>
        exists k :: 0 <= k < |urls| && urls[k] == u && UrlEntries(records).value[k].1 == m[u] &&
          (forall j :: k < j < |urls| ==> urls[j] != u))
  {
    var es := UrlEntries(records).value;
    MapFromSpec(es, Always, u);
    var urls := UrlsOf(es);
    if u in urls {
      var k :| 0 <= k < |urls| && urls[k] == u;
      assert es[k].0 == u && Always(es[k].1).Some?;
    }
  }

  /** A pair whose value is a list of string URLs yields one entry per listed URL. */
  lemma PairEntriesOfList(p: (string, Json))
    requires p.1.JArray? && forall u :: u in p.1.items ==> u.JString?
    ensures PairEntries(p).Some?
    ensures forall u :: u in p.1.items ==> (u, p.0) in PairEntries(p).value
  {
    forall k | 0 <= k < |p.1.items| ensures UrlEntry(p.0)(p.1.items[k]).Some? {
      assert p.1.items[k] in p.1.items;
    }
    ConcatMapParts(p.1.items, UrlEntry(p.0));
    forall u | u in p.1.items ensures (u, p.0) in PairEntries(p).value {
      var k :| 0 <= k < |p.1.items| && p.1.items[k] == u;
      assert (u, p.0) in UrlEntry(p.0)(p.1.items[k]).value;
    }
  }

  /** A dict of URL lists yields an entry for every listed URL, tagged with its key. */
  lemma RecordEntriesOfLists(record: Json)
    requires record.JObject? && forall p :: p in Items(record).value ==>
      (p.1.JArray? && forall u :: u in p.1.items ==> u.JString?)
    ensures RecordEntries(record).Some?
    ensures forall p, u :: p in Items(record).value && u in p.1.items ==> (u, p.0) in RecordEntries(record).value
  {
    var ps := Items(record).value;
    forall i | 0 <= i < |ps| ensures PairEntries(ps[i]).Some? {
      assert ps[i] in ps;
      PairEntriesOfList(ps[i]);
    }
    ConcatMapParts(ps, PairEntries);
    forall p, u | p in ps && u in p.1.items ensures (u, p.0) in RecordEntries(record).value {
      PairEntriesOfList(p);
      var i :| 0 <= i < |ps| && ps[i] == p;
    }
  }

  /** On a list of dicts of URL lists, every listed string URL is collected, once per listing. */
  lemma UrlToRecordMapOfLists(recs: seq<Json>)
    requires forall i :: 0 <= i < |recs| ==>
      (recs[i].JObject? && forall p :: p in Items(recs[i]).value ==>
        (p.1.JArray? && forall u :: u in p.1.items ==> u.JString?))
    ensures UrlEntries(JArray(recs)).Some?
    ensures forall i, p, u :: 0 <= i < |recs| && p in Items(recs[i]).value && u in p.1.items ==>
      u in UrlToRecordMap(JArray(recs)).0
  {
    forall i | 0 <= i < |recs| ensures RecordEntries(recs[i]).Some? {
      RecordEntriesOfLists(recs[i]);
    }
    ConcatMapParts(recs, RecordEntries);
    var es := UrlEntries(JArray(recs)).value;
    forall i, p, u | 0 <= i < |recs| && p in Items(recs[i]).value && u in p.1.items
      ensures u in UrlToRecordMap(JArray(recs)).0
    {
      RecordEntriesOfLists(recs[i]);
      assert (u, p.0) in es;
      var k :| 0 <= k < |es| && es[k] == (u, p.0);
      MapFromSpec(es, Always, u);
    }
  }

  lemma Assoc<T>(a: seq<T>, b: seq<T>, c: seq<T>)
    ensures a + b + c == a + (b + c)
  {
  }

  lemma NoPart<T>(a: seq<T>, b: seq<T>)
    requires b == []
    ensures a + b == a
  {
  }

  /** One more entry. */
  lemma EntrySnoc(done: seq<(Json, string)>, e: (Json, string))
    ensures MapFrom(done + [e], Always) == MapFrom(done, Always)[e.0 := e.1]
    ensures UrlsOf(done + [e]) == UrlsOf(done) + [e.0]
  {
    assert (done + [e])[..|done|] == done;
  }

  /**
   * The innermost loop of _build_url_to_record_map: each URL of one
   * (record_id, urls) pair is sent to the record id and appended to the
   * list, in order; an unhashable URL raises (ok is false).
   */
  method AddPairUrls(m0: map<Json, string>, all0: seq<Json>, ghost done: seq<(Json, string)>, recordId: string, us: seq<Json>)
    returns (m: map<Json, string>, all: seq<Json>, ok: bool)
    requires m0 == MapFrom(done, Always) && all0 == UrlsOf(done)
    ensures ok <==> ConcatMap(us, UrlEntry(recordId)).Some?
    ensures ok ==> var es := ConcatMap(us, UrlEntry(recordId)).value;
      m == MapFrom(done + es, Always) && all == UrlsOf(done + es)
  {
    m, all := m0, all0;
    ghost var part: seq<(Json, string)> := [];
    NoPart(done, part);
    var k := 0;
    while k < |us|
      invariant 0 <= k <= |us|
      invariant ConcatMap(us[..k], UrlEntry(recordId)) == Some(part)
      invariant m == MapFrom(done + part, Always) && all == UrlsOf(done + part)
    {
      ConcatMapSnoc(us, UrlEntry(recordId), k);
      var u := us[k];
      if !Hashable(u) {
        ConcatMapStop(us, UrlEntry(recordId), k + 1);
        return m, all, false;
      }
      EntrySnoc(done + part, (u, recordId));
      Assoc(done, part, [(u, recordId)]);
      m := m[u := recordId];
      all := all + [u];
      part := part + [(u, recordId)];
      k := k + 1;
    }
    assert us[..k] == us;
    ok := true;
  }

  /**
   * The middle loop of _build_url_to_record_map: the URLs of each
   * (record_id, urls) pair of one record in turn; a URL value that cannot
   * be iterated or an unhashable URL raises (ok is false).
   */
  method AddRecordUrls(m0: map<Json, string>, all0: seq<Json>, ghost done: seq<(Json, string)>, ps: seq<(string, Json)>)
    returns (m: map<Json, string>, all: seq<Json>, ok: bool)
    requires m0 == MapFrom(done, Always) && all0 == UrlsOf(done)
    ensures ok <==> ConcatMap(ps, PairEntries).Some?
    ensures ok ==> var es := ConcatMap(ps, PairEntries).value;
      m == MapFrom(done + es, Always) && all == UrlsOf(done + es)
  {
    m, all := m0, all0;
    ghost var part: seq<(Json, string)> := [];
    NoPart(done, part);
    var j := 0;
    while j < |ps|
      invariant 0 <= j <= |ps|
      invariant ConcatMap(ps[..j], PairEntries) == Some(part)
      invariant m == MapFrom(done + part, Always) && all == UrlsOf(done + part)
    {
      ConcatMapSnoc(ps, PairEntries, j);
      var urls := Iterated(ps[j].1);
      if urls.None? {
        ConcatMapStop(ps, PairEntries, j + 1);
        return m, all, false;
      }
      var added;
      m, all, added := AddPairUrls(m, all, done + part, ps[j].0, urls.value);
      if !added {
        ConcatMapStop(ps, PairEntries, j + 1);
        return m, all, false;
      }
      ghost var es := PairEntries(ps[j]).value;
      Assoc(done, part, es);
      part := part + es;
      j := j + 1;
    }
    assert ps[..j] == ps;
    ok := true;
  }

  /**
   * _build_url_to_record_map: for every record, for every (record_id,
   * urls) pair, for every URL, the map sends the URL to the record id and
   * the URL is appended to the list; any exception gives ({}, []).
   */
  method BuildUrlToRecordMap(records: Json) returns (m: map<Json, string>, all: seq<Json>)
    ensures m == UrlToRecordMap(records).0 && all == UrlToRecordMap(records).1
  {
    var it := Iterated(records);
    if it.None? {
      return map[], [];
    }
    var recs := it.value;
    m, all := map[], [];
    ghost var done: seq<(Json, string)> := [];
    var i := 0;
    while i < |recs|
      invariant 0 <= i <= |recs|
      invariant ConcatMap(recs[..i], RecordEntries) == Some(done)
      invariant m == MapFrom(done, Always) && all == UrlsOf(done)
    {
      ConcatMapSnoc(recs, RecordEntries, i);
      var pairs := Items(recs[i]);
      if pairs.None? {
        ConcatMapStop(recs, RecordEntries, i + 1);
        return map[], [];
      }
      var added;
      m, all, added := AddRecordUrls(m, all, done, pairs.value);
      if !added {
        ConcatMapStop(recs, RecordEntries, i + 1);
        return map[], [];
      }
      done := done + RecordEntries(recs[i]).value;
      i := i + 1;
    }
    assert recs[..i] == recs;
  }

  /** The PNG name the conversion gives a downloaded file: its decoded name with the extension replaced. */
  function ConvertedName(url: string): (r: string)
    ensures EndsWith(r, ".png")
  {
    Splitext(DecodeFilename(Some(UrlFileName(url))).value).0 + ".png"
  }

  /**
   * process_file, the download callback: a URL without a record id (or
   * with an empty one) fails; an image that converts has its PNG name
   * appended to its record's list; one that does not fails. Every
   * exception is caught, so the callback never raises.
   */
  function ProcessFile(urlMap: map<Json, string>, files: RecordFiles, url: Json, converts: bool): (r: (RecordFiles, Outcome))
    ensures r.1.Returned?
    ensures r.1 == Returned(true) <==> url.JString? && url in urlMap && urlMap[url] != [] && converts
    ensures r.1 == Returned(true) ==>
      var id := urlMap[url];
      && id in r.0 && r.0[id] == (if id in files then files[id] else []) + [ConvertedName(url.s)]
      && forall other :: other != id ==> (other in r.0 <==> other in files) && (other in files ==> r.0[other] == files[other])
    ensures r.1 == Returned(false) ==> r.0 == files
  {
    if !url.JString? || url !in urlMap || urlMap[url] == [] || !converts then (files, Returned(false))
    else
      var id := urlMap[url];
      var list := if id in files then files[id] else [];
      (files[id := list + [ConvertedName(url.s)]], Returned(true))
  }

  /** The callback run binds to its URL map. */
  function Callback(urlMap: map<Json, string>): (RecordFiles, Json, bool) -> (RecordFiles, Outcome)
  {
    (files, url, converts) => ProcessFile(urlMap, files, url, converts)
  }

  /** After the downloads, a record id's list is as long as the number of successful downloads filed under it. */
  function FiledUnder(urls: seq<Json>, responses: seq<Option<bool>>, urlMap: map<Json, string>, id: string, n: nat): (c: nat)
    requires n <= |urls| == |responses|
  {
    if n == 0 then 0
    else
      FiledUnder(urls, responses, urlMap, id, n - 1) +
        if Succeeds(urls, responses, Callback(urlMap), map[], n - 1) && urlMap[urls[n - 1]] == id then 1 else 0
  }

  /**
   * The files map after n downloads: a record id is in it exactly when
   * some download filed under it succeeded, its list is never empty and
   * holds one name per such download; the map is empty exactly when no
   * download succeeded.
   */
  lemma {:induction false} DownloadsFiles(urls: seq<Json>, responses: seq<Option<bool>>, urlMap: map<Json, string>, n: nat)
    requires n <= |urls| == |responses|
    ensures var p := Downloads(urls, responses, Callback(urlMap), map[], n);
      && (forall id :: id in p.state <==> FiledUnder(urls, responses, urlMap, id, n) > 0)
      && (forall id :: id in p.state ==> |p.state[id]| == FiledUnder(urls, responses, urlMap, id, n))
      && (p.state == map[] <==> p.successful == 0)
  {
    if n > 0 {
      DownloadsFiles(urls, responses, urlMap, n - 1);
      DownloadsFilesStep(urls, responses, urlMap, n);
    }
    assert FilesAgree(urls, responses, urlMap, n);
  }

  /** The three facts DownloadsFiles states about the files map after n downloads. */
  ghost predicate FilesAgree(urls: seq<Json>, responses: seq<Option<bool>>, urlMap: map<Json, string>, n: nat)
    requires n <= |urls| == |responses|
  {
    var p := Downloads(urls, responses, Callback(urlMap), map[], n);
    && (forall id :: id in p.state <==> FiledUnder(urls, responses, urlMap, id, n) > 0)
    && (forall id :: id in p.state ==> |p.state[id]| == FiledUnder(urls, responses, urlMap, id, n))
    && (p.state == map[] <==> p.successful == 0)
  }

  lemma DownloadsFilesStep(urls: seq<Json>, responses: seq<Option<bool>>, urlMap: map<Json, string>, n: nat)
    requires 0 < n <= |urls| == |responses|
    requires FilesAgree(urls, responses, urlMap, n - 1)
    ensures FilesAgree(urls, responses, urlMap, n)
  {
    var q := Downloads(urls, responses, Callback(urlMap), map[], n - 1);
    var p := Downloads(urls, responses, Callback(urlMap), map[], n);
    var grew := Succeeds(urls, responses, Callback(urlMap), map[], n - 1);
    var id := if grew then urlMap[urls[n - 1]] else "";
    var name := if grew then ConvertedName(urls[n - 1].s) else "";
    var before := (x: string) => FiledUnder(urls, responses, urlMap, x, n - 1);
    var after := (x: string) => FiledUnder(urls, responses, urlMap, x, n);
    DownloadStep(urls, responses, urlMap, n);
    FilesGrow(q.state, p.state, q.successful, p.successful, grew, id, name, before, after);
  }

  /** What the n-th download does to the files map and to the success count. */
  lemma DownloadStep(urls: seq<Json>, responses: seq<Option<bool>>, urlMap: map<Json, string>, n: nat)
    requires 0 < n <= |urls| == |responses|
    ensures var q := Downloads(urls, responses, Callback(urlMap), map[], n - 1);
      var p := Downloads(urls, responses, Callback(urlMap), map[], n);
      if Succeeds(urls, responses, Callback(urlMap), map[], n - 1) then
        var id := urlMap[urls[n - 1]];
        p.state == q.state[id := (if id in q.state then q.state[id] else []) + [ConvertedName(urls[n - 1].s)]]
        && p.successful == q.successful + 1
      else
        p.state == q.state && p.successful == q.successful
  {
  }

  /** One more download either files one more name under one record id, or changes nothing. */
  lemma FilesGrow(before: RecordFiles, after: RecordFiles, okBefore: nat, okAfter: nat, grew: bool, id: string, name: string,
                  countBefore: string -> nat, countAfter: string -> nat)
    requires forall x :: x in before <==> countBefore(x) > 0
    requires forall x :: x in before ==> |before[x]| == countBefore(x)
    requires before == map[] <==> okBefore == 0
    requires forall x :: countAfter(x) == countBefore(x) + (if grew && x == id then 1 else 0)
    requires grew ==> after == before[id := (if id in before then before[id] else []) + [name]] && okAfter == okBefore + 1
    requires !grew ==> after == before && okAfter == okBefore
    ensures forall x :: x in after <==> countAfter(x) > 0
    ensures forall x :: x in after ==> |after[x]| == countAfter(x)
    ensures after == map[] <==> okAfter == 0
  {
    if grew {
      assert id in after;
    }
  }

  class SegmentationConverter {
    /** The record-files map the downloads fill, written to record_files_mapping.json. */
    var recordFilesMap: RecordFiles

    constructor()
      ensures recordFilesMap == map[]
    {
      recordFilesMap := map[];
    }

    /**
     * run: resets the record-files map; fails when the upload folder cannot
     * be made, the label properties cannot be saved, or the package cannot
     * be fetched, parsed or has no "records"; fails when no URL is found;
     * otherwise downloads every URL through process_file and succeeds when
     * some image was filed and the mapping file is saved. `network` is
     * what the downloads return (whether each image converts), `folderOk`,
     * `labelsOk` and `mappingSaved` the outcomes of the file system calls.
     */
    method Run(folderOk: bool, labelsOk: bool, package: Option<Json>, network: seq<Option<bool>>, mappingSaved: bool)
      returns (ok: bool)
      modifies this
      ensures !folderOk || !labelsOk || package.None? || RecordsOf(package.value).None? ==> !ok && recordFilesMap == map[]
      ensures folderOk && labelsOk && package.Some? && RecordsOf(package.value).Some? ==>
        var (urlMap, urls) := UrlToRecordMap(RecordsOf(package.value).value);
        && (urls == [] ==> !ok && recordFilesMap == map[])
        && (urls != [] && |network| == |urls| ==>
          var p := Downloads(urls, Responses(urls, network), Callback(urlMap), map[], |urls|);
          recordFilesMap == p.state && (ok <==> p.successful > 0 && mappingSaved))
    {
      recordFilesMap := map[];
      if !folderOk || !labelsOk || package.None? {
        return false;
      }
      var records := RecordsOf(package.value);
      if records.None? {
        return false;
      }
      var urlMap, urls := BuildUrlToRecordMap(records.value);
      if urls == [] {
        return false;
      }
      if |network| != |urls| {
        return false;
      }
      var r, state, closed := ParallelDownload(urls, Responses(urls, network), Callback(urlMap), map[], COUNT_DOWNLOAD_FILES);
      recordFilesMap := state;
      DownloadsFiles(urls, Responses(urls, network), urlMap, |urls|);
      if recordFilesMap == map[] {
        return false;
      }
      ok := mappingSaved;
    }
  }
}
