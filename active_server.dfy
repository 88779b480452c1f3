/**
 * The worker's package loop (ML_server/active_server.py): while it is not
 * busy, each tick asks the platform for a package; a CREATED package of a
 * supported mode is marked IN_PROGRESS, validated into a task package, and
 * handed to a job, which runs until it frees the worker again.
 *
 * The loop, the job thread and the lock become a sequence of events on one
 * object: `Tick` is one pass of check_packages, `RunJob` is the job thread
 * from start to end. The platform is an oracle: what the GET returns and
 * what status the IN_PROGRESS PUT gets are inputs. Every PUT the worker
 * sends is appended to a trace.
 */
module ActiveServer {
  import opened Wrappers
  import opened Text
  import opened Json
  import opened TemporaryStorage
  import opened Jobs

  /** The platform's address, against which relative package URLs are resolved. */
  const BASE_URL: string := "https://localhost"

  /** A character urlsplit accepts in a scheme. */
  predicate IsSchemeChar(c: char)
  {
    'a' <= c <= 'z' || 'A' <= c <= 'Z' || '0' <= c <= '9' || c == '+' || c == '-' || c == '.'
  }

  /** Whether urlsplit finds a scheme: a letter, then scheme characters, up to the first ':'. */
  predicate HasScheme(url: string)
  {
    var i := IndexOf(url, ':');
    0 < i < |url| && ('a' <= url[0] <= 'z' || 'A' <= url[0] <= 'Z') && forall j :: 0 <= j < i ==> IsSchemeChar(url[j])
  }

  /**
   * `urljoin(BASE_URL, url)` for a base without a path: an empty reference
   * gives the base, one with its own scheme stays as it is, a network-path
   * reference takes the base's scheme, a query or fragment is appended to
   * the base, a path is resolved against the base's root.
   */
  function JoinWithBase(url: string): (r: string)
    ensures StartsWith(url, "/") && !StartsWith(url, "//") ==> r == BASE_URL + url
    ensures !HasScheme(url) ==> StartsWith(r, "https")
  {
    var r :=
      if url == "" then BASE_URL
      else if HasScheme(url) then url
      else if StartsWith(url, "//") then "https:" + url
      else if url[0] == '/' || url[0] == '?' || url[0] == '#' then BASE_URL + url
      else BASE_URL + "/" + url;
    assert !HasScheme(url) ==> r[..5] == "https";
    r
  }

  /** build_full_url: a URL starting with "https" is kept, anything else is joined to the platform's address. */
  function BuildFullUrl(url: string): (r: string)
    ensures StartsWith(url, "https") ==> r == url
    ensures StartsWith(url, "/") && !StartsWith(url, "//") ==> r == BASE_URL + url
    ensures r == url || StartsWith(r, "https")
  {
    if StartsWith(url, "https") then
      assert url[0] == 'h';
      url
    else JoinWithBase(url)
  }

  /** Building a full URL twice gives the same URL as building it once. */
  lemma BuildFullUrlIdempotent(url: string)
    ensures BuildFullUrl(BuildFullUrl(url)) == BuildFullUrl(url)
  {
    var r := BuildFullUrl(url);
    if r != url {
      assert StartsWith(r, "https");
    }
  }

  /** An integer field as pydantic reads it from JSON: a number with no fractional part. */
  function IntField(entries: seq<(string, Json)>, key: string): (r: Option<int>)
    ensures r.Some? ==> Get(entries, key) == Some(JNumber(r.value as real))
  {
    match Get(entries, key)
    case Some(JNumber(n)) => if n == n.Floor as real then Some(n.Floor) else None
    case _ => None
  }

  function TaskTypeField(entries: seq<(string, Json)>): Option<TaskType>
  {
    match Get(entries, "task")
    case Some(JString(s)) =>
      if s == "TRAIN" then Some(Train) else if s == "INFERENCE" then Some(Inference) else None
    case _ => None
  }

  /** The value of a processing mode: "Segmentation" or "Detection". */
  function ModeValue(mode: ProcessingMode): string
  {
    match mode
    case Segmentation => "Segmentation"
    case Detection => "Detection"
  }

  function ModeField(entries: seq<(string, Json)>): (r: Option<ProcessingMode>)
    ensures r.Some? ==> Get(entries, "mode") == Some(JString(ModeValue(r.value)))
  {
    match Get(entries, "mode")
    case Some(JString(s)) =>
      if s == "Segmentation" then Some(Segmentation) else if s == "Detection" then Some(Detection) else None
    case _ => None
  }

  /** The value of a package status, as the platform writes it. */
  function StatusValue(status: PackageStatus): string
  {
    match status
    case Created => "CREATED"
    case InProgress => "IN_PROGRESS"
    case Done => "DONE"
    case Error => "ERROR"
  }

  function StatusField(entries: seq<(string, Json)>): (r: Option<PackageStatus>)
    ensures r.Some? ==> Get(entries, "package_status") == Some(JString(StatusValue(r.value)))
  {
    match Get(entries, "package_status")
    case Some(JString(s)) =>
      if s == "CREATED" then Some(Created)
      else if s == "IN_PROGRESS" then Some(InProgress)
      else if s == "DONE" then Some(Done)
      else if s == "ERROR" then Some(Error)
      else None
    case _ => None
  }

  /** label_properties: required, and either null or a string. */
  function LabelPropertiesField(entries: seq<(string, Json)>): Option<Option<string>>
  {
    match Get(entries, "label_properties")
    case Some(JNull) => Some(None)
    case Some(JString(s)) => Some(Some(s))
    case _ => None
  }

  /** TaskPackage.model_validate: the package when every field is present with the right type, else None (it raises). */
  function Validate(data: Json): (r: Option<TaskPackage>)
    ensures r.Some? ==> data.JObject?
    ensures r.Some? ==> Get(data.entries, "package_id") == Some(JNumber(r.value.packageId as real))
    ensures r.Some? ==> Get(data.entries, "mode") == Some(JString(ModeValue(r.value.mode)))
    ensures r.Some? ==> Get(data.entries, "package_status") == Some(JString(StatusValue(r.value.packageStatus)))
    ensures r.Some? ==> Get(data.entries, "package") == Some(JString(r.value.package))
  {
    if !data.JObject? then None
    else
      var e := data.entries;
      var packageId := IntField(e, "package_id");
      var userId := IntField(e, "user_id");
      var datasetId := IntField(e, "dataset_id");
      var task := TaskTypeField(e);
      var mode := ModeField(e);
      var status := StatusField(e);
      var labels := LabelPropertiesField(e);
      match Get(e, "package")
      case Some(JString(package)) =>
        if packageId.None? || userId.None? || datasetId.None? || task.None? || mode.None? || status.None? || labels.None?
        then None
        else Some(TaskPackage(packageId.value, userId.value, datasetId.value, task.value, mode.value, status.value,
                              package, labels.value))
      case _ => None
  }

  /**
   * process_package as written: the package URL and the label-properties
   * URL are both passed to build_full_url, which raises on a null
   * label_properties, so such a package never starts.
   */
  function StartedTaskAsWritten(data: Json): (r: Option<TaskPackage>)
  {
    match Validate(data)
    case None => None
    case Some(t) =>
      if t.labelProperties.None? then None
      else Some(t.(package := BuildFullUrl(t.package), labelProperties := Some(BuildFullUrl(t.labelProperties.value))))
  }

  /** A valid package whose label_properties is null is refused by process_package as written. */
  lemma NullLabelPropertiesRefused(data: Json)
    requires Validate(data).Some? && Validate(data).value.labelProperties.None?
    ensures StartedTaskAsWritten(data).None?
  {
  }

  /** The m-th field (from 1) of a detection inference package with a null label_properties. */
  function NullLabelsField(packageId: int, datasetId: int, m: nat): (string, Json)
    requires 1 <= m <= 8
  {
    match m
    case 1 => ("package_id", JNumber(packageId as real))
    case 2 => ("user_id", JNumber(1.0))
    case 3 => ("dataset_id", JNumber(datasetId as real))
    case 4 => ("task", JString("INFERENCE"))
    case 5 => ("mode", JString("Detection"))
    case 6 => ("package_status", JString("CREATED"))
    case 7 => ("package", JString("/media/package.json"))
    case _ => ("label_properties", JNull)
  }

  /** Its first n fields. */
  function NullLabelsEntries(packageId: int, datasetId: int, n: nat): seq<(string, Json)>
    requires n <= 8
  {
    if n == 0 then [] else NullLabelsEntries(packageId, datasetId, n - 1) + [NullLabelsField(packageId, datasetId, n)]
  }

  /** The package itself, valid for TaskPackage. */
  function NullLabelsPackage(packageId: int, datasetId: int): Json
  {
    JObject(NullLabelsEntries(packageId, datasetId, 8))
  }

  /** Its field names are distinct. */
  lemma NullLabelsKeysDistinct(packageId: int, datasetId: int, m: nat, n: nat)
    requires 1 <= m < n <= 8
    ensures NullLabelsField(packageId, datasetId, m).0 != NullLabelsField(packageId, datasetId, n).0
  {
    var a := NullLabelsField(packageId, datasetId, m).0;
    var b := NullLabelsField(packageId, datasetId, n).0;
    assert |a| != |b| || a[0] != b[0];
  }

  /** Each field reads as the value written with it. */
  lemma {:induction false} NullLabelsLookup(packageId: int, datasetId: int, n: nat, m: nat)
    requires 1 <= m <= n <= 8
    ensures Get(NullLabelsEntries(packageId, datasetId, n), NullLabelsField(packageId, datasetId, m).0) ==
      Some(NullLabelsField(packageId, datasetId, m).1)
  {
    var key := NullLabelsField(packageId, datasetId, m).0;
    var prev := NullLabelsEntries(packageId, datasetId, n - 1);
    var last := NullLabelsField(packageId, datasetId, n);
    assert NullLabelsEntries(packageId, datasetId, n) == prev + [last];
    if m == n {
      GetSnoc(prev, last.0, last.1, key);
    } else {
      assert key != last.0 by { NullLabelsKeysDistinct(packageId, datasetId, m, n); }
      GetSnoc(prev, last.0, last.1, key);
      NullLabelsLookup(packageId, datasetId, n - 1, m);
    }
  }

  /** What reading its id fields gives. */
  lemma NullLabelsIdGets(packageId: int, datasetId: int)
    ensures var e := NullLabelsPackage(packageId, datasetId).entries;
      && Get(e, "package_id") == Some(JNumber(packageId as real))
      && Get(e, "user_id") == Some(JNumber(1.0))
      && Get(e, "dataset_id") == Some(JNumber(datasetId as real))
  {
    var e := NullLabelsPackage(packageId, datasetId).entries;
    assert Get(e, "package_id") == Some(JNumber(packageId as real)) by { NullLabelsLookup(packageId, datasetId, 8, 1); }
    assert Get(e, "user_id") == Some(JNumber(1.0)) by { NullLabelsLookup(packageId, datasetId, 8, 2); }
    assert Get(e, "dataset_id") == Some(JNumber(datasetId as real)) by { NullLabelsLookup(packageId, datasetId, 8, 3); }
  }

  /** What reading its enumerated fields gives. */
  lemma NullLabelsKindGets(packageId: int, datasetId: int)
    ensures var e := NullLabelsPackage(packageId, datasetId).entries;
      && Get(e, "task") == Some(JString("INFERENCE"))
      && Get(e, "mode") == Some(JString("Detection"))
      && Get(e, "package_status") == Some(JString("CREATED"))
  {
    var e := NullLabelsPackage(packageId, datasetId).entries;
    assert Get(e, "task") == Some(JString("INFERENCE")) by { NullLabelsLookup(packageId, datasetId, 8, 4); }
    assert Get(e, "mode") == Some(JString("Detection")) by { NullLabelsLookup(packageId, datasetId, 8, 5); }
    assert Get(e, "package_status") == Some(JString("CREATED")) by { NullLabelsLookup(packageId, datasetId, 8, 6); }
  }

  /** What reading its URL fields gives. */
  lemma NullLabelsUrlGets(packageId: int, datasetId: int)
    ensures var e := NullLabelsPackage(packageId, datasetId).entries;
      && Get(e, "package") == Some(JString("/media/package.json"))
      && Get(e, "label_properties") == Some(JNull)
  {
    NullLabelsLookup(packageId, datasetId, 8, 7);
    assert NullLabelsField(packageId, datasetId, 8) == ("label_properties", JNull);
    GetSnoc(NullLabelsEntries(packageId, datasetId, 7), "label_properties", JNull, "label_properties");
  }

  /** What pydantic reads from its fields. */
  lemma NullLabelsFields(packageId: int, datasetId: int)
    ensures var e := NullLabelsPackage(packageId, datasetId).entries;
      && IntField(e, "package_id") == Some(packageId)
      && IntField(e, "user_id") == Some(1)
      && IntField(e, "dataset_id") == Some(datasetId)
      && TaskTypeField(e) == Some(Inference)
      && ModeField(e) == Some(Detection)
      && StatusField(e) == Some(Created)
      && LabelPropertiesField(e) == Some(None)
  {
    var e := NullLabelsPackage(packageId, datasetId).entries;
    assert IntField(e, "package_id") == Some(packageId) && IntField(e, "user_id") == Some(1) &&
      IntField(e, "dataset_id") == Some(datasetId) by { NullLabelsIdGets(packageId, datasetId); }
    assert TaskTypeField(e) == Some(Inference) && ModeField(e) == Some(Detection) && StatusField(e) == Some(Created) by {
      NullLabelsKindGets(packageId, datasetId);
      assert "INFERENCE" != "TRAIN";
      assert "Detection" != "Segmentation";
    }
    assert LabelPropertiesField(e) == Some(None) by { NullLabelsUrlGets(packageId, datasetId); }
  }

  /** That package validates, yet process_package as written does not start it. */
  lemma NullLabelsExample(packageId: int, datasetId: int)
    ensures Validate(NullLabelsPackage(packageId, datasetId)) ==
      Some(TaskPackage(packageId, 1, datasetId, Inference, Detection, Created, "/media/package.json", None))
    ensures StartedTaskAsWritten(NullLabelsPackage(packageId, datasetId)).None?
  {
    NullLabelsUrlGets(packageId, datasetId);
    NullLabelsFields(packageId, datasetId);
    NullLabelPropertiesRefused(NullLabelsPackage(packageId, datasetId));
  }

  /**
   * The task process_package starts: the validated package with its URLs
   * made absolute; a null label_properties stays null, as the task
   * package's type allows.
   */
  function StartedTask(data: Json): (r: Option<TaskPackage>)
    ensures r.Some? <==> Validate(data).Some?
    ensures r.Some? ==>
      var t := Validate(data).value;
      && r.value.packageId == t.packageId && r.value.datasetId == t.datasetId
      && r.value.task == t.task && r.value.mode == t.mode
      && r.value.package == BuildFullUrl(t.package)
      && r.value.labelProperties.Some? == t.labelProperties.Some?
      && (t.labelProperties.Some? ==> r.value.labelProperties.value == BuildFullUrl(t.labelProperties.value))
  {
    match Validate(data)
    case None => None
    case Some(t) =>
      var labels := if t.labelProperties.None? then None else Some(BuildFullUrl(t.labelProperties.value));
      Some(t.(package := BuildFullUrl(t.package), labelProperties := labels))
  }

  /** Where the two versions agree: a package with label properties starts the same either way. */
  lemma StartedTaskAgrees(data: Json)
    requires Validate(data).Some? && Validate(data).value.labelProperties.Some?
    ensures StartedTaskAsWritten(data) == StartedTask(data)
  {
  }

  /** The worker's PUT of a package status; the id is the package's own JSON value. */
  datatype ServerRequest = PutPackageStatus(packageId: Json, status: PackageStatus)

  /** What the GET for a package returns: the HTTP status, and the body when it is JSON. */
  datatype HttpResponse = HttpResponse(code: int, body: Option<Json>)

  /**
   * What one tick does: the PUTs it sends, the task it starts, if any, and
   * whether it leaves the worker busy with no task (`wedged`).
   */
  datatype TickResult = TickResult(requests: seq<ServerRequest>, started: Option<TaskPackage>, wedged: bool)

  /** Whether the GET offered a package: status 200 and a JSON object whose package_status is CREATED. */
  predicate Offered(response: Option<HttpResponse>)
  {
    && response.Some? && response.value.code == 200
    && response.value.body.Some? && response.value.body.value.JObject?
    && Get(response.value.body.value.entries, "package_status") == Some(JString("CREATED"))
  }

  /** Whether the package's mode is one the worker can process. */
  predicate Supported(mode: Json)
  {
    mode == JString("Detection") || mode == JString("Segmentation")
  }

  /**
   * One pass of check_packages on an idle worker. A GET that raises, a
   * non-200 response, a body that is not a JSON object or a package that
   * is not CREATED do nothing; a missing mode or package_id raises a
   * KeyError, which is logged. An unsupported mode puts the package back
   * to CREATED. Otherwise the package is marked IN_PROGRESS and, when that
   * PUT returns 200, started; a package that cannot start is put back to
   * CREATED twice, by process_package and by the loop. When the first of
   * those PUTs raises (`resetRaises`), the exception leaves process_package
   * before it frees the worker, the loop's own reset is never reached, and
   * the worker stays busy with no task.
   */
  function TickOutcome(response: Option<HttpResponse>, inProgressCode: Option<int>, resetRaises: bool): (r: TickResult)
    ensures r.requests != [] ==> Offered(response)
    ensures r.wedged ==> r.started.None? && resetRaises && inProgressCode == Some(200)
    ensures r.started.Some? ==>
      && Offered(response)
      && inProgressCode == Some(200)
      && r.started == StartedTask(response.value.body.value)
      && r.started.value.packageStatus == Created
      && r.requests == [PutPackageStatus(JNumber(r.started.value.packageId as real), InProgress)]
  {
    if !Offered(response) then TickResult([], None, false)
    else
      var data := response.value.body.value;
      var mode := Get(data.entries, "mode");
      var id := Get(data.entries, "package_id");
      if mode.None? || id.None? then TickResult([], None, false)
      else if !Supported(mode.value) then TickResult([PutPackageStatus(id.value, Created)], None, false)
      else if inProgressCode != Some(200) then TickResult([PutPackageStatus(id.value, InProgress)], None, false)
      else
        match StartedTask(data)
        case None =>
          if resetRaises then
            TickResult([PutPackageStatus(id.value, InProgress), PutPackageStatus(id.value, Created)], None, true)
          else
            TickResult([PutPackageStatus(id.value, InProgress), PutPackageStatus(id.value, Created),
                        PutPackageStatus(id.value, Created)], None, false)
        case Some(t) => TickResult([PutPackageStatus(id.value, InProgress)], Some(t), false)
  }

  /** An unsupported mode puts the package back to CREATED and starts nothing. */
  lemma UnsupportedModeResets(response: Option<HttpResponse>, inProgressCode: Option<int>, resetRaises: bool)
    requires Offered(response)
    requires var e := response.value.body.value.entries;
      Get(e, "mode").Some? && !Supported(Get(e, "mode").value) && Get(e, "package_id").Some?
    ensures TickOutcome(response, inProgressCode, resetRaises) ==
      TickResult([PutPackageStatus(Get(response.value.body.value.entries, "package_id").value, Created)], None, false)
  {
  }

  /**
   * A supported package that does not validate is marked IN_PROGRESS, then
   * put back to CREATED twice, and nothing starts.
   */
  lemma InvalidPackageResetTwice(response: Option<HttpResponse>)
    requires Offered(response)
    requires var e := response.value.body.value.entries;
      Get(e, "mode").Some? && Supported(Get(e, "mode").value) && Get(e, "package_id").Some?
    requires Validate(response.value.body.value).None?
    ensures var id := Get(response.value.body.value.entries, "package_id").value;
      TickOutcome(response, Some(200), false) ==
        TickResult([PutPackageStatus(id, InProgress), PutPackageStatus(id, Created), PutPackageStatus(id, Created)], None, false)
  {
  }

  /**
   * The same package when process_package's reset PUT raises: one reset is
   * sent, the loop's is not, and the worker is left busy with no task.
   */
  lemma InvalidPackageWedges(response: Option<HttpResponse>)
    requires Offered(response)
    requires var e := response.value.body.value.entries;
      Get(e, "mode").Some? && Supported(Get(e, "mode").value) && Get(e, "package_id").Some?
    requires Validate(response.value.body.value).None?
    ensures var id := Get(response.value.body.value.entries, "package_id").value;
      TickOutcome(response, Some(200), true) ==
        TickResult([PutPackageStatus(id, InProgress), PutPackageStatus(id, Created)], None, true)
  {
  }

  /**
   * A tick wedges the worker exactly when a supported package that does not
   * validate was marked IN_PROGRESS and process_package's reset PUT raises.
   */
  lemma WedgedIffResetRaises(response: Option<HttpResponse>, inProgressCode: Option<int>, resetRaises: bool)
    ensures TickOutcome(response, inProgressCode, resetRaises).wedged <==>
      && Offered(response) && inProgressCode == Some(200) && resetRaises
      && Get(response.value.body.value.entries, "package_id").Some?
      && Get(response.value.body.value.entries, "mode").Some?
      && Supported(Get(response.value.body.value.entries, "mode").value)
      && Validate(response.value.body.value).None?
  {
  }

  /** A tick starts a task exactly when a valid CREATED package of a supported mode was marked IN_PROGRESS. */
  lemma StartsIffInProgress(response: Option<HttpResponse>, inProgressCode: Option<int>, resetRaises: bool)
    ensures TickOutcome(response, inProgressCode, resetRaises).started.Some? <==>
      Offered(response) && inProgressCode == Some(200) && Validate(response.value.body.value).Some?
  {
    if Offered(response) && inProgressCode == Some(200) && Validate(response.value.body.value).Some? {
      var t := Validate(response.value.body.value).value;
      assert Supported(JString(ModeValue(t.mode)));
    }
  }

  class ActiveServer {
    const storage: StorageManager
    const uploadFolder: string
    const processedFolder: string
    const returnFolder: string
    /** `_is_busy`: a job is being started or is running. */
    var busy: bool
    /** `current_task`: the package of that job. */
    var currentTask: Option<TaskPackage>
    /** The PUTs the worker itself has sent. */
    var sent: seq<ServerRequest>

    /** A current task is only held while the worker is busy. */
    predicate Valid()
      reads this
    {
      currentTask.Some? ==> busy
    }

    /** Busy with no task: no job runs to free the worker, so every later tick does nothing. */
    predicate Wedged()
      reads this
    {
      busy && currentTask.None?
    }

    constructor(storage: StorageManager, uploadFolder: string, processedFolder: string, returnFolder: string)
      ensures Valid() && !busy && currentTask.None? && sent == []
      ensures this.storage == storage && this.uploadFolder == uploadFolder
      ensures this.processedFolder == processedFolder && this.returnFolder == returnFolder
    {
      this.storage := storage;
      this.uploadFolder := uploadFolder;
      this.processedFolder := processedFolder;
      this.returnFolder := returnFolder;
      busy := false;
      currentTask := None;
      sent := [];
    }

    /**
     * process_package: mark the worker busy, validate the package, make its
     * URLs absolute and create the job that the job thread runs. When any
     * of that raises, the package is put back to CREATED and the worker
     * freed, unless that PUT raises too (`resetRaises`): then the exception
     * leaves process_package (Err) with the worker still busy and, since
     * validation failed before current_task was set, no current task.
     */
    method ProcessPackage(data: Json, resetRaises: bool) returns (r: Result<bool>, job: Job?)
      requires data.JObject? && Get(data.entries, "package_id").Some?
      requires currentTask.None?
      modifies this
      ensures r == Ok(true) <==> StartedTask(data).Some?
      ensures r.Err? <==> StartedTask(data).None? && resetRaises
      ensures r == Ok(true) ==> busy && currentTask == StartedTask(data) && sent == old(sent)
      ensures r == Ok(true) ==> job != null && fresh(job) && job.package == StartedTask(data).value && job.sent == []
      ensures r == Ok(true) ==> job.storage == storage && job.uploadFolder == uploadFolder
      ensures r == Ok(true) ==> job.processedFolder == processedFolder && job.returnFolder == returnFolder
      ensures r != Ok(true) ==> currentTask.None? && job == null
      ensures r != Ok(true) ==> sent == old(sent) + [PutPackageStatus(Get(data.entries, "package_id").value, Created)]
      ensures r == Ok(false) ==> !busy
      ensures r.Err? ==> Wedged()
    {
      busy := true;
      var started := StartedTask(data);
      if started.None? {
        sent := sent + [PutPackageStatus(Get(data.entries, "package_id").value, Created)];
        if resetRaises {
          return Err("the reset PUT raised"), null;
        }
        busy := false;
        currentTask := None;
        return Ok(false), null;
      }
      currentTask := started;
      job := new Job(started.value, storage, uploadFolder, processedFolder, returnFolder);
      r := Ok(true);
    }

    /**
     * One pass of check_packages: nothing while busy; otherwise ask for a
     * package and start it as TickOutcome says. `response` is what the GET
     * returned (None: it raised), `inProgressCode` the status of the
     * IN_PROGRESS PUT (None: it raised), `resetRaises` whether
     * process_package's reset PUT raises.
     */
    method Tick(response: Option<HttpResponse>, inProgressCode: Option<int>, resetRaises: bool) returns (job: Job?)
      requires Valid()
      modifies this
      ensures Valid()
      ensures old(busy) ==> busy && currentTask == old(currentTask) && sent == old(sent) && job == null
      ensures !old(busy) ==>
        var t := TickOutcome(response, inProgressCode, resetRaises);
        && sent == old(sent) + t.requests
        && currentTask == t.started
        && busy == (t.started.Some? || t.wedged)
        && (Wedged() <==> t.wedged)
        && (job != null <==> t.started.Some?)
        && (job != null ==> fresh(job) && job.package == t.started.value && job.sent == [] && job.storage == storage)
    {
      if busy {
        return null;
      }
      job := null;
      if !Offered(response) {
        return;
      }
      var data := response.value.body.value;
      var mode := Get(data.entries, "mode");
      var id := Get(data.entries, "package_id");
      if mode.None? || id.None? {
        return;
      }
      if !Supported(mode.value) {
        sent := sent + [PutPackageStatus(id.value, Created)];
        return;
      }
      ghost var before := sent;
      sent := sent + [PutPackageStatus(id.value, InProgress)];
      if inProgressCode != Some(200) {
        return;
      }
      ghost var t := TickOutcome(response, inProgressCode, resetRaises);
      var r;
      r, job := ProcessPackage(data, resetRaises);
      if r.Ok? && !r.value {
        sent := sent + [PutPackageStatus(id.value, Created)];
        assert t.requests == [PutPackageStatus(id.value, InProgress), PutPackageStatus(id.value, Created),
                              PutPackageStatus(id.value, Created)];
      } else if r.Err? {
        assert t.requests == [PutPackageStatus(id.value, InProgress), PutPackageStatus(id.value, Created)];
      } else {
        assert r == Ok(true);
        assert t.requests == [PutPackageStatus(id.value, InProgress)];
      }
    }

    /**
     * _run_job: run the job, then free the worker whatever the outcome.
     * Job.run catches its own exceptions, so nothing escapes it.
     */
    method RunJob(job: Job, o: Outcomes) returns (ok: bool)
      modifies this, job, job.storage
      ensures Valid() && !busy && currentTask.None? && sent == old(sent)
      ensures job.sent == old(job.sent) + JobTrace(job.package.task, job.package.packageId, job.package.datasetId, o).0
      ensures ok == JobTrace(job.package.task, job.package.packageId, job.package.datasetId, o).1
      ensures job.storage.folders == Prepared(old(job.storage.folders), job.package.task, job.uploadFolder,
                                              job.processedFolder, job.returnFolder)
    {
      ok := job.Run(o);
      busy := false;
      currentTask := None;
    }
  }
}
