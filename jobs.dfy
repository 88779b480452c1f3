/**
 * The task package a worker receives (common/models.py) and the job that
 * processes one (ML_server/jobs.py): prepare the working folders, convert
 * the platform's data, train or predict, upload the results and report to
 * the platform.
 *
 * Every request the job sends to the platform is appended to a trace. The
 * converters, the ML routines and the platform are oracles: what each step
 * returns, or that it raised, is an input (`Outcomes`). The status requests
 * catch their own exceptions, so whether one reaches the platform does not
 * change what the job does next.
 */
module Jobs {
  import opened Wrappers
  import opened TemporaryStorage

  datatype TaskType = Train | Inference

  datatype ProcessingMode = Segmentation | Detection

  datatype PackageStatus = Created | InProgress | Done | Error

  /** The validated package: ids, what to do, and where the data and label properties are. */
  datatype TaskPackage = TaskPackage(
    packageId: int,
    userId: int,
    datasetId: int,
    task: TaskType,
    mode: ProcessingMode,
    packageStatus: PackageStatus,
    package: string,
    labelProperties: Option<string>)

  /** A request to the platform: a phase message for the dataset, or a new status for the package. */
  datatype Request =
    | StatusMessage(phase: string, datasetId: int)
    | PackageStatusUpdate(packageId: int, newStatus: PackageStatus)

  /**
   * What the steps of run return. `converted` is the platform-to-task
   * converter's result, `datasetCreated` whether create_dataset returned
   * (false: it raised), `trained` and `predicted` the ML routine's result,
   * `posted` the results-to-platform converter's; Err means the step raised.
   */
  datatype Outcomes = Outcomes(
    converted: Result<bool>,
    datasetCreated: bool,
    trained: Result<bool>,
    predicted: Result<bool>,
    posted: Result<bool>)

  /** The folders after prepare_directories: upload and processed reset, the return folder too for inference. */
  function Prepared(folders: map<string, set<string>>, task: TaskType, upload: string, processed: string, ret: string)
    : (r: map<string, set<string>>)
    ensures upload in r && r[upload] == {} && processed in r && r[processed] == {}
    ensures task == Inference ==> ret in r && r[ret] == {}
    ensures forall f :: f != upload && f != processed && (f != ret || task == Train) ==>
      (f in r <==> f in folders) && (f in folders ==> r[f] == folders[f])
  {
    var reset := folders[upload := {}][processed := {}];
    if task == Inference then reset[ret := {}] else reset
  }

  /** The last two requests after a step raised: the package goes back to CREATED and the worker reports FREE. */
  function Recovery(packageId: int, datasetId: int): seq<Request>
  {
    [PackageStatusUpdate(packageId, Created), StatusMessage("FREE", datasetId)]
  }

  /** The last two requests after the ML step returned: DONE when it succeeded, else CREATED, then FREE. */
  function Completion(packageId: int, datasetId: int, succeeded: bool): seq<Request>
  {
    [PackageStatusUpdate(packageId, if succeeded then Done else Created), StatusMessage("FREE", datasetId)]
  }

  /** The requests a job sends and what run returns, given what each step does. */
  function JobTrace(task: TaskType, packageId: int, datasetId: int, o: Outcomes): (r: (seq<Request>, bool))
    // a job that returns True has finished with a status update and FREE
    ensures r.1 ==>
      (|r.0| >= 2 && r.0[|r.0| - 1] == StatusMessage("FREE", datasetId) && r.0[|r.0| - 2].PackageStatusUpdate?)
    // the package is only ever put back to CREATED or marked DONE, and only once
    ensures forall i :: 0 <= i < |r.0| && r.0[i].PackageStatusUpdate? ==>
      (r.0[i] in {PackageStatusUpdate(packageId, Created), PackageStatusUpdate(packageId, Done)} && i == |r.0| - 2)
    // FREE is sent exactly when the package status was updated, and it is the last request
    ensures forall i :: 0 <= i < |r.0| && r.0[i].StatusMessage? && r.0[i].phase == "FREE" ==>
      (i == |r.0| - 1 && i >= 1 && r.0[i - 1].PackageStatusUpdate?)
    ensures forall i :: 0 <= i < |r.0| && r.0[i].PackageStatusUpdate? ==> r.0[|r.0| - 1] == StatusMessage("FREE", datasetId)
    // DONE is reported only when the ML step succeeded
    ensures PackageStatusUpdate(packageId, Done) in r.0 ==>
      (r.1 && (if task == Train then o.trained == Ok(true) else o.predicted == Ok(true)))
  {
    match o.converted
    case Err(_) => (Recovery(packageId, datasetId), false)
    case Ok(false) => ([], false)
    case Ok(true) =>
      if task == Train then TrainingSteps(packageId, datasetId, o) else InferenceSteps(packageId, datasetId, o)
  }

  /** The requests of the training workflow and its result, once the data is converted. */
  function TrainingSteps(packageId: int, datasetId: int, o: Outcomes): (seq<Request>, bool)
  {
    var creating := [StatusMessage("CREATE DATASET", datasetId)];
    if !o.datasetCreated then (creating + Recovery(packageId, datasetId), false)
    else
      var training := creating + [StatusMessage("TRAINING", datasetId)];
      match o.trained
      case Err(_) => (training + Recovery(packageId, datasetId), false)
      case Ok(success) => (training + Completion(packageId, datasetId, success), true)
  }

  /** The requests of the inference workflow and its result, once the data is converted. */
  function InferenceSteps(packageId: int, datasetId: int, o: Outcomes): (seq<Request>, bool)
  {
    var inferring := [StatusMessage("INFERENCE", datasetId)];
    match o.predicted
    case Err(_) => (inferring + Recovery(packageId, datasetId), false)
    case Ok(success) =>
      var downloading := inferring + [StatusMessage("DOWNLOAD", datasetId)];
      match o.posted
      case Err(_) => (downloading + Recovery(packageId, datasetId), false)
      case Ok(false) => (downloading, false)
      case Ok(true) => (downloading + Completion(packageId, datasetId, success), true)
  }

  /** A converter that returns False ends the job quietly: no status update, no FREE. */
  lemma ConverterFailureIsQuiet(task: TaskType, packageId: int, datasetId: int, o: Outcomes)
    requires o.converted == Ok(false)
    ensures JobTrace(task, packageId, datasetId, o) == ([], false)
  {
  }

  /** Training: CREATE DATASET, TRAINING, DONE iff training succeeded (else CREATED), FREE, and True. */
  lemma TrainingTrace(packageId: int, datasetId: int, o: Outcomes)
    requires o.converted == Ok(true) && o.datasetCreated && o.trained.Ok?
    ensures JobTrace(Train, packageId, datasetId, o) ==
      ([StatusMessage("CREATE DATASET", datasetId), StatusMessage("TRAINING", datasetId),
        PackageStatusUpdate(packageId, if o.trained.value then Done else Created), StatusMessage("FREE", datasetId)], true)
  {
    var phases := [StatusMessage("CREATE DATASET", datasetId), StatusMessage("TRAINING", datasetId)];
    var done := Completion(packageId, datasetId, o.trained.value);
    assert [phases[0]] + [phases[1]] == phases;
    assert phases + done == [phases[0], phases[1], done[0], done[1]];
  }

  /** Inference whose upload returns False: INFERENCE, DOWNLOAD, and False without a status update. */
  lemma InferenceUploadFailureIsQuiet(packageId: int, datasetId: int, o: Outcomes)
    requires o.converted == Ok(true) && o.predicted.Ok? && o.posted == Ok(false)
    ensures JobTrace(Inference, packageId, datasetId, o) ==
      ([StatusMessage("INFERENCE", datasetId), StatusMessage("DOWNLOAD", datasetId)], false)
  {
    assert [StatusMessage("INFERENCE", datasetId)] + [StatusMessage("DOWNLOAD", datasetId)] ==
      [StatusMessage("INFERENCE", datasetId), StatusMessage("DOWNLOAD", datasetId)];
  }

  /** Inference that uploads its results: DONE iff prediction succeeded (else CREATED), FREE, and True. */
  lemma InferenceTrace(packageId: int, datasetId: int, o: Outcomes)
    requires o.converted == Ok(true) && o.predicted.Ok? && o.posted == Ok(true)
    ensures JobTrace(Inference, packageId, datasetId, o) ==
      ([StatusMessage("INFERENCE", datasetId), StatusMessage("DOWNLOAD", datasetId),
        PackageStatusUpdate(packageId, if o.predicted.value then Done else Created), StatusMessage("FREE", datasetId)], true)
  {
    var phases := [StatusMessage("INFERENCE", datasetId), StatusMessage("DOWNLOAD", datasetId)];
    var done := Completion(packageId, datasetId, o.predicted.value);
    assert [phases[0]] + [phases[1]] == phases;
    assert phases + done == [phases[0], phases[1], done[0], done[1]];
  }

  /** Whether some step of the job raised. */
  predicate Raised(task: TaskType, o: Outcomes)
  {
    || o.converted.Err?
    || (o.converted == Ok(true) && task == Train && (!o.datasetCreated || o.trained.Err?))
    || (o.converted == Ok(true) && task == Inference && (o.predicted.Err? || (o.predicted.Ok? && o.posted.Err?)))
  }

  /** A step that raises ends the job with CREATED, FREE and False, whatever came before. */
  lemma {:induction false} RaisedEndsInRecovery(task: TaskType, packageId: int, datasetId: int, o: Outcomes)
    ensures Raised(task, o) <==>
      var r := JobTrace(task, packageId, datasetId, o);
      !r.1 && |r.0| >= 2 && r.0[|r.0| - 2..] == Recovery(packageId, datasetId)
  {
    var r := JobTrace(task, packageId, datasetId, o);
    if !Raised(task, o) && !r.1 && |r.0| >= 2 {
      // the quiet failures send no status update at all
      assert r.0[|r.0| - 2] == StatusMessage("INFERENCE", datasetId);
    }
  }

  /** A job for one package, with the folders it works in and the requests it has sent so far. */
  class Job {
    const package: TaskPackage
    const uploadFolder: string
    const processedFolder: string
    const returnFolder: string
    const storage: StorageManager
    var sent: seq<Request>

    constructor(package: TaskPackage, storage: StorageManager, uploadFolder: string, processedFolder: string,
                returnFolder: string)
      ensures this.package == package && this.storage == storage
      ensures this.uploadFolder == uploadFolder && this.processedFolder == processedFolder
      ensures this.returnFolder == returnFolder
      ensures sent == []
    {
      this.package := package;
      this.storage := storage;
      this.uploadFolder := uploadFolder;
      this.processedFolder := processedFolder;
      this.returnFolder := returnFolder;
      sent := [];
    }

    /** send_status: a phase message for the dataset; a failure to send is logged and swallowed. */
    method SendStatus(status: string)
      modifies this
      ensures sent == old(sent) + [StatusMessage(status, package.datasetId)]
    {
      sent := sent + [StatusMessage(status, package.datasetId)];
    }

    /** update_package_status_for_PI: the package's new status; a failure to send is logged and swallowed. */
    method UpdatePackageStatus(status: PackageStatus)
      modifies this
      ensures sent == old(sent) + [PackageStatusUpdate(package.packageId, status)]
    {
      sent := sent + [PackageStatusUpdate(package.packageId, status)];
    }

    /** prepare_directories: reset the upload and processed folders, and the return folder for inference. */
    method PrepareDirectories()
      modifies storage
      ensures storage.folders == Prepared(old(storage.folders), package.task, uploadFolder, processedFolder, returnFolder)
    {
      storage.ResetDirectory(uploadFolder);
      storage.ResetDirectory(processedFolder);
      if package.task == Inference {
        storage.ResetDirectory(returnFolder);
      }
    }

    /** run: the whole pipeline, reporting to the platform as it goes. */
    method Run(o: Outcomes) returns (ok: bool)
      modifies this, storage
      ensures storage.folders == Prepared(old(storage.folders), package.task, uploadFolder, processedFolder, returnFolder)
      ensures sent == old(sent) + JobTrace(package.task, package.packageId, package.datasetId, o).0
      ensures ok == JobTrace(package.task, package.packageId, package.datasetId, o).1
    {
      PrepareDirectories();
      if o.converted.Err? {
        ok := Recover();
        return;
      }
      if !o.converted.value {
        return false;
      }
      if package.task == Train {
        ok := Training(o);
      } else {
        ok := InferenceWorkflow(o);
      }
    }

    /** The training branch of run. */
    method Training(o: Outcomes) returns (ok: bool)
      modifies this
      ensures sent == old(sent) + TrainingSteps(package.packageId, package.datasetId, o).0
      ensures ok == TrainingSteps(package.packageId, package.datasetId, o).1
    {
      SendStatus("CREATE DATASET");
      if !o.datasetCreated {
        ok := Recover();
        return;
      }
      SendStatus("TRAINING");
      if o.trained.Err? {
        ok := Recover();
        return;
      }
      UpdatePackageStatus(if o.trained.value then Done else Created);
      SendStatus("FREE");
      return true;
    }

    /** The inference branch of run. */
    method InferenceWorkflow(o: Outcomes) returns (ok: bool)
      modifies this
      ensures sent == old(sent) + InferenceSteps(package.packageId, package.datasetId, o).0
      ensures ok == InferenceSteps(package.packageId, package.datasetId, o).1
    {
      SendStatus("INFERENCE");
      if o.predicted.Err? {
        ok := Recover();
        return;
      }
      SendStatus("DOWNLOAD");
      if o.posted.Err? {
        ok := Recover();
        return;
      }
      if !o.posted.value {
        return false;
      }
      UpdatePackageStatus(if o.predicted.value then Done else Created);
      SendStatus("FREE");
      return true;
    }

    /** The except branch of run: CREATED, FREE, and False. */
    method Recover() returns (ok: bool)
      modifies this
      ensures sent == old(sent) + Recovery(package.packageId, package.datasetId)
      ensures !ok
    {
      UpdatePackageStatus(Created);
      SendStatus("FREE");
      ok := false;
    }
  }
}
