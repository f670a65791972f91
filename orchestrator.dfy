/** The training orchestration of the API back end (api_helpers.py): the
    configuration lookup, the capture of a training run's output into its
    log record, and the background job that moves a project from
    "training" to "completed" or "training_failed".

    Every collaborator the job calls (the database session, Google Drive,
    the trainers, the quality report, file removal) is a stage that may
    raise; which stages raise, the generated identifiers and what the
    collaborators return are given by an environment value. */
module ApiHelpers {
  import opened Common
  import opened Frames
  import opened ModelHelpers

  // ---------------------------------------------------------------------
  // Configuration lookup

  /** `get_model_configuration`: `read` is the CSV file as read (None when
      reading raised), `metadata` what SDV inferred (None when inference
      raised). Any exception, including the unbound result of an unknown
      model type, gives None. */
  method GetModelConfiguration(read: Option<Frame>, modelType: string,
                               parse: string -> ParseOutcome, coerce: Item -> bool,
                               metadata: Option<Value>, metadataIsValid: bool)
    returns (r: Option<Config>)
    ensures read.None? ==> r.None?
    ensures read.Some? && modelType == "ctgan" ==>
      r == (match GetCtganConfig(metadata, metadataIsValid) case Ok(c) => Some(c) case Err(_) => None)
    ensures read.Some? && modelType == "dgan" ==>
      r == (match DganConfig(read.value, parse, coerce) case Ok(c) => Some(c) case Err(_) => None)
    ensures modelType != "ctgan" && modelType != "dgan" ==> r.None?
  {
    if read.None? {
      return None;
    }
    var config: Option<Config> := None;
    if modelType == "ctgan" {
      var c := GetCtganConfig(metadata, metadataIsValid);
      if c.Err? {
        return None;
      }
      config := Some(c.value);
    }
    if modelType == "dgan" {
      var c := GetDganConfig(read.value, parse, coerce);
      if c.Err? {
        return None;
      }
      config := Some(c.value);
    }
    // an unknown type leaves `model_config` unbound, and reading it raises
    r := config;
  }

  // ---------------------------------------------------------------------
  // Log capture

  /** Where `sys.stdout` / `sys.stderr` point. */
  datatype Stream = Terminal(name: string) | Capturer

  /** `log_to_database`: the log record's text, the buffer of captured
      writes, and the process streams it swaps. */
  class LogCapture {
    /** `model_log_db_record.model_log_data` */
    var data: string
    /** `log_buffer` */
    var buffer: seq<string>
    var stdout: Stream
    var stderr: Stream
    var savedOut: Stream
    var savedErr: Stream
    var capturing: bool

    constructor (header: string, out: Stream, err: Stream)
      ensures data == header && buffer == [] && stdout == out && stderr == err && !capturing
    {
      data := header;
      buffer := [];
      stdout, stderr := out, err;
      savedOut, savedErr := out, err;
      capturing := false;
    }

    /** Entering the context: an empty buffer, the streams saved and both
        pointed at capturers. */
    method Enter()
      requires !capturing
      modifies this
      ensures capturing && buffer == [] && data == old(data)
      ensures savedOut == old(stdout) && savedErr == old(stderr)
      ensures stdout == Capturer && stderr == Capturer
    {
      buffer := [];
      savedOut, savedErr := stdout, stderr;
      stdout, stderr := Capturer, Capturer;
      capturing := true;
    }

    /** `LogCapturer.write`: append, and store the whole buffer joined. */
    method Write(text: string)
      requires capturing
      modifies this
      ensures buffer == old(buffer) + [text] && data == Concat(buffer)
      ensures capturing && stdout == old(stdout) && stderr == old(stderr)
      ensures savedOut == old(savedOut) && savedErr == old(savedErr)
    {
      buffer := buffer + [text];
      data := Concat(buffer);
    }

    /** Leaving the context, normally or by an exception: the saved
        streams come back. */
    method Exit()
      requires capturing
      modifies this
      ensures !capturing && stdout == old(savedOut) && stderr == old(savedErr)
      ensures buffer == old(buffer) && data == old(data)
    {
      stdout, stderr := savedOut, savedErr;
      capturing := false;
    }
  }

  /** The record's text after a captured run that wrote `writes`: the
      header until the first write, then everything written. */
  function CapturedLog(header: string, writes: seq<string>): string
  {
    if writes == [] then header else Concat(writes)
  }

  /** A body run inside `with log_to_database(...)` that writes `writes`
      (and then returns or raises): the record ends with the captured
      text and the streams are back where they were. */
  method Capture(log: LogCapture, writes: seq<string>)
    requires !log.capturing
    modifies log
    ensures log.data == CapturedLog(old(log.data), writes)
    ensures !log.capturing && log.stdout == old(log.stdout) && log.stderr == old(log.stderr)
  {
    log.Enter();
    for i := 0 to |writes|
      invariant log.capturing && log.buffer == writes[..i]
      invariant log.data == CapturedLog(old(log.data), writes[..i])
      invariant log.savedOut == old(log.stdout) && log.savedErr == old(log.stderr)
    {
      assert writes[..i + 1] == writes[..i] + [writes[i]];
      log.Write(writes[i]);
    }
    assert writes[..|writes|] == writes;
    log.Exit();
  }

  /** Each write extends the record's text by itself, except the first,
      which replaces the header. */
  lemma CapturedLogGrows(header: string, writes: seq<string>, text: string)
    ensures CapturedLog(header, writes + [text]) ==
            (if writes == [] then text else CapturedLog(header, writes) + text)
  {
    ConcatAppend(writes, text);
    if writes == [] {
      assert Concat([text]) == Concat([]) + text by {
        ConcatAppend([], text);
      }
    }
  }

  // ---------------------------------------------------------------------
  // The training job

  datatype Status = Other(name: string) | Training | Completed | TrainingFailed

  /** The steps of `start_model_training` after the status is set, each a
      call that may raise or answer falsy. */
  datatype Stage =
    | Download | CreateModelRecord | CreateLogRecord | LinkRecords | Train
    | UploadModel | UploadEncodings | Generate | CountRows | RecordSynthetic
    | UploadSynthetic | Score | RecordReport | Complete
    | RemoveData | RemoveModel | RemoveEncodings | RemoveSynthetic

  /** What the collaborators do in one run. */
  datatype Env = Env(
    failing: set<Stage>,      // the stages whose collaborator raises
    bufferDir: string,        // CLIENT_BUFFER_FOLDER_NAME
    dataFile: string,         // the path the download returned
    modelUuid: string,
    syntheticUuid: string,
    numRows: nat,             // the data artifact's num_rows
    output: seq<string>,      // what training writes to stdout/stderr
    generatedRows: nat,       // rows of the generated CSV file
    score: real)              // the report's overall_score

  const LogHeader: string := "----- Model Training Started -----\n"

  function ModelId(modelType: string, uuid: string): string
  {
    modelType + "_model_" + uuid
  }

  /** The extension of the model record (and of the model file). */
  function ModelExtension(modelType: string): string
  {
    if modelType == "ctgan" then ".pkl" else ".pt"
  }

  function ModelFile(modelType: string, env: Env): string
  {
    env.bufferDir + "/" + ModelId(modelType, env.modelUuid) + ModelExtension(modelType)
  }

  function EncodingsFile(modelType: string, env: Env): string
  {
    env.bufferDir + "/encodings_" + ModelId(modelType, env.modelUuid) + ".pkl"
  }

  function SyntheticFile(modelType: string, env: Env): string
  {
    env.bufferDir + "/synthiumAI_" + modelType + "_" + env.syntheticUuid + ".csv"
  }

  /** The stages up to the training run and the model upload. */
  const Head: seq<Stage> := [Download, CreateModelRecord, CreateLogRecord, LinkRecords, Train, UploadModel]

  /** The stages from the encodings upload to the final commit. */
  function Middle(modelType: string): seq<Stage>
  {
    (if modelType == "dgan" then [UploadEncodings] else []) +
    [Generate, CountRows, RecordSynthetic, UploadSynthetic, Score, RecordReport, Complete]
  }

  /** The removal of the scratch files. */
  function Cleanup(modelType: string): seq<Stage>
  {
    [RemoveData, RemoveModel] + (if modelType == "dgan" then [RemoveEncodings] else []) + [RemoveSynthetic]
  }

  function Plan(modelType: string): seq<Stage>
  {
    Head + Middle(modelType) + Cleanup(modelType)
  }

  /** A stage raises: its collaborator fails, or, for a model type that is
      neither "ctgan" nor "dgan", the model upload reads the unbound
      `model_file_path`. */
  predicate Fails(s: Stage, modelType: string, env: Env)
  {
    s in env.failing || (s == UploadModel && modelType != "ctgan" && modelType != "dgan")
  }

  /** The model record `Models(...)`. */
  datatype ModelRecord = ModelRecord(id: string, extension: string, modelType: string)

  /** The state the job leaves behind. */
  datatype Snapshot = Snapshot(
    status: Status,
    completed: seq<Stage>,
    failed: bool,
    removed: seq<string>,
    modelRecord: Option<ModelRecord>,
    logData: Option<string>,
    requestedRows: Option<nat>,
    syntheticRows: Option<nat>,
    score: Option<real>)

  /** What training writes: nothing for a type no branch trains. */
  function Output(modelType: string, env: Env): seq<string>
  {
    if modelType == "ctgan" || modelType == "dgan" then env.output else []
  }

  /** The visible effect of one stage. */
  function Effect(j: Snapshot, s: Stage, modelType: string, env: Env): Snapshot
  {
    match s
    case CreateModelRecord =>
      j.(modelRecord := Some(ModelRecord(ModelId(modelType, env.modelUuid), ModelExtension(modelType), modelType)))
    case CreateLogRecord => j.(logData := Some(LogHeader))
    case Train => j.(logData := Some(CapturedLog(LogHeader, Output(modelType, env))))
    case Generate => j.(requestedRows := Some(env.numRows))
    case RecordSynthetic => j.(syntheticRows := Some(env.generatedRows))
    case Complete => j.(status := Completed, score := Some(env.score))
    case RemoveData => j.(removed := j.removed + [env.dataFile])
    case RemoveModel => j.(removed := j.removed + [ModelFile(modelType, env)])
    case RemoveEncodings => j.(removed := j.removed + [EncodingsFile(modelType, env)])
    case RemoveSynthetic => j.(removed := j.removed + [SyntheticFile(modelType, env)])
    case _ => j
  }

  /** The effects of `stages`, in order, none failing. */
  function Apply(stages: seq<Stage>, modelType: string, env: Env, j: Snapshot): Snapshot
  {
    if stages == [] then j
    else Effect(Apply(stages[..|stages| - 1], modelType, env, j), stages[|stages| - 1], modelType, env)
  }

  /** The index of the first stage that raises, or `|stages|`. */
  function FirstFailure(stages: seq<Stage>, modelType: string, env: Env): (k: nat)
    ensures k <= |stages|
    ensures forall i :: 0 <= i < k ==> !Fails(stages[i], modelType, env)
    ensures k < |stages| ==> Fails(stages[k], modelType, env)
  {
    if stages == [] then 0
    else if Fails(stages[0], modelType, env) then 0
    else 1 + FirstFailure(stages[1..], modelType, env)
  }

  /** The job from `j`: the stages before the first failure take effect
      (training's output is captured even when training raises); a
      failure sets "training_failed" and nothing else. */
  function Execute(stages: seq<Stage>, modelType: string, env: Env, j: Snapshot): Snapshot
  {
    var k := FirstFailure(stages, modelType, env);
    var done := Apply(stages[..k], modelType, env, j).(completed := j.completed + stages[..k]);
    if k == |stages| then done.(failed := false)
    else
      var hit := if stages[k] == Train then Effect(done, Train, modelType, env) else done;
      hit.(failed := true, status := TrainingFailed)
  }


  class TrainingJob {
    const modelType: string
    const env: Env
    /** The project row exists. */
    const projectExists: bool

    var status: Status
    var completed: seq<Stage>
    var failed: bool
    var removed: seq<string>
    var modelRecord: Option<ModelRecord>
    var logData: Option<string>
    var requestedRows: Option<nat>
    var syntheticRows: Option<nat>
    var score: Option<real>
    /** `sys.stdout` and `sys.stderr` */
    var stdout: Stream
    var stderr: Stream

    function Snap(): Snapshot
      reads this
    {
      Snapshot(status, completed, failed, removed, modelRecord, logData, requestedRows, syntheticRows, score)
    }

    /** A project in any status, before the job runs. */
    constructor (modelType: string, env: Env, projectExists: bool, status: Status)
      ensures this.modelType == modelType && this.env == env && this.projectExists == projectExists
      ensures Snap() == Snapshot(status, [], false, [], None, None, None, None, None)
      ensures stdout == Terminal("stdout") && stderr == Terminal("stderr")
    {
      this.modelType := modelType;
      this.env := env;
      this.projectExists := projectExists;
      this.status := status;
      completed, failed, removed := [], false, [];
      modelRecord, logData := None, None;
      requestedRows, syntheticRows, score := None, None, None;
      stdout, stderr := Terminal("stdout"), Terminal("stderr");
    }

    /** One stage, carried out. */
    method Perform(s: Stage)
      modifies this
      ensures Snap() == Effect(old(Snap()), s, modelType, env)
      ensures stdout == old(stdout) && stderr == old(stderr)
    {
      match s
      case CreateModelRecord =>
        modelRecord := Some(ModelRecord(ModelId(modelType, env.modelUuid), ModelExtension(modelType), modelType));
      case CreateLogRecord =>
        logData := Some(LogHeader);
      case Train =>
        CaptureTraining();
      case Generate =>
        requestedRows := Some(env.numRows);
      case RecordSynthetic =>
        syntheticRows := Some(env.generatedRows);
      case Complete =>
        status := Completed;
        score := Some(env.score);
      case RemoveData =>
        removed := removed + [env.dataFile];
      case RemoveModel =>
        removed := removed + [ModelFile(modelType, env)];
      case RemoveEncodings =>
        removed := removed + [EncodingsFile(modelType, env)];
      case RemoveSynthetic =>
        removed := removed + [SyntheticFile(modelType, env)];
      case _ =>
    }

    /** The stage at `i` raises, the first to do so: the writes training
        made before raising stay in the log, and the handler sets
        "training_failed". */
    method FailAt(plan: seq<Stage>, i: nat, ghost start: Snapshot)
      requires i < |plan| && Fails(plan[i], modelType, env)
      requires forall n :: 0 <= n < i ==> !Fails(plan[n], modelType, env)
      requires start.completed == []
      requires Snap() == Apply(plan[..i], modelType, env, start).(completed := plan[..i])
      modifies this
      ensures Snap() == Execute(plan, modelType, env, start)
      ensures stdout == old(stdout) && stderr == old(stderr)
    {
      ghost var done := Snap();
      ghost var raised := if plan[i] == Train then done.(logData := Some(CapturedLog(LogHeader, Output(modelType, env)))) else done;
      if plan[i] == Train {
        CaptureTraining();
      }
      assert Snap() == raised;
      // the failure handler
      status, failed := TrainingFailed, true;
      assert Snap() == raised.(failed := true, status := TrainingFailed);
      ExecuteFailsAt(plan, i, modelType, env, start);
      assert start.completed + plan[..i] == plan[..i];
    }

    /** The stage at `i` succeeds: its effect is applied and it joins the
        completed stages. */
    method Advance(plan: seq<Stage>, i: nat, ghost start: Snapshot)
      requires i < |plan| && !Fails(plan[i], modelType, env)
      requires Snap() == Apply(plan[..i], modelType, env, start).(completed := plan[..i])
      modifies this
      ensures Snap() == Apply(plan[..i + 1], modelType, env, start).(completed := plan[..i + 1])
      ensures stdout == old(stdout) && stderr == old(stderr)
    {
      ApplyStep(plan, i, modelType, env, start);
      EffectKeepsCompleted(Apply(plan[..i], modelType, env, start), plan[i], plan[..i], modelType, env);
      Perform(plan[i]);
      completed := completed + [plan[i]];
    }

    /** The training call inside `with log_to_database(...)`: the log
        record ends with what training wrote. */
    method CaptureTraining()
      modifies this
      ensures Snap() == old(Snap()).(logData := Some(CapturedLog(LogHeader, Output(modelType, env))))
      ensures stdout == old(stdout) && stderr == old(stderr)
    {
      var log := new LogCapture(LogHeader, stdout, stderr);
      Capture(log, Output(modelType, env));
      logData := Some(log.data);
      stdout, stderr := log.stdout, log.stderr;
    }

    /** `start_model_training`: a missing project makes the first
        assignment raise, and so does the handler's, so the exception
        escapes and nothing changes. Otherwise the status becomes
        "training" whatever it was, and the stages run until one raises;
        the handler then sets "training_failed" and removes nothing. */
    method Run() returns (escaped: Option<Error>)
      modifies this
      ensures !projectExists ==> escaped == Some(AttributeError("status")) && Snap() == old(Snap())
      ensures projectExists ==> escaped.None?
      ensures projectExists ==>
        Snap() == Execute(Plan(modelType), modelType, env, old(Snap()).(status := Training, completed := [], failed := false))
      ensures stdout == old(stdout) && stderr == old(stderr)
    {
      if !projectExists {
        return Some(AttributeError("status"));
      }
      escaped := None;
      status := Training;
      RunStages(Plan(modelType));
    }

    /** The `try` block and its handler: the stages run in order until
        one raises; the handler then sets "training_failed". */
    method RunStages(plan: seq<Stage>)
      modifies this
      ensures Snap() == Execute(plan, modelType, env, old(Snap()).(completed := [], failed := false))
      ensures stdout == old(stdout) && stderr == old(stderr)
    {
      completed, failed := [], false;
      ghost var start := Snap();
      for i := 0 to |plan|
        invariant Snap() == Apply(plan[..i], modelType, env, start).(completed := plan[..i])
        invariant forall j :: 0 <= j < i ==> !Fails(plan[j], modelType, env)
        invariant stdout == old(stdout) && stderr == old(stderr)
      {
        if Fails(plan[i], modelType, env) {
          FailAt(plan, i, start);
          return;
        }
        Advance(plan, i, start);
      }
      ExecuteAllPass(plan, modelType, env, start);
    }
  }

  /** A run from a fresh start in which no stage raises ends with every
      stage completed and its effects applied. */
  lemma ExecuteAllPass(plan: seq<Stage>, modelType: string, env: Env, start: Snapshot)
    requires start.completed == [] && !start.failed
    requires forall n :: 0 <= n < |plan| ==> !Fails(plan[n], modelType, env)
    ensures Execute(plan, modelType, env, start) ==
      Apply(plan[..|plan|], modelType, env, start).(completed := plan[..|plan|])
  {
    ExecuteSucceeds(plan, modelType, env, start);
    ApplyKeepsProgress(plan, modelType, env, start);
    assert start.completed + plan == plan;
    assert plan[..|plan|] == plan;
  }

  /** No stage's effect touches the list of completed stages. */
  lemma EffectKeepsCompleted(j: Snapshot, s: Stage, c: seq<Stage>, modelType: string, env: Env)
    ensures Effect(j.(completed := c), s, modelType, env) == Effect(j, s, modelType, env).(completed := c)
  {
  }

  /** Applying effects leaves the progress fields alone. */
  lemma {:induction false} ApplyKeepsProgress(stages: seq<Stage>, modelType: string, env: Env, j: Snapshot)
    ensures Apply(stages, modelType, env, j).completed == j.completed
    ensures Apply(stages, modelType, env, j).failed == j.failed
  {
    if stages != [] {
      ApplyKeepsProgress(stages[..|stages| - 1], modelType, env, j);
    }
  }

  lemma ApplyStep(stages: seq<Stage>, i: nat, modelType: string, env: Env, j: Snapshot)
    requires i < |stages|
    ensures Apply(stages[..i + 1], modelType, env, j) == Effect(Apply(stages[..i], modelType, env, j), stages[i], modelType, env)
    ensures stages[..i + 1] == stages[..i] + [stages[i]]
  {
    assert stages[..i + 1][..i] == stages[..i];
  }

  /** The job when the stage at `i` is the first to raise. */
  lemma ExecuteFailsAt(stages: seq<Stage>, i: nat, modelType: string, env: Env, j: Snapshot)
    requires i < |stages| && Fails(stages[i], modelType, env)
    requires forall n :: 0 <= n < i ==> !Fails(stages[n], modelType, env)
    ensures var done := Apply(stages[..i], modelType, env, j).(completed := j.completed + stages[..i]);
      Execute(stages, modelType, env, j) ==
      (if stages[i] == Train then done.(logData := Some(CapturedLog(LogHeader, Output(modelType, env)))) else done)
        .(failed := true, status := TrainingFailed)
  {
    assert FirstFailure(stages, modelType, env) == i;
  }

  /** The job when no stage raises. */
  lemma ExecuteSucceeds(stages: seq<Stage>, modelType: string, env: Env, j: Snapshot)
    requires forall n :: 0 <= n < |stages| ==> !Fails(stages[n], modelType, env)
    ensures Execute(stages, modelType, env, j) ==
      Apply(stages, modelType, env, j).(completed := j.completed + stages, failed := false)
  {
    assert FirstFailure(stages, modelType, env) == |stages|;
    assert stages[..|stages|] == stages;
  }

  // ---------------------------------------------------------------------
  // What a run leaves behind

  predicate IsRemoval(s: Stage)
  {
    s == RemoveData || s == RemoveModel || s == RemoveEncodings || s == RemoveSynthetic
  }

  /** The file a removal stage deletes. */
  function RemovedFile(s: Stage, modelType: string, env: Env): string
    requires IsRemoval(s)
  {
    match s
    case RemoveData => env.dataFile
    case RemoveModel => ModelFile(modelType, env)
    case RemoveEncodings => EncodingsFile(modelType, env)
    case RemoveSynthetic => SyntheticFile(modelType, env)
  }

  /** The files the removal stages among `stages` delete, in order. */
  function Removals(stages: seq<Stage>, modelType: string, env: Env): seq<string>
  {
    if stages == [] then []
    else
      var last := stages[|stages| - 1];
      Removals(stages[..|stages| - 1], modelType, env) +
      (if IsRemoval(last) then [RemovedFile(last, modelType, env)] else [])
  }

  /** The scratch files a successful run deletes: the data, the model,
      the encodings of a DGAN model and the synthetic CSV file. */
  function ScratchFiles(modelType: string, env: Env): seq<string>
  {
    [env.dataFile, ModelFile(modelType, env)] +
    (if modelType == "dgan" then [EncodingsFile(modelType, env)] else []) +
    [SyntheticFile(modelType, env)]
  }

  lemma {:induction false} ApplyStatus(stages: seq<Stage>, modelType: string, env: Env, j: Snapshot)
    ensures Apply(stages, modelType, env, j).status == (if Complete in stages then Completed else j.status)
  {
    if stages != [] {
      var front := stages[..|stages| - 1];
      assert stages == front + [stages[|stages| - 1]];
      ApplyStatus(front, modelType, env, j);
    }
  }

  /** Each record field is written by one stage, always with the same
      value. */
  lemma {:induction false} ApplyRecords(stages: seq<Stage>, modelType: string, env: Env, j: Snapshot)
    ensures var r := Apply(stages, modelType, env, j);
      r.requestedRows == (if Generate in stages then Some(env.numRows) else j.requestedRows) &&
      r.syntheticRows == (if RecordSynthetic in stages then Some(env.generatedRows) else j.syntheticRows) &&
      r.score == (if Complete in stages then Some(env.score) else j.score) &&
      r.modelRecord == (if CreateModelRecord in stages
                        then Some(ModelRecord(ModelId(modelType, env.modelUuid), ModelExtension(modelType), modelType))
                        else j.modelRecord)
  {
    if stages != [] {
      var front, last := stages[..|stages| - 1], stages[|stages| - 1];
      assert stages == front + [last];
      ApplyRecords(front, modelType, env, j);
      EffectRecords(Apply(front, modelType, env, j), last, modelType, env);
    }
  }

  /** The record fields one stage sets. */
  lemma EffectRecords(j: Snapshot, s: Stage, modelType: string, env: Env)
    ensures var r := Effect(j, s, modelType, env);
      r.requestedRows == (if s == Generate then Some(env.numRows) else j.requestedRows) &&
      r.syntheticRows == (if s == RecordSynthetic then Some(env.generatedRows) else j.syntheticRows) &&
      r.score == (if s == Complete then Some(env.score) else j.score) &&
      r.modelRecord == (if s == CreateModelRecord
                        then Some(ModelRecord(ModelId(modelType, env.modelUuid), ModelExtension(modelType), modelType))
                        else j.modelRecord)
  {
  }

  lemma {:induction false} ApplyRemovals(stages: seq<Stage>, modelType: string, env: Env, j: Snapshot)
    ensures Apply(stages, modelType, env, j).removed == j.removed + Removals(stages, modelType, env)
  {
    if stages != [] {
      ApplyRemovals(stages[..|stages| - 1], modelType, env, j);
    }
  }

  /** Stages that neither create nor fill the log record leave it alone. */
  lemma {:induction false} ApplyKeepsLog(stages: seq<Stage>, modelType: string, env: Env, j: Snapshot)
    requires CreateLogRecord !in stages && Train !in stages
    ensures Apply(stages, modelType, env, j).logData == j.logData
  {
    if stages != [] {
      var front := stages[..|stages| - 1];
      assert stages == front + [stages[|stages| - 1]];
      ApplyKeepsLog(front, modelType, env, j);
    }
  }

  lemma {:induction false} ApplyAppend(a: seq<Stage>, b: seq<Stage>, modelType: string, env: Env, j: Snapshot)
    ensures Apply(a + b, modelType, env, j) == Apply(b, modelType, env, Apply(a, modelType, env, j))
  {
    if b != [] {
      var front := b[..|b| - 1];
      assert (a + b)[..|a + b| - 1] == a + front;
      ApplyAppend(a, front, modelType, env, j);
    }
    else {
      assert a + b == a;
    }
  }

  lemma {:induction false} RemovalsAppend(a: seq<Stage>, b: seq<Stage>, modelType: string, env: Env)
    ensures Removals(a + b, modelType, env) == Removals(a, modelType, env) + Removals(b, modelType, env)
  {
    if b != [] {
      var front := b[..|b| - 1];
      assert (a + b)[..|a + b| - 1] == a + front;
      RemovalsAppend(a, front, modelType, env);
    }
    else {
      assert a + b == a;
    }
  }

  lemma {:induction false} NoRemovals(stages: seq<Stage>, modelType: string, env: Env)
    requires forall s :: s in stages ==> !IsRemoval(s)
    ensures Removals(stages, modelType, env) == []
  {
    if stages != [] {
      var front := stages[..|stages| - 1];
      assert forall s :: s in front ==> s in stages;
      NoRemovals(front, modelType, env);
    }
  }

  lemma CleanupRemovesScratch(modelType: string, env: Env)
    ensures Removals(Cleanup(modelType), modelType, env) == ScratchFiles(modelType, env)
  {
    var c := Cleanup(modelType);
    if modelType == "dgan" {
      assert c == [RemoveData, RemoveModel, RemoveEncodings, RemoveSynthetic];
      assert c[..3] == [RemoveData, RemoveModel, RemoveEncodings];
      assert c[..3][..2] == [RemoveData, RemoveModel];
      assert c[..3][..2][..1] == [RemoveData];
    } else {
      assert c == [RemoveData, RemoveModel, RemoveSynthetic];
      assert ScratchFiles(modelType, env) == [env.dataFile, ModelFile(modelType, env), SyntheticFile(modelType, env)];
      assert c[..2] == [RemoveData, RemoveModel];
      assert c[..2][..1] == [RemoveData];
      assert Removals([RemoveData], modelType, env) == [env.dataFile];
      assert Removals(c[..2], modelType, env) == [env.dataFile, ModelFile(modelType, env)];
    }
  }

  /** The shape of the plan: the final commit closes the stages before
      the cleanup, and only the cleanup removes files. */
  lemma PlanShape(modelType: string)
    ensures Plan(modelType) == (Head + Middle(modelType)) + Cleanup(modelType)
    ensures |Head + Middle(modelType)| >= 1 && (Head + Middle(modelType))[|Head + Middle(modelType)| - 1] == Complete
    ensures forall s :: s in Head + Middle(modelType) ==> !IsRemoval(s)
    ensures forall s :: s in Cleanup(modelType) ==> IsRemoval(s)
    ensures forall s :: s in Middle(modelType) + Cleanup(modelType) ==> s != CreateLogRecord && s != Train && s != LinkRecords
  {
    var middle, cleanup := Middle(modelType), Cleanup(modelType);
    MiddleStages(modelType);
    CleanupStages(modelType);
    assert forall s :: s in Head ==> !IsRemoval(s);
    assert forall s :: s in Head + middle <==> s in Head || s in middle;
    assert forall s :: s in middle + cleanup <==> s in middle || s in cleanup;
    assert (Head + middle)[|Head + middle| - 1] == middle[|middle| - 1];
  }

  /** The stages between the model upload and the cleanup: none removes a
      file or belongs to the head, and the final commit closes them. */
  lemma MiddleStages(modelType: string)
    ensures |Middle(modelType)| >= 1 && Middle(modelType)[|Middle(modelType)| - 1] == Complete
    ensures forall s :: s in Middle(modelType) ==>
      !IsRemoval(s) && s != CreateLogRecord && s != Train && s != LinkRecords
  {
    var tail := [Generate, CountRows, RecordSynthetic, UploadSynthetic, Score, RecordReport, Complete];
    assert forall s :: s in tail ==> !IsRemoval(s) && s != CreateLogRecord && s != Train && s != LinkRecords;
  }

  /** Every cleanup stage removes a file. */
  lemma CleanupStages(modelType: string)
    ensures forall s :: s in Cleanup(modelType) ==> IsRemoval(s)
  {
  }

  /** The stages of each plan, in order. */
  lemma PlanStages(modelType: string)
    ensures Plan(modelType) == (if modelType == "dgan" then
      [Download, CreateModelRecord, CreateLogRecord, LinkRecords, Train, UploadModel,
       UploadEncodings, Generate, CountRows, RecordSynthetic, UploadSynthetic, Score, RecordReport, Complete,
       RemoveData, RemoveModel, RemoveEncodings, RemoveSynthetic]
    else
      [Download, CreateModelRecord, CreateLogRecord, LinkRecords, Train, UploadModel,
       Generate, CountRows, RecordSynthetic, UploadSynthetic, Score, RecordReport, Complete,
       RemoveData, RemoveModel, RemoveSynthetic])
  {
  }

  /** Every plan generates, records and commits; the encodings are
      uploaded and removed for a DGAN model only. */
  lemma PlanMembers(modelType: string)
    ensures Generate in Plan(modelType) && RecordSynthetic in Plan(modelType) && Complete in Plan(modelType)
    ensures UploadEncodings in Plan(modelType) <==> modelType == "dgan"
    ensures RemoveEncodings in Plan(modelType) <==> modelType == "dgan"
  {
    var middle, cleanup := Middle(modelType), Cleanup(modelType);
    assert Plan(modelType) == Head + middle + cleanup;
    assert Generate in middle && RecordSynthetic in middle && Complete in middle;
    assert UploadEncodings !in Head && UploadEncodings !in cleanup;
    assert RemoveEncodings !in Head && RemoveEncodings !in middle;
    assert UploadEncodings in middle <==> modelType == "dgan";
    assert RemoveEncodings in cleanup <==> modelType == "dgan";
  }

  /** The job ends "completed" exactly when no stage raises, and
      "training_failed" otherwise: never still "training", whatever the
      status was before, provided the handler's own re-query and commit
      succeed. */
  lemma JobOutcome(modelType: string, env: Env, j: Snapshot)
    ensures var r := Execute(Plan(modelType), modelType, env, j);
      (r.status == Completed <==> forall s :: s in Plan(modelType) ==> !Fails(s, modelType, env)) &&
      (r.status == Completed || r.status == TrainingFailed) &&
      (r.failed <==> r.status == TrainingFailed)
  {
    var plan := Plan(modelType);
    var k := FirstFailure(plan, modelType, env);
    PlanShape(modelType);
    assert Complete in plan by {
      assert plan[|Head + Middle(modelType)| - 1] == Complete;
    }
    if k == |plan| {
      assert plan[..k] == plan;
      ApplyStatus(plan, modelType, env, j);
      forall s | s in plan
        ensures !Fails(s, modelType, env)
      {
        var i :| 0 <= i < |plan| && plan[i] == s;
      }
    }
  }

  /** A run removes the scratch files only after the final commit: all of
      them when it completes, none when it fails before committing. */
  lemma JobCleanup(modelType: string, env: Env, j: Snapshot)
    requires j.completed == []
    ensures var r := Execute(Plan(modelType), modelType, env, j);
      r.status == Completed ==> r.removed == j.removed + ScratchFiles(modelType, env)
    ensures var r := Execute(Plan(modelType), modelType, env, j);
      Complete !in r.completed ==> r.removed == j.removed
  {
    PlanShape(modelType);
    CleanupRemovesScratch(modelType, env);
    CompletedRunRemoves(Head + Middle(modelType), Cleanup(modelType), modelType, env, j);
    UncommittedRunKeeps(Head + Middle(modelType), Cleanup(modelType), modelType, env, j);
  }

  /** A completed run of stages followed by removals removes exactly the
      removals' files. */
  lemma CompletedRunRemoves(main: seq<Stage>, cleanup: seq<Stage>, modelType: string, env: Env, j: Snapshot)
    requires forall s :: s in main ==> !IsRemoval(s)
    ensures var r := Execute(main + cleanup, modelType, env, j);
      r.status == Completed ==> r.removed == j.removed + Removals(cleanup, modelType, env)
  {
    var plan := main + cleanup;
    var k := FirstFailure(plan, modelType, env);
    ExecuteFields(plan, modelType, env, j);
    if k == |plan| {
      assert plan[..k] == plan;
      ApplyMainCleanup(main, cleanup, modelType, env, j);
    }
  }

  lemma ApplyMainCleanup(main: seq<Stage>, cleanup: seq<Stage>, modelType: string, env: Env, j: Snapshot)
    requires forall s :: s in main ==> !IsRemoval(s)
    ensures Apply(main + cleanup, modelType, env, j).removed == j.removed + Removals(cleanup, modelType, env)
  {
    ApplyRemovals(main + cleanup, modelType, env, j);
    RemovalsAppend(main, cleanup, modelType, env);
    NoRemovals(main, modelType, env);
  }

  /** A run that stops before the final commit removes nothing. */
  lemma UncommittedRunKeeps(main: seq<Stage>, cleanup: seq<Stage>, modelType: string, env: Env, j: Snapshot)
    requires j.completed == []
    requires |main| >= 1 && main[|main| - 1] == Complete
    requires forall s :: s in main ==> !IsRemoval(s)
    ensures var r := Execute(main + cleanup, modelType, env, j);
      Complete !in r.completed ==> r.removed == j.removed
  {
    var plan := main + cleanup;
    var k := FirstFailure(plan, modelType, env);
    ExecuteFields(plan, modelType, env, j);
    if k < |main| {
      ApplyRemovals(plan[..k], modelType, env, j);
      PrefixRemovesNothing(main, cleanup, k, modelType, env);
    } else {
      assert plan[..k][|main| - 1] == Complete;
    }
  }

  lemma PrefixRemovesNothing(main: seq<Stage>, cleanup: seq<Stage>, k: nat, modelType: string, env: Env)
    requires k <= |main|
    requires forall s :: s in main ==> !IsRemoval(s)
    ensures Removals((main + cleanup)[..k], modelType, env) == []
    ensures Complete !in main[..k] ==> Complete !in (main + cleanup)[..k]
  {
    assert (main + cleanup)[..k] == main[..k];
    assert forall s :: s in main[..k] ==> s in main;
    NoRemovals(main[..k], modelType, env);
  }

  /** Execute, field by field. */
  lemma ExecuteFields(stages: seq<Stage>, modelType: string, env: Env, j: Snapshot)
    ensures var k := FirstFailure(stages, modelType, env);
      var a := Apply(stages[..k], modelType, env, j);
      var r := Execute(stages, modelType, env, j);
      r.completed == j.completed + stages[..k] &&
      r.failed == (k < |stages|) &&
      r.status == (if k < |stages| then TrainingFailed else a.status) &&
      r.removed == a.removed && r.score == a.score && r.modelRecord == a.modelRecord &&
      r.requestedRows == a.requestedRows && r.syntheticRows == a.syntheticRows &&
      r.logData == (if k < |stages| && stages[k] == Train then Some(CapturedLog(LogHeader, Output(modelType, env))) else a.logData)
  {
  }

  /** A removal that raises after the final commit still turns the
      "completed" status into "training_failed", with the score kept. */
  lemma CleanupFailureOverwritesCompletion(modelType: string, env: Env, j: Snapshot)
    requires j.completed == []
    requires forall s :: s in Head + Middle(modelType) ==> !Fails(s, modelType, env)
    requires exists s :: s in Cleanup(modelType) && Fails(s, modelType, env)
    ensures var r := Execute(Plan(modelType), modelType, env, j);
      Complete in r.completed && r.status == TrainingFailed && r.score == Some(env.score)
  {
    PlanShape(modelType);
    FailureAfterMain(Head + Middle(modelType), Cleanup(modelType), modelType, env, j);
  }

  lemma FailureAfterMain(main: seq<Stage>, cleanup: seq<Stage>, modelType: string, env: Env, j: Snapshot)
    requires j.completed == []
    requires |main| >= 1 && main[|main| - 1] == Complete
    requires forall s :: s in main ==> !Fails(s, modelType, env)
    requires exists s :: s in cleanup && Fails(s, modelType, env)
    ensures var r := Execute(main + cleanup, modelType, env, j);
      Complete in r.completed && r.status == TrainingFailed && r.score == Some(env.score)
  {
    var plan := main + cleanup;
    var k := FirstFailure(plan, modelType, env);
    var c :| c in cleanup && Fails(c, modelType, env);
    var ci :| 0 <= ci < |cleanup| && cleanup[ci] == c;
    assert plan[|main| + ci] == c;
    assert plan[..k] == main + cleanup[..k - |main|];
    assert plan[..k][|main| - 1] == Complete;
    ApplyRecords(plan[..k], modelType, env, j);
  }

  /** What the job records follows the stages it got through: the rows
      requested once generation ran, the rows counted once the synthetic
      record was written, the model record once it was created. */
  lemma JobRecords(stages: seq<Stage>, modelType: string, env: Env, j: Snapshot)
    requires j.completed == []
    ensures var r := Execute(stages, modelType, env, j);
      (Generate in r.completed ==> r.requestedRows == Some(env.numRows)) &&
      (RecordSynthetic in r.completed ==> r.syntheticRows == Some(env.generatedRows)) &&
      (Complete in r.completed ==> r.score == Some(env.score)) &&
      (CreateModelRecord in r.completed ==>
         r.modelRecord == Some(ModelRecord(ModelId(modelType, env.modelUuid), ModelExtension(modelType), modelType)))
  {
    var k := FirstFailure(stages, modelType, env);
    ExecuteFields(stages, modelType, env, j);
    ApplyRecords(stages[..k], modelType, env, j);
  }

  /** A completed job has run every stage of its plan, and so has
      recorded the requested rows, the synthetic rows and the score. */
  lemma CompletedJobRecordsAll(modelType: string, env: Env, j: Snapshot)
    requires j.completed == []
    ensures var r := Execute(Plan(modelType), modelType, env, j);
      r.status == Completed ==>
        r.completed == Plan(modelType) &&
        r.requestedRows == Some(env.numRows) && r.syntheticRows == Some(env.generatedRows) && r.score == Some(env.score)
  {
    var plan := Plan(modelType);
    ExecuteFields(plan, modelType, env, j);
    assert plan[..|plan|] == plan;
    PlanMembers(modelType);
    JobRecords(plan, modelType, env, j);
  }

  /** The log record holds the header from its creation until training
      runs, and what training wrote from then on, including when training
      raises; the failure handler adds nothing to it. */
  lemma JobLog(modelType: string, env: Env, j: Snapshot)
    requires j.completed == []
    ensures var r := Execute(Plan(modelType), modelType, env, j);
      (CreateLogRecord !in r.completed ==> r.logData == j.logData) &&
      (CreateLogRecord in r.completed && LinkRecords !in r.completed ==> r.logData == Some(LogHeader)) &&
      (LinkRecords in r.completed ==> r.logData == Some(CapturedLog(LogHeader, Output(modelType, env))))
  {
    PlanShape(modelType);
    LogAfterHead(Middle(modelType) + Cleanup(modelType), modelType, env, j);
    assert Plan(modelType) == Head + (Middle(modelType) + Cleanup(modelType));
  }

  lemma LogAfterHead(rest: seq<Stage>, modelType: string, env: Env, j: Snapshot)
    requires j.completed == []
    requires forall s :: s in rest ==> s != CreateLogRecord && s != Train && s != LinkRecords
    ensures var r := Execute(Head + rest, modelType, env, j);
      (CreateLogRecord !in r.completed ==> r.logData == j.logData) &&
      (CreateLogRecord in r.completed && LinkRecords !in r.completed ==> r.logData == Some(LogHeader)) &&
      (LinkRecords in r.completed ==> r.logData == Some(CapturedLog(LogHeader, Output(modelType, env))))
  {
    var plan := Head + rest;
    var k := FirstFailure(plan, modelType, env);
    ExecuteFields(plan, modelType, env, j);
    if k <= 3 {
      LogBeforeTraining(rest, k, modelType, env, j);
    } else {
      LogAfterTraining(rest, k, modelType, env, j);
    }
  }

  /** The log while the run stops before training. */
  lemma LogBeforeTraining(rest: seq<Stage>, k: nat, modelType: string, env: Env, j: Snapshot)
    requires k <= 3
    ensures var a := Apply((Head + rest)[..k], modelType, env, j);
      (Head + rest)[k] != Train &&
      (CreateLogRecord !in (Head + rest)[..k] ==> a.logData == j.logData) &&
      (CreateLogRecord in (Head + rest)[..k] ==> LinkRecords !in (Head + rest)[..k] && a.logData == Some(LogHeader))
  {
    var plan := Head + rest;
    if k <= 2 {
      assert plan[..k] == Head[..k];
      assert CreateLogRecord !in plan[..k] && Train !in plan[..k];
      ApplyKeepsLog(plan[..k], modelType, env, j);
    } else {
      assert plan[..k] == Head[..2] + [CreateLogRecord];
      ApplyKeepsLog(Head[..2], modelType, env, j);
    }
  }

  /** The log once the run reaches training. */
  lemma LogAfterTraining(rest: seq<Stage>, k: nat, modelType: string, env: Env, j: Snapshot)
    requires 4 <= k <= |Head + rest|
    requires forall s :: s in rest ==> s != CreateLogRecord && s != Train
    ensures var plan := Head + rest;
      var a := Apply(plan[..k], modelType, env, j);
      CreateLogRecord in plan[..k] && LinkRecords in plan[..k] &&
      (k == 4 ==> plan[k] == Train) &&
      (k > 4 ==> a.logData == Some(CapturedLog(LogHeader, Output(modelType, env))) && (k < |plan| ==> plan[k] != Train))
  {
    var plan := Head + rest;
    assert plan[..k][2] == CreateLogRecord && plan[..k][3] == LinkRecords;
    if k > 4 {
      LogKeptAfterTraining(rest, k, modelType, env, j);
      if k < |plan| {
        if k < |Head| {
          assert plan[k] == UploadModel;
        } else {
          assert plan[k] == rest[k - |Head|] && rest[k - |Head|] in rest;
        }
      }
    }
  }

  /** Past training, no stage touches the log. */
  lemma LogKeptAfterTraining(rest: seq<Stage>, k: nat, modelType: string, env: Env, j: Snapshot)
    requires 4 < k <= |Head + rest|
    requires forall s :: s in rest ==> s != CreateLogRecord && s != Train
    ensures Apply((Head + rest)[..k], modelType, env, j).logData == Some(CapturedLog(LogHeader, Output(modelType, env)))
  {
    var plan := Head + rest;
    var tail := plan[5..k];
    assert plan[..k] == Head[..5] + tail;
    assert Head[..5] == Head[..4] + [Train];
    assert forall s :: s in tail ==> s == UploadModel || s in rest;
    ApplyAppend(Head[..5], tail, modelType, env, j);
    ApplyKeepsLog(tail, modelType, env, Apply(Head[..5], modelType, env, j));
  }

  /** A model type neither trainer knows trains nothing, raises at the
      model upload, and so fails before completing, with nothing removed
      and only the header in its log. */
  lemma UnknownModelTypeFails(modelType: string, env: Env, j: Snapshot)
    requires modelType != "ctgan" && modelType != "dgan"
    requires j.completed == []
    ensures var r := Execute(Plan(modelType), modelType, env, j);
      r.status == TrainingFailed && Complete !in r.completed && r.removed == j.removed &&
      (LinkRecords in r.completed ==> r.logData == Some(LogHeader))
  {
    var plan := Plan(modelType);
    var k := FirstFailure(plan, modelType, env);
    assert plan[5] == UploadModel;
    assert k <= 5;
    ExecuteFields(plan, modelType, env, j);
    assert plan[..k] == Head[..k];
    assert Complete !in Head;
    JobCleanup(modelType, env, j);
    JobLog(modelType, env, j);
  }
}
