/** The prediction orchestrator (sensor/pipeline/prediction_pipeline.py): download a batch,
    drop the schema's unused columns, validate it, pull and load the latest saved model, add
    its predictions as a column, write the result under the batch's own file name, push the
    run's artifact folder to S3 and report where the output went.  Downloads, CSV parsing,
    the model resolver and the model's `predict` are collaborators given as an environment;
    every file and S3 effect is recorded in a trace.  The saved-model pull is modelled working,
    as an `S3Sync` call; `PredictionAsWritten` is the run with the pull as the source writes it. */
module PredictionPipeline {
  import opened Outcomes
  import opened Effects
  import opened Frames
  import Paths
  import S3Utils
  import V = PredictionDataValidation

  const PredictedColumn := "predicted_column"
  const ModelNotAvailable := "Model not available"
  const NoDataFileName := "'PredictionPipeline' object has no attribute 'data_file_name'"
  const SuccessPrefix := "Prediction successful. Output at "
  const DriftAdvisory := ". Datadrift detected. Retrain model for better results"

  /** `PredictionPipelineConfig` and the constants the pipeline reads. */
  datatype PredictionPipelineConfig = PredictionPipelineConfig(
    inputDir: string,
    outputDir: string,
    predictionArtifactDir: string,
    timeStamp: string,
    validation: V.ValidationConfig,
    names: S3Utils.S3Names)

  /** What the pipeline meets outside the model: whether `os.makedirs` can create the input
      directory, whether `urlretrieve` succeeds, what `read_csv` makes of the downloaded file,
      what the validator finds, what `ModelResolver` reports, whether `load_object` can load
      the latest model, the loaded model's `predict` (by model path),
      `TargetValueMapping().reverse_mapping()`, and whether `os.makedirs` can create the output
      directory and `to_csv` can write the output file. */
  datatype Environment = Environment(
    makeInputDir: Outcome,
    download: Outcome,
    csv: Result<Table>,
    baseline: V.Baseline,
    modelExists: bool,
    latestModelPath: string,
    loadModel: Outcome,
    predict: (string, Table) -> Result<seq<Cell>>,
    reverseMapping: map<Cell, Cell>,
    makeOutputDir: Outcome,
    writeOutput: Outcome)

  /** `read_csv` only ever produces well-formed frames. */
  ghost predicate Parsed(env: Environment)
  {
    env.csv.Success? ==> WellFormed(env.csv.value)
  }

  function InputFilePath(cfg: PredictionPipelineConfig, url: string): string
  {
    Paths.Join(cfg.inputDir, Paths.Basename(url))
  }

  function OutputFilePath(cfg: PredictionPipelineConfig, url: string): string
  {
    Paths.Join(cfg.outputDir, Paths.Basename(url))
  }

  /** Where the output of a run shows up in the prediction bucket. */
  function S3OutputFile(cfg: PredictionPipelineConfig, url: string): string
  {
    S3Utils.GetPredictedS3Filepath(cfg.names, cfg.timeStamp, Paths.Basename(url))
  }

  /** The in- and output files and the S3 output file all carry the download's file name. */
  lemma SharedFileName(cfg: PredictionPipelineConfig, url: string)
    ensures Paths.Basename(InputFilePath(cfg, url)) == Paths.Basename(url)
    ensures Paths.Basename(OutputFilePath(cfg, url)) == Paths.Basename(url)
    ensures Paths.Basename(S3OutputFile(cfg, url)) == Paths.Basename(url)
  {
    var name := Paths.Basename(url);
    Paths.BasenameOfJoin(cfg.inputDir, name);
    Paths.BasenameOfJoin(cfg.outputDir, name);
    var n := cfg.names;
    var prefix := "s3://" + n.predictionBucketName + "/" + n.artifactDir + "/" + cfg.timeStamp + "/" + n.predictionOutputFolder;
    assert S3OutputFile(cfg, url) == prefix + "/" + name;
    Paths.BasenameAfterSlash(prefix, name);
  }

  datatype Loaded = Loaded(result: Result<Table>, effects: seq<Event>)

  /** `load_input_data`: create `input_dir`, download to `input_dir/<basename of url>`, parse,
      drop the schema's `drop_columns`; its effects are appended to those of `trace`. */
  function LoadInput(cfg: PredictionPipelineConfig, url: string, schema: V.Schema, env: Environment, trace: seq<Event>): Loaded
    requires Parsed(env)
  {
    match env.makeInputDir
    case Fail(e) => Loaded(Failure(SensorException(e)), trace)
    case Pass =>
    var path := InputFilePath(cfg, url);
    var fetched := trace + [Download(url, path)];
    match env.download
    case Fail(e) => Loaded(Failure(SensorException(e)), fetched)
    case Pass =>
      var read := fetched + [ReadCsv(path)];
      match env.csv
      case Failure(e) => Loaded(Failure(SensorException(e)), read)
      case Success(t) => Loaded(Wrap(DropColumns(t, schema.dropColumns)), read)
  }

  datatype ModelLoad = ModelLoad(result: Result<string>, effects: seq<Event>)

  /** `load_model` with its pull working: pull the saved models, then load the latest one if
      there is any; a failing `load_object` is wrapped like the missing model. */
  function LoadModelSpec(cfg: PredictionPipelineConfig, env: Environment, trace: seq<Event>): ModelLoad
  {
    var pulled := trace + [Synced(S3Utils.SyncSavedModelDirFromS3(cfg.names))];
    if !env.modelExists then ModelLoad(Failure(SensorException(Exception(ModelNotAvailable))), pulled)
    else
      var loading := pulled + [LoadObject(env.latestModelPath)];
      match env.loadModel
      case Fail(e) => ModelLoad(Failure(SensorException(e)), loading)
      case Pass => ModelLoad(Success(env.latestModelPath), loading)
  }

  /** `predict_the_output`: the frame with a `predicted_column` holding the predictions,
      then decoded through the reverse target mapping. */
  function PredictedTable(t: Table, model: string, env: Environment): Result<Table>
    requires WellFormed(t)
  {
    match env.predict(model, t)
    case Failure(e) => Failure(SensorException(e))
    case Success(yPred) =>
      match SetColumn(t, PredictedColumn, yPred)
      case Failure(e) => Failure(SensorException(e))
      case Success(u) => Success(u.(data := u.data[PredictedColumn := Replace(u.data[PredictedColumn], env.reverseMapping)]))
  }

  /** The predicted frame is the input frame with one more column (or the old
      `predicted_column` overwritten in place) holding the decoded predictions, every other
      column as it was; it fails exactly when `predict` fails or returns the wrong number of
      predictions for a non-empty frame. */
  lemma PredictedTableContents(t: Table, model: string, env: Environment)
    requires WellFormed(t)
    ensures PredictedTable(t, model, env).Failure? <==>
      || env.predict(model, t).Failure?
      || (|env.predict(model, t).value| != t.rows && !(t.rows == 0 && |env.predict(model, t).value| > 0))
    ensures PredictedTable(t, model, env).Success? ==>
      var u := PredictedTable(t, model, env).value;
      var yPred := env.predict(model, t).value;
      && WellFormed(u)
      && u.columns == (if PredictedColumn in t.columns then t.columns else t.columns + [PredictedColumn])
      && PredictedColumn in u.data
      && u.data[PredictedColumn] == Replace(yPred, env.reverseMapping)
      && (t.rows > 0 ==> forall c :: c in t.data && c != PredictedColumn ==> c in u.data && u.data[c] == t.data[c])
  {
  }

  /** The message `run_pipeline` returns: as written, the drift advisory is added when the
      validator's status is `False`. */
  function ResultMessage(s3OutputFile: string, status: bool): string
  {
    if !status then SuccessPrefix + s3OutputFile + DriftAdvisory
    else SuccessPrefix + s3OutputFile
  }

  datatype PredictionRun = PredictionRun(result: Result<string>, effects: seq<Event>)

  /** `run_pipeline` from the loaded frame on: validate, load the model, predict, save,
      push, report.  Every failure is wrapped once by the step that raised and once more by
      `run_pipeline`. */
  function AfterLoad(cfg: PredictionPipelineConfig, url: string, schema: V.Schema, env: Environment,
                     input: Table, trace: seq<Event>): PredictionRun
    requires WellFormed(input)
  {
    var v := V.DataValidation(cfg.validation, schema, input.columns, env.baseline);
    var validated := trace + v.effects;
    match v.result
    case Failure(e) => PredictionRun(Failure(SensorException(e)), validated)
    case Success(status) =>
      var m := LoadModelSpec(cfg, env, validated);
      match m.result
      case Failure(e) => PredictionRun(Failure(SensorException(e)), m.effects)
      case Success(model) =>
        match PredictedTable(input, model, env)
        case Failure(e) => PredictionRun(Failure(SensorException(e)), m.effects)
        case Success(output) =>
          match env.makeOutputDir
          case Fail(e) => PredictionRun(Failure(SensorException(SensorException(e))), m.effects)
          case Pass =>
            match env.writeOutput
            case Fail(e) => PredictionRun(Failure(SensorException(SensorException(e))), m.effects)
            case Pass =>
              var written := m.effects + [WriteCsv(OutputFilePath(cfg, url), output)];
              var pushed := written + [Synced(S3Utils.SyncPredictionArtifactDirToS3(cfg.names, cfg.predictionArtifactDir, cfg.timeStamp))];
              PredictionRun(Success(ResultMessage(S3OutputFile(cfg, url), status)), pushed)
  }

  /** `run_pipeline`: load the input, then go on from the loaded frame; the effects of the
      run are appended to those of `trace`. */
  function Prediction(cfg: PredictionPipelineConfig, url: string, schema: V.Schema, env: Environment, trace: seq<Event>): PredictionRun
    requires Parsed(env)
  {
    var loaded := LoadInput(cfg, url, schema, env, trace);
    match loaded.result
    case Failure(e) => PredictionRun(Failure(SensorException(e)), loaded.effects)
    case Success(input) => AfterLoad(cfg, url, schema, env, input, loaded.effects)
  }

  /** Whether a run sets `output_file_path`: its input loads and validates, a model is
      available and loads, the prediction column is added, and `save_result` creates the output
      directory. */
  predicate SetsOutputPath(cfg: PredictionPipelineConfig, url: string, schema: V.Schema, env: Environment)
    requires Parsed(env)
  {
    var loaded := LoadInput(cfg, url, schema, env, []);
    && loaded.result.Success?
    && V.DataValidation(cfg.validation, schema, loaded.result.value.columns, env.baseline).result.Success?
    && env.modelExists
    && env.loadModel.Pass?
    && PredictedTable(loaded.result.value, env.latestModelPath, env).Success?
    && env.makeOutputDir.Pass?
  }

  /** The validated frame of a run whose input loaded. */
  function InputTable(cfg: PredictionPipelineConfig, url: string, schema: V.Schema, env: Environment): Table
    requires Parsed(env) && LoadInput(cfg, url, schema, env, []).result.Success?
  {
    LoadInput(cfg, url, schema, env, []).result.value
  }

  /** The status the validator reports on the loaded frame. */
  function Status(cfg: PredictionPipelineConfig, url: string, schema: V.Schema, env: Environment): Result<bool>
    requires Parsed(env) && LoadInput(cfg, url, schema, env, []).result.Success?
  {
    V.DataValidation(cfg.validation, schema, InputTable(cfg, url, schema, env).columns, env.baseline).result
  }

  /** As written, the drift advisory is returned exactly when the validator reports no drift,
      that is when no compared column's p-value fell below the threshold; both messages name
      the S3 output file. */
  lemma AdvisoryIffNoDrift(cfg: PredictionPipelineConfig, url: string, schema: V.Schema, env: Environment, trace: seq<Event>)
    requires Parsed(env) && Prediction(cfg, url, schema, env, trace).result.Success?
    ensures LoadInput(cfg, url, schema, env, []).result.Success?
    ensures Status(cfg, url, schema, env).Success?
    ensures var msg := Prediction(cfg, url, schema, env, trace).result.value;
      var status := Status(cfg, url, schema, env).value;
      && (msg == SuccessPrefix + S3OutputFile(cfg, url) + DriftAdvisory <==> !status)
      && (msg == SuccessPrefix + S3OutputFile(cfg, url) <==> status)
  {
  }

  /** Nothing after a failed validation runs: no model is pulled or loaded, nothing is
      written and nothing pushed. */
  lemma ValidationFailureStopsPipeline(cfg: PredictionPipelineConfig, url: string, schema: V.Schema, env: Environment, trace: seq<Event>)
    requires Parsed(env) && LoadInput(cfg, url, schema, env, []).result.Success?
    requires Status(cfg, url, schema, env).Failure?
    ensures Prediction(cfg, url, schema, env, trace).result.Failure?
    ensures forall e :: e in Prediction(cfg, url, schema, env, trace).effects ==>
      e in trace || (!e.Synced? && !e.LoadObject? && !e.WriteCsv?)
  {
    var t := InputTable(cfg, url, schema, env);
    var v := V.DataValidation(cfg.validation, schema, t.columns, env.baseline);
    var loaded := LoadInput(cfg, url, schema, env, trace);
    assert loaded.result == Success(t);
    var run := Prediction(cfg, url, schema, env, trace);
    assert run.effects == loaded.effects + v.effects;
    V.ValidationEffects(cfg.validation, schema, t.columns, env.baseline);
    forall e | e in run.effects ensures e in trace || (!e.Synced? && !e.LoadObject? && !e.WriteCsv?) {
      assert e in trace || e.Download? || e.ReadCsv? || e in v.effects;
    }
  }

  /** The "model not available" guard: with validation passed and no saved model, the run
      fails with that message after the pull, and loads nothing; with a model, the latest one
      is the one loaded. */
  lemma ModelGuard(cfg: PredictionPipelineConfig, url: string, schema: V.Schema, env: Environment, trace: seq<Event>)
    requires Parsed(env) && LoadInput(cfg, url, schema, env, []).result.Success?
    requires Status(cfg, url, schema, env).Success?
    ensures !env.modelExists ==>
      && Prediction(cfg, url, schema, env, trace).result == Failure(SensorException(SensorException(Exception(ModelNotAvailable))))
      && (forall e :: e in Prediction(cfg, url, schema, env, trace).effects ==> e in trace || (!e.LoadObject? && !e.WriteCsv?))
    ensures env.modelExists ==> LoadObject(env.latestModelPath) in Prediction(cfg, url, schema, env, trace).effects
  {
    var t := InputTable(cfg, url, schema, env);
    var v := V.DataValidation(cfg.validation, schema, t.columns, env.baseline);
    var loaded := LoadInput(cfg, url, schema, env, trace);
    assert loaded.result == Success(t);
    var m := LoadModelSpec(cfg, env, loaded.effects + v.effects);
    V.ValidationEffects(cfg.validation, schema, t.columns, env.baseline);
    if !env.modelExists {
      assert Prediction(cfg, url, schema, env, trace).effects == loaded.effects + v.effects + m.effects[|m.effects| - 1..];
      forall e | e in Prediction(cfg, url, schema, env, trace).effects ensures e in trace || (!e.LoadObject? && !e.WriteCsv?) {
        assert e in trace || e.Download? || e.ReadCsv? || e in v.effects || e.Synced?;
      }
    } else {
      assert m.effects[|m.effects| - 1] == LoadObject(env.latestModelPath);
    }
  }

  /** A saved model that `load_object` cannot load stops a validated run after the pull and
      the load attempt, with the loader's error wrapped by `load_model` and by `run_pipeline`,
      before anything is written. */
  lemma ModelLoadFailureStopsPipeline(cfg: PredictionPipelineConfig, url: string, schema: V.Schema, env: Environment, trace: seq<Event>)
    requires Parsed(env) && LoadInput(cfg, url, schema, env, []).result.Success?
    requires Status(cfg, url, schema, env).Success?
    requires env.modelExists && env.loadModel.Fail?
    ensures Prediction(cfg, url, schema, env, trace).result == Failure(SensorException(SensorException(env.loadModel.error)))
    ensures var fx := Prediction(cfg, url, schema, env, trace).effects;
      && |fx| >= 2
      && fx[|fx| - 2] == Synced(S3Utils.SyncSavedModelDirFromS3(cfg.names))
      && fx[|fx| - 1] == LoadObject(env.latestModelPath)
    ensures forall e :: e in Prediction(cfg, url, schema, env, trace).effects ==> e in trace || !e.WriteCsv?
  {
    var t := InputTable(cfg, url, schema, env);
    var v := V.DataValidation(cfg.validation, schema, t.columns, env.baseline);
    var loaded := LoadInput(cfg, url, schema, env, trace);
    assert loaded.result == Success(t);
    assert v.result == Status(cfg, url, schema, env);
    var m := LoadModelSpec(cfg, env, loaded.effects + v.effects);
    var fx := Prediction(cfg, url, schema, env, trace).effects;
    assert fx == m.effects == loaded.effects + v.effects + m.effects[|m.effects| - 2..];
    V.ValidationEffects(cfg.validation, schema, t.columns, env.baseline);
    forall e | e in fx ensures e in trace || !e.WriteCsv? {
      assert e in trace || e.Download? || e.ReadCsv? || e in v.effects || e.Synced? || e.LoadObject?;
    }
  }

  /** A successful run ends by writing the predicted frame to the output file and pushing the
      prediction artifact folder, and the S3 file it reports lies inside the pushed folder. */
  lemma SuccessfulRunEnding(cfg: PredictionPipelineConfig, url: string, schema: V.Schema, env: Environment, trace: seq<Event>)
    requires Parsed(env) && Prediction(cfg, url, schema, env, trace).result.Success?
    ensures var fx := Prediction(cfg, url, schema, env, trace).effects;
      && |fx| >= 2
      && fx[|fx| - 2].WriteCsv? && fx[|fx| - 2].path == OutputFilePath(cfg, url)
      && PredictedColumn in fx[|fx| - 2].table.columns
      && fx[|fx| - 1] == Synced(S3Utils.SyncPredictionArtifactDirToS3(cfg.names, cfg.predictionArtifactDir, cfg.timeStamp))
      && S3OutputFile(cfg, url) == fx[|fx| - 1].sync.url + "/" + cfg.names.predictionOutputFolder + "/" + Paths.Basename(url)
  {
    var loaded := LoadInput(cfg, url, schema, env, trace);
    assert loaded.result.Success?;
    var t := loaded.result.value;
    var v := V.DataValidation(cfg.validation, schema, t.columns, env.baseline);
    var m := LoadModelSpec(cfg, env, loaded.effects + v.effects);
    assert v.result.Success? && m.result.Success?;
    var output := PredictedTable(t, m.result.value, env);
    PredictedTableContents(t, m.result.value, env);
    assert output.Success?;
    S3Utils.PredictedFileInPushedFolder(cfg.names, cfg.predictionArtifactDir, cfg.timeStamp, Paths.Basename(url));
  }

  // ---------------------------------------------------------------------------------------
  // `run_pipeline` as written: `load_model` starts with `sync_saved_model_dir_from_s3()`, which
  // raises (see `S3Utils.RunAsWritten`).  The rest of this module models the pipeline with that
  // helper working, as the training pipeline's syncs do.

  /** `run_pipeline` as written: the same steps up to `load_model`, whose pull raises before
      the model resolver is asked. */
  function PredictionAsWritten(cfg: PredictionPipelineConfig, url: string, schema: V.Schema, env: Environment,
                               trace: seq<Event>): PredictionRun
    requires Parsed(env)
  {
    var loaded := LoadInput(cfg, url, schema, env, trace);
    match loaded.result
    case Failure(e) => PredictionRun(Failure(SensorException(e)), loaded.effects)
    case Success(input) =>
      var v := V.DataValidation(cfg.validation, schema, input.columns, env.baseline);
      var validated := loaded.effects + v.effects;
      match v.result
      case Failure(e) => PredictionRun(Failure(SensorException(e)), validated)
      case Success(_) =>
        var pull := S3Utils.RunAsWritten(S3Utils.SyncSavedModelDirFromS3(cfg.names));
        PredictionRun(Failure(SensorException(SensorException(pull.error))), validated)
  }

  /** As written no prediction run succeeds, whatever the batch, the saved models and the
      predictions: a run whose input loads and validates fails in `load_model` with the
      wrapped `NameError`, having pulled, loaded, written and pushed nothing; a run that fails
      earlier fails as the working pipeline does. */
  lemma NoRunSucceedsAsWritten(cfg: PredictionPipelineConfig, url: string, schema: V.Schema, env: Environment, trace: seq<Event>)
    requires Parsed(env)
    ensures PredictionAsWritten(cfg, url, schema, env, trace).result.Failure?
    ensures LoadInput(cfg, url, schema, env, []).result.Success? && Status(cfg, url, schema, env).Success? ==>
      && PredictionAsWritten(cfg, url, schema, env, trace).result
         == Failure(SensorException(SensorException(SensorException(NameError("sync_folder_from_s3")))))
      && forall e :: e in PredictionAsWritten(cfg, url, schema, env, trace).effects ==>
           e in trace || (!e.Synced? && !e.LoadObject? && !e.WriteCsv?)
    ensures LoadInput(cfg, url, schema, env, []).result.Failure? || Status(cfg, url, schema, env).Failure? ==>
      PredictionAsWritten(cfg, url, schema, env, trace) == Prediction(cfg, url, schema, env, trace)
  {
    var loaded := LoadInput(cfg, url, schema, env, trace);
    if loaded.result.Success? {
      var t := loaded.result.value;
      assert LoadInput(cfg, url, schema, env, []).result == Success(t);
      var v := V.DataValidation(cfg.validation, schema, t.columns, env.baseline);
      V.ValidationEffects(cfg.validation, schema, t.columns, env.baseline);
      var run := PredictionAsWritten(cfg, url, schema, env, trace);
      if v.result.Success? {
        assert run.effects == loaded.effects + v.effects;
        forall e | e in run.effects ensures e in trace || (!e.Synced? && !e.LoadObject? && !e.WriteCsv?) {
          assert e in trace || e.Download? || e.ReadCsv? || e in v.effects;
        }
      }
    }
  }

  /** With the pull working, a run whose input loads and validates, with a loadable saved
      model whose predictions number one per row and a writable output, succeeds: it pulls the saved
      models, loads the latest one and reports the S3 output file. */
  lemma IntendedRunSucceeds(cfg: PredictionPipelineConfig, url: string, schema: V.Schema, env: Environment, trace: seq<Event>)
    requires Parsed(env) && LoadInput(cfg, url, schema, env, []).result.Success?
    requires Status(cfg, url, schema, env).Success?
    requires env.modelExists && env.loadModel.Pass?
    requires env.predict(env.latestModelPath, InputTable(cfg, url, schema, env)).Success?
    requires |env.predict(env.latestModelPath, InputTable(cfg, url, schema, env)).value| == InputTable(cfg, url, schema, env).rows
    requires env.makeOutputDir.Pass? && env.writeOutput.Pass?
    ensures Prediction(cfg, url, schema, env, trace).result
         == Success(ResultMessage(S3OutputFile(cfg, url), Status(cfg, url, schema, env).value))
    ensures Synced(S3Utils.SyncSavedModelDirFromS3(cfg.names)) in Prediction(cfg, url, schema, env, trace).effects
    ensures LoadObject(env.latestModelPath) in Prediction(cfg, url, schema, env, trace).effects
  {
    var t := InputTable(cfg, url, schema, env);
    var loaded := LoadInput(cfg, url, schema, env, trace);
    assert loaded.result == LoadInput(cfg, url, schema, env, []).result == Success(t);
    var v := V.DataValidation(cfg.validation, schema, t.columns, env.baseline);
    assert v.result == Status(cfg, url, schema, env);
    var validated := loaded.effects + v.effects;
    var m := LoadModelSpec(cfg, env, validated);
    assert m.result == Success(env.latestModelPath);
    var pull := Synced(S3Utils.SyncSavedModelDirFromS3(cfg.names));
    assert m.effects == validated + [pull] + [LoadObject(env.latestModelPath)];
    PredictedTableContents(t, env.latestModelPath, env);
    var output := PredictedTable(t, env.latestModelPath, env);
    assert output.Success?;
    var push := Synced(S3Utils.SyncPredictionArtifactDirToS3(cfg.names, cfg.predictionArtifactDir, cfg.timeStamp));
    var run := AfterLoad(cfg, url, schema, env, t, loaded.effects);
    assert run.effects == m.effects + [WriteCsv(OutputFilePath(cfg, url), output.value)] + [push];
    assert Prediction(cfg, url, schema, env, trace) == run;
  }

  /** A pandas DataFrame object, updated in place by `predict_the_output`. */
  class DataFrame {
    var table: Table

    constructor (t: Table)
      ensures table == t
    {
      table := t;
    }
  }

  class PredictionPipeline {
    const config: PredictionPipelineConfig
    const downloadUrl: string
    const schema: V.Schema
    var dataFileName: Option<string>
    var inputFilePath: Option<string>
    var outputFilePath: Option<string>
    var trace: seq<Event>

    constructor (config: PredictionPipelineConfig, remoteInputFilePath: string, schema: V.Schema)
      ensures this.config == config && downloadUrl == remoteInputFilePath && this.schema == schema
      ensures dataFileName == None && inputFilePath == None && outputFilePath == None && trace == []
    {
      this.config := config;
      downloadUrl := remoteInputFilePath;
      this.schema := schema;
      dataFileName := None;
      inputFilePath := None;
      outputFilePath := None;
      trace := [];
    }

    method LoadInputData(env: Environment) returns (r: Result<DataFrame>)
      requires Parsed(env)
      modifies this
      ensures env.makeInputDir.Pass? ==>
        dataFileName == Some(Paths.Basename(downloadUrl)) && inputFilePath == Some(InputFilePath(config, downloadUrl))
      ensures env.makeInputDir.Fail? ==> dataFileName == old(dataFileName) && inputFilePath == old(inputFilePath)
      ensures outputFilePath == old(outputFilePath)
      ensures var l := LoadInput(config, downloadUrl, schema, env, old(trace));
        && trace == l.effects
        && (l.result.Failure? ==> r == Failure(l.result.error))
        && (l.result.Success? ==> r.Success? && fresh(r.value) && r.value.table == l.result.value)
    {
      if env.makeInputDir.Fail? {
        return Failure(SensorException(env.makeInputDir.error));
      }
      dataFileName := Some(Paths.Basename(downloadUrl));
      var path := Paths.Join(config.inputDir, dataFileName.value);
      inputFilePath := Some(path);
      trace := trace + [Download(downloadUrl, path)];
      if env.download.Fail? {
        return Failure(SensorException(env.download.error));
      }
      trace := trace + [ReadCsv(path)];
      if env.csv.Failure? {
        return Failure(SensorException(env.csv.error));
      }
      var dropped := DropColumns(env.csv.value, schema.dropColumns);
      if dropped.Failure? {
        return Failure(SensorException(dropped.error));
      }
      var df := new DataFrame(dropped.value);
      r := Success(df);
    }

    method LoadModel(env: Environment) returns (r: Result<string>)
      modifies this
      ensures dataFileName == old(dataFileName) && inputFilePath == old(inputFilePath)
      ensures outputFilePath == old(outputFilePath)
      ensures var m := LoadModelSpec(config, env, old(trace)); r == m.result && trace == m.effects
    {
      trace := trace + [Synced(S3Utils.SyncSavedModelDirFromS3(config.names))];
      if !env.modelExists {
        return Failure(SensorException(Exception(ModelNotAvailable)));
      }
      trace := trace + [LoadObject(env.latestModelPath)];
      if env.loadModel.Fail? {
        return Failure(SensorException(env.loadModel.error));
      }
      r := Success(env.latestModelPath);
    }

    /** Adds the prediction column to `df` and decodes it, in place; on failure `df` is as it was. */
    method PredictTheOutput(df: DataFrame, model: string, env: Environment) returns (r: Result<DataFrame>)
      requires WellFormed(df.table)
      modifies df
      ensures var p := PredictedTable(old(df.table), model, env);
        && (p.Failure? ==> r == Failure(p.error) && df.table == old(df.table))
        && (p.Success? ==> r == Success(df) && df.table == p.value)
    {
      var yPred := env.predict(model, df.table);
      if yPred.Failure? {
        return Failure(SensorException(yPred.error));
      }
      var withColumn := SetColumn(df.table, PredictedColumn, yPred.value);
      if withColumn.Failure? {
        return Failure(SensorException(withColumn.error));
      }
      df.table := withColumn.value;
      df.table := df.table.(data := df.table.data[PredictedColumn := Replace(df.table.data[PredictedColumn], env.reverseMapping)]);
      r := Success(df);
    }

    /** Creates the output directory, then writes the frame to `output_dir/<data_file_name>`.
        A failing `os.makedirs` leaves everything as it was; without a file name (input never
        loaded) the attribute lookup fails next; the output path is set before `to_csv` runs,
        so it stays set when the write fails. */
    method SaveResult(df: DataFrame, env: Environment) returns (o: Outcome)
      modifies this
      ensures dataFileName == old(dataFileName) && inputFilePath == old(inputFilePath)
      ensures env.makeOutputDir.Fail? ==>
        o == Fail(SensorException(env.makeOutputDir.error)) && outputFilePath == old(outputFilePath) && trace == old(trace)
      ensures env.makeOutputDir.Pass? && dataFileName.None? ==>
        o == Fail(SensorException(AttributeError(NoDataFileName))) && outputFilePath == old(outputFilePath) && trace == old(trace)
      ensures env.makeOutputDir.Pass? && dataFileName.Some? ==>
        && outputFilePath == Some(Paths.Join(config.outputDir, dataFileName.value))
        && (env.writeOutput.Pass? ==> o == Pass && trace == old(trace) + [WriteCsv(outputFilePath.value, df.table)])
        && (env.writeOutput.Fail? ==> o == Fail(SensorException(env.writeOutput.error)) && trace == old(trace))
    {
      if env.makeOutputDir.Fail? {
        return Fail(SensorException(env.makeOutputDir.error));
      }
      if dataFileName.None? {
        return Fail(SensorException(AttributeError(NoDataFileName)));
      }
      outputFilePath := Some(Paths.Join(config.outputDir, dataFileName.value));
      if env.writeOutput.Fail? {
        return Fail(SensorException(env.writeOutput.error));
      }
      trace := trace + [WriteCsv(outputFilePath.value, df.table)];
      o := Pass;
    }

    method RunPipeline(env: Environment) returns (r: Result<string>)
      requires Parsed(env)
      modifies this
      ensures var run := Prediction(config, downloadUrl, schema, env, old(trace));
        r == run.result && trace == run.effects
      ensures dataFileName
           == if env.makeInputDir.Pass? then Some(Paths.Basename(downloadUrl)) else old(dataFileName)
      ensures inputFilePath
           == if env.makeInputDir.Pass? then Some(InputFilePath(config, downloadUrl)) else old(inputFilePath)
      ensures outputFilePath
           == if SetsOutputPath(config, downloadUrl, schema, env) then Some(OutputFilePath(config, downloadUrl)) else old(outputFilePath)
    {
      var loaded := LoadInputData(env);
      if loaded.Failure? {
        return Failure(SensorException(loaded.error));
      }
      var df := loaded.value;
      var status, validationEffects := V.InitiateDataValidation(config.validation, schema, df.table.columns, env.baseline);
      trace := trace + validationEffects;
      if status.Failure? {
        return Failure(SensorException(status.error));
      }
      var model := LoadModel(env);
      if model.Failure? {
        return Failure(SensorException(model.error));
      }
      var output := PredictTheOutput(df, model.value, env);
      if output.Failure? {
        return Failure(SensorException(output.error));
      }
      var saved := SaveResult(output.value, env);
      if saved.Fail? {
        return Failure(SensorException(saved.error));
      }
      trace := trace + [Synced(S3Utils.SyncPredictionArtifactDirToS3(config.names, config.predictionArtifactDir, config.timeStamp))];
      var s3OutputFile := S3Utils.GetPredictedS3Filepath(config.names, config.timeStamp, dataFileName.value);
      r := Success(ResultMessage(s3OutputFile, status.value));
    }
  }
}
