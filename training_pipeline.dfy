/** The training orchestrator (sensor/pipeline/training_pipeline.py): six stages run in a fixed
    order under a class-wide "pipeline running" flag, a rejected evaluation stops the run before
    the pusher, and the run's artifact folder is pushed to S3 whether the run succeeds or fails.
    The stage components are collaborators given as one function; the S3 syncs and the stage
    calls are recorded in a trace together with the flag's value when each happened. */
module TrainingPipeline {
  import opened Outcomes
  import opened Effects
  import S3Utils

  datatype Stage = Ingestion | Validation | Transformation | Training | Evaluation | Pushing

  /** The stages in the order `run_pipeline` calls them. */
  const StageOrder: seq<Stage> := [Ingestion, Validation, Transformation, Training, Evaluation, Pushing]

  /** What a stage hands on.  Only the evaluation stage's `is_model_accepted` is read here. */
  datatype Artifact = Artifact(id: nat, isModelAccepted: bool)

  /** `initiate_*` of each stage component, given the artifacts the stage is built with. */
  type Components = (Stage, seq<Artifact>) -> Result<Artifact>

  datatype Action = StageRun(stage: Stage, inputs: seq<Artifact>) | SyncRun(sync: Sync)

  /** An action, and the value `is_pipeline_running` had while it ran. */
  datatype Step = Step(action: Action, running: bool)

  datatype PipelineRun = PipelineRun(outcome: Outcome, steps: seq<Step>)

  const RejectedMessage := "Trained model is not better than the best model"

  /** `sync_artifact_dir_to_s3` of this file: the bucket path is the literal `artifact`,
      not the `ARTIFACT_DIR` constant that sensor/utils/s3_utils.py uses. */
  function ArtifactSync(n: S3Utils.S3Names, artifactDir: string, timeStamp: string): Sync
  {
    ToS3(artifactDir, "s3://" + n.trainingBucketName + "/artifact/" + timeStamp)
  }

  /** `sync_saved_model_dir_to_s3` of this file. */
  function SavedModelSync(n: S3Utils.S3Names): Sync
  {
    ToS3(n.savedModelDir, "s3://" + n.trainingBucketName + "/" + n.savedModelDir)
  }

  /** The pipeline's own artifact push is the one sensor/utils/s3_utils.py builds exactly
      when `ARTIFACT_DIR` is `artifact`. */
  lemma ArtifactSyncAgreesIff(n: S3Utils.S3Names, artifactDir: string, timeStamp: string)
    ensures ArtifactSync(n, artifactDir, timeStamp) == S3Utils.SyncArtifactDirToS3(n, artifactDir, timeStamp)
        <==> n.artifactDir == "artifact"
  {
    var p := "s3://" + n.trainingBucketName + "/";
    var mine := ArtifactSync(n, artifactDir, timeStamp).url;
    var theirs := S3Utils.SyncArtifactDirToS3(n, artifactDir, timeStamp).url;
    assert mine == p + ("artifact/" + timeStamp);
    assert theirs == p + (n.artifactDir + "/" + timeStamp);
    if mine == theirs {
      assert mine[|p|..] == "artifact/" + timeStamp;
      assert theirs[|p|..] == n.artifactDir + "/" + timeStamp;
      assert |n.artifactDir| == 8;
      assert ("artifact/" + timeStamp)[..8] == "artifact";
      assert (n.artifactDir + "/" + timeStamp)[..8] == n.artifactDir;
    }
  }

  /** The saved-model push of this file is the one sensor/utils/s3_utils.py builds. */
  lemma SavedModelSyncAgrees(n: S3Utils.S3Names)
    ensures SavedModelSync(n) == S3Utils.SyncSavedModelDirToS3(n)
  {
  }

  /** What the `try` block of `run_pipeline` did: the stage calls it made (all while the
      flag was set) and the exception that ended it, if any. */
  datatype TryRun = TryRun(error: Option<Error>, steps: seq<Step>)

  function Ran(stage: Stage, inputs: seq<Artifact>): Step
  {
    Step(StageRun(stage, inputs), true)
  }

  /** The `try` block: each `start_*` wraps its stage's exception in a `SensorException`;
      each stage is fed the artifacts of the stages it depends on. */
  function TryBlock(c: Components): TryRun
  {
    var s1 := [Ran(Ingestion, [])];
    match c(Ingestion, [])
    case Failure(e) => TryRun(Some(SensorException(e)), s1)
    case Success(ingestion) =>
      var s2 := s1 + [Ran(Validation, [ingestion])];
      match c(Validation, [ingestion])
      case Failure(e) => TryRun(Some(SensorException(e)), s2)
      case Success(validation) =>
        var s3 := s2 + [Ran(Transformation, [validation])];
        match c(Transformation, [validation])
        case Failure(e) => TryRun(Some(SensorException(e)), s3)
        case Success(transformation) =>
          var s4 := s3 + [Ran(Training, [transformation])];
          match c(Training, [transformation])
          case Failure(e) => TryRun(Some(SensorException(e)), s4)
          case Success(trainer) =>
            var s5 := s4 + [Ran(Evaluation, [validation, trainer])];
            match c(Evaluation, [validation, trainer])
            case Failure(e) => TryRun(Some(SensorException(e)), s5)
            case Success(evaluation) =>
              if !evaluation.isModelAccepted then TryRun(Some(Exception(RejectedMessage)), s5)
              else
                var s6 := s5 + [Ran(Pushing, [evaluation])];
                match c(Pushing, [evaluation])
                case Failure(e) => TryRun(Some(SensorException(e)), s6)
                case Success(_) => TryRun(None, s6)
  }

  /** `run_pipeline` as a whole.  On success the flag is cleared and then the artifact and
      saved-model folders are pushed; on failure only the artifact folder is pushed, while the
      flag is still set, and the exception is re-raised wrapped once more. */
  function RunPipelineSpec(c: Components, n: S3Utils.S3Names, artifactDir: string, timeStamp: string): PipelineRun
  {
    var t := TryBlock(c);
    match t.error
    case None =>
      PipelineRun(Pass, t.steps + [Step(SyncRun(ArtifactSync(n, artifactDir, timeStamp)), false),
                                   Step(SyncRun(SavedModelSync(n)), false)])
    case Some(e) =>
      PipelineRun(Fail(SensorException(e)), t.steps + [Step(SyncRun(ArtifactSync(n, artifactDir, timeStamp)), true)])
  }

  /** What stage `a` returned. */
  function Produced(c: Components, a: Action): Result<Artifact>
    requires a.StageRun?
  {
    c(a.stage, a.inputs)
  }

  /** The stages run in the fixed order, while the flag is set, each only after every earlier
      one succeeded, and each fed the artifacts of the right earlier stages: validation gets
      ingestion's, transformation validation's, the trainer transformation's, evaluation both
      validation's and the trainer's, and the pusher evaluation's. */
  lemma StagesInOrder(c: Components)
    ensures var s := TryBlock(c).steps;
      && 1 <= |s| <= |StageOrder|
      && (forall i :: 0 <= i < |s| ==> s[i].running && s[i].action.StageRun? && s[i].action.stage == StageOrder[i])
      && (forall i :: 0 <= i < |s| - 1 ==> Produced(c, s[i].action).Success?)
      && s[0].action.inputs == []
      && (|s| > 1 ==> s[1].action.inputs == [Produced(c, s[0].action).value])
      && (|s| > 2 ==> s[2].action.inputs == [Produced(c, s[1].action).value])
      && (|s| > 3 ==> s[3].action.inputs == [Produced(c, s[2].action).value])
      && (|s| > 4 ==> s[4].action.inputs == [Produced(c, s[1].action).value, Produced(c, s[3].action).value])
      && (|s| > 5 ==> s[5].action.inputs == [Produced(c, s[4].action).value])
  {
    var s := TryBlock(c).steps;
    match c(Ingestion, [])
    case Failure(_) =>
      assert s == [Ran(Ingestion, [])];
    case Success(a1) =>
      match c(Validation, [a1])
      case Failure(_) =>
        assert s == [Ran(Ingestion, []), Ran(Validation, [a1])];
      case Success(a2) =>
        match c(Transformation, [a2])
        case Failure(_) =>
          assert s == [Ran(Ingestion, []), Ran(Validation, [a1]), Ran(Transformation, [a2])];
        case Success(a3) =>
          match c(Training, [a3])
          case Failure(_) =>
            assert s == [Ran(Ingestion, []), Ran(Validation, [a1]), Ran(Transformation, [a2]), Ran(Training, [a3])];
          case Success(a4) =>
            var s5 := [Ran(Ingestion, []), Ran(Validation, [a1]), Ran(Transformation, [a2]), Ran(Training, [a3]),
                       Ran(Evaluation, [a2, a4])];
            if c(Evaluation, [a2, a4]).Failure? || !c(Evaluation, [a2, a4]).value.isModelAccepted {
              assert s == s5;
            } else {
              assert s == s5 + [Ran(Pushing, [c(Evaluation, [a2, a4]).value])];
            }
  }

  /** The pusher runs exactly when the first five stages succeed and the evaluation accepts
      the model; a rejection raises its own exception, stage failures arrive wrapped twice. */
  lemma PusherIffAccepted(c: Components, n: S3Utils.S3Names, artifactDir: string, timeStamp: string)
    ensures var s := TryBlock(c).steps;
      |s| == 6 <==>
        (forall i :: 0 <= i < 5 && i < |s| ==> Produced(c, s[i].action).Success?)
        && |s| >= 5 && Produced(c, s[4].action).value.isModelAccepted
    ensures var s := TryBlock(c).steps;
      |s| == 5 && Produced(c, s[4].action).Success? && !Produced(c, s[4].action).value.isModelAccepted
      ==> RunPipelineSpec(c, n, artifactDir, timeStamp).outcome == Fail(SensorException(Exception(RejectedMessage)))
    ensures var s := TryBlock(c).steps;
      Produced(c, s[|s| - 1].action).Failure?
      ==> RunPipelineSpec(c, n, artifactDir, timeStamp).outcome
          == Fail(SensorException(SensorException(Produced(c, s[|s| - 1].action).error)))
  {
    StagesInOrder(c);
  }

  /** Syncs by outcome: a successful run ends with the artifact push and then the saved-model
      push, both after the flag was cleared; a failed run ends with the artifact push alone,
      made while the flag was still set, so it never pushes the saved models. */
  lemma SyncsByOutcome(c: Components, n: S3Utils.S3Names, artifactDir: string, timeStamp: string)
    ensures var run := RunPipelineSpec(c, n, artifactDir, timeStamp);
      run.outcome.Pass? ==>
        && |run.steps| == 8
        && run.steps[6] == Step(SyncRun(ArtifactSync(n, artifactDir, timeStamp)), false)
        && run.steps[7] == Step(SyncRun(SavedModelSync(n)), false)
    ensures var run := RunPipelineSpec(c, n, artifactDir, timeStamp);
      run.outcome.Fail? ==>
        && run.steps[|run.steps| - 1] == Step(SyncRun(ArtifactSync(n, artifactDir, timeStamp)), true)
        && (forall i :: 0 <= i < |run.steps| - 1 ==> run.steps[i].action.StageRun?)
    ensures var run := RunPipelineSpec(c, n, artifactDir, timeStamp);
      run.outcome.Pass? ==> forall i :: 0 <= i < 6 ==> run.steps[i].action.StageRun?
  {
    StagesInOrder(c);
    var run := RunPipelineSpec(c, n, artifactDir, timeStamp);
    var t := TryBlock(c);
    assert forall i :: 0 <= i < |t.steps| ==> run.steps[i] == t.steps[i];
  }

  /** `TrainPipeline.is_pipeline_running`: one flag shared by every pipeline object. */
  class RunningFlag {
    var isPipelineRunning: bool

    constructor ()
      ensures !isPipelineRunning
    {
      isPipelineRunning := false;
    }
  }

  class TrainPipeline {
    const flag: RunningFlag
    const names: S3Utils.S3Names
    const artifactDir: string
    const timeStamp: string
    var trace: seq<Step>

    constructor (flag: RunningFlag, names: S3Utils.S3Names, artifactDir: string, timeStamp: string)
      ensures this.flag == flag && this.names == names
      ensures this.artifactDir == artifactDir && this.timeStamp == timeStamp
      ensures trace == []
    {
      this.flag := flag;
      this.names := names;
      this.artifactDir := artifactDir;
      this.timeStamp := timeStamp;
      trace := [];
    }

    /** One `start_*` wrapper. */
    method StartStage(c: Components, stage: Stage, inputs: seq<Artifact>) returns (r: Result<Artifact>)
      modifies this
      ensures r == Wrap(c(stage, inputs))
      ensures trace == old(trace) + [Step(StageRun(stage, inputs), flag.isPipelineRunning)]
    {
      trace := trace + [Step(StageRun(stage, inputs), flag.isPipelineRunning)];
      r := Wrap(c(stage, inputs));
    }

    method SyncArtifactDirToS3()
      modifies this
      ensures trace == old(trace) + [Step(SyncRun(ArtifactSync(names, artifactDir, timeStamp)), flag.isPipelineRunning)]
    {
      trace := trace + [Step(SyncRun(ArtifactSync(names, artifactDir, timeStamp)), flag.isPipelineRunning)];
    }

    method SyncSavedModelDirToS3()
      modifies this
      ensures trace == old(trace) + [Step(SyncRun(SavedModelSync(names)), flag.isPipelineRunning)]
    {
      trace := trace + [Step(SyncRun(SavedModelSync(names)), flag.isPipelineRunning)];
    }

    /** The `try` block of `run_pipeline`, up to the flag being cleared. */
    method RunStages(c: Components) returns (error: Option<Error>)
      requires flag.isPipelineRunning
      modifies this
      ensures error == TryBlock(c).error && trace == old(trace) + TryBlock(c).steps
    {
      error := None;
      var ingestion := StartStage(c, Ingestion, []);
      if ingestion.Failure? {
        error := Some(ingestion.error);
        return;
      }
      var validation := StartStage(c, Validation, [ingestion.value]);
      if validation.Failure? {
        error := Some(validation.error);
        return;
      }
      var transformation := StartStage(c, Transformation, [validation.value]);
      if transformation.Failure? {
        error := Some(transformation.error);
        return;
      }
      var trainer := StartStage(c, Training, [transformation.value]);
      if trainer.Failure? {
        error := Some(trainer.error);
        return;
      }
      var evaluation := StartStage(c, Evaluation, [validation.value, trainer.value]);
      if evaluation.Failure? {
        error := Some(evaluation.error);
        return;
      }
      if !evaluation.value.isModelAccepted {
        error := Some(Exception(RejectedMessage));
        return;
      }
      var pusher := StartStage(c, Pushing, [evaluation.value]);
      if pusher.Failure? {
        error := Some(pusher.error);
      }
    }

    /** `run_pipeline`: the stages run with the flag set; the `except` block pushes the
        artifact folder, clears the flag and re-raises. */
    method RunPipeline(c: Components) returns (outcome: Outcome)
      modifies this, flag
      ensures !flag.isPipelineRunning
      ensures var run := RunPipelineSpec(c, names, artifactDir, timeStamp);
        outcome == run.outcome && trace == old(trace) + run.steps
    {
      flag.isPipelineRunning := true;
      var error := RunStages(c);
      if error.None? {
        flag.isPipelineRunning := false;
        SyncArtifactDirToS3();
        SyncSavedModelDirToS3();
        outcome := Pass;
      } else {
        SyncArtifactDirToS3();
        flag.isPipelineRunning := false;
        outcome := Fail(SensorException(error.value));
      }
    }
  }

  /** The answers of the `/train` route in main.py. */
  datatype Response = AlreadyRunning | TrainingSuccessful | ErrorOccurred(error: Error)

  /** The `/train` route: a new pipeline object reads the shared flag and refuses to start
      while it is set; otherwise it runs the pipeline and reports how that ended. */
  method TrainRoute(flag: RunningFlag, names: S3Utils.S3Names, artifactDir: string, timeStamp: string,
                    c: Components) returns (response: Response, p: TrainPipeline)
    modifies flag
    ensures fresh(p) && p.flag == flag
    ensures old(flag.isPipelineRunning) ==> response == AlreadyRunning && p.trace == [] && flag.isPipelineRunning
    ensures !old(flag.isPipelineRunning) ==>
      var run := RunPipelineSpec(c, names, artifactDir, timeStamp);
      && !flag.isPipelineRunning
      && p.trace == run.steps
      && response == (if run.outcome.Pass? then TrainingSuccessful else ErrorOccurred(run.outcome.error))
  {
    p := new TrainPipeline(flag, names, artifactDir, timeStamp);
    if flag.isPipelineRunning {
      response := AlreadyRunning;
      return;
    }
    var outcome := p.RunPipeline(c);
    response := if outcome.Pass? then TrainingSuccessful else ErrorOccurred(outcome.error);
  }
}
