/** The model trainer's acceptance gate (sensor/component/model_trainer.py): split the
    transformed train and test matrices into features and label, fit a classifier, and keep
    it only if its train F1 clears the expected accuracy and the train/test F1 gap is small.
    Fitting, predicting and scoring are collaborators given as functions. */
module ModelTrainer {
  import opened Outcomes

  /** A two-dimensional numpy array: `width` columns, one sequence per row. */
  datatype Matrix = Matrix(width: nat, rows: seq<seq<real>>)

  /** Every row has `width` entries, as in any numpy array. */
  predicate Rectangular(m: Matrix)
  {
    forall i :: 0 <= i < |m.rows| ==> |m.rows[i]| == m.width
  }

  datatype Split = Split(features: Matrix, labels: seq<real>)

  /** `arr[:, :-1], arr[:, -1]`: every column but the last as features, the last as label;
      with no column at all, `arr[:, -1]` raises `IndexError`. */
  function SplitFeaturesLabel(m: Matrix): (r: Result<Split>)
    requires Rectangular(m)
    ensures r.Failure? <==> m.width == 0
    ensures r.Success? ==>
      && Rectangular(r.value.features)
      && r.value.features.width == m.width - 1
      && |r.value.features.rows| == |m.rows| == |r.value.labels|
      && forall i :: 0 <= i < |m.rows| ==> m.rows[i] == r.value.features.rows[i] + [r.value.labels[i]]
  {
    if m.width == 0 then Failure(IndexError("index -1 is out of bounds for axis 1 with size 0"))
    else
      var features := seq(|m.rows|, i requires 0 <= i < |m.rows| => m.rows[i][..m.width - 1]);
      var labels := seq(|m.rows|, i requires 0 <= i < |m.rows| => m.rows[i][m.width - 1]);
      assert forall i :: 0 <= i < |m.rows| ==> m.rows[i] == features[i] + [labels[i]] by {
        forall i | 0 <= i < |m.rows| ensures m.rows[i] == features[i] + [labels[i]] {
          assert m.rows[i] == m.rows[i][..m.width - 1] + [m.rows[i][m.width - 1]];
        }
      }
      Success(Split(Matrix(m.width - 1, features), labels))
  }

  /** Putting the label back as the last column rebuilds the matrix: the split loses nothing. */
  lemma SplitRoundTrip(m: Matrix)
    requires Rectangular(m) && m.width > 0
    ensures var s := SplitFeaturesLabel(m).value;
      m == Matrix(s.features.width + 1, seq(|m.rows|, i requires 0 <= i < |m.rows| => s.features.rows[i] + [s.labels[i]]))
  {
  }

  /** The scores `get_classification_score` reports. */
  datatype ClassificationMetric = ClassificationMetric(f1Score: real, precisionScore: real, recallScore: real)

  /** An opaque fitted classifier. */
  datatype FittedModel = FittedModel(id: nat)

  /** The collaborators: `XGBClassifier().fit`, `predict` and `get_classification_score`;
      each may raise instead. */
  datatype Learner = Learner(
    fit: (Matrix, seq<real>) -> Result<FittedModel>,
    predict: (FittedModel, Matrix) -> Result<seq<real>>,
    score: (seq<real>, seq<real>) -> Result<ClassificationMetric>)

  /** Whether the file operations after the gate succeed: `load_object` of the preprocessor,
      `os.makedirs` of the model's directory and `save_object` of the combined model. */
  datatype Storage = Storage(loadObject: Outcome, makeDirs: Outcome, saveObject: Outcome)

  datatype ModelTrainerConfig = ModelTrainerConfig(
    trainedModelFilePath: string,
    expectedAccuracy: real,
    overfittingUnderfittingThreshold: real)

  datatype DataTransformationArtifact = DataTransformationArtifact(
    transformedObjectFilePath: string,
    transformedTrainFilePath: string,
    transformedTestFilePath: string)

  datatype ModelTrainerArtifact = ModelTrainerArtifact(
    trainedModelFilePath: string,
    trainMetricArtifact: ClassificationMetric,
    testMetricArtifact: ClassificationMetric)

  /** The steps of `initiate_model_trainer` that read or write files or call the learner. */
  datatype Step =
    | LoadArray(path: string)
    | Fit
    | PredictTrain
    | ScoreTrain
    | PredictTest
    | ScoreTest
    | LoadPreprocessor(path: string)
    | SaveModel(path: string)

  datatype TrainerRun = TrainerRun(result: Result<ModelTrainerArtifact>, steps: seq<Step>)

  const FloorMessage := "Trained model is not good to provide expected accuracy"
  const GapMessage := "Model is not good try to do more experimentation."

  function Abs(x: real): real
  {
    if x < 0.0 then -x else x
  }

  /** The metric of `model` on one split (`predict`, then `get_classification_score`), and the
      steps taken: scoring is not reached when predicting raises. */
  datatype Scoring = Scoring(metric: Result<ClassificationMetric>, steps: seq<Step>)

  function Measure(learner: Learner, model: FittedModel, s: Split, predictStep: Step, scoreStep: Step): Scoring
  {
    match learner.predict(model, s.features)
    case Failure(e) => Scoring(Failure(e), [predictStep])
    case Success(yPred) => Scoring(learner.score(s.labels, yPred), [predictStep, scoreStep])
  }

  /** The end of `initiate_model_trainer` once both checks have passed: load the
      preprocessor, create the model's directory, save the combined model and return the
      artifact; each file operation may raise, and is then wrapped once. */
  function Persist(cfg: ModelTrainerConfig, dta: DataTransformationArtifact, storage: Storage,
                   steps: seq<Step>, trainMetric: ClassificationMetric, testMetric: ClassificationMetric): TrainerRun
  {
    var loadedPre := steps + [LoadPreprocessor(dta.transformedObjectFilePath)];
    match storage.loadObject
    case Fail(e) => TrainerRun(Failure(SensorException(e)), loadedPre)
    case Pass =>
      match storage.makeDirs
      case Fail(e) => TrainerRun(Failure(SensorException(e)), loadedPre)
      case Pass =>
        var saved := loadedPre + [SaveModel(cfg.trainedModelFilePath)];
        match storage.saveObject
        case Fail(e) => TrainerRun(Failure(SensorException(e)), saved)
        case Pass => TrainerRun(Success(ModelTrainerArtifact(cfg.trainedModelFilePath, trainMetric, testMetric)), saved)
  }

  /** `initiate_model_trainer`, given the two loaded arrays.  `train_model` re-raises what
      `fit` raises unchanged; every exception is wrapped once on its way out. */
  function InitiateModelTrainer(cfg: ModelTrainerConfig, dta: DataTransformationArtifact,
                                trainArr: Matrix, testArr: Matrix, learner: Learner, storage: Storage): TrainerRun
    requires Rectangular(trainArr) && Rectangular(testArr)
  {
    var loaded := [LoadArray(dta.transformedTrainFilePath), LoadArray(dta.transformedTestFilePath)];
    match (SplitFeaturesLabel(trainArr), SplitFeaturesLabel(testArr))
    case (Failure(e), _) => TrainerRun(Failure(SensorException(e)), loaded)
    case (_, Failure(e)) => TrainerRun(Failure(SensorException(e)), loaded)
    case (Success(train), Success(test)) =>
      var fitted := loaded + [Fit];
      match learner.fit(train.features, train.labels)
      case Failure(e) => TrainerRun(Failure(SensorException(e)), fitted)
      case Success(model) =>
        var onTrain := Measure(learner, model, train, PredictTrain, ScoreTrain);
        var trained := fitted + onTrain.steps;
        match onTrain.metric
        case Failure(e) => TrainerRun(Failure(SensorException(e)), trained)
        case Success(trainMetric) =>
          if trainMetric.f1Score <= cfg.expectedAccuracy then
            TrainerRun(Failure(SensorException(Exception(FloorMessage))), trained)
          else
            var onTest := Measure(learner, model, test, PredictTest, ScoreTest);
            var tested := trained + onTest.steps;
            match onTest.metric
            case Failure(e) => TrainerRun(Failure(SensorException(e)), tested)
            case Success(testMetric) =>
              if Abs(trainMetric.f1Score - testMetric.f1Score) > cfg.overfittingUnderfittingThreshold then
                TrainerRun(Failure(SensorException(Exception(GapMessage))), tested)
              else
                Persist(cfg, dta, storage, tested, trainMetric, testMetric)
  }

  /** The model fitted on `trainArr`'s split, or what `fit` raised. */
  function Model(trainArr: Matrix, learner: Learner): Result<FittedModel>
    requires Rectangular(trainArr) && trainArr.width > 0
  {
    var train := SplitFeaturesLabel(trainArr).value;
    learner.fit(train.features, train.labels)
  }

  /** The train metric of the model fitted on `trainArr`, or what fitting, predicting or
      scoring raised. */
  function TrainMetric(trainArr: Matrix, learner: Learner): Result<ClassificationMetric>
    requires Rectangular(trainArr) && trainArr.width > 0
  {
    match Model(trainArr, learner)
    case Failure(e) => Failure(e)
    case Success(model) => Measure(learner, model, SplitFeaturesLabel(trainArr).value, PredictTrain, ScoreTrain).metric
  }

  /** The test metric of the model fitted on `trainArr`, measured on `testArr`. */
  function TestMetric(trainArr: Matrix, testArr: Matrix, learner: Learner): Result<ClassificationMetric>
    requires Rectangular(trainArr) && trainArr.width > 0 && Rectangular(testArr) && testArr.width > 0
    requires Model(trainArr, learner).Success?
  {
    Measure(learner, Model(trainArr, learner).value, SplitFeaturesLabel(testArr).value, PredictTest, ScoreTest).metric
  }

  /** Both arrays split and the train metric is computed. */
  predicate TrainScored(trainArr: Matrix, testArr: Matrix, learner: Learner)
    requires Rectangular(trainArr) && Rectangular(testArr)
  {
    trainArr.width > 0 && testArr.width > 0 && TrainMetric(trainArr, learner).Success?
  }

  /** The train metric has passed the accuracy floor. */
  predicate PassedFloor(cfg: ModelTrainerConfig, trainArr: Matrix, testArr: Matrix, learner: Learner)
    requires Rectangular(trainArr) && Rectangular(testArr)
  {
    TrainScored(trainArr, testArr, learner) && TrainMetric(trainArr, learner).value.f1Score > cfg.expectedAccuracy
  }

  /** Both checks passed: the test metric is computed and the train/test F1 gap is at most
      the threshold. */
  predicate Accepted(cfg: ModelTrainerConfig, trainArr: Matrix, testArr: Matrix, learner: Learner)
    requires Rectangular(trainArr) && Rectangular(testArr)
  {
    && PassedFloor(cfg, trainArr, testArr, learner)
    && TestMetric(trainArr, testArr, learner).Success?
    && Abs(TrainMetric(trainArr, learner).value.f1Score - TestMetric(trainArr, testArr, learner).value.f1Score)
       <= cfg.overfittingUnderfittingThreshold
  }

  /** The gate: a trained model is accepted exactly when both arrays split, the learner
      raises nothing, its train F1 is strictly above the expected accuracy (equality rejects),
      and its train/test F1 gap is at most the threshold (equality accepts); it is then kept
      unless loading the preprocessor, creating the directory or saving the model raises.
      Each rejection carries its own message, and every exception is passed on wrapped. */
  lemma AcceptedIff(cfg: ModelTrainerConfig, dta: DataTransformationArtifact,
                    trainArr: Matrix, testArr: Matrix, learner: Learner, storage: Storage)
    requires Rectangular(trainArr) && Rectangular(testArr)
    ensures var run := InitiateModelTrainer(cfg, dta, trainArr, testArr, learner, storage);
      run.result.Success? <==>
        && Accepted(cfg, trainArr, testArr, learner)
        && storage.loadObject.Pass? && storage.makeDirs.Pass? && storage.saveObject.Pass?
    ensures var run := InitiateModelTrainer(cfg, dta, trainArr, testArr, learner, storage);
      trainArr.width > 0 && testArr.width > 0 && TrainMetric(trainArr, learner).Failure?
      ==> run.result == Failure(SensorException(TrainMetric(trainArr, learner).error))
    ensures var run := InitiateModelTrainer(cfg, dta, trainArr, testArr, learner, storage);
      TrainScored(trainArr, testArr, learner) && !PassedFloor(cfg, trainArr, testArr, learner)
      ==> run.result == Failure(SensorException(Exception(FloorMessage)))
    ensures var run := InitiateModelTrainer(cfg, dta, trainArr, testArr, learner, storage);
      PassedFloor(cfg, trainArr, testArr, learner) && TestMetric(trainArr, testArr, learner).Failure?
      ==> run.result == Failure(SensorException(TestMetric(trainArr, testArr, learner).error))
    ensures var run := InitiateModelTrainer(cfg, dta, trainArr, testArr, learner, storage);
      PassedFloor(cfg, trainArr, testArr, learner) && TestMetric(trainArr, testArr, learner).Success?
      && Abs(TrainMetric(trainArr, learner).value.f1Score - TestMetric(trainArr, testArr, learner).value.f1Score)
         > cfg.overfittingUnderfittingThreshold
      ==> run.result == Failure(SensorException(Exception(GapMessage)))
    ensures var run := InitiateModelTrainer(cfg, dta, trainArr, testArr, learner, storage);
      Accepted(cfg, trainArr, testArr, learner) && storage.loadObject.Fail?
      ==> run.result == Failure(SensorException(storage.loadObject.error))
    ensures var run := InitiateModelTrainer(cfg, dta, trainArr, testArr, learner, storage);
      Accepted(cfg, trainArr, testArr, learner) && storage.loadObject.Pass? && storage.makeDirs.Fail?
      ==> run.result == Failure(SensorException(storage.makeDirs.error))
    ensures var run := InitiateModelTrainer(cfg, dta, trainArr, testArr, learner, storage);
      Accepted(cfg, trainArr, testArr, learner) && storage.loadObject.Pass? && storage.makeDirs.Pass? && storage.saveObject.Fail?
      ==> run.result == Failure(SensorException(storage.saveObject.error))
  {
  }

  /** Boundary cases of the gate: a train F1 equal to the expected accuracy is rejected, and
      a train/test gap equal to the threshold is accepted (and, with working storage, kept). */
  lemma GateBoundaries(cfg: ModelTrainerConfig, dta: DataTransformationArtifact,
                       trainArr: Matrix, testArr: Matrix, learner: Learner, storage: Storage)
    requires Rectangular(trainArr) && Rectangular(testArr)
    ensures TrainScored(trainArr, testArr, learner) && TrainMetric(trainArr, learner).value.f1Score == cfg.expectedAccuracy
        ==> InitiateModelTrainer(cfg, dta, trainArr, testArr, learner, storage).result.Failure?
    ensures PassedFloor(cfg, trainArr, testArr, learner) && TestMetric(trainArr, testArr, learner).Success?
        && Abs(TrainMetric(trainArr, learner).value.f1Score - TestMetric(trainArr, testArr, learner).value.f1Score)
           == cfg.overfittingUnderfittingThreshold
        ==> Accepted(cfg, trainArr, testArr, learner)
    ensures PassedFloor(cfg, trainArr, testArr, learner) && TestMetric(trainArr, testArr, learner).Success?
        && Abs(TrainMetric(trainArr, learner).value.f1Score - TestMetric(trainArr, testArr, learner).value.f1Score)
           == cfg.overfittingUnderfittingThreshold
        && storage.loadObject.Pass? && storage.makeDirs.Pass? && storage.saveObject.Pass?
        ==> InitiateModelTrainer(cfg, dta, trainArr, testArr, learner, storage).result.Success?
  {
    AcceptedIff(cfg, dta, trainArr, testArr, learner, storage);
  }

  /** The steps `initiate_model_trainer` can take before the file operations, in order. */
  function GateSteps(dta: DataTransformationArtifact): seq<Step>
  {
    [LoadArray(dta.transformedTrainFilePath), LoadArray(dta.transformedTestFilePath), Fit, PredictTrain, ScoreTrain, PredictTest, ScoreTest]
  }

  /** A run that does not pass both checks takes a prefix of the gate's steps, reaching the
      test prediction exactly when the floor is passed; one that passes them takes all of the
      gate's steps and then the file operations. */
  lemma StepsSoFar(cfg: ModelTrainerConfig, dta: DataTransformationArtifact,
                   trainArr: Matrix, testArr: Matrix, learner: Learner, storage: Storage)
    requires Rectangular(trainArr) && Rectangular(testArr)
    ensures var run := InitiateModelTrainer(cfg, dta, trainArr, testArr, learner, storage);
      !Accepted(cfg, trainArr, testArr, learner) ==>
        && 2 <= |run.steps| <= 7
        && run.steps == GateSteps(dta)[..|run.steps|]
        && (|run.steps| >= 6 <==> PassedFloor(cfg, trainArr, testArr, learner))
    ensures var run := InitiateModelTrainer(cfg, dta, trainArr, testArr, learner, storage);
      Accepted(cfg, trainArr, testArr, learner) ==>
        run == Persist(cfg, dta, storage, GateSteps(dta), TrainMetric(trainArr, learner).value, TestMetric(trainArr, testArr, learner).value)
  {
    var run := InitiateModelTrainer(cfg, dta, trainArr, testArr, learner, storage);
    var g := GateSteps(dta);
    if trainArr.width > 0 && testArr.width > 0 {
      var train := SplitFeaturesLabel(trainArr).value;
      if Model(trainArr, learner).Success? {
        var onTrain := Measure(learner, Model(trainArr, learner).value, train, PredictTrain, ScoreTrain);
        if PassedFloor(cfg, trainArr, testArr, learner) {
          var onTest := Measure(learner, Model(trainArr, learner).value, SplitFeaturesLabel(testArr).value, PredictTest, ScoreTest);
          if learner.predict(Model(trainArr, learner).value, SplitFeaturesLabel(testArr).value.features).Success? {
            assert g[..2] + [Fit] + onTrain.steps + onTest.steps == g;
          } else {
            assert g[..2] + [Fit] + onTrain.steps + onTest.steps == g[..6];
          }
        } else if learner.predict(Model(trainArr, learner).value, train.features).Success? {
          assert run.steps == g[..2] + [Fit] + onTrain.steps == g[..5];
        } else {
          assert run.steps == g[..2] + [Fit] + onTrain.steps == g[..4];
        }
      } else {
        assert run.steps == g[..2] + [Fit] == g[..3];
      }
    } else {
      assert run.steps == g[..2];
    }
  }

  /** The order of work: the test set is predicted only once the train F1 has passed the
      floor and scored only after it is predicted, the model is saved only when both checks
      pass and the preprocessor has loaded, the run succeeds exactly when that save does, and
      the train score always comes before the test prediction. */
  lemma StepsInOrder(cfg: ModelTrainerConfig, dta: DataTransformationArtifact,
                     trainArr: Matrix, testArr: Matrix, learner: Learner, storage: Storage)
    requires Rectangular(trainArr) && Rectangular(testArr)
    ensures var run := InitiateModelTrainer(cfg, dta, trainArr, testArr, learner, storage);
      PredictTest in run.steps <==> PassedFloor(cfg, trainArr, testArr, learner)
    ensures var run := InitiateModelTrainer(cfg, dta, trainArr, testArr, learner, storage);
      ScoreTest in run.steps ==> PredictTest in run.steps
    ensures var run := InitiateModelTrainer(cfg, dta, trainArr, testArr, learner, storage);
      LoadPreprocessor(dta.transformedObjectFilePath) in run.steps <==> Accepted(cfg, trainArr, testArr, learner)
    ensures var run := InitiateModelTrainer(cfg, dta, trainArr, testArr, learner, storage);
      SaveModel(cfg.trainedModelFilePath) in run.steps
      <==> Accepted(cfg, trainArr, testArr, learner) && storage.loadObject.Pass? && storage.makeDirs.Pass?
    ensures var run := InitiateModelTrainer(cfg, dta, trainArr, testArr, learner, storage);
      run.result.Success? <==> SaveModel(cfg.trainedModelFilePath) in run.steps && storage.saveObject.Pass?
    ensures var run := InitiateModelTrainer(cfg, dta, trainArr, testArr, learner, storage);
      forall i, j :: 0 <= i < |run.steps| && 0 <= j < |run.steps| && run.steps[i] == ScoreTrain && run.steps[j] == PredictTest ==> i < j
  {
    var run := InitiateModelTrainer(cfg, dta, trainArr, testArr, learner, storage);
    StepsSoFar(cfg, dta, trainArr, testArr, learner, storage);
    AcceptedIff(cfg, dta, trainArr, testArr, learner, storage);
    if Accepted(cfg, trainArr, testArr, learner) {
      PersistSteps(cfg, dta, storage, TrainMetric(trainArr, learner).value, TestMetric(trainArr, testArr, learner).value);
    } else {
      GatePrefixSteps(dta, |run.steps|);
    }
  }

  /** What a prefix of the gate's steps holds. */
  lemma GatePrefixSteps(dta: DataTransformationArtifact, n: nat)
    requires n <= 7
    ensures var p := GateSteps(dta)[..n];
      && (PredictTest in p <==> n >= 6)
      && (ScoreTest in p ==> PredictTest in p)
      && (forall x :: x in p ==> !x.LoadPreprocessor? && !x.SaveModel?)
      && forall i, j :: 0 <= i < n && 0 <= j < n && p[i] == ScoreTrain && p[j] == PredictTest ==> i < j
  {
    var g := GateSteps(dta);
    var p := g[..n];
    assert forall k :: 0 <= k < n ==> p[k] == g[k];
    if n >= 6 {
      assert p[5] == PredictTest;
    }
  }

  /** What the steps of a run that passed both checks hold. */
  lemma PersistSteps(cfg: ModelTrainerConfig, dta: DataTransformationArtifact, storage: Storage,
                     trainMetric: ClassificationMetric, testMetric: ClassificationMetric)
    ensures var r := Persist(cfg, dta, storage, GateSteps(dta), trainMetric, testMetric);
      && PredictTest in r.steps && ScoreTest in r.steps
      && LoadPreprocessor(dta.transformedObjectFilePath) in r.steps
      && (SaveModel(cfg.trainedModelFilePath) in r.steps <==> storage.loadObject.Pass? && storage.makeDirs.Pass?)
      && (r.result.Success? <==> SaveModel(cfg.trainedModelFilePath) in r.steps && storage.saveObject.Pass?)
      && forall i, j :: 0 <= i < |r.steps| && 0 <= j < |r.steps| && r.steps[i] == ScoreTrain && r.steps[j] == PredictTest ==> i < j
  {
    var g := GateSteps(dta);
    var r := Persist(cfg, dta, storage, g, trainMetric, testMetric);
    var pre := g + [LoadPreprocessor(dta.transformedObjectFilePath)];
    assert r.steps[5] == PredictTest && r.steps[6] == ScoreTest;
    if storage.loadObject.Pass? && storage.makeDirs.Pass? {
      assert r.steps == pre + [SaveModel(cfg.trainedModelFilePath)];
      assert r.steps[8] == SaveModel(cfg.trainedModelFilePath);
    } else {
      assert r.steps == pre;
    }
    assert forall k :: 0 <= k < |r.steps| && k != 4 ==> r.steps[k] != ScoreTrain;
    assert forall k :: 0 <= k < |r.steps| && k != 5 ==> r.steps[k] != PredictTest;
  }

  /** On success the artifact records the configured model path and the two metrics as computed. */
  lemma ArtifactContents(cfg: ModelTrainerConfig, dta: DataTransformationArtifact,
                         trainArr: Matrix, testArr: Matrix, learner: Learner, storage: Storage)
    requires Rectangular(trainArr) && Rectangular(testArr)
    requires InitiateModelTrainer(cfg, dta, trainArr, testArr, learner, storage).result.Success?
    ensures PassedFloor(cfg, trainArr, testArr, learner) && TestMetric(trainArr, testArr, learner).Success?
    ensures var a := InitiateModelTrainer(cfg, dta, trainArr, testArr, learner, storage).result.value;
      && a.trainedModelFilePath == cfg.trainedModelFilePath
      && a.trainMetricArtifact == TrainMetric(trainArr, learner).value
      && a.testMetricArtifact == TestMetric(trainArr, testArr, learner).value
  {
  }
}
