# SensorFaultDetection: the pipelines' decision and sequencing logic in Dafny

SensorFaultDetection trains an XGBoost classifier that tells whether a truck's air-pressure
system caused a failure. It also runs batch predictions with the latest saved model. This
project models the code around the machine-learning steps and proves properties of it:

- **Prediction-batch validation.** The batch needs the schema's column count minus the target
  and every numerical column. The error text collects one line per failed check. Drift is judged
  column by column from given Kolmogorov-Smirnov p-values, against the training split of the
  lexically greatest artifact run.
- **Model-trainer acceptance gate.** It splits the matrices into features and label. The train
  F1 must be strictly above the expected accuracy. The train/test F1 gap must be at most the
  threshold. The test score is computed, and the model saved, only after the checks before it pass.
- **Training orchestrator.** Six stages run in order under the class-wide
  `is_pipeline_running` flag. A rejected evaluation stops the run before the pusher. The
  artifact folder is pushed on both paths; the saved-model folder only on success.
- **Prediction orchestrator.** It downloads, drops columns, validates, pulls and loads the
  model, predicts, writes the output under the input's file name, pushes, and reports. As
  written the pull always raises, so no prediction run gets past `load_model` (see Findings);
  the run is modelled with the pull working, and the as-written run beside it.
- **S3 URL builders.** They build the bucket URLs both pipelines sync with. The helpers that
  should then sync call `sync_folder_to_s3`/`sync_folder_from_s3` as bare names, which the star
  import does not define; the training pipeline syncs through its own `S3Sync` object instead.

Modules:

- `Outcomes`: Python exceptions as values, and `Result`/`Outcome`/`Option`.
- `Lists`: the list operations used on column names.
- `Frames`: the DataFrame operations used (`drop`, column assignment, `replace`).
- `Paths`: `os.path.basename` and `os.path.join`.
- `Effects`: the outside-world effects, recorded in a trace.
- `S3Utils`, `PredictionDataValidation`, `ModelTrainer`, `TrainingPipeline` and
  `PredictionPipeline`: one per source file.

What each component cannot compute is given to it as a parameter:

- KS p-values, classification scores, the classifier's `fit`/`predict` (each of which may raise), and the CSV contents read.
- The stage components' results, the model resolver's answer and the target-value mapping.
- The configuration constants (bucket names, `ARTIFACT_DIR`, `SAVED_MODEL_DIR`, `TARGET_COLUMN`, ...).

Modelled as written:

- The prediction pipeline returns its "Datadrift detected" advisory when the validator's status
  is `False`. That status is `True` exactly when some column drifted, so the advisory appears
  when there is no drift (`PredictionPipeline.AdvisoryIffNoDrift`).
- The training pipeline pushes its artifacts to the literal `artifact/` bucket folder, not to
  `ARTIFACT_DIR`. The two agree exactly when `ARTIFACT_DIR` is `artifact`
  (`TrainingPipeline.ArtifactSyncAgreesIff`).
- `sync_artifact_dir_from_s3` pulls into the saved-model folder
  (`S3Utils.ArtifactPullTargetsSavedModelDir`).

## Model

| member | source | states |
|---|---|---|
| Outcomes.Wrap | sensor/pipeline/training_pipeline.py:33-34 | `except Exception as e: raise SensorException(e, sys)`: a success passes unchanged; a failure becomes a SensorException whose cause is the original error |
| Lists.WithoutMembers | sensor/component/prediction_data_validation.py:41-45 | the filtered list holds exactly the elements of the first list that the second lacks |
| Lists.WithoutAppend | sensor/component/prediction_data_validation.py:42-45 | filtering works element by element in order: filtering a concatenation concatenates the filtered parts |
| Lists.WithoutDistinct | sensor/pipeline/prediction_pipeline.py:41 | filtering a list without repeated labels yields a list without repeated labels |
| Lists.WithoutEmpty | sensor/component/prediction_data_validation.py:40-48 | nothing is left out exactly when every element of the first list is in the second |
| Lists.FirstIndex | sensor/component/prediction_data_validation.py:59 | the index found holds the element and no earlier position does; it is the length when the element is absent |
| Lists.RemoveFirst | sensor/component/prediction_data_validation.py:59 | `list.remove` fails (ValueError) exactly when the element is absent; otherwise the result is the list with the first occurrence cut out |
| Frames.DropColumns | sensor/pipeline/prediction_pipeline.py:41 | `drop(..., axis=1)` raises KeyError naming exactly the absent labels, in order, iff some label is absent; otherwise the other columns stay in order with their cells, and the row count is unchanged |
| Frames.DropKeepsTheRest | sensor/pipeline/prediction_pipeline.py:41 | after a drop, a column remains iff it was there and was not named |
| Frames.SetColumn | sensor/pipeline/prediction_pipeline.py:67 | column assignment fails iff the length differs from a non-empty index; the column holds the values, is overwritten in place or appended, and on a non-empty frame every other column is kept |
| Frames.ReplaceRoundTrip | sensor/pipeline/prediction_pipeline.py:68 | replacing by a mapping and then by its reverse gives back every covered cell |
| Frames.ReplaceKeepsUncovered | sensor/pipeline/prediction_pipeline.py:68 | `replace` leaves cells that are not keys of the mapping as they were |
| Paths.Basename | sensor/pipeline/prediction_pipeline.py:32 | a basename contains no `/` and is no longer than the path |
| Paths.BasenameIsSuffix | sensor/pipeline/prediction_pipeline.py:32 | the basename is the tail of the path, preceded by a `/` unless it is the whole path |
| Paths.BasenameAfterSlash | sensor/utils/s3_utils.py:49 | the basename of `prefix/name` is `name` for a name without `/` |
| Paths.BasenameOfPlain | sensor/pipeline/prediction_pipeline.py:32 | a name without `/` is its own basename |
| Paths.BasenameOfJoin | sensor/pipeline/prediction_pipeline.py:32-34 | `basename(join(dir, name)) == name` for a plain name |
| S3Utils.TrainingArtifactUrl | sensor/utils/s3_utils.py:13 | defines the training artifact URL `s3://<training bucket>/<ARTIFACT_DIR>/<timestamp>`; its meaning is stated by TrainingArtifactUrlParts and ArtifactUrlDeterminesTimestamp |
| S3Utils.TrainingArtifactRootUrl | sensor/utils/s3_utils.py:35 | defines the artifact root URL `s3://<training bucket>/<ARTIFACT_DIR>`; ArtifactPullTargetsSavedModelDir states it is the root of every training artifact URL |
| S3Utils.SavedModelUrl | sensor/utils/s3_utils.py:20 | defines the saved-model URL; stated by SavedModelUrlParts |
| S3Utils.PredictionArtifactUrl | sensor/utils/s3_utils.py:42 | defines the prediction artifact URL; stated by PredictionArtifactUrlParts and ArtifactUrlDeterminesTimestamp |
| S3Utils.SyncArtifactDirToS3 | sensor/utils/s3_utils.py:11-16 | the push of the given artifact folder to the training artifact URL; TrainingPipeline.ArtifactSyncAgreesIff compares it with the pipeline's own push |
| S3Utils.SyncSavedModelDirToS3 | sensor/utils/s3_utils.py:18-23 | the push of SAVED_MODEL_DIR to the saved-model URL; stated by SavedModelRoundTrip and TrainingPipeline.SavedModelSyncAgrees |
| S3Utils.SyncSavedModelDirFromS3 | sensor/utils/s3_utils.py:26-31 | the pull of the saved-model URL into SAVED_MODEL_DIR, as the helper means it; stated by SavedModelRoundTrip; as written it raises (RunAsWritten) |
| S3Utils.SyncArtifactDirFromS3 | sensor/utils/s3_utils.py:33-38 | the pull of the artifact root into SAVED_MODEL_DIR; stated by ArtifactPullTargetsSavedModelDir |
| S3Utils.SyncPredictionArtifactDirToS3 | sensor/utils/s3_utils.py:40-45 | the push of the prediction artifact folder to the prediction artifact URL; stated by PredictedFileInPushedFolder |
| S3Utils.RunAsWritten | sensor/utils/s3_utils.py:11-45 | running a sync helper as written: the bare call raises NameError, wrapped once; used by PredictionPipeline.NoRunSucceedsAsWritten |
| S3Utils.GetPredictedS3Filepath | sensor/utils/s3_utils.py:47-52 | defines the predicted-file URL; stated by PredictedFileInPushedFolder and TrainingAndPredictionUrlsDiffer |
| S3Utils.TrainingArtifactUrlParts | sensor/utils/s3_utils.py:13 | the training artifact URL splits into `s3:`, ``, training bucket, ARTIFACT_DIR, timestamp |
| S3Utils.SavedModelUrlParts | sensor/utils/s3_utils.py:20 | the saved-model URL splits into `s3:`, ``, training bucket, SAVED_MODEL_DIR |
| S3Utils.PredictionArtifactUrlParts | sensor/utils/s3_utils.py:42 | the prediction artifact URL splits into `s3:`, ``, prediction bucket, ARTIFACT_DIR, timestamp |
| S3Utils.PredictedFileInPushedFolder | sensor/utils/s3_utils.py:40-52 | the predicted-file URL is the URL pushed for the same timestamp, then `/PREDICTION_OUTPUT_FOLDER/file`, and splits into those seven parts |
| S3Utils.TrainingAndPredictionUrlsDiffer | sensor/utils/s3_utils.py:11-52 | with different plain bucket names, no training URL (artifact or saved-model) equals a prediction URL (artifact or output file) |
| S3Utils.ArtifactUrlDeterminesTimestamp | sensor/utils/s3_utils.py:11-44 | equal artifact URLs in either bucket mean equal timestamps: no two runs share an S3 folder |
| S3Utils.SavedModelRoundTrip | sensor/utils/s3_utils.py:18-31 | the saved-model pull is the saved-model push reversed: one folder/URL pair |
| S3Utils.ArtifactPullTargetsSavedModelDir | sensor/utils/s3_utils.py:33-38 | `sync_artifact_dir_from_s3` pulls the root of every artifact URL, into SAVED_MODEL_DIR |
| PredictionDataValidation.ValidateNumberOfColumns | sensor/component/prediction_data_validation.py:24-33 | true iff the batch has exactly one column fewer than the schema |
| PredictionDataValidation.IsNumericalColumnExist | sensor/component/prediction_data_validation.py:35-50 | the missing list is exactly the absent numerical columns in schema order; the flag is true iff every numerical column is present |
| PredictionDataValidation.SchemaErrorsReportEachFailure | sensor/component/prediction_data_validation.py:99-113 | the error text is empty iff both checks pass; it starts with the column-count line iff that check fails and ends with the numerical line iff that one fails |
| PredictionDataValidation.DriftThresholdBoundary | sensor/component/prediction_data_validation.py:52-69 | drift iff the p-value is strictly below the threshold; a p-value equal to the threshold (default 0.05) is not drift |
| PredictionDataValidation.DetectDatasetDrift | sensor/component/prediction_data_validation.py:52-85 | ValueError when the target is not a baseline column; otherwise the result of comparing the remaining columns |
| PredictionDataValidation.FirstColumnError | sensor/component/prediction_data_validation.py:60-63 | none exactly when no compared column is missing from the batch or makes `ks_2samp` raise |
| PredictionDataValidation.FirstColumnErrorAt | sensor/component/prediction_data_validation.py:60-63 | the error of a column that raises, preceded only by columns that do not, is the error the loop stops with |
| PredictionDataValidation.CompareColumns | sensor/component/prediction_data_validation.py:60-73 | the loop stops at the first compared column that is missing from the batch (KeyError) or makes `ks_2samp` raise, with that error wrapped; otherwise the status is whether any column drifted, the report has one entry per column, and the drifted columns are listed |
| PredictionDataValidation.DriftStatusIsAnyFlag | sensor/component/prediction_data_validation.py:55-69 | the drift-column list is non-empty iff some compared column drifted |
| PredictionDataValidation.DriftColumnsMembers | sensor/component/prediction_data_validation.py:64-68 | a column is listed as drifted iff it is compared and its p-value is below the threshold |
| PredictionDataValidation.DriftColumnsInOrder | sensor/component/prediction_data_validation.py:60-68 | the drift-column list keeps baseline order: listing two consecutive stretches lists each in turn |
| PredictionDataValidation.DriftResultConsistent | sensor/component/prediction_data_validation.py:55-83 | on success the report has exactly one entry per compared column, with its p-value and flag; the status is the OR of the flags and is true iff the drift-column list is non-empty |
| PredictionDataValidation.DriftFailsIff | sensor/component/prediction_data_validation.py:58-63 | drift comparison fails iff the target is missing from the baseline or a compared column is missing from the batch or makes `ks_2samp` raise; the error is the first such column's |
| PredictionDataValidation.TargetExcluded | sensor/component/prediction_data_validation.py:58-59 | with distinct baseline names, the compared columns are exactly the baseline columns other than the target |
| PredictionDataValidation.IdenticalBatchNoDrift | sensor/component/prediction_data_validation.py:64-69 | with every p-value 1 and a threshold of at most 1, there is no drift and no drifted column |
| PredictionDataValidation.Greatest | sensor/component/prediction_data_validation.py:89-90 | the first entry after a reverse sort is a listed name that every listed name is at most, under Python string order |
| PredictionDataValidation.GreatestUnique | sensor/component/prediction_data_validation.py:89-90 | any listed name that every listed name is at most is that entry: the choice does not depend on the listing order |
| PredictionDataValidation.LatestArtifactDir | sensor/component/prediction_data_validation.py:87-91 | IndexError iff the artifact directory is empty; otherwise the greatest entry |
| PredictionDataValidation.InitiateDataValidation | sensor/component/prediction_data_validation.py:97-119 | the step-by-step message accumulation and its effects give exactly the validation outcome |
| PredictionDataValidation.SchemaFailureStopsBeforeDrift | sensor/component/prediction_data_validation.py:97-119 | a failed schema check raises the accumulated message before anything is listed or read; a failing `os.listdir` or `read_csv` of the baseline is raised wrapped; success iff both checks pass, the listing succeeds and is non-empty, the greatest run's training split is read, the drift check succeeds and the report is written; a failing report write is raised wrapped twice; the status returned is the drift status against that split |
| PredictionDataValidation.ValidationEffects | sensor/component/prediction_data_validation.py:75-116 | validation only lists, reads and writes the drift report, and it writes the report iff it succeeds |
| ModelTrainer.InitiateModelTrainer | sensor/component/model_trainer.py:34-92 | defines `initiate_model_trainer` on the loaded arrays: split, fit, score train, floor check, score test, gap check, then Persist; its contract is stated by AcceptedIff, GateBoundaries, StepsInOrder and ArtifactContents |
| ModelTrainer.Persist | sensor/component/model_trainer.py:76-90 | defines the end of the run after both checks: `load_object`, `os.makedirs`, `save_object`, each of which may raise, then the artifact; stated by AcceptedIff and StepsInOrder |
| ModelTrainer.SplitFeaturesLabel | sensor/component/model_trainer.py:44-49 | IndexError iff the array has no column; otherwise each row is its features followed by its label, with one column fewer as features |
| ModelTrainer.SplitRoundTrip | sensor/component/model_trainer.py:44-49 | appending each label to its feature row rebuilds the array |
| ModelTrainer.AcceptedIff | sensor/component/model_trainer.py:52-92 | succeeds iff both arrays split, fitting and scoring both sets succeed, train F1 > expected accuracy, the train/test F1 gap is at most the threshold, and `load_object`, `os.makedirs` and `save_object` succeed; every failure is raised wrapped, and each rejection carries its own message |
| ModelTrainer.GateBoundaries | sensor/component/model_trainer.py:57-72 | a train F1 equal to the expected accuracy is rejected; a gap equal to the threshold passes the gate, and the run succeeds when the file operations after it do |
| ModelTrainer.StepsSoFar | sensor/component/model_trainer.py:41-72 | a run that fails a check or raises before the gap check has taken a prefix of load, load, fit, predict train, score train, predict test, score test, reaching the test prediction iff the floor passed; a run passing both checks takes all of them and then Persist |
| ModelTrainer.PersistSteps | sensor/component/model_trainer.py:76-90 | after both checks the preprocessor load is always attempted, the save is attempted iff loading and `os.makedirs` succeed, and the run succeeds iff the save does |
| ModelTrainer.StepsInOrder | sensor/component/model_trainer.py:52-83 | the test set is predicted iff the train set was scored and passed the floor, and scored only after it is predicted; the preprocessor is loaded iff both checks pass; the model is saved iff they pass and loading and `os.makedirs` succeed, and the run succeeds iff that save does; the train score comes before the test prediction |
| ModelTrainer.ArtifactContents | sensor/component/model_trainer.py:87-90 | on success both sets were scored and the floor passed; the artifact holds the configured model path and the train and test metrics as computed |
| TrainingPipeline.ArtifactSyncAgreesIff | sensor/pipeline/training_pipeline.py:93-98 | the pipeline's own artifact push equals the utility module's iff ARTIFACT_DIR is `artifact` |
| TrainingPipeline.SavedModelSyncAgrees | sensor/pipeline/training_pipeline.py:100-105 | the pipeline's saved-model push equals the utility module's |
| TrainingPipeline.StagesInOrder | sensor/pipeline/training_pipeline.py:107-117 | stages run in the fixed six-stage order with the flag set, each only after all earlier ones succeeded, each fed the right earlier artifacts (evaluation gets validation's and the trainer's) |
| TrainingPipeline.PusherIffAccepted | sensor/pipeline/training_pipeline.py:114-127 | the pusher runs iff the first five stages succeed and evaluation accepts; a rejection fails with its message wrapped once, a stage failure wrapped twice |
| TrainingPipeline.SyncsByOutcome | sensor/pipeline/training_pipeline.py:118-127 | success ends with the artifact push and then the saved-model push, both with the flag cleared; failure ends with the artifact push alone, with the flag still set |
| TrainingPipeline.RunningFlag.constructor | sensor/pipeline/training_pipeline.py:19 | the class-level flag starts cleared |
| TrainingPipeline.TrainPipeline.StartStage | sensor/pipeline/training_pipeline.py:25-91 | a `start_*` wrapper records the stage call and wraps the stage's exception |
| TrainingPipeline.TrainPipeline.SyncArtifactDirToS3 | sensor/pipeline/training_pipeline.py:93-98 | records the artifact push to `s3://<bucket>/artifact/<timestamp>` |
| TrainingPipeline.TrainPipeline.SyncSavedModelDirToS3 | sensor/pipeline/training_pipeline.py:100-105 | records the saved-model push |
| TrainingPipeline.TrainPipeline.RunStages | sensor/pipeline/training_pipeline.py:108-117 | the stage calls of the `try` block, with the error that ended them, as the specification function gives |
| TrainingPipeline.TrainPipeline.RunPipeline | sensor/pipeline/training_pipeline.py:107-127 | the outcome and trace are those of the pipeline specification, and the flag is cleared afterwards on both paths |
| TrainingPipeline.TrainRoute | main.py:29-39 | a set flag answers "already running" and runs nothing; otherwise the pipeline runs, the flag ends cleared, and the answer reflects the outcome |
| PredictionPipeline.SharedFileName | sensor/pipeline/prediction_pipeline.py:32-98 | the input file, the output file and the S3 output file all have the download URL's basename |
| PredictionPipeline.PredictedTableContents | sensor/pipeline/prediction_pipeline.py:63-72 | fails iff `predict` fails or returns the wrong number of rows; otherwise `predicted_column` holds the decoded predictions and, on a non-empty frame, every other column is unchanged |
| PredictionPipeline.AdvisoryIffNoDrift | sensor/pipeline/prediction_pipeline.py:97-102 | as written, the drift advisory is returned iff the validator's status is False, otherwise the plain message; both name the S3 output file |
| PredictionPipeline.ValidationFailureStopsPipeline | sensor/pipeline/prediction_pipeline.py:90-92 | a failed validation fails the run with no model pulled or loaded, nothing written and nothing pushed |
| PredictionPipeline.ModelGuard | sensor/pipeline/prediction_pipeline.py:48-61 | without a saved model the run fails with "Model not available" and loads and writes nothing; with one, the latest model is loaded |
| PredictionPipeline.ModelLoadFailureStopsPipeline | sensor/pipeline/prediction_pipeline.py:56-61 | when `load_object` fails on the latest model, the run ends with the loader's error wrapped twice, right after the pull and the load attempt, and writes nothing |
| PredictionPipeline.SuccessfulRunEnding | sensor/pipeline/prediction_pipeline.py:93-98 | a successful run ends by writing the predicted frame to the output path and pushing the prediction artifact folder, which contains the reported S3 file |
| PredictionPipeline.PredictionAsWritten | sensor/pipeline/prediction_pipeline.py:87-104 | defines `run_pipeline` as written: the working run's steps up to `load_model`, whose pull raises; stated by NoRunSucceedsAsWritten |
| PredictionPipeline.NoRunSucceedsAsWritten | sensor/utils/s3_utils.py:26-31 | as written every run fails: one that loads and validates fails in `load_model` with the wrapped NameError and pulls, loads, writes and pushes nothing; an earlier failure is the working pipeline's |
| PredictionPipeline.IntendedRunSucceeds | sensor/pipeline/prediction_pipeline.py:48-98 | with the pull working, a run that loads and validates, has a saved model that loads and gives one prediction per row and a writable output succeeds, having pulled the saved models and loaded the latest |
| PredictionPipeline.PredictionPipeline.constructor | sensor/pipeline/prediction_pipeline.py:17-20 | a new pipeline has its config, URL and schema, no file names yet and an empty trace |
| PredictionPipeline.PredictionPipeline.LoadInputData | sensor/pipeline/prediction_pipeline.py:22-46 | when the input directory is created, sets the data file name and input path from the URL, records the download and read, and returns the dropped frame or the wrapped error; when `os.makedirs` fails, returns its wrapped error and leaves both attributes and the trace as they were |
| PredictionPipeline.PredictionPipeline.LoadModel | sensor/pipeline/prediction_pipeline.py:48-61 | records the saved-model pull, then fails with "Model not available", or records the load of the latest model and returns it or the loader's wrapped error |
| PredictionPipeline.PredictionPipeline.PredictTheOutput | sensor/pipeline/prediction_pipeline.py:63-72 | updates the frame in place to the predicted frame; on failure leaves it as it was |
| PredictionPipeline.PredictionPipeline.SaveResult | sensor/pipeline/prediction_pipeline.py:74-85 | a failing `os.makedirs` is raised wrapped with nothing changed; then a missing file name fails with AttributeError; otherwise the output path is set to `output_dir/<data_file_name>` before `to_csv`, so it stays set when the write fails, and the write is recorded only when it succeeds |
| PredictionPipeline.PredictionPipeline.RunPipeline | sensor/pipeline/prediction_pipeline.py:87-104 | the result and trace are those of the run specification; the data file name and input path are set from the URL iff the input directory is created, and are otherwise left as they were; the output path becomes `output_dir/<basename of URL>` iff the run reaches `save_result` (its model loaded) and its `os.makedirs` succeeds, and is otherwise left as it was |

## Left out

- The numerics are inputs, not models: the KS test (`ks_2samp`), `get_classification_score`, XGBoost's `fit` and `predict`, and the preprocessor. Floating-point p-values and scores are reals.
- Some file and network I/O is recorded as a trace event and not performed: the download, CSV and YAML reads and writes, directory listing, and object loads. Their contents are parameters, and so is whether each of these succeeds: in the prediction pipeline, both `os.makedirs` calls, `urlretrieve`, `read_csv`, `load_object` and `to_csv`; in drift validation, `os.listdir`, each baseline `read_csv`, and the drift report's `os.makedirs` with `write_yaml_file` as one outcome; in the trainer, `load_object`, `os.makedirs` and `save_object`. The exception is `load_numpy_array_data` (see ModelTrainer.AcceptedIff below). Directory creation itself leaves no trace event, and logging is left out.
- `S3Sync` (sensor/cloud_storage/s3_syncer.py) runs `aws s3 sync` through `os.system`, whose result it ignores, so a sync through an `S3Sync` object is an infallible trace event. The training pipeline syncs this way. The s3_utils helpers as written raise NameError instead (`S3Utils.RunAsWritten`, see Findings); the prediction pipeline is modelled with those helpers making the same `S3Sync` calls.
- PredictionPipeline.ModelGuard: states `load_model` with its saved-model pull working. As written the pull raises first and "Model not available" is never reached (see Findings, `PredictionPipeline.NoRunSucceedsAsWritten`).
- PredictionPipeline.ModelLoadFailureStopsPipeline: states `load_model` with its saved-model pull working. As written the pull raises before `load_object` is called (see Findings).
- PredictionPipeline.SuccessfulRunEnding: states successful runs of the pipeline with its pull working. As written no run succeeds (see Findings).
- PredictionPipeline.PredictionPipeline.LoadModel: records the saved-model pull as working. As written `sync_saved_model_dir_from_s3` raises NameError before the resolver is asked (see Findings).
- PredictionPipeline.PredictionPipeline.RunPipeline: follows the run specification with the pull working, not the as-written run (see Findings).
- PredictionDataValidation.InitiateDataValidation: the one-argument `SensorException(error_message)` at sensor/component/prediction_data_validation.py:114 is modelled as constructing normally and wrapping the message; sensor/exception.py is not part of this model, so whether that constructor accepts one argument is not checked.
- The stage components, `ModelResolver`, `SensorModel`, `TargetValueMapping` and the evaluation's champion comparison are not part of this model. Their results are parameters.
- The formatting of `SensorException` messages (sensor/exception.py is not part of this model). An exception is modelled as the chain of errors it wraps.
- `read_yaml_file` of the schema in the constructors: the schema is a parameter.
- The constants in sensor/constant are not part of this model: they are fields of configuration records.
- main.py's `/predict` route and the FastAPI app; setup.py; `perform_hyper_paramter_tunig`, which is an empty stub.
- Concurrency: the class-level `is_pipeline_running` flag is one shared object, with no locking.
- PredictionDataValidation.ValidationEffects: the drift-report write records the path only. The report's contents are stated by `DriftResultConsistent`.
- PredictionDataValidation.TargetExcluded: stated for baselines with distinct column names. With duplicate names, only the first occurrence of the target is removed, as `Lists.RemoveFirst` states.
- PredictionDataValidation.DetectDatasetDrift: the columns' values are not modelled. Only column names, the given p-values and whether `ks_2samp` raises on a column are. The report write (`os.makedirs` and `write_yaml_file`, which may fail) is modelled in `DataValidation`, after the comparison.
- ModelTrainer.SplitFeaturesLabel: arrays are two-dimensional. Indexing errors of other shapes are not modelled.
- ModelTrainer.StepsInOrder: a failing `load_numpy_array_data` is not modelled: the two arrays are inputs.
- ModelTrainer.AcceptedIff: the run starts from the two loaded arrays, so a failing `load_numpy_array_data` (model_trainer.py:41-42) is not among its failure cases.
- Frames.SetColumn: the counts in pandas' ValueError message are not reproduced.
- PredictionPipeline.PredictedTableContents: the prediction's own contents come from the model's `predict`, a parameter.

## Findings

| source | as written | input that shows it | evidently intended | confidence | as-written member | corrected member |
|---|---|---|---|---|---|---|
| sensor/utils/s3_utils.py:29 | `sync_folder_from_s3(...)` is called as a bare name, but the star import of sensor/cloud_storage/s3_syncer.py defines it only as a method of `S3Sync`; the call raises NameError, wrapped in SensorException, so `load_model` fails and no prediction run succeeds (the other helpers at lines 14, 21, 36 and 43 fail the same way) | any batch that downloads, loads and validates, with a saved model present | call the method on an `S3Sync()` object, as sensor/pipeline/training_pipeline.py:96-103 does, so the saved models are pulled and the latest one is loaded | high; not executed | PredictionPipeline.NoRunSucceedsAsWritten | PredictionPipeline.IntendedRunSucceeds |
