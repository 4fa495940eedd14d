/** The S3 locations both pipelines synchronise with (sensor/utils/s3_utils.py).  Each sync
    helper of the source formats a bucket URL and means to hand it, with a local folder, to
    `aws s3 sync`; here each returns that `Sync` command (or, for `get_predicted_s3_filepath`,
    the URL itself).  As written the hand-over fails: see `RunAsWritten`. */
module S3Utils {
  import opened Outcomes
  import opened Effects
  import opened Paths

  /** The configuration constants the URLs are made of: the two bucket names and the
      `ARTIFACT_DIR`, `SAVED_MODEL_DIR` and `PREDICTION_OUTPUT_FOLDER` directory names. */
  datatype S3Names = S3Names(
    trainingBucketName: string,
    predictionBucketName: string,
    artifactDir: string,
    savedModelDir: string,
    predictionOutputFolder: string)

  function TrainingArtifactUrl(n: S3Names, timeStamp: string): string
  {
    "s3://" + n.trainingBucketName + "/" + n.artifactDir + "/" + timeStamp
  }

  function TrainingArtifactRootUrl(n: S3Names): string
  {
    "s3://" + n.trainingBucketName + "/" + n.artifactDir
  }

  function SavedModelUrl(n: S3Names): string
  {
    "s3://" + n.trainingBucketName + "/" + n.savedModelDir
  }

  function PredictionArtifactUrl(n: S3Names, timeStamp: string): string
  {
    "s3://" + n.predictionBucketName + "/" + n.artifactDir + "/" + timeStamp
  }

  /** `sync_artifact_dir_to_s3`: push one training run's artifact folder. */
  function SyncArtifactDirToS3(n: S3Names, artifactDir: string, timeStamp: string): Sync
  {
    ToS3(artifactDir, TrainingArtifactUrl(n, timeStamp))
  }

  /** `sync_saved_model_dir_to_s3`: push the saved-model folder. */
  function SyncSavedModelDirToS3(n: S3Names): Sync
  {
    ToS3(n.savedModelDir, SavedModelUrl(n))
  }

  /** `sync_saved_model_dir_from_s3`: pull the saved-model folder. */
  function SyncSavedModelDirFromS3(n: S3Names): Sync
  {
    FromS3(SavedModelUrl(n), n.savedModelDir)
  }

  /** `sync_artifact_dir_from_s3`: pulls the whole training artifact tree, and (as written)
      into the saved-model folder rather than the artifact folder. */
  function SyncArtifactDirFromS3(n: S3Names): Sync
  {
    FromS3(TrainingArtifactRootUrl(n), n.savedModelDir)
  }

  /** `sync_prediction_artifact_dir_to_s3`: push one prediction run's artifact folder. */
  function SyncPredictionArtifactDirToS3(n: S3Names, predictionArtifactDir: string, timeStamp: string): Sync
  {
    ToS3(predictionArtifactDir, PredictionArtifactUrl(n, timeStamp))
  }

  /** What running one of the sync helpers above does as written.  Having built its URL, the
      helper calls `sync_folder_to_s3` or `sync_folder_from_s3` as a bare name, but the star
      import of sensor/cloud_storage/s3_syncer.py only brings in the class `S3Sync`, whose
      methods these are; the call raises `NameError`, which the helper wraps.  No `aws s3 sync`
      is run.  (The training pipeline calls the methods on an `S3Sync` object, which works.) */
  function RunAsWritten(s: Sync): Outcome
  {
    Fail(SensorException(NameError(if s.ToS3? then "sync_folder_to_s3" else "sync_folder_from_s3")))
  }

  /** `get_predicted_s3_filepath`: where a prediction output file ends up in the bucket. */
  function GetPredictedS3Filepath(n: S3Names, timeStamp: string, fileName: string): string
  {
    "s3://" + n.predictionBucketName + "/" + n.artifactDir + "/" + timeStamp + "/"
      + n.predictionOutputFolder + "/" + fileName
  }

  // ---------------------------------------------------------------------------------------
  // Reading a URL back: splitting on `/` (Python's `str.split("/")`) and its inverse.

  /** `s.split("/")`. */
  function Segments(s: string): (r: seq<string>)
    ensures |r| >= 1
  {
    if s == [] then [[]]
    else
      var rest := Segments(s[1..]);
      if s[0] == '/' then [[]] + rest else [[s[0]] + rest[0]] + rest[1..]
  }

  /** `"/".join(parts)`. */
  function JoinSegments(parts: seq<string>): string
    requires |parts| >= 1
  {
    if |parts| == 1 then parts[0] else parts[0] + "/" + JoinSegments(parts[1..])
  }

  lemma JoinSegmentsCons(first: string, rest: seq<string>)
    requires |rest| >= 1
    ensures JoinSegments([first] + rest) == first + "/" + JoinSegments(rest)
  {
    assert ([first] + rest)[1..] == rest;
  }

  lemma JoinTwo(a: string, b: string)
    ensures JoinSegments([a, b]) == a + "/" + b
  {
    JoinSegmentsCons(a, [b]);
    assert [a] + [b] == [a, b];
  }

  lemma JoinSegmentsThree(a: string, b: string, c: string, rest: seq<string>)
    requires |rest| >= 1
    ensures JoinSegments([a, b, c] + rest) == a + "/" + (b + "/" + (c + "/" + JoinSegments(rest)))
  {
    assert [a, b, c] + rest == [a] + ([b] + ([c] + rest));
    JoinSegmentsCons(c, rest);
    JoinSegmentsCons(b, [c] + rest);
    JoinSegmentsCons(a, [b] + ([c] + rest));
  }

  lemma SchemeHead(bucket: string, x: string)
    ensures "s3:" + "/" + ("" + "/" + (bucket + "/" + x)) == "s3://" + bucket + "/" + x
  {
    var y := bucket + "/" + x;
    assert "" + "/" + y == "/" + y;
    assert "s3:" + "/" + ("/" + y) == "s3://" + y;
  }

  /** The `s3://<bucket>/` head every URL starts with, as the first three split components. */
  lemma JoinBucketHead(bucket: string, rest: seq<string>)
    requires |rest| >= 1
    ensures JoinSegments(["s3:", "", bucket] + rest) == "s3://" + bucket + "/" + JoinSegments(rest)
  {
    JoinSegmentsThree("s3:", "", bucket, rest);
    SchemeHead(bucket, JoinSegments(rest));
  }

  lemma {:induction false} SegmentsOfPlain(a: string)
    requires Plain(a)
    ensures Segments(a) == [a]
  {
    if a != [] {
      SegmentsOfPlain(a[1..]);
      assert a == [a[0]] + a[1..];
    }
  }

  lemma {:induction false} SegmentsOfSlash(a: string, b: string)
    requires Plain(a)
    ensures Segments(a + "/" + b) == [a] + Segments(b)
  {
    var s := a + "/" + b;
    if a == [] {
      assert s[1..] == b;
    } else {
      assert s[1..] == a[1..] + "/" + b;
      SegmentsOfSlash(a[1..], b);
      assert a == [a[0]] + a[1..];
    }
  }

  /** Splitting a joined path of plain components gives the components back. */
  lemma {:induction false} SplitJoin(parts: seq<string>)
    requires |parts| >= 1
    requires forall i :: 0 <= i < |parts| ==> Plain(parts[i])
    ensures Segments(JoinSegments(parts)) == parts
  {
    if |parts| == 1 {
      SegmentsOfPlain(parts[0]);
    } else {
      SplitJoin(parts[1..]);
      SegmentsOfSlash(parts[0], JoinSegments(parts[1..]));
    }
  }

  // ---------------------------------------------------------------------------------------
  // What the URLs are made of.

  /** A training artifact URL is `s3:` / `` / training bucket / artifact dir / timestamp. */
  lemma TrainingArtifactUrlParts(n: S3Names, timeStamp: string)
    requires Plain(n.trainingBucketName) && Plain(n.artifactDir) && Plain(timeStamp)
    ensures Segments(TrainingArtifactUrl(n, timeStamp)) == ["s3:", "", n.trainingBucketName, n.artifactDir, timeStamp]
  {
    var parts := ["s3:", "", n.trainingBucketName, n.artifactDir, timeStamp];
    JoinTwo(n.artifactDir, timeStamp);
    assert parts == ["s3:", "", n.trainingBucketName] + [n.artifactDir, timeStamp];
    JoinBucketHead(n.trainingBucketName, [n.artifactDir, timeStamp]);
    assert "s3://" + n.trainingBucketName + "/" + (n.artifactDir + "/" + timeStamp) == TrainingArtifactUrl(n, timeStamp);
    SplitJoin(parts);
  }

  /** The saved-model URL is `s3:` / `` / training bucket / saved-model dir. */
  lemma SavedModelUrlParts(n: S3Names)
    requires Plain(n.trainingBucketName) && Plain(n.savedModelDir)
    ensures Segments(SavedModelUrl(n)) == ["s3:", "", n.trainingBucketName, n.savedModelDir]
  {
    var parts := ["s3:", "", n.trainingBucketName, n.savedModelDir];
    assert parts == ["s3:", "", n.trainingBucketName] + [n.savedModelDir];
    JoinBucketHead(n.trainingBucketName, [n.savedModelDir]);
    SplitJoin(parts);
  }

  /** A prediction artifact URL is `s3:` / `` / prediction bucket / artifact dir / timestamp. */
  lemma PredictionArtifactUrlParts(n: S3Names, timeStamp: string)
    requires Plain(n.predictionBucketName) && Plain(n.artifactDir) && Plain(timeStamp)
    ensures Segments(PredictionArtifactUrl(n, timeStamp)) == ["s3:", "", n.predictionBucketName, n.artifactDir, timeStamp]
  {
    var parts := ["s3:", "", n.predictionBucketName, n.artifactDir, timeStamp];
    JoinTwo(n.artifactDir, timeStamp);
    assert parts == ["s3:", "", n.predictionBucketName] + [n.artifactDir, timeStamp];
    JoinBucketHead(n.predictionBucketName, [n.artifactDir, timeStamp]);
    assert "s3://" + n.predictionBucketName + "/" + (n.artifactDir + "/" + timeStamp) == PredictionArtifactUrl(n, timeStamp);
    SplitJoin(parts);
  }

  /** A predicted-file URL is the prediction artifact URL of its timestamp followed by
      the output folder and the file name: the file lies inside the folder that
      `sync_prediction_artifact_dir_to_s3` pushes for the same timestamp. */
  lemma PredictedFileInPushedFolder(n: S3Names, predictionArtifactDir: string, timeStamp: string, fileName: string)
    ensures GetPredictedS3Filepath(n, timeStamp, fileName)
         == SyncPredictionArtifactDirToS3(n, predictionArtifactDir, timeStamp).url + "/" + n.predictionOutputFolder + "/" + fileName
    ensures (Plain(n.predictionBucketName) && Plain(n.artifactDir) && Plain(timeStamp)
             && Plain(n.predictionOutputFolder) && Plain(fileName))
        ==> (Segments(GetPredictedS3Filepath(n, timeStamp, fileName))
             == ["s3:", "", n.predictionBucketName, n.artifactDir, timeStamp, n.predictionOutputFolder, fileName])
  {
    if Plain(n.predictionBucketName) && Plain(n.artifactDir) && Plain(timeStamp)
      && Plain(n.predictionOutputFolder) && Plain(fileName)
    {
      var tail := [n.artifactDir, timeStamp, n.predictionOutputFolder, fileName];
      var parts := ["s3:", "", n.predictionBucketName] + tail;
      assert tail == [n.artifactDir, timeStamp, n.predictionOutputFolder] + [fileName];
      JoinSegmentsThree(n.artifactDir, timeStamp, n.predictionOutputFolder, [fileName]);
      JoinBucketHead(n.predictionBucketName, tail);
      assert "s3://" + n.predictionBucketName + "/"
          + (n.artifactDir + "/" + (timeStamp + "/" + (n.predictionOutputFolder + "/" + fileName)))
          == GetPredictedS3Filepath(n, timeStamp, fileName);
      SplitJoin(parts);
    }
  }

  /** Training URLs name the training bucket and prediction URLs the prediction bucket, so
      with two different (plain) bucket names no training location is a prediction location. */
  lemma TrainingAndPredictionUrlsDiffer(n: S3Names, t1: string, t2: string, fileName: string)
    requires n.trainingBucketName != n.predictionBucketName
    requires Plain(n.trainingBucketName) && Plain(n.predictionBucketName) && Plain(n.artifactDir)
    requires Plain(n.savedModelDir) && Plain(n.predictionOutputFolder) && Plain(t1) && Plain(t2) && Plain(fileName)
    ensures TrainingArtifactUrl(n, t1) != PredictionArtifactUrl(n, t2)
    ensures TrainingArtifactUrl(n, t1) != GetPredictedS3Filepath(n, t2, fileName)
    ensures SavedModelUrl(n) != PredictionArtifactUrl(n, t2)
    ensures SavedModelUrl(n) != GetPredictedS3Filepath(n, t2, fileName)
  {
    TrainingArtifactUrlParts(n, t1);
    PredictionArtifactUrlParts(n, t2);
    SavedModelUrlParts(n);
    PredictedFileInPushedFolder(n, "", t2, fileName);
  }

  /** Different timestamps give different artifact URLs, in either bucket: no two runs
      push into the same S3 folder. */
  lemma ArtifactUrlDeterminesTimestamp(n: S3Names, t1: string, t2: string)
    ensures TrainingArtifactUrl(n, t1) == TrainingArtifactUrl(n, t2) ==> t1 == t2
    ensures PredictionArtifactUrl(n, t1) == PredictionArtifactUrl(n, t2) ==> t1 == t2
  {
    var p := "s3://" + n.trainingBucketName + "/" + n.artifactDir + "/";
    assert TrainingArtifactUrl(n, t1) == p + t1 && TrainingArtifactUrl(n, t2) == p + t2;
    assert (p + t1)[|p|..] == t1 && (p + t2)[|p|..] == t2;
    var q := "s3://" + n.predictionBucketName + "/" + n.artifactDir + "/";
    assert PredictionArtifactUrl(n, t1) == q + t1 && PredictionArtifactUrl(n, t2) == q + t2;
    assert (q + t1)[|q|..] == t1 && (q + t2)[|q|..] == t2;
  }

  /** Pushing and pulling the saved models use one folder/URL pair, in opposite directions. */
  lemma SavedModelRoundTrip(n: S3Names)
    ensures SyncSavedModelDirFromS3(n) == SyncSavedModelDirToS3(n).Reversed()
  {
  }

  /** `sync_artifact_dir_from_s3` pulls the root of every training run's artifact URL, and
      lands it in the saved-model folder. */
  lemma ArtifactPullTargetsSavedModelDir(n: S3Names, timeStamp: string)
    ensures SyncArtifactDirFromS3(n).FromS3? && SyncArtifactDirFromS3(n).folder == n.savedModelDir
    ensures TrainingArtifactUrl(n, timeStamp) == SyncArtifactDirFromS3(n).url + "/" + timeStamp
  {
  }
}
