/** Validation of an incoming prediction batch (sensor/component/prediction_data_validation.py):
    two schema checks on the batch's columns, then a per-column drift test against the training
    split of the latest training run.  The Kolmogorov-Smirnov test itself is not modelled: its
    p-value for each column is an input. */
module PredictionDataValidation {
  import opened Outcomes
  import opened Lists
  import opened Effects
  import Paths

  /** The parts of the schema file the validator reads. */
  datatype Schema = Schema(columns: seq<string>, numericalColumns: seq<string>, dropColumns: seq<string>)

  /** Configuration names that locate the baseline training file and the drift report:
      `TARGET_COLUMN`, `ARTIFACT_DIR`, `DATA_INGESTION_DIR_NAME`, `DATA_INGESTION_INGESTED_DIR`,
      `TRAIN_FILE_NAME` and the prediction pipeline's `drift_report_file_path`. */
  datatype ValidationConfig = ValidationConfig(
    targetColumn: string,
    artifactDir: string,
    dataIngestionDirName: string,
    dataIngestionIngestedDir: string,
    trainFileName: string,
    driftReportFilePath: string)

  /** What the validator finds on disk and computes outside the model: the entries of the
      artifact directory (or what `os.listdir` raises, say for a missing directory), the
      columns of the CSV file at a path (or what `read_csv` raises, say for a run without an
      ingested train split), for each column of the batch what `ks_2samp` raises against the
      baseline (say `ValueError` for an empty batch) or else its p-value, and whether creating
      the report's directory and writing the YAML report succeed. */
  datatype Baseline = Baseline(
    artifactRuns: Result<seq<string>>,
    columnsAt: string -> Result<seq<string>>,
    ksError: string -> Option<Error>,
    pValue: string -> real,
    writeReport: Outcome)

  /** The default significance level of `detect_dataset_drift`. */
  const DefaultThreshold: real := 0.05

  const ColumnCountMessage := "Input dataframe does not contain all columns.\n"
  const NumericalColumnsMessage := "Input dataframe does not contain all numerical columns.\n"

  // ---------------------------------------------------------------------------------------
  // Schema checks

  /** `validate_number_of_columns`: the batch has one column fewer than the schema, the
      schema's target column being absent from prediction input. */
  function ValidateNumberOfColumns(schema: Schema, frameColumns: seq<string>): (ok: bool)
    ensures ok <==> |frameColumns| + 1 == |schema.columns|
    ensures ok ==> |schema.columns| >= 1
  {
    |frameColumns| == |schema.columns| - 1
  }

  /** `is_numerical_column_exist`: looks every numerical column of the schema up among the
      batch's columns, collecting the missing ones (in schema order) as it goes. */
  method IsNumericalColumnExist(schema: Schema, frameColumns: seq<string>) returns (present: bool, missing: seq<string>)
    ensures missing == Without(schema.numericalColumns, frameColumns)
    ensures present <==> forall c :: c in schema.numericalColumns ==> c in frameColumns
  {
    var numericalColumns := schema.numericalColumns;
    present := true;
    missing := [];
    for i := 0 to |numericalColumns|
      invariant missing == Without(numericalColumns[..i], frameColumns)
      invariant present <==> missing == []
    {
      var numColumn := numericalColumns[i];
      assert numericalColumns[..i + 1][..i] == numericalColumns[..i];
      if numColumn !in frameColumns {
        present := false;
        missing := missing + [numColumn];
      }
    }
    assert numericalColumns[..|numericalColumns|] == numericalColumns;
    WithoutEmpty(numericalColumns, frameColumns);
  }

  /** The error text `initiate_data_validation` accumulates: one line per failed check,
      the column-count line first. */
  function SchemaErrors(schema: Schema, frameColumns: seq<string>): string
  {
    (if ValidateNumberOfColumns(schema, frameColumns) then "" else ColumnCountMessage)
    + (if forall c :: c in schema.numericalColumns ==> c in frameColumns then "" else NumericalColumnsMessage)
  }

  /** The accumulated error text is empty exactly when both checks pass; it begins with the
      column-count line exactly when that check fails and ends with the numerical-columns line
      exactly when that one fails. */
  lemma SchemaErrorsReportEachFailure(schema: Schema, frameColumns: seq<string>)
    ensures |SchemaErrors(schema, frameColumns)| == 0
        <==> ValidateNumberOfColumns(schema, frameColumns) && Without(schema.numericalColumns, frameColumns) == []
    ensures ColumnCountMessage <= SchemaErrors(schema, frameColumns)
        <==> !ValidateNumberOfColumns(schema, frameColumns)
    ensures (var e := SchemaErrors(schema, frameColumns);
             |e| >= |NumericalColumnsMessage| && e[|e| - |NumericalColumnsMessage|..] == NumericalColumnsMessage)
        <==> Without(schema.numericalColumns, frameColumns) != []
  {
    WithoutEmpty(schema.numericalColumns, frameColumns);
    var e := SchemaErrors(schema, frameColumns);
    var c := ColumnCountMessage;
    var m := NumericalColumnsMessage;
    assert c[37] != m[37];
    if !ValidateNumberOfColumns(schema, frameColumns) && Without(schema.numericalColumns, frameColumns) != [] {
      assert e == c + m;
      assert e[|e| - |m|..] == m;
    }
    if !ValidateNumberOfColumns(schema, frameColumns) && Without(schema.numericalColumns, frameColumns) == [] {
      assert e == c;
      assert |e| < |m|;
    }
    if ValidateNumberOfColumns(schema, frameColumns) && Without(schema.numericalColumns, frameColumns) != [] {
      assert e == m;
      assert !(c <= e) by { assert e[37] != c[37]; }
    }
  }

  // ---------------------------------------------------------------------------------------
  // Drift detection

  datatype ColumnReport = ColumnReport(pValue: real, driftStatus: bool)

  /** The drift verdict, the per-column report written to the YAML file, and the drifted
      columns listed in the log line. */
  datatype DriftResult = DriftResult(status: bool, report: map<string, ColumnReport>, driftColumns: seq<string>)

  /** A column has drifted when its p-value is not at least the threshold. */
  predicate IsDrift(pValue: real, threshold: real)
  {
    !(threshold <= pValue)
  }

  /** Drift is strict: a p-value equal to the threshold counts as the same distribution. */
  lemma DriftThresholdBoundary(pValue: real, threshold: real)
    ensures IsDrift(pValue, threshold) <==> pValue < threshold
    ensures !IsDrift(threshold, threshold) && !IsDrift(DefaultThreshold, DefaultThreshold)
  {
  }

  /** The columns of `cols` whose p-value shows drift, in the order of `cols`. */
  function DriftColumns(cols: seq<string>, pValue: string -> real, threshold: real): seq<string>
  {
    if cols == [] then []
    else
      var last := cols[|cols| - 1];
      DriftColumns(cols[..|cols| - 1], pValue, threshold) + (if IsDrift(pValue(last), threshold) then [last] else [])
  }

  /** The report entry of every compared column. */
  function DriftReport(cols: seq<string>, pValue: string -> real, threshold: real): map<string, ColumnReport>
  {
    map c | c in cols :: ColumnReport(pValue(c), IsDrift(pValue(c), threshold))
  }

  /** The columns `detect_dataset_drift` compares: the baseline's columns without (the first
      occurrence of) the target column; `list.remove` raises `ValueError` when it is absent. */
  function ComparedColumns(baseColumns: seq<string>, target: string): Result<seq<string>>
  {
    match RemoveFirst(baseColumns, target)
    case None => Failure(ValueError("list.remove(x): x not in list"))
    case Some(cols) => Success(cols)
  }

  /** What comparing one column raises: `KeyError` when the batch has no column of that name,
      otherwise whatever `ks_2samp` raises on it. */
  function ColumnError(column: string, currentColumns: seq<string>, ksError: string -> Option<Error>): Option<Error>
  {
    if column !in currentColumns then Some(KeyError([column])) else ksError(column)
  }

  /** The error of the first column, front to back, whose comparison raises. */
  function FirstColumnError(cols: seq<string>, currentColumns: seq<string>, ksError: string -> Option<Error>): (r: Option<Error>)
    ensures r.None? <==> forall c :: c in cols ==> ColumnError(c, currentColumns, ksError).None?
  {
    if cols == [] then None
    else if ColumnError(cols[0], currentColumns, ksError).Some? then ColumnError(cols[0], currentColumns, ksError)
    else
      var r := FirstColumnError(cols[1..], currentColumns, ksError);
      assert forall c :: c in cols ==> c == cols[0] || c in cols[1..];
      r
  }

  /** When column `i` raises and no column before it does, its error is the first one. */
  lemma {:induction false} FirstColumnErrorAt(cols: seq<string>, currentColumns: seq<string>, ksError: string -> Option<Error>, i: nat)
    requires i < |cols| && ColumnError(cols[i], currentColumns, ksError).Some?
    requires forall k :: 0 <= k < i ==> ColumnError(cols[k], currentColumns, ksError).None?
    ensures FirstColumnError(cols, currentColumns, ksError) == ColumnError(cols[i], currentColumns, ksError)
  {
    if i > 0 {
      FirstColumnErrorAt(cols[1..], currentColumns, ksError, i - 1);
    }
  }

  /** What `detect_dataset_drift` computes: for every compared column, in baseline order, the
      batch's column of that name (a `KeyError` if it has none), the KS test (which may raise)
      and the drift verdict from its p-value; the overall status is whether any column drifted. */
  function DatasetDrift(baseColumns: seq<string>, currentColumns: seq<string>, target: string,
                        ksError: string -> Option<Error>, pValue: string -> real, threshold: real): Result<DriftResult>
  {
    match ComparedColumns(baseColumns, target)
    case Failure(e) => Failure(SensorException(e))
    case Success(cols) => DriftOver(cols, currentColumns, ksError, pValue, threshold)
  }

  /** The comparison loop of `detect_dataset_drift` over the compared columns `cols`. */
  function DriftOver(cols: seq<string>, currentColumns: seq<string>, ksError: string -> Option<Error>,
                     pValue: string -> real, threshold: real): Result<DriftResult>
  {
    match FirstColumnError(cols, currentColumns, ksError)
    case Some(e) => Failure(SensorException(e))
    case None =>
      Success(DriftResult(
        exists c :: c in cols && IsDrift(pValue(c), threshold),
        DriftReport(cols, pValue, threshold),
        DriftColumns(cols, pValue, threshold)))
  }

  /** `detect_dataset_drift`: remove the target column from the baseline's columns, then
      compare the rest. */
  method DetectDatasetDrift(baseColumns: seq<string>, currentColumns: seq<string>, target: string,
                            ksError: string -> Option<Error>, pValue: string -> real, threshold: real)
    returns (r: Result<DriftResult>)
    ensures r == DatasetDrift(baseColumns, currentColumns, target, ksError, pValue, threshold)
  {
    var removed := RemoveFirst(baseColumns, target);
    if removed.None? {
      return Failure(SensorException(ValueError("list.remove(x): x not in list")));
    }
    r := CompareColumns(removed.value, currentColumns, ksError, pValue, threshold);
  }

  /** The loop of `detect_dataset_drift`, which flips `status`, appends to the drift-column
      list and updates the report one compared column at a time. */
  method CompareColumns(baseDataColumns: seq<string>, currentColumns: seq<string>, ksError: string -> Option<Error>,
                        pValue: string -> real, threshold: real)
    returns (r: Result<DriftResult>)
    ensures r == DriftOver(baseDataColumns, currentColumns, ksError, pValue, threshold)
  {
    var status := false;
    var report: map<string, ColumnReport> := map[];
    var dataDriftColumns: seq<string> := [];
    for i := 0 to |baseDataColumns|
      invariant forall k :: 0 <= k < i ==> ColumnError(baseDataColumns[k], currentColumns, ksError).None?
      invariant status <==> dataDriftColumns != []
      invariant report == DriftReport(baseDataColumns[..i], pValue, threshold)
      invariant dataDriftColumns == DriftColumns(baseDataColumns[..i], pValue, threshold)
    {
      var column := baseDataColumns[i];
      if column !in currentColumns {
        FirstColumnErrorAt(baseDataColumns, currentColumns, ksError, i);
        return Failure(SensorException(KeyError([column])));
      }
      var ksFailure := ksError(column);
      if ksFailure.Some? {
        FirstColumnErrorAt(baseDataColumns, currentColumns, ksError, i);
        return Failure(SensorException(ksFailure.value));
      }
      var p := pValue(column);
      var isFound: bool;
      if threshold <= p {
        isFound := false;
      } else {
        isFound := true;
        dataDriftColumns := dataDriftColumns + [column];
        status := true;
      }
      report := report[column := ColumnReport(p, isFound)];
      DriftReportSnoc(baseDataColumns[..i], column, pValue, threshold);
      assert baseDataColumns[..i + 1] == baseDataColumns[..i] + [column];
    }
    assert baseDataColumns[..|baseDataColumns|] == baseDataColumns;
    DriftStatusIsAnyFlag(baseDataColumns, pValue, threshold);
    return Success(DriftResult(status, report, dataDriftColumns));
  }

  lemma DriftReportSnoc(cols: seq<string>, column: string, pValue: string -> real, threshold: real)
    ensures DriftReport(cols + [column], pValue, threshold)
         == DriftReport(cols, pValue, threshold)[column := ColumnReport(pValue(column), IsDrift(pValue(column), threshold))]
  {
  }

  /** Some compared column has drifted exactly when the drift-column list is non-empty. */
  lemma DriftStatusIsAnyFlag(cols: seq<string>, pValue: string -> real, threshold: real)
    ensures DriftColumns(cols, pValue, threshold) != [] <==> exists c :: c in cols && IsDrift(pValue(c), threshold)
  {
    DriftColumnsMembers(cols, pValue, threshold);
    var d := DriftColumns(cols, pValue, threshold);
    if d != [] {
      assert d[0] in d;
    }
  }

  /** A column is listed as drifted exactly when it is compared and its p-value is below the threshold. */
  lemma {:induction false} DriftColumnsMembers(cols: seq<string>, pValue: string -> real, threshold: real)
    ensures forall c :: c in DriftColumns(cols, pValue, threshold) <==> c in cols && IsDrift(pValue(c), threshold)
  {
    if cols != [] {
      DriftColumnsMembers(cols[..|cols| - 1], pValue, threshold);
      assert cols == cols[..|cols| - 1] + [cols[|cols| - 1]];
    }
  }

  /** The drift-column list keeps baseline order: listing the columns of two consecutive
      stretches of the baseline is listing each stretch in turn. */
  lemma {:induction false} DriftColumnsInOrder(a: seq<string>, b: seq<string>, pValue: string -> real, threshold: real)
    ensures DriftColumns(a + b, pValue, threshold) == DriftColumns(a, pValue, threshold) + DriftColumns(b, pValue, threshold)
    decreases |b|
  {
    if b == [] {
      assert a + b == a;
    } else {
      var n := |b| - 1;
      assert (a + b)[..|a + b| - 1] == a + b[..n];
      assert (a + b)[|a + b| - 1] == b[n];
      DriftColumnsInOrder(a, b[..n], pValue, threshold);
    }
  }

  /** On success, every compared column has exactly one report entry with its p-value and its
      drift flag, the overall status is the OR of those flags, and it is set exactly when the
      drift-column list is non-empty. */
  lemma DriftResultConsistent(baseColumns: seq<string>, currentColumns: seq<string>, target: string,
                              ksError: string -> Option<Error>, pValue: string -> real, threshold: real)
    requires DatasetDrift(baseColumns, currentColumns, target, ksError, pValue, threshold).Success?
    ensures var d := DatasetDrift(baseColumns, currentColumns, target, ksError, pValue, threshold).value;
      && ComparedColumns(baseColumns, target).Success?
      && d.report.Keys == set c | c in ComparedColumns(baseColumns, target).value
      && (forall c :: c in d.report ==> d.report[c] == ColumnReport(pValue(c), IsDrift(pValue(c), threshold)))
      && (d.status <==> exists c :: c in d.report && d.report[c].driftStatus)
      && (d.status <==> d.driftColumns != [])
  {
    var cols := ComparedColumns(baseColumns, target).value;
    var d := DatasetDrift(baseColumns, currentColumns, target, ksError, pValue, threshold).value;
    DriftStatusIsAnyFlag(cols, pValue, threshold);
  }

  /** `detect_dataset_drift` fails before its report exactly when the target column is
      missing from the baseline, or some compared column is missing from the batch or makes
      the KS test raise; the error is that of the first such column. */
  lemma DriftFailsIff(baseColumns: seq<string>, currentColumns: seq<string>, target: string,
                      ksError: string -> Option<Error>, pValue: string -> real, threshold: real)
    ensures DatasetDrift(baseColumns, currentColumns, target, ksError, pValue, threshold).Failure?
        <==> target !in baseColumns
             || exists c :: c in ComparedColumns(baseColumns, target).value && (c !in currentColumns || ksError(c).Some?)
    ensures target in baseColumns && DatasetDrift(baseColumns, currentColumns, target, ksError, pValue, threshold).Failure?
        ==> DatasetDrift(baseColumns, currentColumns, target, ksError, pValue, threshold)
            == Failure(SensorException(FirstColumnError(ComparedColumns(baseColumns, target).value, currentColumns, ksError).value))
  {
  }

  /** With distinct baseline column names, the target is the one baseline column that is not
      compared: it gets no report entry and every other column does. */
  lemma TargetExcluded(baseColumns: seq<string>, target: string)
    requires Distinct(baseColumns)
    requires target in baseColumns
    ensures ComparedColumns(baseColumns, target).Success?
    ensures forall c :: c in ComparedColumns(baseColumns, target).value <==> c in baseColumns && c != target
  {
    var i := FirstIndex(baseColumns, target);
    var cols := baseColumns[..i] + baseColumns[i + 1..];
    assert ComparedColumns(baseColumns, target) == Success(cols);
    assert target !in baseColumns[i + 1..] by {
      forall k | i + 1 <= k < |baseColumns| ensures baseColumns[k] != target {
        assert baseColumns[k] != baseColumns[i];
      }
    }
    assert baseColumns == baseColumns[..i] + [target] + baseColumns[i + 1..];
  }

  /** A batch that the KS test finds identical to the baseline in every column (p-value 1)
      shows no drift at any threshold up to 1. */
  lemma IdenticalBatchNoDrift(baseColumns: seq<string>, currentColumns: seq<string>, target: string,
                              ksError: string -> Option<Error>, pValue: string -> real, threshold: real)
    requires forall c :: pValue(c) == 1.0
    requires threshold <= 1.0
    requires DatasetDrift(baseColumns, currentColumns, target, ksError, pValue, threshold).Success?
    ensures !DatasetDrift(baseColumns, currentColumns, target, ksError, pValue, threshold).value.status
    ensures DatasetDrift(baseColumns, currentColumns, target, ksError, pValue, threshold).value.driftColumns == []
  {
    var cols := ComparedColumns(baseColumns, target).value;
    assert forall c :: !IsDrift(pValue(c), threshold);
    DriftStatusIsAnyFlag(cols, pValue, threshold);
  }

  // ---------------------------------------------------------------------------------------
  // The baseline: the training split of the latest training run

  /** Python's `<=` on strings: code-point lexicographic order, a proper prefix first. */
  predicate StrLe(a: string, b: string)
  {
    a == [] || (b != [] && (a[0] < b[0] || (a[0] == b[0] && StrLe(a[1..], b[1..]))))
  }

  lemma {:induction false} StrLeTotal(a: string, b: string)
    ensures StrLe(a, b) || StrLe(b, a)
  {
    if a != [] && b != [] && a[0] == b[0] {
      StrLeTotal(a[1..], b[1..]);
    }
  }

  lemma {:induction false} StrLeTransitive(a: string, b: string, c: string)
    requires StrLe(a, b) && StrLe(b, c)
    ensures StrLe(a, c)
  {
    if a != [] && b != [] && c != [] && a[0] == b[0] && b[0] == c[0] {
      StrLeTransitive(a[1..], b[1..], c[1..]);
    }
  }

  lemma {:induction false} StrLeAntisymmetric(a: string, b: string)
    requires StrLe(a, b) && StrLe(b, a)
    ensures a == b
  {
    if a != [] && b != [] {
      StrLeAntisymmetric(a[1..], b[1..]);
      assert a == [a[0]] + a[1..] && b == [b[0]] + b[1..];
    }
  }

  /** The first element of `sorted(names, reverse=True)`: the greatest name. */
  function Greatest(names: seq<string>): (g: string)
    requires |names| > 0
    ensures g in names
    ensures forall x :: x in names ==> StrLe(x, g)
  {
    StrLeTotal(names[0], names[0]);
    if |names| == 1 then names[0]
    else
      var g := Greatest(names[1..]);
      StrLeTotal(names[0], g);
      if StrLe(g, names[0]) then
        assert forall x :: x in names ==> StrLe(x, names[0]) by {
          forall x | x in names ensures StrLe(x, names[0]) {
            if x != names[0] {
              assert x in names[1..];
              StrLeTransitive(x, g, names[0]);
            }
          }
        }
        names[0]
      else
        assert forall x :: x in names ==> StrLe(x, g) by {
          forall x | x in names ensures StrLe(x, g) {
            if x != names[0] {
              assert x in names[1..];
            }
          }
        }
        g
  }

  /** The greatest name is unique: no other listed name is at least every name. */
  lemma GreatestUnique(names: seq<string>, other: string)
    requires |names| > 0
    requires other in names && forall x :: x in names ==> StrLe(x, other)
    ensures other == Greatest(names)
  {
    StrLeAntisymmetric(other, Greatest(names));
  }

  /** `get_base_dataframe`'s choice of run: the greatest artifact-directory entry; an empty
      artifact directory makes `artifact_list[0]` raise `IndexError`. */
  function LatestArtifactDir(artifactRuns: seq<string>): (r: Result<string>)
    ensures r.Failure? <==> artifactRuns == []
    ensures r.Success? ==> r.value in artifactRuns && forall x :: x in artifactRuns ==> StrLe(x, r.value)
  {
    if artifactRuns == [] then Failure(IndexError("list index out of range")) else Success(Greatest(artifactRuns))
  }

  /** Where the training split of run `run` lies. */
  function TrainFilePath(cfg: ValidationConfig, run: string): string
  {
    Paths.Join(Paths.Join(Paths.Join(Paths.Join(cfg.artifactDir, run), cfg.dataIngestionDirName),
                          cfg.dataIngestionIngestedDir), cfg.trainFileName)
  }

  // ---------------------------------------------------------------------------------------
  // The whole validation

  /** The outcome of `initiate_data_validation` (drift status, or the exception) and the
      files it listed, read and wrote, in order. */
  datatype ValidationRun = ValidationRun(result: Result<bool>, effects: seq<Event>)

  /** What `initiate_data_validation` does: both schema checks, an error carrying every failed
      check's line if any failed, otherwise the drift check against the latest run's training
      split, whose status it returns. */
  function DataValidation(cfg: ValidationConfig, schema: Schema, inputColumns: seq<string>, baseline: Baseline): ValidationRun
  {
    var errors := SchemaErrors(schema, inputColumns);
    if |errors| > 0 then ValidationRun(Failure(SensorException(SensorException(Exception(errors)))), [])
    else
      var listed := [ListDir(cfg.artifactDir + "/")];
      match baseline.artifactRuns
      case Failure(e) => ValidationRun(Failure(SensorException(e)), listed)
      case Success(runs) =>
        match LatestArtifactDir(runs)
        case Failure(e) => ValidationRun(Failure(SensorException(e)), listed)
        case Success(run) =>
          var trainFile := TrainFilePath(cfg, run);
          var read := listed + [ReadCsv(trainFile)];
          match baseline.columnsAt(trainFile)
          case Failure(e) => ValidationRun(Failure(SensorException(e)), read)
          case Success(baseColumns) =>
            match DatasetDrift(baseColumns, inputColumns, cfg.targetColumn, baseline.ksError, baseline.pValue, DefaultThreshold)
            case Failure(e) => ValidationRun(Failure(SensorException(e)), read)
            case Success(d) =>
              match baseline.writeReport
              case Fail(e) => ValidationRun(Failure(SensorException(SensorException(e))), read)
              case Pass => ValidationRun(Success(d.status), read + [WriteYaml(cfg.driftReportFilePath)])
  }

  /** `initiate_data_validation`, accumulating its error message step by step. */
  method InitiateDataValidation(cfg: ValidationConfig, schema: Schema, inputColumns: seq<string>, baseline: Baseline)
    returns (r: Result<bool>, effects: seq<Event>)
    ensures ValidationRun(r, effects) == DataValidation(cfg, schema, inputColumns, baseline)
  {
    var errorMessage := "";
    var status := ValidateNumberOfColumns(schema, inputColumns);
    if !status {
      errorMessage := errorMessage + ColumnCountMessage;
      assert errorMessage == ColumnCountMessage;
    }
    ghost var counted := errorMessage;
    var present, missing := IsNumericalColumnExist(schema, inputColumns);
    if !present {
      errorMessage := errorMessage + NumericalColumnsMessage;
    } else {
      assert errorMessage == counted + "";
    }
    assert errorMessage == SchemaErrors(schema, inputColumns);
    if |errorMessage| > 0 {
      return Failure(SensorException(SensorException(Exception(errorMessage)))), [];
    }
    effects := [ListDir(cfg.artifactDir + "/")];
    var artifactList := baseline.artifactRuns;
    if artifactList.Failure? {
      return Failure(SensorException(artifactList.error)), effects;
    }
    var latest := LatestArtifactDir(artifactList.value);
    if latest.Failure? {
      return Failure(SensorException(latest.error)), effects;
    }
    var trainFile := TrainFilePath(cfg, latest.value);
    effects := effects + [ReadCsv(trainFile)];
    var baseDf := baseline.columnsAt(trainFile);
    if baseDf.Failure? {
      return Failure(SensorException(baseDf.error)), effects;
    }
    var drift := DetectDatasetDrift(baseDf.value, inputColumns, cfg.targetColumn,
                                    baseline.ksError, baseline.pValue, DefaultThreshold);
    if drift.Failure? {
      return Failure(SensorException(drift.error)), effects;
    }
    if baseline.writeReport.Fail? {
      return Failure(SensorException(SensorException(baseline.writeReport.error))), effects;
    }
    effects := effects + [WriteYaml(cfg.driftReportFilePath)];
    r := Success(drift.value.status);
  }

  /** A failed schema check ends validation with the accumulated message before anything is
      listed, read or compared.  With both checks passing, a failing directory listing or a
      failing read of the greatest run's training split ends it with that error, wrapped; and
      validation succeeds exactly when the lookup, the drift check and the report write
      succeed, returning the drift status of the batch against that split; a failing report
      write ends it with that error, wrapped twice. */
  lemma SchemaFailureStopsBeforeDrift(cfg: ValidationConfig, schema: Schema, inputColumns: seq<string>, baseline: Baseline)
    ensures var v := DataValidation(cfg, schema, inputColumns, baseline);
      !ValidateNumberOfColumns(schema, inputColumns) || Without(schema.numericalColumns, inputColumns) != []
      ==> v.effects == [] && v.result == Failure(SensorException(SensorException(Exception(SchemaErrors(schema, inputColumns)))))
    ensures var v := DataValidation(cfg, schema, inputColumns, baseline);
      ValidateNumberOfColumns(schema, inputColumns) && Without(schema.numericalColumns, inputColumns) == []
      && baseline.artifactRuns.Failure?
      ==> v.result == Failure(SensorException(baseline.artifactRuns.error))
    ensures var v := DataValidation(cfg, schema, inputColumns, baseline);
      ValidateNumberOfColumns(schema, inputColumns) && Without(schema.numericalColumns, inputColumns) == []
      && baseline.artifactRuns.Success? && baseline.artifactRuns.value != []
      && baseline.columnsAt(TrainFilePath(cfg, Greatest(baseline.artifactRuns.value))).Failure?
      ==> v.result == Failure(SensorException(baseline.columnsAt(TrainFilePath(cfg, Greatest(baseline.artifactRuns.value))).error))
    ensures var v := DataValidation(cfg, schema, inputColumns, baseline);
      v.result.Success? <==>
        && ValidateNumberOfColumns(schema, inputColumns)
        && Without(schema.numericalColumns, inputColumns) == []
        && baseline.artifactRuns.Success?
        && baseline.artifactRuns.value != []
        && baseline.columnsAt(TrainFilePath(cfg, Greatest(baseline.artifactRuns.value))).Success?
        && DatasetDrift(baseline.columnsAt(TrainFilePath(cfg, Greatest(baseline.artifactRuns.value))).value, inputColumns,
                        cfg.targetColumn, baseline.ksError, baseline.pValue, DefaultThreshold).Success?
        && baseline.writeReport.Pass?
    ensures var v := DataValidation(cfg, schema, inputColumns, baseline);
      && ValidateNumberOfColumns(schema, inputColumns) && Without(schema.numericalColumns, inputColumns) == []
      && baseline.artifactRuns.Success? && baseline.artifactRuns.value != []
      && baseline.columnsAt(TrainFilePath(cfg, Greatest(baseline.artifactRuns.value))).Success?
      && DatasetDrift(baseline.columnsAt(TrainFilePath(cfg, Greatest(baseline.artifactRuns.value))).value, inputColumns,
                      cfg.targetColumn, baseline.ksError, baseline.pValue, DefaultThreshold).Success?
      && baseline.writeReport.Fail?
      ==> v.result == Failure(SensorException(SensorException(baseline.writeReport.error)))
    ensures var v := DataValidation(cfg, schema, inputColumns, baseline);
      v.result.Success? ==>
        v.result.value == DatasetDrift(baseline.columnsAt(TrainFilePath(cfg, Greatest(baseline.artifactRuns.value))).value, inputColumns,
                                       cfg.targetColumn, baseline.ksError, baseline.pValue, DefaultThreshold).value.status
  {
    SchemaErrorsReportEachFailure(schema, inputColumns);
  }

  /** Validation only lists the artifact directory, reads the baseline split and writes the
      drift report, and it writes the report exactly when it succeeds. */
  lemma ValidationEffects(cfg: ValidationConfig, schema: Schema, inputColumns: seq<string>, baseline: Baseline)
    ensures var v := DataValidation(cfg, schema, inputColumns, baseline);
      forall e :: e in v.effects ==> e.ListDir? || e.ReadCsv? || e.WriteYaml?
    ensures var v := DataValidation(cfg, schema, inputColumns, baseline);
      (exists e :: e in v.effects && e.WriteYaml?) <==> v.result.Success?
  {
    var v := DataValidation(cfg, schema, inputColumns, baseline);
    if v.result.Success? {
      assert v.effects[|v.effects| - 1] == WriteYaml(cfg.driftReportFilePath);
    }
  }
}
