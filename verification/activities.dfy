/**
 * The dataset activities of backend/src/temporal/activities.ts: the
 * idempotency check, the status and log writes of the clean, transform, EDA
 * and rollback activities, and the progress query.  The `datasets` table is
 * a map from dataset id to its row, `cleaning_logs` an append-only sequence
 * and `eda_results` a sequence of (dataset id, analysis) pairs.  Reading the
 * CSV file is a parameter: the records `loadCSVData` would return, or the
 * message of the error it would raise.
 */
module Activities {
  import opened Wrappers
  import opened Strings
  import opened Rows
  import opened Sorting
  import opened Pipeline
  import opened Inventory

  // ---------------------------------------------------------------- the idempotency check

  datatype WorkflowType = CleanWorkflow | TransformWorkflow

  /** What `SELECT workflow_id, status FROM datasets WHERE id = $1` gives. */
  datatype StateQuery = QueryFailed | NoRow | Found(status: string, workflowId: Option<string>)

  datatype WorkflowState = WorkflowState(alreadyProcessed: bool, previousWorkflowId: Option<string>)

  /** The status a finished run of each workflow leaves behind. */
  function ExpectedStatus(t: WorkflowType): string
  {
    if t == CleanWorkflow then "READY" else "EDA_COMPLETE"
  }

  /**
   * `checkWorkflowStateActivity`: a dataset counts as processed when it is in
   * the workflow's final status and carries a non-empty workflow id other than
   * the caller's.  A missing row and a failed query both answer "not processed".
   */
  function CheckWorkflowState(q: StateQuery, t: WorkflowType, currentWorkflowId: string): (s: WorkflowState)
    ensures s.alreadyProcessed <==>
      && q.Found?
      && q.status == ExpectedStatus(t)
      && q.workflowId.Some? && q.workflowId.value != ""
      && q.workflowId.value != currentWorkflowId
    ensures s.alreadyProcessed ==> s.previousWorkflowId == q.workflowId
    ensures !s.alreadyProcessed ==> s.previousWorkflowId == None
  {
    match q
    case QueryFailed => WorkflowState(false, None)
    case NoRow => WorkflowState(false, None)
    case Found(status, workflowId) =>
      if status == ExpectedStatus(t) && workflowId.Some? && workflowId.value != "" && workflowId.value != currentWorkflowId
      then WorkflowState(true, workflowId)
      else WorkflowState(false, None)
  }

  // ---------------------------------------------------------------- the stored state

  /** The `metadata` JSON the transform activity stores. */
  datatype Metadata = Metadata(
    duplicatesRemoved: nat,
    categoricalColumns: seq<string>,
    numericColumns: seq<string>,
    dateColumns: seq<string>,
    derivedFeatures: seq<string>)

  /** The columns of a `datasets` row the activities read or write. */
  datatype Dataset = Dataset(status: string, workflowId: Option<string>, metadata: Option<Metadata>)

  /** One `cleaning_logs` row. */
  datatype LogEntry = LogEntry(datasetId: string, step: string, status: string, message: string)

  /** The three tables together, as one value. */
  datatype Store = Store(
    datasets: map<string, Dataset>,
    logs: seq<LogEntry>,
    edaResults: seq<(string, InventoryAnalysis)>)

  /** What the idempotency check's query finds in `s`. */
  function QueryOf(s: Store, id: string): (q: StateQuery)
    ensures q.NoRow? <==> id !in s.datasets
  {
    if id in s.datasets then Found(s.datasets[id].status, s.datasets[id].workflowId) else NoRow
  }

  /** The message of the clean and transform activities for a missing dataset. */
  function MissingDataset(id: string): string
  {
    "Dataset " + id + " not found - it may have been deleted"
  }

  /** The message `loadCSVData` raises when reading or parsing the file fails. */
  function LoadError(cause: string): string
  {
    "Failed to load CSV data: " + (if cause == "" then "Unknown error" else cause)
  }

  /** `process.env.TEMPORAL_WORKFLOW_ID || 'unknown'`. */
  function StampedId(env: Option<string>): (w: string)
    ensures w != ""
    ensures env.Some? && env.value != "" ==> w == env.value
  {
    if env.Some? && env.value != "" then env.value else "unknown"
  }

  function CleanLogs(id: string, t: TransformationResult): seq<LogEntry>
  {
    [LogEntry(id, "REMOVE_DUPLICATES", "SUCCESS", "Removed " + NatToString(t.duplicatesRemoved) + " duplicate rows"),
     LogEntry(id, "NORMALIZE_COLUMNS", "SUCCESS", "Standardized " + NatToString(t.columnsProcessed) + " column names"),
     LogEntry(id, "VALIDATE_SCHEMA", "SUCCESS", "Validated schema with " + NatToString(t.rowsProcessed) + " rows"),
     LogEntry(id, "DETECT_TYPES", "SUCCESS", "Detected " + NatToString(|t.categoricalColumns|) + " categorical, "
       + NatToString(|t.numericColumns|) + " numeric, " + NatToString(|t.dateColumns|) + " date columns"),
     LogEntry(id, "COMPLETE", "SUCCESS", "Dataset is ready for analysis")]
  }

  function TransformLogs(id: string, t: TransformationResult): seq<LogEntry>
  {
    [LogEntry(id, "ENCODE_CATEGORICAL", "SUCCESS", "Encoded " + NatToString(|t.categoricalColumns|) + " categorical columns"),
     LogEntry(id, "SCALE_NUMERIC", "SUCCESS", "Scaled " + NatToString(|t.numericColumns|) + " numeric columns"),
     LogEntry(id, "PARSE_DATES", "SUCCESS", "Parsed " + NatToString(|t.dateColumns|) + " date columns"),
     LogEntry(id, "CREATE_FEATURES", "SUCCESS", "Created " + NatToString(|t.derivedFeatures|) + " derived features"),
     LogEntry(id, "TRANSFORM_COMPLETE", "SUCCESS", "Dataset transformation complete")]
  }

  function MetadataOf(t: TransformationResult): Metadata
  {
    Metadata(t.duplicatesRemoved, t.categoricalColumns, t.numericColumns, t.dateColumns, t.derivedFeatures)
  }

  // ---------------------------------------------------------------- the activities on values

  /** What `transformDataset(dataset.s3_path)` gives: the transformation, or the load error it raises. */
  function Loaded(js: Js, file: Result<seq<Row>>): (t: Result<TransformationResult>)
    ensures t.Success? <==> file.Success?
    ensures t.Failure? ==> t.error == LoadError(file.error)
  {
    match file
    case Failure(cause) => Failure(LoadError(cause))
    case Success(records) => Success(TransformationOf(js, records))
  }

  /** What the EDA activity's load, transformation and analysis give together. */
  function Analysed(js: Js, file: Result<seq<Row>>): Result<InventoryAnalysis>
  {
    match file
    case Failure(cause) => Failure(LoadError(cause))
    case Success(records) => AnalysisOf(js, records, TransformationOf(js, records))
  }

  /** The analysis fails on a file that does not load and on one without records, and only then. */
  lemma AnalysedMeaning(js: Js, file: Result<seq<Row>>)
    ensures Analysed(js, file).Success? <==> file.Success? && file.value != []
    ensures file.Failure? ==> Analysed(js, file) == Failure(LoadError(file.error))
    ensures file == Success([]) ==> Analysed(js, file) == Failure("No data to analyze")
  {
    if file.Success? {
      AnalysisMeaning(js, file.value, TransformationOf(js, file.value));
    }
  }

  /** The writes of `cleanDatasetActivity` before the transformation: the `INIT` log, the workflow id and `CLEANING`. */
  function CleanStart(s: Store, id: string, env: Option<string>): Store
    requires id in s.datasets
  {
    var d := s.datasets[id].(workflowId := Some(StampedId(env)), status := "CLEANING");
    Store(s.datasets[id := d], s.logs + [LogEntry(id, "INIT", "STARTED", "Cleaning workflow started")], s.edaResults)
  }

  /** The writes of `cleanDatasetActivity` once the transformation has succeeded or failed. */
  function CleanEnd(s: Store, id: string, t: Result<TransformationResult>): (Store, Result<string>)
    requires id in s.datasets
  {
    var d := s.datasets[id];
    match t
    case Failure(e) =>
      (Store(s.datasets[id := d.(status := "FAILED")], s.logs + [LogEntry(id, "ERROR", "FAILED", e)], s.edaResults), Failure(e))
    case Success(t) =>
      (Store(s.datasets[id := d.(status := "READY")], s.logs + CleanLogs(id, t), s.edaResults), Success("CLEAN_SUCCESS"))
  }

  /** `cleanDatasetActivity`, given what the transformation gives: the new tables and the activity's result. */
  function Clean(s: Store, id: string, env: Option<string>, t: Result<TransformationResult>): (Store, Result<string>)
  {
    if id !in s.datasets then (s, Failure(MissingDataset(id)))
    else CleanEnd(CleanStart(s, id, env), id, t)
  }

  /** The writes of `transformDatasetActivity` before the transformation: the `TRANSFORM_INIT` log and `TRANSFORMING`. */
  function TransformStart(s: Store, id: string): Store
    requires id in s.datasets
  {
    Store(s.datasets[id := s.datasets[id].(status := "TRANSFORMING")],
      s.logs + [LogEntry(id, "TRANSFORM_INIT", "STARTED", "Transformation workflow started")], s.edaResults)
  }

  /** The writes of `transformDatasetActivity` once the transformation has succeeded or failed. */
  function TransformEnd(s: Store, id: string, t: Result<TransformationResult>): (Store, Result<string>)
    requires id in s.datasets
  {
    var d := s.datasets[id];
    match t
    case Failure(e) =>
      (Store(s.datasets[id := d.(status := "FAILED")], s.logs + [LogEntry(id, "TRANSFORM_ERROR", "FAILED", e)], s.edaResults), Failure(e))
    case Success(t) =>
      (Store(s.datasets[id := d.(status := "TRANSFORMED", metadata := Some(MetadataOf(t)))], s.logs + TransformLogs(id, t), s.edaResults),
       Success("TRANSFORM_SUCCESS"))
  }

  /** `transformDatasetActivity`, given what the transformation gives. */
  function Transform(s: Store, id: string, t: Result<TransformationResult>): (Store, Result<string>)
  {
    if id !in s.datasets then (s, Failure(MissingDataset(id)))
    else TransformEnd(TransformStart(s, id), id, t)
  }

  /** The writes of `performEdaActivity` before the analysis: the `EDA_INIT` log and `EDA_RUNNING`. */
  function EdaStart(s: Store, id: string): Store
    requires id in s.datasets
  {
    Store(s.datasets[id := s.datasets[id].(status := "EDA_RUNNING")],
      s.logs + [LogEntry(id, "EDA_INIT", "STARTED", "EDA workflow started")], s.edaResults)
  }

  /** The writes of `performEdaActivity` once the analysis has succeeded or failed. */
  function EdaEnd(s: Store, id: string, analysis: Result<InventoryAnalysis>): (Store, Result<string>)
    requires id in s.datasets
  {
    var d := s.datasets[id];
    match analysis
    case Failure(e) =>
      (Store(s.datasets[id := d.(status := "EDA_FAILED")], s.logs + [LogEntry(id, "EDA_ERROR", "FAILED", e)], s.edaResults), Failure(e))
    case Success(a) =>
      (Store(s.datasets[id := d.(status := "EDA_COMPLETE")],
         s.logs + [LogEntry(id, "EDA_COMPLETE", "SUCCESS", "Real data analysis complete")],
         s.edaResults + [(id, a)]),
       Success("EDA_SUCCESS"))
  }

  /** `performEdaActivity`, given what the load and analysis give. */
  function PerformEda(s: Store, id: string, analysis: Result<InventoryAnalysis>): (Store, Result<string>)
  {
    if id !in s.datasets then (s, Failure("Dataset " + id + " not found"))
    else EdaEnd(EdaStart(s, id), id, analysis)
  }

  /** `rollbackDatasetActivity`: the `UPDATE` touches no row when the id is unknown, but the log entry is written anyway. */
  function Rollback(s: Store, id: string, failureStatus: string): Store
  {
    var datasets := if id in s.datasets then s.datasets[id := s.datasets[id].(status := failureStatus)] else s.datasets;
    Store(datasets, s.logs + [LogEntry(id, "ROLLBACK", "SUCCESS", "Dataset rolled back to " + failureStatus)], s.edaResults)
  }

  // ---------------------------------------------------------------- what each activity does

  /** Only the dataset's own row changes, and the logs and results only grow, by entries of that dataset. */
  predicate Confined(s: Store, s': Store, id: string)
  {
    && s'.datasets.Keys == s.datasets.Keys
    && (forall other :: other in s.datasets && other != id ==> s'.datasets[other] == s.datasets[other])
    && s.logs <= s'.logs
    && (forall k :: |s.logs| <= k < |s'.logs| ==> s'.logs[k].datasetId == id)
    && s.edaResults <= s'.edaResults
  }

  /**
   * The clean activity raises before writing anything for an unknown id.
   * Otherwise it stamps the workflow id, logs `INIT` first, and ends `READY`
   * when the transformation succeeds and `FAILED`, re-raising the error, when
   * it does not.
   */
  lemma CleanMeaning(s: Store, id: string, env: Option<string>, t: Result<TransformationResult>)
    ensures id !in s.datasets ==> Clean(s, id, env, t) == (s, Failure(MissingDataset(id)))
    ensures id in s.datasets ==>
      var (s', r) := Clean(s, id, env, t);
      && Confined(s, s', id)
      && s'.edaResults == s.edaResults
      && s'.logs[|s.logs|] == LogEntry(id, "INIT", "STARTED", "Cleaning workflow started")
      && s'.datasets[id].workflowId == Some(StampedId(env))
      && s'.datasets[id].metadata == s.datasets[id].metadata
      && (r.Success? <==> t.Success?)
    ensures id in s.datasets && t.Success? ==>
      var (s', r) := Clean(s, id, env, t);
      r == Success("CLEAN_SUCCESS") && s'.datasets[id].status == "READY" && |s'.logs| == |s.logs| + 6
    ensures id in s.datasets && t.Failure? ==>
      var (s', r) := Clean(s, id, env, t);
      && r == Failure(t.error)
      && s'.datasets[id].status == "FAILED"
      && s'.logs == s.logs + [LogEntry(id, "INIT", "STARTED", "Cleaning workflow started"), LogEntry(id, "ERROR", "FAILED", t.error)]
  {
  }

  /**
   * The transform activity ends `TRANSFORMED` with the metadata of the
   * transformation, or `FAILED` (never `TRANSFORM_FAILED`); it leaves the
   * workflow id alone.
   */
  lemma TransformMeaning(s: Store, id: string, t: Result<TransformationResult>)
    ensures id !in s.datasets ==> Transform(s, id, t) == (s, Failure(MissingDataset(id)))
    ensures id in s.datasets ==>
      var (s', r) := Transform(s, id, t);
      && Confined(s, s', id)
      && s'.edaResults == s.edaResults
      && s'.logs[|s.logs|] == LogEntry(id, "TRANSFORM_INIT", "STARTED", "Transformation workflow started")
      && s'.datasets[id].workflowId == s.datasets[id].workflowId
      && (r.Success? <==> t.Success?)
      && s'.datasets[id].status != "TRANSFORM_FAILED"
    ensures id in s.datasets && t.Success? ==>
      var (s', r) := Transform(s, id, t);
      && r == Success("TRANSFORM_SUCCESS")
      && s'.datasets[id].status == "TRANSFORMED"
      && s'.datasets[id].metadata == Some(MetadataOf(t.value))
    ensures id in s.datasets && t.Failure? ==>
      var (s', r) := Transform(s, id, t);
      && r == Failure(t.error)
      && s'.datasets[id].status == "FAILED"
      && s'.datasets[id].metadata == s.datasets[id].metadata
  {
  }

  /**
   * The EDA activity stores exactly one analysis and ends `EDA_COMPLETE` when
   * the analysis succeeds; otherwise it stores nothing and ends `EDA_FAILED`.
   * Its message for an unknown id is shorter than the other activities'.
   */
  lemma PerformEdaMeaning(s: Store, id: string, analysis: Result<InventoryAnalysis>)
    ensures id !in s.datasets ==> PerformEda(s, id, analysis) == (s, Failure("Dataset " + id + " not found"))
    ensures id in s.datasets ==>
      var (s', r) := PerformEda(s, id, analysis);
      && Confined(s, s', id)
      && s'.logs[|s.logs|] == LogEntry(id, "EDA_INIT", "STARTED", "EDA workflow started")
      && s'.datasets[id].workflowId == s.datasets[id].workflowId
      && s'.datasets[id].metadata == s.datasets[id].metadata
      && (r.Success? <==> analysis.Success?)
    ensures id in s.datasets && analysis.Success? ==>
      var (s', r) := PerformEda(s, id, analysis);
      && r == Success("EDA_SUCCESS")
      && s'.datasets[id].status == "EDA_COMPLETE"
      && s'.edaResults == s.edaResults + [(id, analysis.value)]
    ensures id in s.datasets && analysis.Failure? ==>
      var (s', r) := PerformEda(s, id, analysis);
      && r == Failure(analysis.error)
      && s'.datasets[id].status == "EDA_FAILED"
      && s'.edaResults == s.edaResults
  {
  }

  /** A rollback overwrites the status whatever it was and appends exactly one log entry. */
  lemma RollbackMeaning(s: Store, id: string, failureStatus: string)
    ensures var s' := Rollback(s, id, failureStatus);
      && Confined(s, s', id)
      && s'.edaResults == s.edaResults
      && s'.logs == s.logs + [LogEntry(id, "ROLLBACK", "SUCCESS", "Dataset rolled back to " + failureStatus)]
      && (id in s.datasets ==> s'.datasets[id] == s.datasets[id].(status := failureStatus))
  {
  }

  /**
   * After a successful clean, a second clean workflow finds the dataset
   * processed exactly when its id differs from the stamped one.
   */
  lemma CleanedIsProcessed(s: Store, id: string, env: Option<string>, t: TransformationResult, currentWorkflowId: string)
    requires id in s.datasets
    ensures var s' := Clean(s, id, env, Success(t)).0;
      CheckWorkflowState(QueryOf(s', id), CleanWorkflow, currentWorkflowId).alreadyProcessed <==> currentWorkflowId != StampedId(env)
  {
  }

  /**
   * Clean, transform and EDA in a row, all succeeding: the transform workflow's
   * check then sees `EDA_COMPLETE` with the id the clean activity stamped (the
   * later activities never write one), so it short-circuits for every other id.
   */
  lemma PipelineIsProcessed(s: Store, id: string, env: Option<string>, t: TransformationResult, a: InventoryAnalysis, currentWorkflowId: string)
    requires id in s.datasets
    ensures var s1 := Clean(s, id, env, Success(t)).0;
      var s2 := Transform(s1, id, Success(t)).0;
      var s3 := PerformEda(s2, id, Success(a)).0;
      CheckWorkflowState(QueryOf(s3, id), TransformWorkflow, currentWorkflowId).alreadyProcessed <==> currentWorkflowId != StampedId(env)
  {
  }

  /** A dataset no clean activity ever stamped is never reported as processed. */
  lemma UnstampedNeverProcessed(s: Store, id: string, t: WorkflowType, currentWorkflowId: string)
    requires id in s.datasets ==> s.datasets[id].workflowId == None
    ensures !CheckWorkflowState(QueryOf(s, id), t, currentWorkflowId).alreadyProcessed
  {
  }

  // ---------------------------------------------------------------- the progress query

  /** At most this many log entries are reported. */
  const RecentLogLimit: nat := 10

  datatype Progress =
    | NotFound(datasetId: string)
    | Progress(datasetId: string, status: string, workflowId: Option<string>,
        recentLogs: seq<LogEntry>, edaResults: Option<InventoryAnalysis>)

  /** The positions in `logs` of the dataset's entries, in increasing order. */
  function LogRows(logs: seq<LogEntry>, id: string): seq<nat>
  {
    Positions(logs, (e: LogEntry) => e.datasetId == id)
  }

  /** The dataset's log entries, oldest first: the entries at `LogRows`, in that order. */
  function LogsOf(logs: seq<LogEntry>, id: string): (r: seq<LogEntry>)
    ensures |r| == |LogRows(logs, id)| <= |logs|
    ensures forall k :: 0 <= k < |r| ==> r[k] == logs[LogRows(logs, id)[k]] && r[k].datasetId == id
  {
    Select(logs, (e: LogEntry) => e.datasetId == id)
  }

  /** `LogsOf` keeps exactly the entries of `logs` that belong to the dataset. */
  lemma LogsOfMembers(logs: seq<LogEntry>, id: string, e: LogEntry)
    ensures e in LogsOf(logs, id) <==> e in logs && e.datasetId == id
  {
    SelectMembers(logs, (e: LogEntry) => e.datasetId == id, e);
  }

  function Reverse<T>(s: seq<T>): (r: seq<T>)
    ensures |r| == |s|
    ensures forall k :: 0 <= k < |s| ==> r[k] == s[|s| - 1 - k]
  {
    if s == [] then [] else [s[|s| - 1]] + Reverse(s[..|s| - 1])
  }

  /** The k-th element of the reversal is the k-th from the end. */
  lemma ReverseAt<T>(s: seq<T>, k: nat)
    requires k < |s|
    ensures Reverse(s)[k] == s[|s| - 1 - k]
  {
  }

  /** The first stored analysis of the dataset; `LIMIT 1` without `ORDER BY` is taken as the oldest row. */
  function FirstResult(results: seq<(string, InventoryAnalysis)>, id: string): (r: Option<InventoryAnalysis>)
    ensures r.Some? <==> exists k :: 0 <= k < |results| && results[k].0 == id
    ensures r.Some? ==> (id, r.value) in results
  {
    if results == [] then None
    else if results[0].0 == id then Some(results[0].1)
    else FirstResult(results[1..], id)
  }

  /** `queryWorkflowProgressActivity`, without the two timestamps. */
  function QueryProgress(s: Store, id: string): Progress
  {
    if id !in s.datasets then NotFound(id)
    else Progress(id, s.datasets[id].status, s.datasets[id].workflowId,
      Take(Reverse(LogsOf(s.logs, id)), RecentLogLimit), FirstResult(s.edaResults, id))
  }

  /**
   * `recent` holds the dataset's newest entries, newest first: the k-th is
   * the dataset's k-th last entry, the one at its k-th last position in `logs`.
   */
  predicate NewestFirst(recent: seq<LogEntry>, logs: seq<LogEntry>, id: string)
  {
    var own, rows := LogsOf(logs, id), LogRows(logs, id);
    && |recent| <= |own|
    && forall k :: 0 <= k < |recent| ==>
         && recent[k] == own[|own| - 1 - k] == logs[rows[|rows| - 1 - k]]
         && recent[k].datasetId == id
  }

  /**
   * If `own` lists the entries of `logs` at `rows`, all of the dataset, then
   * the first `n` of `own` reversed are the entries at the last `n` of `rows`.
   */
  lemma ReversedAtRows(own: seq<LogEntry>, rows: seq<nat>, logs: seq<LogEntry>, id: string, n: nat)
    requires |own| == |rows|
    requires forall j :: 0 <= j < |own| ==> rows[j] < |logs| && own[j] == logs[rows[j]] && own[j].datasetId == id
    ensures var recent := Take(Reverse(own), n);
      && |recent| <= |own|
      && forall k :: 0 <= k < |recent| ==>
           && recent[k] == own[|own| - 1 - k] == logs[rows[|rows| - 1 - k]]
           && recent[k].datasetId == id
  {
    var recent := Take(Reverse(own), n);
    forall k | 0 <= k < |recent|
      ensures recent[k] == own[|own| - 1 - k] == logs[rows[|rows| - 1 - k]] && recent[k].datasetId == id
    {
      assert recent[k] == Reverse(own)[k];
      ReverseAt(own, k);
    }
  }

  /** The first `n` of the dataset's entries reversed are its newest `n`. */
  lemma NewestEntries(logs: seq<LogEntry>, id: string, n: nat)
    ensures NewestFirst(Take(Reverse(LogsOf(logs, id)), n), logs, id)
  {
    ReversedAtRows(LogsOf(logs, id), LogRows(logs, id), logs, id, n);
  }

  /**
   * An unknown id gives `NOT_FOUND`; otherwise at most ten of the dataset's
   * own log entries come back, newest first, the most recent ones: the k-th
   * is the entry at the k-th last of the dataset's positions in the log.
   */
  lemma QueryProgressMeaning(s: Store, id: string)
    ensures QueryProgress(s, id).NotFound? <==> id !in s.datasets
    ensures QueryProgress(s, id).Progress? ==>
      var p, own := QueryProgress(s, id), LogsOf(s.logs, id);
      && p.status == s.datasets[id].status
      && |p.recentLogs| == (if |own| < RecentLogLimit then |own| else RecentLogLimit)
      && NewestFirst(p.recentLogs, s.logs, id)
  {
    if id in s.datasets {
      assert QueryProgress(s, id).recentLogs == Take(Reverse(LogsOf(s.logs, id)), RecentLogLimit);
      NewestEntries(s.logs, id, RecentLogLimit);
    }
  }

  // ---------------------------------------------------------------- the tables, updated in place

  class DatasetStore {
    var datasets: map<string, Dataset>
    var logs: seq<LogEntry>
    var edaResults: seq<(string, InventoryAnalysis)>

    function State(): Store
      reads this
    {
      Store(datasets, logs, edaResults)
    }

    constructor (initial: map<string, Dataset>)
      ensures State() == Store(initial, [], [])
    {
      datasets, logs, edaResults := initial, [], [];
    }

    /** `logStep`: one `cleaning_logs` insert. */
    method LogStep(id: string, step: string, status: string, message: string)
      modifies this
      ensures State() == old(State()).(logs := old(logs) + [LogEntry(id, step, status, message)])
    {
      logs := logs + [LogEntry(id, step, status, message)];
    }

    /** One `UPDATE datasets SET status = ... WHERE id = $1` on a row known to exist. */
    method SetStatus(id: string, status: string)
      requires id in datasets
      modifies this
      ensures State() == old(State()).(datasets := old(datasets)[id := old(datasets)[id].(status := status)])
    {
      datasets := datasets[id := datasets[id].(status := status)];
    }

    /** `transformDataset(dataset.s3_path)`: load, then transform. */
    static method LoadAndTransform(js: Js, file: Result<seq<Row>>) returns (t: Result<TransformationResult>)
      ensures t == Loaded(js, file)
    {
      match file {
        case Failure(cause) =>
          t := Failure(LoadError(cause));
        case Success(records) =>
          var result := TransformDataset(js, records);
          t := Success(result);
      }
    }

    /** `loadCSVData`, `transformDataset` and `generateRealInventoryAnalysis` in turn. */
    static method LoadAndAnalyse(js: Js, file: Result<seq<Row>>) returns (analysis: Result<InventoryAnalysis>)
      ensures analysis == Analysed(js, file)
    {
      match file {
        case Failure(cause) =>
          analysis := Failure(LoadError(cause));
        case Success(rawData) =>
          var t := TransformDataset(js, rawData);
          analysis := GenerateInventoryAnalysis(js, rawData, t);
      }
    }

    /** `cleanDatasetActivity(datasetId)`; `env` is `TEMPORAL_WORKFLOW_ID`, `file` what the dataset's file loads to. */
    method CleanDataset(id: string, env: Option<string>, js: Js, file: Result<seq<Row>>) returns (r: Result<string>)
      modifies this
      ensures (State(), r) == Clean(old(State()), id, env, Loaded(js, file))
    {
      if id !in datasets {
        return Failure(MissingDataset(id));
      }
      LogStep(id, "INIT", "STARTED", "Cleaning workflow started");
      datasets := datasets[id := datasets[id].(workflowId := Some(StampedId(env)), status := "CLEANING")];
      var transformed := LoadAndTransform(js, file);
      r := FinishClean(id, transformed);
    }

    method FinishClean(id: string, transformed: Result<TransformationResult>) returns (r: Result<string>)
      requires id in datasets
      modifies this
      ensures (State(), r) == CleanEnd(old(State()), id, transformed)
    {
      match transformed {
        case Failure(e) =>
          LogStep(id, "ERROR", "FAILED", e);
          SetStatus(id, "FAILED");
          r := Failure(e);
        case Success(t) =>
          ghost var before := logs;
          LogStep(id, "REMOVE_DUPLICATES", "SUCCESS", "Removed " + NatToString(t.duplicatesRemoved) + " duplicate rows");
          LogStep(id, "NORMALIZE_COLUMNS", "SUCCESS", "Standardized " + NatToString(t.columnsProcessed) + " column names");
          LogStep(id, "VALIDATE_SCHEMA", "SUCCESS", "Validated schema with " + NatToString(t.rowsProcessed) + " rows");
          LogStep(id, "DETECT_TYPES", "SUCCESS", "Detected " + NatToString(|t.categoricalColumns|) + " categorical, "
            + NatToString(|t.numericColumns|) + " numeric, " + NatToString(|t.dateColumns|) + " date columns");
          SetStatus(id, "READY");
          LogStep(id, "COMPLETE", "SUCCESS", "Dataset is ready for analysis");
          assert logs == before + CleanLogs(id, t);
          r := Success("CLEAN_SUCCESS");
      }
    }

    /** `transformDatasetActivity(datasetId)`; the requested transformations are ignored, as in the source. */
    method TransformDatasetActivity(id: string, js: Js, file: Result<seq<Row>>) returns (r: Result<string>)
      modifies this
      ensures (State(), r) == Transform(old(State()), id, Loaded(js, file))
    {
      if id !in datasets {
        return Failure(MissingDataset(id));
      }
      LogStep(id, "TRANSFORM_INIT", "STARTED", "Transformation workflow started");
      SetStatus(id, "TRANSFORMING");
      var transformed := LoadAndTransform(js, file);
      r := FinishTransform(id, transformed);
    }

    method FinishTransform(id: string, transformed: Result<TransformationResult>) returns (r: Result<string>)
      requires id in datasets
      modifies this
      ensures (State(), r) == TransformEnd(old(State()), id, transformed)
    {
      match transformed {
        case Failure(e) =>
          LogStep(id, "TRANSFORM_ERROR", "FAILED", e);
          SetStatus(id, "FAILED");
          r := Failure(e);
        case Success(t) =>
          ghost var before := logs;
          LogStep(id, "ENCODE_CATEGORICAL", "SUCCESS", "Encoded " + NatToString(|t.categoricalColumns|) + " categorical columns");
          LogStep(id, "SCALE_NUMERIC", "SUCCESS", "Scaled " + NatToString(|t.numericColumns|) + " numeric columns");
          LogStep(id, "PARSE_DATES", "SUCCESS", "Parsed " + NatToString(|t.dateColumns|) + " date columns");
          LogStep(id, "CREATE_FEATURES", "SUCCESS", "Created " + NatToString(|t.derivedFeatures|) + " derived features");
          datasets := datasets[id := datasets[id].(status := "TRANSFORMED", metadata := Some(MetadataOf(t)))];
          LogStep(id, "TRANSFORM_COMPLETE", "SUCCESS", "Dataset transformation complete");
          assert logs == before + TransformLogs(id, t);
          r := Success("TRANSFORM_SUCCESS");
      }
    }

    /** `performEdaActivity(datasetId)`. */
    method PerformEdaActivity(id: string, js: Js, file: Result<seq<Row>>) returns (r: Result<string>)
      modifies this
      ensures (State(), r) == PerformEda(old(State()), id, Analysed(js, file))
    {
      if id !in datasets {
        return Failure("Dataset " + id + " not found");
      }
      LogStep(id, "EDA_INIT", "STARTED", "EDA workflow started");
      SetStatus(id, "EDA_RUNNING");
      var analysis := LoadAndAnalyse(js, file);
      r := FinishEda(id, analysis);
    }

    method FinishEda(id: string, analysis: Result<InventoryAnalysis>) returns (r: Result<string>)
      requires id in datasets
      modifies this
      ensures (State(), r) == EdaEnd(old(State()), id, analysis)
    {
      match analysis {
        case Failure(e) =>
          LogStep(id, "EDA_ERROR", "FAILED", e);
          SetStatus(id, "EDA_FAILED");
          r := Failure(e);
        case Success(a) =>
          edaResults := edaResults + [(id, a)];
          SetStatus(id, "EDA_COMPLETE");
          LogStep(id, "EDA_COMPLETE", "SUCCESS", "Real data analysis complete");
          r := Success("EDA_SUCCESS");
      }
    }

    method RollbackDataset(id: string, failureStatus: string)
      modifies this
      ensures State() == Rollback(old(State()), id, failureStatus)
    {
      if id in datasets {
        SetStatus(id, failureStatus);
      }
      LogStep(id, "ROLLBACK", "SUCCESS", "Dataset rolled back to " + failureStatus);
    }
  }
}
