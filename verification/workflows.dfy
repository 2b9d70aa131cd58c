/**
 * The two workflows of backend/src/temporal/workflows.ts as decision
 * functions: given what each activity would answer, which activities are
 * called, in which order, and how the workflow ends.  The errors they catch
 * are classified by substrings of their messages.  The retry policy shared by
 * every activity call is a backoff schedule over whole milliseconds.
 */
module Workflows {
  import opened Wrappers
  import opened Strings
  import opened Activities

  // ---------------------------------------------------------------- activity outcomes

  /** A caught error: its `message` and its `cause?.message`, `""` where either is absent. */
  datatype Error = Error(message: string, causeMessage: string)

  /** What an activity call gives back: a value, or the error it raises. */
  datatype Outcome<+T> = Ok(value: T) | Threw(error: Error)

  /** The activity calls a workflow makes, recorded in order. */
  datatype Call =
    | CheckState(workflowType: WorkflowType)
    | CleanCall
    | TransformCall
    | EdaCall
    | RollbackCall(failureStatus: string)

  /** How a workflow run ends. */
  datatype WorkflowResult =
    | Completed(value: string)
    | NonRetryable(message: string)
    | Rethrown(error: Error)

  /** The activity calls made and the result. */
  datatype Run = Run(calls: seq<Call>, result: WorkflowResult)

  const NotFoundPattern: string := "Dataset not found"

  // ---------------------------------------------------------------- cleanDatasetWorkflow

  /** The `catch` of `cleanDatasetWorkflow`: only `error.message` is looked at. */
  function CleanFailure(e: Error): (r: WorkflowResult)
    ensures Contains(e.message, NotFoundPattern) ==> r == NonRetryable("Permanent failure: " + e.message)
    ensures !Contains(e.message, NotFoundPattern) ==> r == Rethrown(e)
  {
    if Contains(e.message, NotFoundPattern) then NonRetryable("Permanent failure: " + e.message) else Rethrown(e)
  }

  /**
   * `cleanDatasetWorkflow`: `check` is what the idempotency check answers
   * (whether the dataset was already processed), `clean` what the clean
   * activity would answer if called.
   */
  function CleanDatasetWorkflow(check: Outcome<bool>, clean: Outcome<string>): Run
  {
    var checked := [CheckState(CleanWorkflow)];
    match check
    case Threw(e) => Run(checked, CleanFailure(e))
    case Ok(alreadyProcessed) =>
      if alreadyProcessed then Run(checked, Completed("CLEAN_SUCCESS"))
      else match clean
        case Ok(v) => Run(checked + [CleanCall], Completed(v))
        case Threw(e) => Run(checked + [CleanCall], CleanFailure(e))
  }

  /**
   * The clean workflow always checks first, calls the clean activity exactly
   * when the check answers "not processed", returns the activity's own
   * result on success, and never rolls back.
   */
  lemma CleanWorkflowMeaning(check: Outcome<bool>, clean: Outcome<string>)
    ensures var run := CleanDatasetWorkflow(check, clean);
      && |run.calls| >= 1 && run.calls[0] == CheckState(CleanWorkflow)
      && (CleanCall in run.calls <==> check == Ok(false))
      && (forall c :: c in run.calls ==> !c.RollbackCall?)
      && (check == Ok(true) ==> run == Run([CheckState(CleanWorkflow)], Completed("CLEAN_SUCCESS")))
      && (check == Ok(false) && clean.Ok? ==> run.result == Completed(clean.value))
      && (check == Ok(false) && clean.Threw? ==> run.result == CleanFailure(clean.error))
  {
  }

  // ---------------------------------------------------------------- transformDatasetWorkflow

  /** `` `${errorMessage} ${causeMessage}` ``. */
  function FullMessage(e: Error): string
  {
    e.message + " " + e.causeMessage
  }

  /** The status a caught error rolls the dataset back to, if any, in the order the `catch` tests them. */
  function RollbackStatus(full: string): (status: Option<string>)
    ensures status.Some? ==> status.value == "TRANSFORM_FAILED" || status.value == "EDA_FAILED"
  {
    if Contains(full, NotFoundPattern) then None
    else if Contains(full, "Transformation failed") || Contains(full, "Invalid CSV") then Some("TRANSFORM_FAILED")
    else if Contains(full, "EDA") then Some("EDA_FAILED")
    else None
  }

  /** The result of the `catch` of `transformDatasetWorkflow`; a failed rollback is logged and ignored. */
  function TransformFailure(e: Error): WorkflowResult
  {
    var full := FullMessage(e);
    if Contains(full, NotFoundPattern) then NonRetryable("Permanent failure: " + full)
    else if Contains(full, "Transformation failed") || Contains(full, "Invalid CSV") then NonRetryable("Transformation failed: " + full)
    else if Contains(full, "EDA") then NonRetryable("EDA analysis failed: " + full)
    else Rethrown(e)
  }

  /** The calls after `calls` when `e` is caught: the rollback, if the error asks for one. */
  function CatchCalls(calls: seq<Call>, e: Error): seq<Call>
  {
    var status := RollbackStatus(FullMessage(e));
    if status.Some? then calls + [RollbackCall(status.value)] else calls
  }

  /**
   * `transformDatasetWorkflow`: what the check, the transform activity and
   * the EDA activity would answer.  `rollback` is what the rollback activity
   * answers; the workflow swallows its errors.
   */
  function TransformDatasetWorkflow(check: Outcome<bool>, transform: Outcome<string>, eda: Outcome<string>, rollback: Outcome<()>): Run
  {
    var checked := [CheckState(TransformWorkflow)];
    match check
    case Threw(e) => Run(CatchCalls(checked, e), TransformFailure(e))
    case Ok(alreadyProcessed) =>
      if alreadyProcessed then Run(checked, Completed("EDA_SUCCESS"))
      else match transform
        case Threw(e) => Run(CatchCalls(checked + [TransformCall], e), TransformFailure(e))
        case Ok(_) =>
          match eda
          case Ok(v) => Run(checked + [TransformCall, EdaCall], Completed(v))
          case Threw(e) => Run(CatchCalls(checked + [TransformCall, EdaCall], e), TransformFailure(e))
  }

  /** Only the check runs when the dataset was already processed, and the cached result is returned. */
  lemma ShortCircuit(transform: Outcome<string>, eda: Outcome<string>, rollback: Outcome<()>, clean: Outcome<string>)
    ensures TransformDatasetWorkflow(Ok(true), transform, eda, rollback) == Run([CheckState(TransformWorkflow)], Completed("EDA_SUCCESS"))
    ensures CleanDatasetWorkflow(Ok(true), clean) == Run([CheckState(CleanWorkflow)], Completed("CLEAN_SUCCESS"))
  {
  }

  /**
   * The EDA activity runs only after the transform activity has succeeded,
   * and right after it; a successful run returns the EDA activity's result.
   */
  lemma TransformBeforeEda(check: Outcome<bool>, transform: Outcome<string>, eda: Outcome<string>, rollback: Outcome<()>)
    ensures var run := TransformDatasetWorkflow(check, transform, eda, rollback);
      && (EdaCall in run.calls <==> check == Ok(false) && transform.Ok?)
      && (EdaCall in run.calls ==> run.calls[..3] == [CheckState(TransformWorkflow), TransformCall, EdaCall])
      && (TransformCall in run.calls <==> check == Ok(false))
      && (check == Ok(false) && run.result.Completed? ==> eda.Ok? && run.result.value == eda.value)
  {
  }

  /**
   * Which activity failed does not matter, only the message: not-found
   * errors are permanent and roll nothing back; then transformation and CSV
   * errors roll back to `TRANSFORM_FAILED`; then EDA errors roll back to
   * `EDA_FAILED`; anything else is re-raised unchanged, not wrapped as a
   * non-retryable failure.
   */
  lemma ErrorClassification(e: Error)
    ensures var full := FullMessage(e);
      && (Contains(full, NotFoundPattern) ==>
           TransformFailure(e) == NonRetryable("Permanent failure: " + full) && RollbackStatus(full) == None)
      && (!Contains(full, NotFoundPattern) && (Contains(full, "Transformation failed") || Contains(full, "Invalid CSV")) ==>
           TransformFailure(e) == NonRetryable("Transformation failed: " + full) && RollbackStatus(full) == Some("TRANSFORM_FAILED"))
      && (!Contains(full, NotFoundPattern) && !Contains(full, "Transformation failed") && !Contains(full, "Invalid CSV") && Contains(full, "EDA") ==>
           TransformFailure(e) == NonRetryable("EDA analysis failed: " + full) && RollbackStatus(full) == Some("EDA_FAILED"))
      && (RollbackStatus(full) == None && !Contains(full, NotFoundPattern) ==> TransformFailure(e) == Rethrown(e))
  {
  }

  /**
   * A caught error ends the run with at most one rollback, as its last call;
   * the rollback's own outcome never changes the run.
   */
  lemma RollbackIsLast(check: Outcome<bool>, transform: Outcome<string>, eda: Outcome<string>, rollback: Outcome<()>, other: Outcome<()>)
    ensures var run := TransformDatasetWorkflow(check, transform, eda, rollback);
      && run == TransformDatasetWorkflow(check, transform, eda, other)
      && (forall k :: 0 <= k < |run.calls| - 1 ==> !run.calls[k].RollbackCall?)
      && (|run.calls| > 0 && run.calls[|run.calls| - 1].RollbackCall? ==> run.result.NonRetryable?)
  {
  }

  // ---------------------------------------------------------------- the activities' own messages

  /** The characters of a UUID, which is what dataset ids are. */
  predicate UuidLike(id: string)
  {
    forall k :: 0 <= k < |id| ==> id[k] in "0123456789abcdef-"
  }

  /** `Dataset <id>` followed by a tail that has no capital `D` never contains "Dataset not found" unless the tail starts with "not found". */
  lemma {:induction false} PrefixedNotMatched(id: string, tail: string)
    requires UuidLike(id)
    requires forall k :: 0 <= k < |tail| ==> tail[k] != 'D'
    requires |tail| > 0 && tail[0] == ' '
    ensures !Contains("Dataset " + id + tail, NotFoundPattern)
  {
    var m := "Dataset " + id + tail;
    var n := |NotFoundPattern|;
    forall i | 0 <= i && i + n <= |m| ensures !OccursAt(m, NotFoundPattern, i) {
      assert m[i..i + n][0] == m[i];
      assert m[i..i + n][8] == m[i + 8];
      if i == 0 {
        if |id| > 0 {
          assert m[8] == id[0] != 'n';
        } else {
          assert m[8] == tail[0] == ' ';
        }
      } else if i < 8 {
        assert m[i] == "Dataset "[i] != 'D';
      } else if i < 8 + |id| {
        assert m[i] == id[i - 8] != 'D';
      } else {
        assert m[i] == tail[i - 8 - |id|] != 'D';
      }
    }
  }

  /**
   * For a UUID dataset id, neither activity's "not found" message contains
   * "Dataset not found", so the workflows' permanent-failure branch never
   * fires on them.
   */
  lemma ActivityMessagesNotMatched(id: string)
    requires UuidLike(id)
    ensures !Contains(MissingDataset(id), NotFoundPattern)
    ensures !Contains("Dataset " + id + " not found", NotFoundPattern)
  {
    var tail := " not found - it may have been deleted";
    assert MissingDataset(id) == "Dataset " + id + tail;
    PrefixedNotMatched(id, tail);
    PrefixedNotMatched(id, " not found");
  }

  /**
   * So a clean activity failing on a deleted dataset ends the workflow with that
   * error re-raised unchanged, not with a non-retryable `Permanent failure`.
   */
  lemma DeletedDatasetIsRethrown(id: string)
    requires UuidLike(id)
    ensures CleanDatasetWorkflow(Ok(false), Threw(Error(MissingDataset(id), ""))).result == Rethrown(Error(MissingDataset(id), ""))
  {
    ActivityMessagesNotMatched(id);
  }

  // ---------------------------------------------------------------- the retry policy

  const InitialIntervalMs: nat := 2000
  const BackoffCoefficient: nat := 2
  const MaximumIntervalMs: nat := 60000
  const MaximumAttempts: nat := 3

  function Power(b: nat, n: nat): nat
  {
    if n == 0 then 1 else b * Power(b, n - 1)
  }

  /** The wait before retry `n` (the first retry is 1): the initial interval times the coefficient to the `n - 1`, capped. */
  function RetryInterval(n: nat): (ms: nat)
    requires n >= 1
  {
    var raw := InitialIntervalMs * Power(BackoffCoefficient, n - 1);
    if raw < MaximumIntervalMs then raw else MaximumIntervalMs
  }

  /** The waits between the attempts of one activity call: one fewer than the attempts. */
  function RetrySchedule(): (waits: seq<nat>)
    ensures |waits| == MaximumAttempts - 1
  {
    seq(MaximumAttempts - 1, k requires 0 <= k < MaximumAttempts - 1 => RetryInterval(k + 1))
  }

  lemma {:induction false} PowerMonotone(b: nat, m: nat, n: nat)
    requires b >= 1 && m <= n
    ensures Power(b, m) <= Power(b, n)
  {
    if m < n {
      PowerMonotone(b, m, n - 1);
      assert Power(b, n) == b * Power(b, n - 1) >= Power(b, n - 1);
    }
  }

  /** The waits start at the initial interval, never shrink and never pass the maximum. */
  lemma RetryIntervalMeaning(m: nat, n: nat)
    requires 1 <= m <= n
    ensures RetryInterval(1) == InitialIntervalMs
    ensures RetryInterval(m) <= RetryInterval(n) <= MaximumIntervalMs
  {
    PowerMonotone(BackoffCoefficient, m - 1, n - 1);
  }

  /** With three attempts the two waits are 2 s and 4 s: the 60 s cap is never reached. */
  lemma RetryScheduleValues()
    ensures RetrySchedule() == [2000, 4000]
  {
    assert Power(2, 1) == 2;
  }
}
