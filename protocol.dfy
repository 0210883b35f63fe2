/** The records shared by the step-chain runner, the HTTP server and the web client:
    plan steps, run statuses, the typed payloads of the seven event kinds and the
    persisted run row with the field-by-field update that `update_run` performs. */
module Protocol {
  import opened Wrappers

  /** One step of a decoded plan. Every key may be missing from the model's JSON,
      so each field is optional; reading a missing one raises `KeyError`. */
  datatype Step = Step(stepNumber: Option<int>, description: Option<string>, checklist: Option<seq<string>>)

  /** The `status` column of a run. */
  datatype Status = Queued | Running | Completed | Failed

  /** The text stored in the `status` column. */
  function StatusName(s: Status): string
  {
    match s
    case Queued => "queued"
    case Running => "running"
    case Completed => "completed"
    case Failed => "failed"
  }

  /** The statuses after which the event stream closes. */
  predicate IsTerminal(s: Status)
  {
    s == Completed || s == Failed
  }

  /** The payload of an event, one constructor per event type. */
  datatype EventData =
    | PlanCreated(plan: seq<Step>, totalSteps: nat)
    | StepStarted(stepNumber: int, description: string)
    | StepOutput(stepNumber: int, output: string)
    | VerifyPass(stepNumber: int)
    | VerifyFail(stepNumber: int, reason: string)
    | RunCompleted(finalOutput: string)
    | RunFailed(error: string)

  /** The `type` column of an event. */
  function TypeName(e: EventData): (t: string)
    ensures t in KnownTypes()
  {
    match e
    case PlanCreated(_, _) => "plan_created"
    case StepStarted(_, _) => "step_started"
    case StepOutput(_, _) => "step_output"
    case VerifyPass(_) => "verify_pass"
    case VerifyFail(_, _) => "verify_fail"
    case RunCompleted(_) => "run_completed"
    case RunFailed(_) => "run_failed"
  }

  /** The seven event types the runner emits. */
  function KnownTypes(): set<string>
  {
    {"plan_created", "step_started", "step_output", "verify_pass", "verify_fail", "run_completed", "run_failed"}
  }

  /** The diagnostic snapshot written to `state_data` after the graph finishes. */
  datatype Snapshot = Snapshot(plan: seq<Step>, stepOutputs: seq<string>, verificationResults: seq<bool>)

  /** A row of the `runs` table. Timestamps are readings of an abstract clock. */
  datatype RunRecord = RunRecord(
    runId: string,
    problem: string,
    status: Status,
    currentStepIndex: int,
    totalSteps: int,
    startedAt: Option<nat>,
    updatedAt: nat,
    finalOutput: Option<string>,
    error: Option<string>,
    stateData: Option<Snapshot>)

  /** A freshly inserted run: the column defaults of the `runs` table. */
  function NewRun(runId: string, problem: string, now: nat): (r: RunRecord)
    ensures r.runId == runId && r.problem == problem && r.status == Queued
    ensures r.currentStepIndex == 0 && r.totalSteps == 0 && r.updatedAt == now
    ensures r.startedAt.None? && r.finalOutput.None? && r.error.None? && r.stateData.None?
  {
    RunRecord(runId, problem, Queued, 0, 0, None, now, None, None, None)
  }

  /** The columns `update_run` may be asked to set. */
  datatype Field = StatusField | StartedAtField | CurrentStepIndexField | TotalStepsField
                 | FinalOutputField | ErrorField | StateDataField

  /** A column value. `NoValue` is SQL `NULL`. */
  datatype Value = NoValue | StatusValue(status: Status) | TimeValue(time: nat) | IntValue(i: int)
                 | TextValue(text: string) | SnapshotValue(snapshot: Snapshot)

  /** One keyword argument of `update_run`: `setattr(run, field, value)`. */
  datatype Assignment = Assignment(field: Field, value: Value)

  /** The value has the column's type. */
  predicate WellTyped(a: Assignment)
  {
    match a.field
    case StatusField => a.value.StatusValue?
    case StartedAtField => a.value.TimeValue?
    case CurrentStepIndexField => a.value.IntValue?
    case TotalStepsField => a.value.IntValue?
    case FinalOutputField => a.value.TextValue?
    case ErrorField => a.value.TextValue?
    case StateDataField => a.value.SnapshotValue?
  }

  predicate AllWellTyped(kwargs: seq<Assignment>)
  {
    forall k :: 0 <= k < |kwargs| ==> WellTyped(kwargs[k])
  }

  function OptionTime(t: Option<nat>): Value
  {
    match t
    case None => NoValue
    case Some(x) => TimeValue(x)
  }

  function OptionText(t: Option<string>): Value
  {
    match t
    case None => NoValue
    case Some(x) => TextValue(x)
  }

  function OptionSnapshot(t: Option<Snapshot>): Value
  {
    match t
    case None => NoValue
    case Some(x) => SnapshotValue(x)
  }

  /** `getattr(run, field)`. */
  function Get(r: RunRecord, f: Field): Value
  {
    match f
    case StatusField => StatusValue(r.status)
    case StartedAtField => OptionTime(r.startedAt)
    case CurrentStepIndexField => IntValue(r.currentStepIndex)
    case TotalStepsField => IntValue(r.totalSteps)
    case FinalOutputField => OptionText(r.finalOutput)
    case ErrorField => OptionText(r.error)
    case StateDataField => OptionSnapshot(r.stateData)
  }

  /** `setattr(run, field, value)`. */
  function Set(r: RunRecord, a: Assignment): (r': RunRecord)
    requires WellTyped(a)
    ensures Get(r', a.field) == a.value
    ensures forall f :: f != a.field ==> Get(r', f) == Get(r, f)
    ensures r'.runId == r.runId && r'.problem == r.problem && r'.updatedAt == r.updatedAt
  {
    match a.field
    case StatusField => r.(status := a.value.status)
    case StartedAtField => r.(startedAt := Some(a.value.time))
    case CurrentStepIndexField => r.(currentStepIndex := a.value.i)
    case TotalStepsField => r.(totalSteps := a.value.i)
    case FinalOutputField => r.(finalOutput := Some(a.value.text))
    case ErrorField => r.(error := Some(a.value.text))
    case StateDataField => r.(stateData := Some(a.value.snapshot))
  }

  /** The effect of the `setattr` loop of `update_run`, one keyword after another. */
  function ApplyAll(r: RunRecord, kwargs: seq<Assignment>): RunRecord
    requires AllWellTyped(kwargs)
  {
    if kwargs == [] then r else Set(ApplyAll(r, kwargs[..|kwargs| - 1]), kwargs[|kwargs| - 1])
  }

  /** `update_run` with a single keyword. */
  lemma ApplyOne(r: RunRecord, a: Assignment)
    requires WellTyped(a)
    ensures ApplyAll(r, [a]) == Set(r, a)
  {
    assert [a][..0] == [];
  }

  /** `update_run` with two keywords applies them left to right. */
  lemma ApplyTwo(r: RunRecord, a: Assignment, b: Assignment)
    requires WellTyped(a) && WellTyped(b)
    ensures ApplyAll(r, [a, b]) == Set(Set(r, a), b)
  {
    assert [a, b][..1] == [a];
    ApplyOne(r, a);
  }

  /** The value of the last keyword naming `f`, if any does. */
  function LastAssigned(kwargs: seq<Assignment>, f: Field): Option<Value>
  {
    if kwargs == [] then None
    else if kwargs[|kwargs| - 1].field == f then Some(kwargs[|kwargs| - 1].value)
    else LastAssigned(kwargs[..|kwargs| - 1], f)
  }

  /** `update_run` sets exactly the fields it is given (the last value given wins)
      and leaves every other column, the key and the problem text as they were. */
  lemma {:induction false} ApplyAllSetsExactlyGiven(r: RunRecord, kwargs: seq<Assignment>, f: Field)
    requires AllWellTyped(kwargs)
    ensures Get(ApplyAll(r, kwargs), f) == match LastAssigned(kwargs, f) case Some(v) => v case None => Get(r, f)
    ensures ApplyAll(r, kwargs).runId == r.runId && ApplyAll(r, kwargs).problem == r.problem
    ensures ApplyAll(r, kwargs).updatedAt == r.updatedAt
  {
    if kwargs != [] {
      ApplyAllSetsExactlyGiven(r, kwargs[..|kwargs| - 1], f);
    }
  }
}
