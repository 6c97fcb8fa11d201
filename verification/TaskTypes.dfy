/** The values the durable task scheduler works on: definitions, triggers,
    pending intents, executions and workflow instances, and the one record that
    is persisted between process lifetimes.

    A time is a number of nanoseconds; 0 is the zero time, which the scheduler
    reads as "not set" and which precedes every other time.  Identifiers carry
    their sequence number only, because one counter serves triggers, intents and
    executions alike; 0 stands for the empty identifier. */
module TaskTypes {
  type Time = nat
  type Id = nat

  datatype Option<+T> = None | Some(value: T)

  const MINUTE: nat := 60_000_000_000

  const PRIORITY_PERIODIC: int := 10
  const PRIORITY_MANUAL: int := 20
  const PRIORITY_CONSISTENCY: int := 30
  const PRIORITY_MUTATION: int := 40
  const PRIORITY_CONSISTENCY_DEADLINE: int := 45

  const HISTORY_LIMIT: nat := 500

  datatype Kind = Unset | Startup | Periodic | Manual | Event | WorkflowStep | Retry

  datatype ClaimMode = Shared | Exclusive
  datatype Claim = Claim(resource: string, mode: ClaimMode)

  datatype Recovery = RecoveryRetry | RecoveryAttention
  datatype RetryPolicy = RetryPolicy(maxAttempts: int, initialDelay: int, maxDelay: int)

  /** A registered task.  A missing attachCompatible callback is the constant
      true function. */
  datatype Definition = Definition(
    interval: int,
    resources: seq<Claim>,
    interruptible: bool,
    interruptionDelay: int,
    priority: int,
    retry: RetryPolicy,
    recovery: Recovery,
    allowManual: bool,
    attachCompatible: (seq<Kind>, Kind) -> bool)

  type Definitions = map<string, Definition>

  /** A workflow definition is the list of the task ids of its steps. */
  type WorkflowDefinitions = map<string, seq<string>>

  datatype TriggerState =
    | Pending | Waiting
    | Running | Attached
    | Fulfilled | Failed | Cancelled | Interrupted | Rejected | Attention

  predicate Terminal(state: TriggerState) {
    !state.Pending? && !state.Waiting? && !state.Running? && !state.Attached?
  }

  /** Queued: the trigger waits in an intent.  Active: an execution carries it. */
  predicate Queued(state: TriggerState) { state.Pending? || state.Waiting? }
  predicate Active(state: TriggerState) { state.Running? || state.Attached? }

  datatype Trigger = Trigger(
    task: string, key: string, kind: Kind, durable: bool, workflow: string,
    notBefore: Time, state: TriggerState, target: Id, execution: Id,
    createdAt: Time, finishedAt: Time)

  datatype Intent = Intent(
    id: Id, task: string, key: string, triggers: seq<Id>, priority: int, coverage: nat,
    payload: string, notBefore: Time, deadline: Time, createdAt: Time, attempt: nat,
    workflow: string)

  datatype ExecutionState =
    ExRunning | ExCancelling | ExSucceeded | ExDegraded | ExFailed | ExInterrupted

  predicate Unfinished(state: ExecutionState) { state.ExRunning? || state.ExCancelling? }

  datatype Execution = Execution(
    task: string, key: string, triggers: seq<Id>, priority: int, coverage: nat,
    payload: string, state: ExecutionState, attempt: nat, createdAt: Time,
    startedAt: Time, finishedAt: Time)

  datatype WorkflowState = WfPending | WfRunning | WfSucceeded | WfAttention

  datatype Workflow = Workflow(
    definition: string, revision: nat, step: nat, state: WorkflowState, updatedAt: Time,
    readyAfter: Time, notBefore: Time, deadline: Time, trigger: Id)

  /** The persisted record. */
  datatype Book = Book(
    sequence: nat,
    triggers: map<Id, Trigger>,
    executions: map<Id, Execution>,
    pending: map<string, Intent>,
    workflows: map<string, Workflow>,
    periodicNext: map<string, Time>)

  datatype Request = Request(
    task: string, kind: Kind, priority: int, durable: bool, key: string, coverage: nat,
    notBefore: Time, deadline: Time, payload: string, workflow: string)

  datatype Disposition = AsPending | AsCoalesced | AsAttached
  datatype Receipt = Receipt(trigger: Id, execution: Id, disposition: Disposition, target: Id)

  datatype SubmitError = UnknownTask | NeedsPayload | NotPersisted
  datatype Result<+T> = Ok(value: T) | Err(error: SubmitError)

  /** What a runner (or its preflight) returned. */
  datatype Outcome = Succeeded(degraded: bool) | Errored(retryable: bool) | Canceled

  function IntentKey(task: string, key: string): string {
    task + ['\0'] + (if key == "" then "default" else key)
  }

  function LaterTime(first: Time, second: Time): Time {
    if first == 0 || second > first then second else first
  }

  function EarlierNonZero(first: Time, second: Time): Time {
    if first == 0 || (second != 0 && second < first) then second else first
  }
}
