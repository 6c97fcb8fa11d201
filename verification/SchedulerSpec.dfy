/** What each scheduler operation does to the persisted record, as functions of
    the record before it.  The class in Manager.dfy is proved against these
    functions; the invariants and run theorems are proved about them. */
module SchedulerSpec {
  import opened TaskTypes

  // ---------------------------------------------------------------- triggers

  /** Every listed trigger that has a record is rewritten by f. */
  function Rewrite(triggers: map<Id, Trigger>, ids: seq<Id>, f: Trigger -> Trigger): map<Id, Trigger> {
    map t | t in triggers :: if t in ids then f(triggers[t]) else triggers[t]
  }

  predicate Resolved(triggers: map<Id, Trigger>, ids: seq<Id>) {
    forall t :: t in ids ==> t in triggers
  }

  function KindsOf(triggers: map<Id, Trigger>, ids: seq<Id>): seq<Kind> {
    if ids == [] then []
    else if ids[0] in triggers then [triggers[ids[0]].kind] + KindsOf(triggers, ids[1..])
    else KindsOf(triggers, ids[1..])
  }

  predicate HasDurable(triggers: map<Id, Trigger>, ids: seq<Id>) {
    exists t :: t in ids && t in triggers && triggers[t].durable
  }

  function AppendUnique(existing: seq<Id>, values: seq<Id>): seq<Id>
    decreases |values|
  {
    if values == [] then existing
    else if values[0] in existing then AppendUnique(existing, values[1..])
    else AppendUnique(existing + [values[0]], values[1..])
  }

  function Without(ids: seq<Id>, id: Id): seq<Id> {
    if ids == [] then []
    else if ids[0] == id then Without(ids[1..], id)
    else [ids[0]] + Without(ids[1..], id)
  }

  // ------------------------------------------------------------------ submit

  /** A running execution takes a new trigger when it serves the same task and
      key, covers the request, and the task allows this kind to join. */
  predicate CanAttach(b: Book, e: Id, d: Definition, req: Request) {
    e in b.executions &&
    var x := b.executions[e];
    && d.attachCompatible(KindsOf(b.triggers, x.triggers), req.kind)
    && x.task == req.task
    && IntentKey(x.task, x.key) == IntentKey(req.task, req.key)
    && x.coverage >= req.coverage
  }

  /** The first execution, in the order the running set happens to be visited. */
  function FindAttach(b: Book, running: seq<Id>, d: Definition, req: Request): (r: Option<Id>)
    ensures r.Some? ==> r.value in running && CanAttach(b, r.value, d, req)
    ensures r.None? ==> forall e :: e in running ==> !CanAttach(b, e, d, req)
  {
    if running == [] then None
    else if CanAttach(b, running[0], d, req) then Some(running[0])
    else FindAttach(b, running[1..], d, req)
  }

  function Normalized(d: Definition, req: Request): Request {
    var kind := if req.kind.Unset? then Manual else req.kind;
    var priority :=
      if req.priority != 0 then req.priority
      else if kind.Manual? && d.priority < PRIORITY_MANUAL then PRIORITY_MANUAL
      else d.priority;
    req.(kind := kind, priority := priority)
  }

  function NewTrigger(req: Request, state: TriggerState, target: Id, execution: Id, now: Time): Trigger {
    Trigger(req.task, req.key, req.kind, req.durable, req.workflow, req.notBefore, state, target, execution, now, 0)
  }

  function Attach(b: Book, e: Id, req: Request, now: Time): Book
    requires e in b.executions
  {
    var t := b.sequence + 1;
    b.(sequence := t,
       triggers := b.triggers[t := NewTrigger(req, Attached, e, e, now)],
       executions := b.executions[e := b.executions[e].(triggers := b.executions[e].triggers + [t])])
  }

  function Merged(i: Intent, t: Id, req: Request): Intent {
    i.(triggers := i.triggers + [t],
       priority := if req.priority > i.priority then req.priority else i.priority,
       coverage := if req.coverage > i.coverage then req.coverage else i.coverage,
       notBefore := LaterTime(i.notBefore, req.notBefore),
       deadline := EarlierNonZero(i.deadline, req.deadline),
       payload := if req.payload != "" then req.payload else i.payload)
  }

  function Coalesce(b: Book, key: string, req: Request, now: Time): Book
    requires key in b.pending
  {
    var t := b.sequence + 1;
    b.(sequence := t,
       triggers := b.triggers[t := NewTrigger(req, Pending, b.pending[key].id, 0, now)],
       pending := b.pending[key := Merged(b.pending[key], t, req)])
  }

  function Enqueue(b: Book, key: string, req: Request, now: Time): Book {
    var t := b.sequence + 1;
    b.(sequence := t + 1,
       triggers := b.triggers[t := NewTrigger(req, Pending, t + 1, 0, now)],
       pending := b.pending[key := Intent(t + 1, req.task, req.key, [t], req.priority, req.coverage,
                                          req.payload, req.notBefore, req.deadline, now, 1, req.workflow)])
  }

  function Accept(d: Definition, b: Book, running: seq<Id>, req: Request, now: Time): (Book, Receipt) {
    var t := b.sequence + 1;
    var key := IntentKey(req.task, req.key);
    match FindAttach(b, running, d, req)
    case Some(e) => (Attach(b, e, req, now), Receipt(t, e, AsAttached, e))
    case None =>
      if key in b.pending
      then (Coalesce(b, key, req, now), Receipt(t, 0, AsCoalesced, b.pending[key].id))
      else (Enqueue(b, key, req, now), Receipt(t, 0, AsPending, t + 1))
  }

  function Submit(defs: Definitions, b: Book, running: seq<Id>, req: Request, now: Time): Result<(Book, Receipt)> {
    if req.task !in defs then Err(UnknownTask)
    else
      var d := defs[req.task];
      var r := Normalized(d, req);
      if r.kind.Manual? && !d.allowManual then Err(NeedsPayload)
      else Ok(Accept(d, b, running, r, now))
  }

  // ---------------------------------------------------------------- periodic

  function DueTime(b: Book, task: string): Time {
    if task in b.periodicNext then b.periodicNext[task] else 0
  }

  /** The first point after now on the grid of the schedule. */
  function NextDue(due: Time, interval: nat, now: Time): Time
    requires interval > 0 && due <= now
  {
    due + ((now - due) / interval + 1) * interval
  }

  function PeriodicRequest(task: string, due: Time): Request {
    Request(task, Periodic, PRIORITY_PERIODIC, false, "", due, 0, 0, "", "")
  }

  function TickTask(defs: Definitions, b: Book, running: seq<Id>, task: string, now: Time): Book
    requires task in defs
  {
    var interval := defs[task].interval;
    if interval <= 0 then b
    else
      var due := DueTime(b, task);
      if due == 0 then b.(periodicNext := b.periodicNext[task := now + interval])
      else if now < due then b
      else
        var submitted := Submit(defs, b, running, PeriodicRequest(task, due), now);
        var b' := if submitted.Ok? then submitted.value.0 else b;
        b'.(periodicNext := b'.periodicNext[task := NextDue(due, interval, now)])
  }

  // --------------------------------------------------------------- workflows

  predicate Idle(w: Workflow) { w.state.WfSucceeded? || w.state.WfAttention? }

  function WorkflowReadyAt(w: Workflow): Time {
    var base := if w.step > 0 then w.readyAfter else w.notBefore;
    if w.deadline != 0 && (base == 0 || w.deadline < base) then w.deadline else base
  }

  function StepRequest(task: string, instance: string, w: Workflow, now: Time): Request {
    var priority := if w.deadline != 0 && now >= w.deadline then PRIORITY_CONSISTENCY_DEADLINE else PRIORITY_CONSISTENCY;
    Request(task, WorkflowStep, priority, true, "", 0, 0, 0, "", instance)
  }

  /** The step still has a trigger that has not ended. */
  predicate StepInFlight(b: Book, w: Workflow) {
    w.trigger != 0 && w.trigger in b.triggers && !Terminal(b.triggers[w.trigger].state)
  }

  function TickWorkflow(defs: Definitions, wdefs: WorkflowDefinitions, b: Book, running: seq<Id>,
                        instance: string, now: Time): (r: Book)
    requires instance in b.workflows
    ensures r.workflows.Keys == b.workflows.Keys
  {
    var w := b.workflows[instance];
    if Idle(w) then b
    else if w.definition !in wdefs then
      b.(workflows := b.workflows[instance := w.(state := WfAttention, updatedAt := now)])
    else if w.step >= |wdefs[w.definition]| || StepInFlight(b, w) then b
    else
      var w0 := w.(trigger := 0);
      if now < WorkflowReadyAt(w) then b.(workflows := b.workflows[instance := w0])
      else
        match Submit(defs, b, running, StepRequest(wdefs[w.definition][w.step], instance, w, now), now)
        case Err(_) => b.(workflows := b.workflows[instance := w0.(state := WfAttention)])
        case Ok((b', receipt)) =>
          b'.(workflows := b.workflows[instance := w0.(trigger := receipt.trigger, state := WfRunning)])
  }

  /** A queued trigger of a superseded workflow step leaves its intent. */
  function CancelTrigger(b: Book, t: Id, now: Time): Book {
    if t == 0 || t !in b.triggers || Terminal(b.triggers[t].state) || Active(b.triggers[t].state) then b
    else
      var key := IntentKey(b.triggers[t].task, b.triggers[t].key);
      var pending' :=
        if key !in b.pending then b.pending
        else if Without(b.pending[key].triggers, t) == [] then b.pending - {key}
        else b.pending[key := b.pending[key].(triggers := Without(b.pending[key].triggers, t))];
      b.(pending := pending', triggers := b.triggers[t := b.triggers[t].(state := Cancelled, finishedAt := now)])
  }

  function Advance(b: Book, definition: string, key: string, quiet: nat, maximum: nat, now: Time): Book {
    var instance := definition + ":" + key;
    if instance !in b.workflows then
      b.(workflows := b.workflows[instance := Workflow(definition, 1, 0, WfPending, now, now, now + quiet, now + maximum, 0)])
    else
      var w := b.workflows[instance];
      var b' := CancelTrigger(b, w.trigger, now);
      b'.(workflows := b.workflows[instance :=
        w.(revision := w.revision + 1, step := 0, state := WfPending, updatedAt := now, readyAfter := now,
           notBefore := now + quiet, trigger := 0,
           deadline := if w.deadline == 0 || Idle(w) then now + maximum else w.deadline)])
  }

  /** A successful execution of the current step moves the instance on, unless
      it started before the step became ready. */
  predicate Satisfies(wdefs: WorkflowDefinitions, w: Workflow, x: Execution) {
    && !w.state.WfSucceeded?
    && w.definition in wdefs
    && w.step < |wdefs[w.definition]|
    && wdefs[w.definition][w.step] == x.task
    && x.startedAt >= w.readyAfter
  }

  function SatisfyOne(wdefs: WorkflowDefinitions, b: Book, instance: string, x: Execution, now: Time): Book
    requires instance in b.workflows
  {
    var w := b.workflows[instance];
    if !Satisfies(wdefs, w, x) then b
    else
      var b' := CancelTrigger(b, w.trigger, now);
      b'.(workflows := b.workflows[instance :=
        w.(step := w.step + 1, trigger := 0, readyAfter := x.finishedAt,
           state := if w.step + 1 >= |wdefs[w.definition]| then WfSucceeded else WfPending)])
  }

  function SatisfyAll(wdefs: WorkflowDefinitions, b: Book, order: seq<string>, x: Execution, now: Time): (r: Book)
    ensures r.workflows.Keys == b.workflows.Keys
    decreases |order|
  {
    if order == [] then b
    else if order[0] !in b.workflows then SatisfyAll(wdefs, b, order[1..], x, now)
    else SatisfyAll(wdefs, SatisfyOne(wdefs, b, order[0], x, now), order[1..], x, now)
  }

  // --------------------------------------------------------- finish, requeue

  function RetryDelay(policy: RetryPolicy, attempt: nat): int {
    if policy.initialDelay <= 0 then MINUTE else Backoff(policy, policy.initialDelay, attempt)
  }

  /** One doubling for each attempt after the first, stopped at the maximum. */
  function Backoff(policy: RetryPolicy, delay: int, attempt: nat): int
    decreases attempt
  {
    if attempt <= 1 then delay
    else if policy.maxDelay > 0 && 2 * delay >= policy.maxDelay then policy.maxDelay
    else Backoff(policy, 2 * delay, attempt - 1)
  }

  function RequeuedIntent(b: Book, x: Execution, delay: int, now: Time): Intent {
    var key := IntentKey(x.task, x.key);
    var base :=
      if key in b.pending then
        var i := b.pending[key];
        i.(attempt := if x.attempt + 1 > i.attempt then x.attempt + 1 else i.attempt)
      else
        Intent(b.sequence + 1, x.task, x.key, [], x.priority, x.coverage, x.payload, 0, 0, now, x.attempt + 1, "");
    base.(triggers := AppendUnique(base.triggers, x.triggers),
          priority := if x.priority > base.priority then x.priority else base.priority,
          coverage := if x.coverage > base.coverage then x.coverage else base.coverage,
          notBefore := if delay > 0 then LaterTime(base.notBefore, now + delay) else base.notBefore)
  }

  /** The triggers of an execution go back to the queue. */
  function Requeue(b: Book, e: Id, delay: int, now: Time): Book
    requires e in b.executions
  {
    var x := b.executions[e];
    var key := IntentKey(x.task, x.key);
    var i := RequeuedIntent(b, x, delay, now);
    b.(sequence := if key in b.pending then b.sequence else b.sequence + 1,
       pending := b.pending[key := i],
       triggers := Rewrite(b.triggers, x.triggers,
         (t: Trigger) => t.(state := Pending, execution := 0, target := i.id, notBefore := i.notBefore)))
  }

  /** The triggers of an execution end. */
  function Settle(b: Book, e: Id, state: TriggerState, now: Time): Book
    requires e in b.executions
  {
    b.(triggers := Rewrite(b.triggers, b.executions[e].triggers, (t: Trigger) => t.(state := state, finishedAt := now)))
  }

  /** A failed trigger stops the workflow that asked for it. */
  function StopWorkflows(b: Book, ids: seq<Id>): Book {
    b.(workflows := map w | w in b.workflows ::
      if exists t :: t in ids && t in b.triggers && b.triggers[t].workflow == w && w != ""
      then b.workflows[w].(state := WfAttention, trigger := 0)
      else b.workflows[w])
  }

  function FinalState(outcome: Outcome): ExecutionState {
    match outcome
    case Canceled => ExInterrupted
    case Errored(_) => ExFailed
    case Succeeded(degraded) => if degraded then ExDegraded else ExSucceeded
  }

  function EndExecution(b: Book, e: Id, outcome: Outcome, now: Time): Book
    requires e in b.executions
  {
    b.(executions := b.executions[e := b.executions[e].(state := FinalState(outcome), finishedAt := now)])
  }

  /** finishExecution up to the trimming of history. */
  function Conclude(d: Definition, wdefs: WorkflowDefinitions, b: Book, e: Id, outcome: Outcome,
                    order: seq<string>, now: Time): Book
    requires e in b.executions
  {
    var b1 := EndExecution(b, e, outcome, now);
    var x := b1.executions[e];
    match outcome
    case Canceled =>
      if d.recovery.RecoveryRetry? then Requeue(b1, e, d.interruptionDelay, now) else Settle(b1, e, Attention, now)
    case Errored(retryable) =>
      if retryable && x.attempt < d.retry.maxAttempts
      then Requeue(b1, e, RetryDelay(d.retry, x.attempt), now)
      else StopWorkflows(Settle(b1, e, Failed, now), x.triggers)
    case Succeeded(_) =>
      SatisfyAll(wdefs, Settle(b1, e, Fulfilled, now), order, x, now)
  }

  // ------------------------------------------------------------------ history

  function CarriedBy(b: Book, executions: set<Id>): set<Id> {
    set e, t | e in executions && e in b.executions && t in b.executions[e].triggers :: t
  }

  function Forget(b: Book, removed: set<Id>): Book {
    b.(executions := b.executions - removed,
       triggers := map t | t in b.triggers && !(t in CarriedBy(b, removed) && Terminal(b.triggers[t].state)) :: b.triggers[t])
  }

  /** The oldest completed executions go, just enough of them. */
  ghost predicate ValidTrim(b: Book, live: set<Id>, limit: nat, removed: set<Id>) {
    var completed := b.executions.Keys - live;
    && removed <= completed
    && (|b.executions| <= limit ==> removed == {})
    && (|b.executions| > limit ==>
          limit <= |b.executions| - |removed| && (|b.executions| - |removed| == limit || removed == completed))
    && (forall r, c :: r in removed && c in completed - removed ==> b.executions[r].finishedAt <= b.executions[c].finishedAt)
  }

  // ---------------------------------------------------------------- admission

  function ReadyAt(i: Intent): Time {
    if i.deadline != 0 && (i.notBefore == 0 || i.deadline < i.notBefore) then i.deadline else i.notBefore
  }

  predicate Ready(i: Intent, now: Time) { ReadyAt(i) <= now }

  /** Waiting raises a priority by one a minute, never up to mutation work. */
  function EffectivePriority(i: Intent, now: Time): int {
    if i.priority >= PRIORITY_MUTATION || now <= i.createdAt then i.priority
    else
      var aged := i.priority + (now - i.createdAt) / MINUTE;
      if aged >= PRIORITY_MUTATION then PRIORITY_MUTATION - 1 else aged
  }

  predicate Precedes(i: Intent, j: Intent, now: Time) {
    var p, q := EffectivePriority(i, now), EffectivePriority(j, now);
    p > q || (p == q && (i.createdAt < j.createdAt || (i.createdAt == j.createdAt && i.id < j.id)))
  }

  /** Intents, among the given ones, of tasks that are no longer registered are
      dropped and their triggers need attention. */
  ghost function DropAmong(defs: Definitions, b: Book, keys: set<string>, now: Time): Book {
    b.(pending := map k | k in b.pending && (k in keys ==> b.pending[k].task in defs) :: b.pending[k],
       triggers := map t | t in b.triggers ::
         if exists k :: k in keys && k in b.pending && b.pending[k].task !in defs && t in b.pending[k].triggers
         then b.triggers[t].(state := Attention, finishedAt := now)
         else b.triggers[t])
  }

  ghost function DropUnregistered(defs: Definitions, b: Book, now: Time): Book {
    DropAmong(defs, b, b.pending.Keys, now)
  }

  ghost function MarkWaiting(b: Book, blocked: set<string>): Book {
    b.(triggers := map t | t in b.triggers ::
         if exists k :: k in blocked && k in b.pending && t in b.pending[k].triggers
         then b.triggers[t].(state := Waiting)
         else b.triggers[t])
  }

  function Admit(b: Book, key: string, now: Time): Book
    requires key in b.pending
  {
    var i := b.pending[key];
    var e := b.sequence + 1;
    b.(sequence := e,
       pending := b.pending - {key},
       executions := b.executions[e := Execution(i.task, i.key, i.triggers, i.priority, i.coverage, i.payload,
                                                 ExRunning, i.attempt, i.createdAt, now, 0)],
       triggers := Rewrite(b.triggers, i.triggers, (t: Trigger) => t.(state := Running, execution := e, target := e)))
  }

  predicate ClaimsConflict(first: seq<Claim>, second: seq<Claim>) {
    exists l, r :: l in first && r in second && l.resource == r.resource && (l.mode.Exclusive? || r.mode.Exclusive?)
  }

  /** Running, interruptible work that blocks the mutation work of intent k. */
  predicate Yields(defs: Definitions, b: Book, running: map<Id, seq<Claim>>, k: string, e: Id)
    requires k in b.pending && e in b.executions
  {
    var i, x := b.pending[k], b.executions[e];
    && e in running && x.task in defs && defs[x.task].interruptible
    && i.priority >= PRIORITY_MUTATION && i.task in defs
    && ClaimsConflict(defs[i.task].resources, running[e])
    && i.priority > x.priority
  }

  /** Such work is asked to stop. */
  ghost predicate Preempted(defs: Definitions, b: Book, running: map<Id, seq<Claim>>, keys: set<string>, e: Id)
    requires e in b.executions
  {
    exists k :: k in keys && k in b.pending && Yields(defs, b, running, k, e)
  }

  ghost function PreemptBy(defs: Definitions, b: Book, running: map<Id, seq<Claim>>, keys: set<string>): Book {
    b.(executions := map e | e in b.executions ::
         if Preempted(defs, b, running, keys, e) then b.executions[e].(state := ExCancelling) else b.executions[e])
  }

  ghost function Preempt(defs: Definitions, b: Book, running: map<Id, seq<Claim>>): Book {
    PreemptBy(defs, b, running, b.pending.Keys)
  }

  // ----------------------------------------------------- restart and recovery

  /** What is written to the store. */
  function PersistedView(b: Book): Book {
    b.(triggers := map t | t in b.triggers && (b.triggers[t].durable || Terminal(b.triggers[t].state)) :: b.triggers[t],
       pending := map k | k in b.pending && HasDurable(b.triggers, b.pending[k].triggers) :: b.pending[k])
  }

  function LiveSet(b: Book): set<Id> {
    set e | e in b.executions && Unfinished(b.executions[e].state)
  }

  predicate Resumes(defs: Definitions, b: Book, e: Id)
    requires e in b.executions
  {
    var x := b.executions[e];
    x.task in defs && defs[x.task].recovery.RecoveryRetry? && HasDurable(b.triggers, x.triggers)
  }

  function Abandon(b: Book, e: Id, now: Time): Book
    requires e in b.executions
  {
    b.(triggers := Rewrite(b.triggers, b.executions[e].triggers,
         (t: Trigger) => t.(state := if t.durable then Attention else Interrupted, finishedAt := now)))
  }

  function RecoverOne(defs: Definitions, b: Book, e: Id, now: Time): Book
    requires e in b.executions
  {
    if !Unfinished(b.executions[e].state) then b
    else
      var b1 := b.(executions := b.executions[e := b.executions[e].(state := ExInterrupted, finishedAt := now)]);
      if Resumes(defs, b, e) then Requeue(b1, e, 0, now) else Abandon(b1, e, now)
  }

  function RecoverAll(defs: Definitions, b: Book, order: seq<Id>, now: Time): (r: Book)
    requires forall e :: e in order ==> e in b.executions
    ensures r.executions.Keys == b.executions.Keys
    decreases |order|
  {
    if order == [] then b else RecoverAll(defs, RecoverOne(defs, b, order[0], now), order[1..], now)
  }

  /** Registering a periodic task for the first time starts its schedule. */
  function RegisterAmong(defs: Definitions, tasks: set<string>, b: Book, now: Time): Book {
    b.(periodicNext := map task | task in b.periodicNext.Keys + tasks
                                  && (task in b.periodicNext || (task in defs && defs[task].interval > 0)) ::
         if task in tasks && task in defs && defs[task].interval > 0 && DueTime(b, task) == 0
         then now + defs[task].interval
         else DueTime(b, task))
  }

  function RegisterSchedules(defs: Definitions, b: Book, now: Time): Book {
    RegisterAmong(defs, defs.Keys, b, now)
  }
}
