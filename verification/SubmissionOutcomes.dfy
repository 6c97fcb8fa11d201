/** What a submission leaves behind, read off the records: which execution or intent
    takes the new trigger, and what it then owes to whoever asked. */
module SubmissionOutcomes {
  import opened TaskTypes
  import opened SchedulerSpec
  import opened SchedulerLookup
  import opened SchedulerTiming
  import opened SchedulerOutcomes

  // ------------------------------------------------------------------ requests

  /** What an unset kind or priority stands for. */
  predicate Resolves(d: Definition, req: Request, r: Request) {
    && r.kind == (if req.kind.Unset? then Manual else req.kind)
    && r.priority == (if req.priority != 0 then req.priority else if r.kind.Manual? then Max(d.priority, PRIORITY_MANUAL) else d.priority)
    && r == req.(kind := r.kind, priority := r.priority)
  }

  /** The execution serves this request too: the same task and key, wide enough, and
      the task lets this kind join those it already carries. */
  predicate Joins(b: Book, e: Id, d: Definition, r: Request) {
    && e in b.executions
    && var x := b.executions[e];
    && x.task == r.task && IntentKey(x.task, x.key) == IntentKey(r.task, r.key) && x.coverage >= r.coverage
    && d.attachCompatible(KindsOf(b.triggers, x.triggers), r.kind)
  }

  lemma {:induction false} KindsOfRecords(triggers: map<Id, Trigger>, ids: seq<Id>, kind: Kind)
    ensures kind in KindsOf(triggers, ids) <==> exists t :: t in ids && t in triggers && triggers[t].kind == kind
  {
    if ids != [] { KindsOfRecords(triggers, ids[1..], kind); }
  }

  // ------------------------------------------------------------------ outcome

  /** The record of the new trigger. */
  predicate RecordedAs(b: Book, r: Request, now: Time, t: Id) {
    && t in b.triggers
    && var x := b.triggers[t];
    && x.task == r.task && x.key == r.key && x.kind == r.kind && x.durable == r.durable && x.workflow == r.workflow
    && x.notBefore == r.notBefore && x.createdAt == now && x.finishedAt == 0
  }

  /** The execution takes the trigger along and is otherwise as it was. */
  predicate JoinedTo(b: Book, e: Id, b': Book, t: Id) {
    && t in b'.triggers && b'.triggers[t].state.Attached? && b'.triggers[t].execution == e && b'.triggers[t].target == e
    && e in b.executions && e in b'.executions
    && b'.executions[e] == b.executions[e].(triggers := b.executions[e].triggers + [t])
    && b'.pending == b.pending
  }

  /** The earlier of two deadlines, where 0 is none. */
  predicate EarlierDeadline(a: Time, b: Time, d: Time) {
    if a == 0 then d == b else if b == 0 then d == a else if a <= b then d == a else d == b
  }

  /** The intent of the key owes the request what it asked for: its priority and
      coverage are raised to it, its earliest time put off to it, its deadline moved
      up to it, and the newest payload stands. */
  predicate QueuedIn(b: Book, key: string, r: Request, now: Time, b': Book, t: Id) {
    && t in b'.triggers && b'.triggers[t].state.Pending? && b'.triggers[t].execution == 0
    && key in b'.pending && b'.triggers[t].target == b'.pending[key].id
    && var i := b'.pending[key];
    && (if key in b.pending then
          var j := b.pending[key];
          && i == j.(triggers := j.triggers + [t], priority := i.priority, coverage := i.coverage, notBefore := i.notBefore,
                     deadline := i.deadline, payload := i.payload)
          && i.priority == Max(j.priority, r.priority) && i.coverage == Max(j.coverage, r.coverage)
          && i.notBefore == Max(j.notBefore, r.notBefore) && EarlierDeadline(j.deadline, r.deadline, i.deadline)
          && i.payload == (if r.payload == "" then j.payload else r.payload)
        else
          && i.triggers == [t] && i.task == r.task && i.key == r.key && i.priority == r.priority && i.coverage == r.coverage
          && i.notBefore == r.notBefore && i.deadline == r.deadline && i.payload == r.payload && i.workflow == r.workflow
          && i.createdAt == now && i.attempt == 1)
    && b'.executions == b.executions && b'.pending == b.pending[key := i]
  }

  /** Where the request went: to a running execution it may join, and to the intent of
      its key only if there is none. */
  ghost predicate TakenIn(d: Definition, b: Book, running: seq<Id>, req: Request, now: Time, b': Book, receipt: Receipt) {
    exists r :: Resolves(d, req, r) && RequestTaken(d, b, running, r, now, b', receipt)
  }

  ghost predicate RequestTaken(d: Definition, b: Book, running: seq<Id>, r: Request, now: Time, b': Book, receipt: Receipt) {
    var t := receipt.trigger;
    && t == b.sequence + 1 && RecordedAs(b', r, now, t) && b'.triggers == b.triggers[t := b'.triggers[t]]
    && b'.workflows == b.workflows && b'.periodicNext == b.periodicNext
    && (if receipt.disposition.AsAttached? then
          receipt.execution in running && Joins(b, receipt.execution, d, r) && JoinedTo(b, receipt.execution, b', t)
          && b'.executions == b.executions[receipt.execution := b'.executions[receipt.execution]]
        else
          && (forall e :: e in running ==> !Joins(b, e, d, r))
          && QueuedIn(b, IntentKey(r.task, r.key), r, now, b', t)
          && receipt.disposition == (if IntentKey(r.task, r.key) in b.pending then AsCoalesced else AsPending))
  }

  lemma AttachTakes(d: Definition, b: Book, running: seq<Id>, r: Request, now: Time, e: Id)
    requires e in running && Joins(b, e, d, r)
    ensures RequestTaken(d, b, running, r, now, Attach(b, e, r, now), Receipt(b.sequence + 1, e, AsAttached, e))
  {
  }

  lemma CoalesceTakes(d: Definition, b: Book, running: seq<Id>, r: Request, now: Time)
    requires (forall e :: e in running ==> !Joins(b, e, d, r)) && IntentKey(r.task, r.key) in b.pending
    ensures var key := IntentKey(r.task, r.key);
      RequestTaken(d, b, running, r, now, Coalesce(b, key, r, now), Receipt(b.sequence + 1, 0, AsCoalesced, b.pending[key].id))
  {
  }

  lemma EnqueueTakes(d: Definition, b: Book, running: seq<Id>, r: Request, now: Time)
    requires (forall e :: e in running ==> !Joins(b, e, d, r)) && IntentKey(r.task, r.key) !in b.pending
    ensures var key := IntentKey(r.task, r.key);
      RequestTaken(d, b, running, r, now, Enqueue(b, key, r, now), Receipt(b.sequence + 1, 0, AsPending, b.sequence + 2))
  {
  }

  lemma RequestIsTaken(d: Definition, b: Book, running: seq<Id>, r: Request, now: Time)
    ensures var (b', receipt) := Accept(d, b, running, r, now); RequestTaken(d, b, running, r, now, b', receipt)
  {
    var found := FindAttach(b, running, d, r);
    forall e | e in running
      ensures Joins(b, e, d, r) <==> CanAttach(b, e, d, r)
    {
    }
    if found.Some? { AttachTakes(d, b, running, r, now, found.value); }
    else if IntentKey(r.task, r.key) in b.pending { CoalesceTakes(d, b, running, r, now); }
    else { EnqueueTakes(d, b, running, r, now); }
  }

  /** A submission is refused only for an unknown task, or for a manual run of a task
      that takes none; otherwise it is taken in. */
  lemma SubmitTakesIn(defs: Definitions, b: Book, running: seq<Id>, req: Request, now: Time)
    ensures var r := Submit(defs, b, running, req, now);
      if req.task !in defs then r == Err(UnknownTask)
      else if (req.kind.Unset? || req.kind.Manual?) && !defs[req.task].allowManual then r == Err(NeedsPayload)
      else r.Ok? && TakenIn(defs[req.task], b, running, req, now, r.value.0, r.value.1)
  {
    if req.task in defs {
      var r := Normalized(defs[req.task], req);
      assert Resolves(defs[req.task], req, r);
      RequestIsTaken(defs[req.task], b, running, r, now);
    }
  }

  /** As long as the clock does not go back, the trigger submitted last is the one that a
      lookup of its task and key finds. */
  lemma LastIsLatest(defs: Definitions, b: Book, running: seq<Id>, req: Request, now: Time)
    requires Submit(defs, b, running, req, now).Ok?
    requires forall t :: t in b.triggers ==> t <= b.sequence && b.triggers[t].createdAt <= now
    ensures var (b', receipt) := Submit(defs, b, running, req, now).value; IsLatest(b'.triggers, req.task, req.key, Some(receipt.trigger))
  {
    SubmitTakesIn(defs, b, running, req, now);
  }

  // --------------------------------------------------------- what ticks submit

  /** A due schedule submits one request, which is not kept over a restart and has to
      cover the due time, and moves past now; otherwise nothing is submitted. */
  lemma TickSubmits(defs: Definitions, b: Book, running: seq<Id>, task: string, now: Time) returns (receipt: Receipt)
    requires task in defs && defs[task].interval > 0
    ensures var b' := TickTask(defs, b, running, task, now);
      if task in b.periodicNext && 0 < b.periodicNext[task] <= now then
        task in b'.periodicNext && b'.periodicNext[task] > now
        && TakenIn(defs[task], b, running, Request(task, Periodic, PRIORITY_PERIODIC, false, "", b.periodicNext[task], 0, 0, "", ""), now,
                   b'.(periodicNext := b.periodicNext), receipt)
      else b' == b.(periodicNext := b'.periodicNext)
           && (if task in b.periodicNext && b.periodicNext[task] > now then b' == b
               else b'.periodicNext == b.periodicNext[task := now + defs[task].interval])
  {
    receipt := Receipt(0, 0, AsPending, 0);
    if task in b.periodicNext && 0 < b.periodicNext[task] <= now {
      var due := b.periodicNext[task];
      var req := Request(task, Periodic, PRIORITY_PERIODIC, false, "", due, 0, 0, "", "");
      SubmitTakesIn(defs, b, running, req, now);
      var (b1, taken) := Submit(defs, b, running, req, now).value;
      receipt := taken;
      NextDueIsFirstFuturePoint(due, defs[task].interval, now);
      assert b1 == TickTask(defs, b, running, task, now).(periodicNext := b.periodicNext);
    }
  }

  /** A workflow step whose time has come submits one durable request in the name of
      the instance, at the raised priority if the deadline has passed. */
  lemma StepSubmitted(defs: Definitions, wdefs: WorkflowDefinitions, b: Book, running: seq<Id>, instance: string, now: Time) returns (receipt: Receipt)
    requires instance in b.workflows
    requires var w := b.workflows[instance];
      && !Idle(w) && w.definition in wdefs && w.step < |wdefs[w.definition]|
      && (w.trigger == 0 || w.trigger !in b.triggers || Terminal(b.triggers[w.trigger].state))
      && var since := if w.step == 0 then w.notBefore else w.readyAfter;
      (w.deadline != 0 && w.deadline <= now) || (since <= now && (since != 0 || w.deadline == 0))
    ensures var w, b' := b.workflows[instance], TickWorkflow(defs, wdefs, b, running, instance, now);
      var task := wdefs[w.definition][w.step];
      if task in defs then
        && b'.workflows == b.workflows[instance := w.(trigger := receipt.trigger, state := WfRunning)]
        && TakenIn(defs[task], b, running,
                   Request(task, WorkflowStep, if w.deadline != 0 && w.deadline <= now then PRIORITY_CONSISTENCY_DEADLINE else PRIORITY_CONSISTENCY,
                           true, "", 0, 0, 0, "", instance),
                   now, b'.(workflows := b.workflows), receipt)
      else b' == b.(workflows := b.workflows[instance := w.(trigger := 0, state := WfAttention)])
  {
    var w := b.workflows[instance];
    var task := wdefs[w.definition][w.step];
    receipt := Receipt(0, 0, AsPending, 0);
    var priority := if w.deadline != 0 && w.deadline <= now then PRIORITY_CONSISTENCY_DEADLINE else PRIORITY_CONSISTENCY;
    var req := Request(task, WorkflowStep, priority, true, "", 0, 0, 0, "", instance);
    SubmitTakesIn(defs, b, running, req, now);
    if task in defs {
      var (b1, taken) := Submit(defs, b, running, req, now).value;
      receipt := taken;
      assert b1 == TickWorkflow(defs, wdefs, b, running, instance, now).(workflows := b.workflows);
    }
  }
}
