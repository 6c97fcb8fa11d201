/** Following one trigger that an execution has carried: where it may turn up
    again, and with which attempt number. */
module SchedulerHistory {
  import opened TaskTypes
  import opened SchedulerSpec
  import opened SchedulerInvariants
  import opened SchedulerRecovery
  import opened SchedulerRound

  /** An execution as it was when it was admitted or its runner was started. */
  datatype Carry = Carry(execution: Id, task: string, triggers: set<Id>, attempt: nat, coverage: nat)

  /** What execution e carries, as far as its triggers are on record. */
  function CarryOf(b: Book, e: Id): Carry
    requires e in b.executions
  {
    var x := b.executions[e];
    Carry(e, x.task, (set t | t in x.triggers && t in b.triggers), x.attempt, x.coverage)
  }

  /** A trigger carried before is queued again only for a later attempt, and owed no
      less coverage; one that may be carried only once is never queued again. */
  ghost predicate TrackedIntent(i: Intent, t: Id, c: Carry, once: bool) {
    t in i.triggers ==> !once && c.attempt < i.attempt && c.coverage <= i.coverage
  }

  ghost predicate TrackedExecution(e: Id, x: Execution, t: Id, c: Carry, once: bool) {
    t in x.triggers ==>
      && c.coverage <= x.coverage
      && ((e == c.execution && x.attempt == c.attempt && x.task == c.task) || (!once && c.attempt < x.attempt))
  }

  ghost predicate Tracked(b: Book, live: set<Id>, t: Id, c: Carry, once: bool) {
    && 0 < t <= b.sequence && c.execution <= b.sequence
    && (forall k :: k in b.pending ==> TrackedIntent(b.pending[k], t, c, once))
    && (forall e :: e in live && e in b.executions ==> TrackedExecution(e, b.executions[e], t, c, once))
  }

  /** A finished execution of this task may put its triggers back in the queue. */
  predicate MayRequeue(d: Definition, x: Execution, outcome: Outcome) {
    match outcome
    case Canceled => d.recovery.RecoveryRetry?
    case Errored(retryable) => retryable && x.attempt < d.retry.maxAttempts
    case Succeeded(_) => false
  }

  lemma SubmitTracked(defs: Definitions, b: Book, live: set<Id>, running: seq<Id>, req: Request, now: Time,
                      t: Id, c: Carry, once: bool)
    requires Tracked(b, live, t, c, once) && Submit(defs, b, running, req, now).Ok?
    ensures Tracked(Submit(defs, b, running, req, now).value.0, live, t, c, once)
  {
    var b' := Submit(defs, b, running, req, now).value.0;
    forall k | k in b'.pending
      ensures TrackedIntent(b'.pending[k], t, c, once)
    {
      assert k in b.pending ==> TrackedIntent(b.pending[k], t, c, once);
    }
    forall e | e in live && e in b'.executions
      ensures TrackedExecution(e, b'.executions[e], t, c, once)
    {
      assert TrackedExecution(e, b.executions[e], t, c, once);
    }
  }

  lemma CancelTracked(b: Book, live: set<Id>, u: Id, now: Time, t: Id, c: Carry, once: bool)
    requires Tracked(b, live, t, c, once)
    ensures Tracked(CancelTrigger(b, u, now), live, t, c, once)
  {
    var b' := CancelTrigger(b, u, now);
    if u in b.triggers && TriggerKey(b.triggers[u]) in b.pending {
      WithoutProperties(b.pending[TriggerKey(b.triggers[u])].triggers, u);
    }
    forall k | k in b'.pending
      ensures TrackedIntent(b'.pending[k], t, c, once)
    {
      assert TrackedIntent(b.pending[k], t, c, once);
    }
  }

  lemma RequeueTracked(b: Book, live: set<Id>, e: Id, delay: int, now: Time, t: Id, c: Carry, once: bool)
    requires Tracked(b, live, t, c, once) && e in live && e in b.executions
    requires once ==> b.executions[e].task != c.task
    ensures Tracked(Requeue(b, e, delay, now), live - {e}, t, c, once)
  {
    var b', x := Requeue(b, e, delay, now), b.executions[e];
    var key := ExecutionKey(x);
    AppendUniqueProperties(if key in b.pending then b.pending[key].triggers else [], x.triggers);
    assert TrackedExecution(e, x, t, c, once);
    forall k | k in b'.pending
      ensures TrackedIntent(b'.pending[k], t, c, once)
    {
      assert k in b.pending ==> TrackedIntent(b.pending[k], t, c, once);
    }
  }

  lemma AdmitTracked(b: Book, live: set<Id>, key: string, now: Time, t: Id, c: Carry, once: bool)
    requires Tracked(b, live, t, c, once) && key in b.pending
    ensures Tracked(Admit(b, key, now), live + {b.sequence + 1}, t, c, once)
  {
    var b' := Admit(b, key, now);
    assert TrackedIntent(b.pending[key], t, c, once);
    forall e | e in live + {b.sequence + 1} && e in b'.executions
      ensures TrackedExecution(e, b'.executions[e], t, c, once)
    {
      if e != b.sequence + 1 { assert TrackedExecution(e, b.executions[e], t, c, once); }
    }
  }

  /** Changes that neither add to a list nor touch an attempt number or a coverage. */
  ghost predicate SameCarrying(x: Execution, x': Execution) {
    x'.task == x.task && x'.triggers == x.triggers && x'.attempt == x.attempt && x'.coverage == x.coverage
  }

  ghost predicate ListsShrink(b: Book, b': Book) {
    && b'.sequence == b.sequence
    && (forall k :: k in b'.pending ==> k in b.pending && b'.pending[k] == b.pending[k])
    && (forall e :: e in b'.executions ==> e in b.executions && SameCarrying(b.executions[e], b'.executions[e]))
  }

  lemma ShrinkTracked(b: Book, b': Book, live: set<Id>, live': set<Id>, t: Id, c: Carry, once: bool)
    requires Tracked(b, live, t, c, once) && ListsShrink(b, b') && live' <= live
    ensures Tracked(b', live', t, c, once)
  {
    forall e | e in live' && e in b'.executions
      ensures TrackedExecution(e, b'.executions[e], t, c, once)
    {
      assert TrackedExecution(e, b.executions[e], t, c, once);
    }
    forall k | k in b'.pending
      ensures TrackedIntent(b'.pending[k], t, c, once)
    {
      assert TrackedIntent(b.pending[k], t, c, once);
    }
  }

  // ------------------------------------------------------------- whole steps

  lemma {:induction false} SatisfyAllTracked(wdefs: WorkflowDefinitions, b: Book, live: set<Id>, order: seq<string>,
                                             x: Execution, now: Time, t: Id, c: Carry, once: bool)
    requires Tracked(b, live, t, c, once)
    ensures Tracked(SatisfyAll(wdefs, b, order, x, now), live, t, c, once)
    decreases |order|
  {
    if order != [] {
      if order[0] in b.workflows {
        CancelTracked(b, live, b.workflows[order[0]].trigger, now, t, c, once);
        SatisfyAllTracked(wdefs, SatisfyOne(wdefs, b, order[0], x, now), live, order[1..], x, now, t, c, once);
      } else {
        SatisfyAllTracked(wdefs, b, live, order[1..], x, now, t, c, once);
      }
    }
  }

  lemma ConcludeTracked(d: Definition, wdefs: WorkflowDefinitions, b: Book, live: set<Id>, e: Id, outcome: Outcome,
                        order: seq<string>, now: Time, t: Id, c: Carry, once: bool)
    requires Tracked(b, live, t, c, once) && e in live && e in b.executions
    requires once && b.executions[e].task == c.task ==> !MayRequeue(d, b.executions[e], outcome)
    ensures Tracked(Conclude(d, wdefs, b, e, outcome, order, now), live - {e}, t, c, once)
  {
    var b1 := EndExecution(b, e, outcome, now);
    ShrinkTracked(b, b1, live, live, t, c, once);
    if outcome.Succeeded? {
      ShrinkTracked(b1, Settle(b1, e, Fulfilled, now), live, live - {e}, t, c, once);
      SatisfyAllTracked(wdefs, Settle(b1, e, Fulfilled, now), live - {e}, order, b1.executions[e], now, t, c, once);
    } else {
      UnsuccessfulTracked(d, wdefs, b, live, e, outcome, order, now, t, c, once);
    }
  }

  lemma UnsuccessfulTracked(d: Definition, wdefs: WorkflowDefinitions, b: Book, live: set<Id>, e: Id, outcome: Outcome,
                            order: seq<string>, now: Time, t: Id, c: Carry, once: bool)
    requires e in live && e in b.executions && !outcome.Succeeded?
    requires Tracked(EndExecution(b, e, outcome, now), live, t, c, once)
    requires once && b.executions[e].task == c.task ==> !MayRequeue(d, b.executions[e], outcome)
    ensures Tracked(Conclude(d, wdefs, b, e, outcome, order, now), live - {e}, t, c, once)
  {
    var b1 := EndExecution(b, e, outcome, now);
    var x := b1.executions[e];
    if MayRequeue(d, x, outcome) {
      RequeueTracked(b1, live, e, if outcome.Canceled? then d.interruptionDelay else RetryDelay(d.retry, x.attempt), now, t, c, once);
    } else if outcome.Canceled? {
      ShrinkTracked(b1, Settle(b1, e, Attention, now), live, live - {e}, t, c, once);
    } else {
      ShrinkTracked(b1, StopWorkflows(Settle(b1, e, Failed, now), x.triggers), live, live - {e}, t, c, once);
    }
  }

  lemma TickTaskTracked(defs: Definitions, b: Book, live: set<Id>, running: seq<Id>, task: string, now: Time,
                        t: Id, c: Carry, once: bool)
    requires Tracked(b, live, t, c, once) && task in defs
    ensures Tracked(TickTask(defs, b, running, task, now), live, t, c, once)
  {
    var req := PeriodicRequest(task, DueTime(b, task));
    if Submit(defs, b, running, req, now).Ok? { SubmitTracked(defs, b, live, running, req, now, t, c, once); }
  }

  lemma TickWorkflowTracked(defs: Definitions, wdefs: WorkflowDefinitions, b: Book, live: set<Id>, running: seq<Id>,
                            instance: string, now: Time, t: Id, c: Carry, once: bool)
    requires Tracked(b, live, t, c, once) && instance in b.workflows
    ensures Tracked(TickWorkflow(defs, wdefs, b, running, instance, now), live, t, c, once)
  {
    var w := b.workflows[instance];
    if w.definition in wdefs && w.step < |wdefs[w.definition]| {
      var req := StepRequest(wdefs[w.definition][w.step], instance, w, now);
      if Submit(defs, b, running, req, now).Ok? { SubmitTracked(defs, b, live, running, req, now, t, c, once); }
    }
  }

  lemma {:induction false} TickTasksTracked(defs: Definitions, b: Book, live: set<Id>, visits: seq<Visit>, now: Time,
                                            t: Id, c: Carry, once: bool)
    requires Tracked(b, live, t, c, once) && (forall v :: v in visits ==> v.subject in defs)
    ensures Tracked(TickTasks(defs, b, visits, now), live, t, c, once)
    decreases |visits|
  {
    if visits != [] {
      TickTaskTracked(defs, b, live, visits[0].running, visits[0].subject, now, t, c, once);
      TickTasksTracked(defs, TickTask(defs, b, visits[0].running, visits[0].subject, now), live, visits[1..], now, t, c, once);
    }
  }

  lemma {:induction false} TickWorkflowsTracked(defs: Definitions, wdefs: WorkflowDefinitions, b: Book, live: set<Id>,
                                                visits: seq<Visit>, now: Time, t: Id, c: Carry, once: bool)
    requires Tracked(b, live, t, c, once) && (forall v :: v in visits ==> v.subject in b.workflows)
    ensures Tracked(TickWorkflows(defs, wdefs, b, visits, now), live, t, c, once)
    decreases |visits|
  {
    if visits != [] {
      TickWorkflowTracked(defs, wdefs, b, live, visits[0].running, visits[0].subject, now, t, c, once);
      TickWorkflowsTracked(defs, wdefs, TickWorkflow(defs, wdefs, b, visits[0].running, visits[0].subject, now), live,
                           visits[1..], now, t, c, once);
    }
  }

  lemma AdmitChosenTracked(defs: Definitions, s: Scheduler, key: string, now: Time, t: Id, c: Carry, once: bool)
    requires Tracked(s.book, s.running.Keys, t, c, once) && Chosen(defs, s, key, now)
    ensures var s' := AdmitChosen(defs, s, key, now); Tracked(s'.book, s'.running.Keys, t, c, once)
  {
    var s1 := ScanTo(defs, s, key, now);
    ShrinkTracked(s.book, s1.book, s.running.Keys, s.running.Keys, t, c, once);
    AdmitTracked(s1.book, s1.running.Keys, key, now, t, c, once);
    assert AdmitChosen(defs, s, key, now).running.Keys == s1.running.Keys + {s1.book.sequence + 1};
  }

  lemma {:induction false} AdmitManyTracked(defs: Definitions, s: Scheduler, keys: seq<string>, now: Time,
                                            t: Id, c: Carry, once: bool)
    requires Tracked(s.book, s.running.Keys, t, c, once) && InOrder(defs, s, keys, now)
    ensures var s' := AdmitMany(defs, s, keys, now); Tracked(s'.book, s'.running.Keys, t, c, once)
    decreases |keys|
  {
    if keys != [] {
      AdmitChosenTracked(defs, s, keys[0], now, t, c, once);
      AdmitManyTracked(defs, AdmitChosen(defs, s, keys[0], now), keys[1..], now, t, c, once);
    }
  }

  lemma PreparedTracked(defs: Definitions, wdefs: WorkflowDefinitions, s: Scheduler, tasks: seq<Visit>,
                        workflows: seq<Visit>, now: Time, t: Id, c: Carry, once: bool)
    requires Tracked(s.book, s.running.Keys, t, c, once) && ValidVisits(defs, s, tasks, workflows)
    ensures Tracked(Prepared(defs, wdefs, s, tasks, workflows, now).book, s.running.Keys, t, c, once)
  {
    TickTasksKeepsWorkflows(defs, s.book, tasks, now);
    var b1 := TickTasks(defs, s.book, tasks, now);
    TickTasksTracked(defs, s.book, s.running.Keys, tasks, now, t, c, once);
    var b2 := TickWorkflows(defs, wdefs, b1, workflows, now);
    TickWorkflowsTracked(defs, wdefs, b1, s.running.Keys, workflows, now, t, c, once);
    ShrinkTracked(b2, Preempt(defs, b2, s.running), s.running.Keys, s.running.Keys, t, c, once);
  }

  lemma RoundTracked(defs: Definitions, wdefs: WorkflowDefinitions, s: Scheduler, tasks: seq<Visit>,
                     workflows: seq<Visit>, keys: seq<string>, now: Time, s': Scheduler, t: Id, c: Carry, once: bool)
    requires Tracked(s.book, s.running.Keys, t, c, once) && ValidVisits(defs, s, tasks, workflows)
    requires AdmitsReady(defs, Prepared(defs, wdefs, s, tasks, workflows, now), keys, now, s')
    ensures Tracked(s'.book, s'.running.Keys, t, c, once)
  {
    PreparedTracked(defs, wdefs, s, tasks, workflows, now, t, c, once);
    var p := Prepared(defs, wdefs, s, tasks, workflows, now);
    AdmitManyTracked(defs, p, keys, now, t, c, once);
    var last := AdmitMany(defs, p, keys, now);
    ShrinkTracked(last.book, s'.book, last.running.Keys, s'.running.Keys, t, c, once);
  }

  // ------------------------------------------------------------------ restart

  lemma RecoverOneTracked(defs: Definitions, b: Book, live: set<Id>, e: Id, now: Time, t: Id, c: Carry, once: bool)
    requires Tracked(b, live, t, c, once) && live == LiveSet(b) && e in b.executions
    requires once && b.executions[e].task == c.task ==> !RetriesTask(defs, c.task)
    ensures Tracked(RecoverOne(defs, b, e, now), live - {e}, t, c, once)
  {
    if e in live {
      var b1 := b.(executions := b.executions[e := b.executions[e].(state := ExInterrupted, finishedAt := now)]);
      ShrinkTracked(b, b1, live, live, t, c, once);
      if Resumes(defs, b, e) { RequeueTracked(b1, live, e, 0, now, t, c, once); }
      else { ShrinkTracked(b1, Abandon(b1, e, now), live, live - {e}, t, c, once); }
    } else {
      assert live - {e} == live;
    }
  }

  lemma {:induction false} RecoverAllTracked(defs: Definitions, b: Book, order: seq<Id>, now: Time, t: Id, c: Carry, once: bool)
    requires Tracked(b, LiveSet(b), t, c, once) && (forall e :: e in order ==> e in b.executions)
    requires once ==> !RetriesTask(defs, c.task)
    ensures var r := RecoverAll(defs, b, order, now); Tracked(r, LiveSet(r), t, c, once)
    decreases |order|
  {
    if order != [] {
      RecoverOneLive(defs, b, order[0], now);
      RecoverOneTracked(defs, b, LiveSet(b), order[0], now, t, c, once);
      RecoverAllTracked(defs, RecoverOne(defs, b, order[0], now), order[1..], now, t, c, once);
    }
  }

  lemma ReloadTracked(defs: Definitions, b: Book, order: seq<Id>, now: Time, t: Id, c: Carry, once: bool)
    requires Tracked(b, LiveSet(b), t, c, once) && Enumerates(order, b.executions.Keys)
    requires once ==> !RetriesTask(defs, c.task)
    ensures var r := Restart(defs, b, order, now); Tracked(r, LiveSet(r), t, c, once)
  {
    var v := RegisterSchedules(defs, PersistedView(b), now);
    ShrinkTracked(b, v, LiveSet(b), LiveSet(v), t, c, once);
    RecoverAllTracked(defs, v, order, now, t, c, once);
  }

  // ------------------------------------------------------------ a fresh entry

  /** At any moment the triggers of a live execution are nowhere else, so what it
      carries now can be followed from here on. */
  lemma CarryIsTracked(b: Book, live: set<Id>, e: Id, t: Id, once: bool)
    requires Bookkeeping(b, live) && e in live && t in CarryOf(b, e).triggers
    ensures Tracked(b, live, t, CarryOf(b, e), once)
  {
    assert CarriedIn(b, e, t);
    forall k | k in b.pending
      ensures t !in b.pending[k].triggers
    {
      assert t in b.pending[k].triggers ==> QueuedUnder(b, k, t);
    }
    forall f | f in live && f in b.executions && t in b.executions[f].triggers
      ensures f == e
    {
      assert CarriedIn(b, f, t);
    }
  }

  // ------------------------------------------------------- what costs an attempt

  /** An interruption costs an attempt like a failure does: what was interrupted at
      its last but one attempt is not retried if it then fails. */
  lemma InterruptionIsAnAttempt(d: Definition, wdefs: WorkflowDefinitions, b: Book, e: Id, order: seq<string>, now: Time)
    requires e in b.executions && d.recovery.RecoveryRetry?
    ensures var b', key := Conclude(d, wdefs, b, e, Canceled, order, now), ExecutionKey(b.executions[e]);
      && key in b'.pending && b'.pending[key].attempt > b.executions[e].attempt
      && (b.executions[e].attempt + 1 >= d.retry.maxAttempts ==> !MayRequeue(d, Admit(b', key, now).executions[b'.sequence + 1], Errored(true)))
  {
    var b1 := EndExecution(b, e, Canceled, now);
    assert ExecutionKey(b1.executions[e]) == ExecutionKey(b.executions[e]);
  }

  /** A deadline without an earliest time does not hurry: an intent that carries only
      a deadline is ready exactly from its deadline on. */
  lemma DeadlineAloneWaits(defs: Definitions, b: Book, running: seq<Id>, req: Request, now: Time, later: Time)
    requires req.notBefore == 0 && req.deadline != 0 && IntentKey(req.task, req.key) !in b.pending
    requires Submit(defs, b, running, req, now).Ok? && FindAttach(b, running, defs[req.task], Normalized(defs[req.task], req)).None?
    ensures var b', key := Submit(defs, b, running, req, now).value.0, IntentKey(req.task, req.key);
      key in b'.pending && (Ready(b'.pending[key], later) <==> req.deadline <= later)
  {
  }
}
