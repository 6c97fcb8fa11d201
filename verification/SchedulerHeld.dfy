/** The triggers of one key whose requests are all durable.  Whatever other tasks do,
    and however the process ends, every id an intent or a live execution holds
    under this key keeps its record. */
module SchedulerHeld {
  import opened TaskTypes
  import opened SchedulerSpec
  import opened SchedulerInvariants
  import opened SchedulerRecovery
  import opened SchedulerRound
  import opened SchedulerRuns

  ghost predicate HeldUnder(b: Book, live: set<Id>, key: string, t: Id) {
    || (key in b.pending && t in b.pending[key].triggers)
    || exists e :: e in live && e in b.executions && ExecutionKey(b.executions[e]) == key && t in b.executions[e].triggers
  }

  ghost predicate DurableUnder(b: Book, key: string) {
    forall t :: t in b.triggers && TriggerKey(b.triggers[t]) == key ==> b.triggers[t].durable
  }

  ghost predicate HeldAt(b: Book, live: set<Id>, key: string) {
    DurableUnder(b, key) && forall t :: HeldUnder(b, live, key, t) ==> t in b.triggers
  }

  predicate SameOrigin(r: Trigger, r': Trigger) { TriggerKey(r') == TriggerKey(r) && r'.durable == r.durable }

  /** No list of the key grows, and what it holds keeps its record. */
  ghost predicate Retains(b: Book, live: set<Id>, b': Book, live': set<Id>, key: string) {
    && (forall t :: HeldUnder(b', live', key, t) ==> HeldUnder(b, live, key, t))
    && (forall t :: t in b'.triggers ==> t in b.triggers && SameOrigin(b.triggers[t], b'.triggers[t]))
    && (forall t :: HeldUnder(b, live, key, t) && t in b.triggers ==> t in b'.triggers)
  }

  lemma RetainsHeld(b: Book, live: set<Id>, b': Book, live': set<Id>, key: string)
    requires HeldAt(b, live, key) && Retains(b, live, b', live', key)
    ensures HeldAt(b', live', key)
  {
  }

  // -------------------------------------------------------------- operations

  lemma SubmitDurable(defs: Definitions, b: Book, running: seq<Id>, req: Request, now: Time, key: string)
    requires DurableUnder(b, key) && Submit(defs, b, running, req, now).Ok?
    requires IntentKey(req.task, req.key) == key ==> req.durable
    ensures DurableUnder(Submit(defs, b, running, req, now).value.0, key)
  {
  }

  /** A submission under this key is durable. */
  lemma SubmitHeld(defs: Definitions, b: Book, live: set<Id>, running: seq<Id>, req: Request, now: Time, key: string)
    requires HeldAt(b, live, key) && Submit(defs, b, running, req, now).Ok?
    requires IntentKey(req.task, req.key) == key ==> req.durable
    ensures HeldAt(Submit(defs, b, running, req, now).value.0, live, key)
  {
    var b' := Submit(defs, b, running, req, now).value.0;
    SubmitDurable(defs, b, running, req, now, key);
    forall t | HeldUnder(b', live, key, t)
      ensures t in b'.triggers
    {
      if t != b.sequence + 1 { assert HeldUnder(b, live, key, t); }
    }
  }

  lemma CancelHeld(b: Book, live: set<Id>, u: Id, now: Time, key: string)
    requires HeldAt(b, live, key)
    ensures HeldAt(CancelTrigger(b, u, now), live, key)
  {
    if u in b.triggers && TriggerKey(b.triggers[u]) in b.pending {
      WithoutProperties(b.pending[TriggerKey(b.triggers[u])].triggers, u);
    }
    RetainsHeld(b, live, CancelTrigger(b, u, now), live, key);
  }

  lemma RequeueHeld(b: Book, live: set<Id>, e: Id, delay: int, now: Time, key: string)
    requires HeldAt(b, live, key) && e in live && e in b.executions
    ensures HeldAt(Requeue(b, e, delay, now), live - {e}, key)
  {
    var x := b.executions[e];
    AppendUniqueProperties(if ExecutionKey(x) in b.pending then b.pending[ExecutionKey(x)].triggers else [], x.triggers);
    RetainsHeld(b, live, Requeue(b, e, delay, now), live - {e}, key);
  }

  lemma {:induction false} SatisfyAllHeld(wdefs: WorkflowDefinitions, b: Book, live: set<Id>, order: seq<string>, x: Execution, now: Time, key: string)
    requires HeldAt(b, live, key)
    ensures HeldAt(SatisfyAll(wdefs, b, order, x, now), live, key)
    decreases |order|
  {
    if order != [] {
      if order[0] in b.workflows {
        var b1 := SatisfyOne(wdefs, b, order[0], x, now);
        var cancelled := CancelTrigger(b, b.workflows[order[0]].trigger, now);
        CancelHeld(b, live, b.workflows[order[0]].trigger, now, key);
        assert b1 == b || (b1.triggers == cancelled.triggers && b1.pending == cancelled.pending && b1.executions == cancelled.executions);
        assert forall t :: HeldUnder(b1, live, key, t) ==> HeldUnder(b, live, key, t) || HeldUnder(cancelled, live, key, t);
        SatisfyAllHeld(wdefs, b1, live, order[1..], x, now, key);
      } else {
        SatisfyAllHeld(wdefs, b, live, order[1..], x, now, key);
      }
    }
  }

  /** A live execution lets go of its triggers and keeps their records. */
  lemma LetGoHeld(b: Book, live: set<Id>, b': Book, e: Id, key: string)
    requires HeldAt(b, live, key) && b'.pending == b.pending && b'.executions.Keys == b.executions.Keys
    requires forall f :: f in b.executions ==> ExecutionKey(b'.executions[f]) == ExecutionKey(b.executions[f]) && b'.executions[f].triggers == b.executions[f].triggers
    requires b'.triggers.Keys == b.triggers.Keys && forall t :: t in b.triggers ==> SameOrigin(b.triggers[t], b'.triggers[t])
    ensures HeldAt(b', live, key) && HeldAt(b', live - {e}, key)
  {
    RetainsHeld(b, live, b', live, key);
    RetainsHeld(b, live, b', live - {e}, key);
  }

  lemma SettleHeld(b: Book, live: set<Id>, e: Id, state: TriggerState, now: Time, key: string)
    requires HeldAt(b, live, key) && e in b.executions
    ensures HeldAt(Settle(b, e, state, now), live - {e}, key)
  {
    LetGoHeld(b, live, Settle(b, e, state, now), e, key);
  }

  lemma ConcludeHeld(d: Definition, wdefs: WorkflowDefinitions, b: Book, live: set<Id>, e: Id, outcome: Outcome, order: seq<string>, now: Time, key: string)
    requires HeldAt(b, live, key) && e in live && e in b.executions
    ensures HeldAt(Conclude(d, wdefs, b, e, outcome, order, now), live - {e}, key)
  {
    var b1 := EndExecution(b, e, outcome, now);
    var x := b1.executions[e];
    LetGoHeld(b, live, b1, e, key);
    match outcome {
      case Canceled =>
        if d.recovery.RecoveryRetry? { RequeueHeld(b1, live, e, d.interruptionDelay, now, key); }
        else { SettleHeld(b1, live, e, Attention, now, key); }
      case Errored(retryable) =>
        if retryable && x.attempt < d.retry.maxAttempts { RequeueHeld(b1, live, e, RetryDelay(d.retry, x.attempt), now, key); }
        else {
          SettleHeld(b1, live, e, Failed, now, key);
          SameHeld(Settle(b1, e, Failed, now), StopWorkflows(Settle(b1, e, Failed, now), x.triggers), live - {e}, key);
        }
      case Succeeded(_) =>
        SettleHeld(b1, live, e, Fulfilled, now, key);
        SatisfyAllHeld(wdefs, Settle(b1, e, Fulfilled, now), live - {e}, order, x, now, key);
    }
  }

  /** What is held has not ended, so trimming history leaves its record. */
  lemma ForgetHeld(b: Book, live: set<Id>, removed: set<Id>, key: string)
    requires Bookkeeping(b, live) && HeldAt(b, live, key)
    ensures HeldAt(Forget(b, removed), live, key)
  {
    var b' := Forget(b, removed);
    forall t | HeldUnder(b, live, key, t) && t in b.triggers
      ensures t in b'.triggers
    {
      HeldIsOpen(b, live, key, t);
    }
    RetainsHeld(b, live, b', live, key);
  }

  /** A held trigger with a record has not ended and is of this key. */
  lemma HeldIsOpen(b: Book, live: set<Id>, key: string, t: Id)
    requires Bookkeeping(b, live) && HeldUnder(b, live, key, t) && t in b.triggers
    ensures !Terminal(b.triggers[t].state) && TriggerKey(b.triggers[t]) == key
  {
    if key in b.pending && t in b.pending[key].triggers {
      assert QueuedUnder(b, key, t);
    } else {
      var e :| e in live && e in b.executions && ExecutionKey(b.executions[e]) == key && t in b.executions[e].triggers;
      assert CarriedIn(b, e, t);
    }
  }

  lemma ScanHeld(defs: Definitions, b: Book, live: set<Id>, blocked: set<string>, now: Time, key: string)
    requires HeldAt(b, live, key)
    ensures HeldAt(MarkWaiting(DropUnregistered(defs, b, now), blocked), live, key)
  {
    DropHeld(defs, b, live, now, key);
    LetGoHeld(DropUnregistered(defs, b, now), live, MarkWaiting(DropUnregistered(defs, b, now), blocked), 0, key);
  }

  lemma DropHeld(defs: Definitions, b: Book, live: set<Id>, now: Time, key: string)
    requires HeldAt(b, live, key)
    ensures HeldAt(DropUnregistered(defs, b, now), live, key)
  {
    RetainsHeld(b, live, DropUnregistered(defs, b, now), live, key);
  }

  lemma AdmitHeldAt(b: Book, live: set<Id>, k: string, now: Time, key: string)
    requires Shaped(b) && HeldAt(b, live, key) && k in b.pending
    ensures HeldAt(Admit(b, k, now), live + {b.sequence + 1}, key)
  {
    assert WellFormedIntent(k, b.pending[k]);
    RetainsHeld(b, live, Admit(b, k, now), live + {b.sequence + 1}, key);
  }

  lemma PreemptHeld(defs: Definitions, b: Book, running: map<Id, seq<Claim>>, live: set<Id>, key: string)
    requires HeldAt(b, live, key)
    ensures HeldAt(Preempt(defs, b, running), live, key)
  {
    LetGoHeld(b, live, Preempt(defs, b, running), 0, key);
  }

  // ------------------------------------------------------------- whole steps

  /** Schedules do not submit under this key: only what is durable may. */
  ghost predicate NotScheduled(defs: Definitions, key: string) {
    forall task :: task in defs && defs[task].interval > 0 ==> IntentKey(task, "") != key
  }

  lemma TickTaskHeld(defs: Definitions, b: Book, live: set<Id>, running: seq<Id>, task: string, now: Time, key: string)
    requires HeldAt(b, live, key) && task in defs && NotScheduled(defs, key)
    ensures HeldAt(TickTask(defs, b, running, task, now), live, key)
  {
    var req := PeriodicRequest(task, DueTime(b, task));
    var submitted := Submit(defs, b, running, req, now);
    if defs[task].interval > 0 && submitted.Ok? { SubmitHeld(defs, b, live, running, req, now, key); }
    var before := if submitted.Ok? then submitted.value.0 else b;
    var b' := TickTask(defs, b, running, task, now);
    if b'.triggers == b.triggers && b'.pending == b.pending && b'.executions == b.executions {
      SameHeld(b, b', live, key);
    } else {
      SameHeld(before, b', live, key);
    }
  }

  /** Workflows and schedules hold no triggers. */
  lemma SameHeld(b: Book, b': Book, live: set<Id>, key: string)
    requires HeldAt(b, live, key) && b'.triggers == b.triggers && b'.pending == b.pending && b'.executions == b.executions
    ensures HeldAt(b', live, key)
  {
    RetainsHeld(b, live, b', live, key);
  }

  lemma TickWorkflowHeld(defs: Definitions, wdefs: WorkflowDefinitions, b: Book, live: set<Id>, running: seq<Id>, instance: string, now: Time, key: string)
    requires HeldAt(b, live, key) && instance in b.workflows
    ensures HeldAt(TickWorkflow(defs, wdefs, b, running, instance, now), live, key)
  {
    var w := b.workflows[instance];
    var b' := TickWorkflow(defs, wdefs, b, running, instance, now);
    if b' == b.(workflows := b'.workflows) {
      SameHeld(b, b', live, key);
    } else {
      var req := StepRequest(wdefs[w.definition][w.step], instance, w, now);
      SubmitHeld(defs, b, live, running, req, now, key);
      SameHeld(Submit(defs, b, running, req, now).value.0, b', live, key);
    }
  }

  lemma {:induction false} TickTasksHeld(defs: Definitions, b: Book, live: set<Id>, visits: seq<Visit>, now: Time, key: string)
    requires HeldAt(b, live, key) && NotScheduled(defs, key) && forall v :: v in visits ==> v.subject in defs
    ensures HeldAt(TickTasks(defs, b, visits, now), live, key)
    decreases |visits|
  {
    if visits != [] {
      TickTaskHeld(defs, b, live, visits[0].running, visits[0].subject, now, key);
      TickTasksHeld(defs, TickTask(defs, b, visits[0].running, visits[0].subject, now), live, visits[1..], now, key);
    }
  }

  lemma {:induction false} TickWorkflowsHeld(defs: Definitions, wdefs: WorkflowDefinitions, b: Book, live: set<Id>, visits: seq<Visit>, now: Time, key: string)
    requires HeldAt(b, live, key) && forall v :: v in visits ==> v.subject in b.workflows
    ensures HeldAt(TickWorkflows(defs, wdefs, b, visits, now), live, key)
    decreases |visits|
  {
    if visits != [] {
      TickWorkflowHeld(defs, wdefs, b, live, visits[0].running, visits[0].subject, now, key);
      TickWorkflowsHeld(defs, wdefs, TickWorkflow(defs, wdefs, b, visits[0].running, visits[0].subject, now), live, visits[1..], now, key);
    }
  }

  lemma PreparedHeldAt(defs: Definitions, wdefs: WorkflowDefinitions, s: Scheduler, tasks: seq<Visit>, workflows: seq<Visit>, now: Time, key: string)
    requires HeldAt(s.book, s.running.Keys, key) && NotScheduled(defs, key) && ValidVisits(defs, s, tasks, workflows)
    ensures HeldAt(Prepared(defs, wdefs, s, tasks, workflows, now).book, s.running.Keys, key)
  {
    TickTasksKeepsWorkflows(defs, s.book, tasks, now);
    var b1 := TickTasks(defs, s.book, tasks, now);
    TickTasksHeld(defs, s.book, s.running.Keys, tasks, now, key);
    var b2 := TickWorkflows(defs, wdefs, b1, workflows, now);
    TickWorkflowsHeld(defs, wdefs, b1, s.running.Keys, workflows, now, key);
    PreemptHeld(defs, b2, s.running, s.running.Keys, key);
  }

  lemma ScanToHeld(defs: Definitions, s: Scheduler, k: string, now: Time, key: string)
    requires Sound(defs, s) && k in s.book.pending && HeldAt(s.book, s.running.Keys, key)
    ensures var s1 := ScanTo(defs, s, k, now); Shaped(s1.book) && HeldAt(s1.book, s.running.Keys, key)
  {
    var blocked := set j | j in s.book.pending && Obstructed(defs, s, j, now) && Precedes(s.book.pending[j], s.book.pending[k], now);
    ScanKeeps(defs, s, blocked, now);
    ScanHeld(defs, s.book, s.running.Keys, blocked, now, key);
  }

  lemma AdmitChosenHeld(defs: Definitions, s: Scheduler, k: string, now: Time, key: string)
    requires Sound(defs, s) && Chosen(defs, s, k, now) && HeldAt(s.book, s.running.Keys, key)
    ensures var s' := AdmitChosen(defs, s, k, now); HeldAt(s'.book, s'.running.Keys, key)
  {
    var s1 := ScanTo(defs, s, k, now);
    ScanToHeld(defs, s, k, now, key);
    AdmitHeldAt(s1.book, s1.running.Keys, k, now, key);
    assert AdmitChosen(defs, s, k, now).running.Keys == s1.running.Keys + {s1.book.sequence + 1};
  }

  lemma {:induction false} AdmitManyHeld(defs: Definitions, s: Scheduler, keys: seq<string>, now: Time, key: string)
    requires Sound(defs, s) && InOrder(defs, s, keys, now) && HeldAt(s.book, s.running.Keys, key)
    ensures var s' := AdmitMany(defs, s, keys, now); HeldAt(s'.book, s'.running.Keys, key)
    decreases |keys|
  {
    if keys != [] {
      AdmitChosenHeld(defs, s, keys[0], now, key);
      AdmitChosenKeeps(defs, s, keys[0], now);
      AdmitManyHeld(defs, AdmitChosen(defs, s, keys[0], now), keys[1..], now, key);
    }
  }

  lemma RoundHeld(wdefs: WorkflowDefinitions, sys: System, step: Step, key: string)
    requires Consistent(sys) && step.RoundStep? && Enabled(wdefs, sys, step)
    requires HeldAt(sys.s.book, sys.s.running.Keys, key) && NotScheduled(sys.defs, key)
    ensures var s' := Apply(wdefs, sys, step).s; HeldAt(s'.book, s'.running.Keys, key)
  {
    var p := Prepared(sys.defs, wdefs, sys.s, step.tasks, step.workflows, step.now);
    PreparedKeeps(sys.defs, wdefs, sys.s, step.tasks, step.workflows, step.now);
    PreparedHeldAt(sys.defs, wdefs, sys.s, step.tasks, step.workflows, step.now, key);
    AdmitManyHeld(sys.defs, p, step.keys, step.now, key);
    var last := AdmitMany(sys.defs, p, step.keys, step.now);
    var blocked := set k | k in last.book.pending && Obstructed(sys.defs, last, k, step.now);
    ScanHeld(sys.defs, last.book, last.running.Keys, blocked, step.now, key);
  }

  lemma FinishHeldAt(wdefs: WorkflowDefinitions, sys: System, step: Step, key: string)
    requires Consistent(sys) && step.FinishStep? && Enabled(wdefs, sys, step) && HeldAt(sys.s.book, sys.s.running.Keys, key)
    ensures var s' := Apply(wdefs, sys, step).s; HeldAt(s'.book, s'.running.Keys, key)
  {
    var e, b, live := step.execution, sys.s.book, sys.s.running.Keys;
    var d := sys.defs[b.executions[e].task];
    var b1 := Concluded(sys.defs, wdefs, sys.s, e, step.outcome, step.order, step.now);
    ConcludeHeld(d, wdefs, b, live, e, step.outcome, step.order, step.now, key);
    ConcludeKeeps(d, wdefs, b, live, e, step.outcome, step.order, step.now);
    ForgetHeld(b1, live - {e}, step.removed, key);
    assert (sys.s.running - {e}).Keys == live - {e};
  }

  lemma AdvanceHeld(b: Book, live: set<Id>, definition: string, k: string, quiet: nat, maximum: nat, now: Time, key: string)
    requires HeldAt(b, live, key)
    ensures HeldAt(Advance(b, definition, k, quiet, maximum, now), live, key)
  {
    var instance := definition + ":" + k;
    if instance in b.workflows {
      CancelHeld(b, live, b.workflows[instance].trigger, now, key);
      SameHeld(CancelTrigger(b, b.workflows[instance].trigger, now), Advance(b, definition, k, quiet, maximum, now), live, key);
    } else {
      SameHeld(b, Advance(b, definition, k, quiet, maximum, now), live, key);
    }
  }

  // -------------------------------------------------------------------- crash

  /** What is held under this key is durable, so its record is persisted. */
  lemma ViewHeld(b: Book, live: set<Id>, key: string)
    requires Bookkeeping(b, live) && HeldAt(b, live, key)
    ensures HeldAt(PersistedView(b), live, key)
  {
    forall t | HeldUnder(b, live, key, t) && t in b.triggers
      ensures t in PersistedView(b).triggers
    {
      HeldIsOpen(b, live, key, t);
    }
    RetainsHeld(b, live, PersistedView(b), live, key);
  }

  lemma RecoverOneHeld(defs: Definitions, b: Book, live: set<Id>, e: Id, now: Time, key: string)
    requires live == LiveSet(b) && HeldAt(b, live, key) && e in b.executions
    ensures HeldAt(RecoverOne(defs, b, e, now), live - {e}, key)
  {
    if e in live {
      var b1 := b.(executions := b.executions[e := b.executions[e].(state := ExInterrupted, finishedAt := now)]);
      LetGoHeld(b, live, b1, e, key);
      if Resumes(defs, b, e) { RequeueHeld(b1, live, e, 0, now, key); }
      else { LetGoHeld(b1, live, Abandon(b1, e, now), e, key); }
    } else {
      assert live - {e} == live;
    }
  }

  lemma {:induction false} RecoverAllHeld(defs: Definitions, b: Book, order: seq<Id>, now: Time, key: string)
    requires HeldAt(b, LiveSet(b), key) && forall e :: e in order ==> e in b.executions
    ensures var r := RecoverAll(defs, b, order, now); HeldAt(r, LiveSet(r), key)
    decreases |order|
  {
    if order != [] {
      RecoverOneLive(defs, b, order[0], now);
      RecoverOneHeld(defs, b, LiveSet(b), order[0], now, key);
      RecoverAllHeld(defs, RecoverOne(defs, b, order[0], now), order[1..], now, key);
    }
  }

  lemma ReloadHeld(defs: Definitions, stored: Book, order: seq<Id>, now: Time, key: string)
    requires HeldAt(stored, LiveSet(stored), key) && forall e :: e in order ==> e in stored.executions
    ensures var r := Reload(defs, stored, order, now); HeldAt(r, LiveSet(r), key)
  {
    var v := RegisterSchedules(defs, stored, now);
    SameHeld(stored, v, LiveSet(stored), key);
    assert LiveSet(v) == LiveSet(stored);
    RecoverAllHeld(defs, v, order, now, key);
  }

  lemma CrashHeld(wdefs: WorkflowDefinitions, sys: System, step: Step, key: string)
    requires Consistent(sys) && step.CrashStep? && Enabled(wdefs, sys, step) && HeldAt(sys.s.book, sys.s.running.Keys, key)
    ensures var s' := Apply(wdefs, sys, step).s; HeldAt(s'.book, s'.running.Keys, key)
  {
    ViewHeld(sys.s.book, sys.s.running.Keys, key);
    SameHeld(PersistedView(sys.s.book), sys.disk, sys.s.running.Keys, key);
    assert LiveSet(sys.disk) == LiveSet(sys.s.book);
    ReloadHeld(step.recovering, sys.disk, step.interrupted, step.now, key);
    var recovered := Reload(step.recovering, sys.disk, step.interrupted, step.now);
    LetGo(recovered, LiveSet(recovered), key);
    SameHeld(recovered, RegisterSchedules(step.registered, recovered, step.now), {}, key);
  }

  lemma LetGo(b: Book, live: set<Id>, key: string)
    requires HeldAt(b, live, key)
    ensures HeldAt(b, {}, key)
  {
    RetainsHeld(b, live, b, {}, key);
  }

  /** No step, and no crash whatever lists it strikes, loses the record of a trigger
      held under a key that only durable requests use. */
  lemma StepHeldAt(wdefs: WorkflowDefinitions, sys: System, step: Step, key: string)
    requires Consistent(sys) && Enabled(wdefs, sys, step) && HeldAt(sys.s.book, sys.s.running.Keys, key)
    requires NotScheduled(sys.defs, key)
    requires step.SubmitStep? && IntentKey(step.req.task, step.req.key) == key ==> step.req.durable
    ensures var s' := Apply(wdefs, sys, step).s; HeldAt(s'.book, s'.running.Keys, key)
  {
    match step {
      case SubmitStep(req, running, now, persisted) => SubmitHeld(sys.defs, sys.s.book, sys.s.running.Keys, running, req, now, key);
      case RoundStep(_, _, _, _) => RoundHeld(wdefs, sys, step, key);
      case StartStep(e) =>
      case FinishStep(_, _, _, _, _) => FinishHeldAt(wdefs, sys, step, key);
      case AdvanceStep(definition, k, quiet, maximum, now, persisted) => AdvanceHeld(sys.s.book, sys.s.running.Keys, definition, k, quiet, maximum, now, key);
      case CrashStep(_, _, _, _) => CrashHeld(wdefs, sys, step, key);
    }
  }
}
