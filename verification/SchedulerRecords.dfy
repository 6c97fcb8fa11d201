/** What a record says about the request behind it never changes, and records of a
    task come into being only when that task is submitted. */
module SchedulerRecords {
  import opened TaskTypes
  import opened SchedulerSpec
  import opened SchedulerRecovery
  import opened SchedulerRound
  import opened SchedulerRuns

  predicate SameRequest(r: Trigger, r': Trigger) { r'.task == r.task && r'.key == r.key }

  predicate SameJob(x: Execution, x': Execution) { x'.task == x.task && x'.key == x.key }

  ghost predicate OldOrNewRecord(b: Book, b': Book, tasks: set<string>, t: Id)
    requires t in b'.triggers
  {
    (t in b.triggers && SameRequest(b.triggers[t], b'.triggers[t])) || (t > b.sequence && b'.triggers[t].task in tasks)
  }

  ghost predicate OldOrNewExecution(b: Book, b': Book, e: Id)
    requires e in b'.executions
  {
    (e in b.executions && SameJob(b.executions[e], b'.executions[e])) || e > b.sequence
  }

  /** Whatever is new in b' has a later number, and new records are of these tasks. */
  ghost predicate Extends(b: Book, b': Book, tasks: set<string>) {
    && b.sequence <= b'.sequence
    && (forall t :: t in b'.triggers ==> OldOrNewRecord(b, b', tasks, t))
    && (forall e :: e in b'.executions ==> OldOrNewExecution(b, b', e))
  }

  lemma ExtendsThrough(a: Book, b: Book, c: Book, tasks: set<string>)
    requires Extends(a, b, tasks) && Extends(b, c, tasks)
    ensures Extends(a, c, tasks)
  {
    forall t | t in c.triggers
      ensures OldOrNewRecord(a, c, tasks, t)
    {
      assert OldOrNewRecord(b, c, tasks, t);
      if t in b.triggers { assert OldOrNewRecord(a, b, tasks, t); }
    }
    forall e | e in c.executions
      ensures OldOrNewExecution(a, c, e)
    {
      assert OldOrNewExecution(b, c, e);
      if e in b.executions { assert OldOrNewExecution(a, b, e); }
    }
  }

  // -------------------------------------------------------------- operations

  lemma SubmitExtends(defs: Definitions, b: Book, running: seq<Id>, req: Request, now: Time, tasks: set<string>)
    requires Submit(defs, b, running, req, now).Ok? && req.task in tasks
    ensures Extends(b, Submit(defs, b, running, req, now).value.0, tasks)
  {
  }

  lemma CancelExtends(b: Book, t: Id, now: Time, tasks: set<string>)
    ensures Extends(b, CancelTrigger(b, t, now), tasks)
  {
  }

  lemma AdvanceExtends(b: Book, definition: string, key: string, quiet: nat, maximum: nat, now: Time, tasks: set<string>)
    ensures Extends(b, Advance(b, definition, key, quiet, maximum, now), tasks)
  {
    var instance := definition + ":" + key;
    if instance in b.workflows { CancelExtends(b, b.workflows[instance].trigger, now, tasks); }
  }

  lemma RequeueExtends(b: Book, e: Id, delay: int, now: Time, tasks: set<string>)
    requires e in b.executions
    ensures Extends(b, Requeue(b, e, delay, now), tasks)
  {
  }

  lemma {:induction false} SatisfyAllExtends(wdefs: WorkflowDefinitions, b: Book, order: seq<string>, x: Execution, now: Time, tasks: set<string>)
    ensures Extends(b, SatisfyAll(wdefs, b, order, x, now), tasks)
    decreases |order|
  {
    if order != [] {
      if order[0] in b.workflows {
        var b1 := SatisfyOne(wdefs, b, order[0], x, now);
        CancelExtends(b, b.workflows[order[0]].trigger, now, tasks);
        SatisfyAllExtends(wdefs, b1, order[1..], x, now, tasks);
        ExtendsThrough(b, b1, SatisfyAll(wdefs, b1, order[1..], x, now), tasks);
      } else {
        SatisfyAllExtends(wdefs, b, order[1..], x, now, tasks);
      }
    }
  }

  lemma ConcludeExtends(d: Definition, wdefs: WorkflowDefinitions, b: Book, e: Id, outcome: Outcome, order: seq<string>, now: Time, tasks: set<string>)
    requires e in b.executions
    ensures Extends(b, Conclude(d, wdefs, b, e, outcome, order, now), tasks)
  {
    var b1 := EndExecution(b, e, outcome, now);
    var x := b1.executions[e];
    assert Extends(b, b1, tasks);
    match outcome {
      case Canceled =>
        if d.recovery.RecoveryRetry? { RequeueExtends(b1, e, d.interruptionDelay, now, tasks); }
      case Errored(retryable) =>
        if retryable && x.attempt < d.retry.maxAttempts { RequeueExtends(b1, e, RetryDelay(d.retry, x.attempt), now, tasks); }
      case Succeeded(_) =>
        var b2 := Settle(b1, e, Fulfilled, now);
        assert Extends(b1, b2, tasks);
        SatisfyAllExtends(wdefs, b2, order, x, now, tasks);
        ExtendsThrough(b1, b2, SatisfyAll(wdefs, b2, order, x, now), tasks);
    }
    ExtendsThrough(b, b1, Conclude(d, wdefs, b, e, outcome, order, now), tasks);
  }

  lemma TickTaskExtends(defs: Definitions, b: Book, running: seq<Id>, task: string, now: Time, tasks: set<string>)
    requires task in defs && (defs[task].interval > 0 ==> task in tasks)
    ensures Extends(b, TickTask(defs, b, running, task, now), tasks)
  {
    var req := PeriodicRequest(task, DueTime(b, task));
    if task in tasks && Submit(defs, b, running, req, now).Ok? { SubmitExtends(defs, b, running, req, now, tasks); }
  }

  /** Workflows and schedules aside, the two are the same. */
  ghost predicate SameTracks(b: Book, b': Book) {
    b'.triggers == b.triggers && b'.executions == b.executions && b'.sequence == b.sequence
  }

  lemma SameTracksExtend(b: Book, b1: Book, b2: Book, tasks: set<string>)
    requires Extends(b, b1, tasks) && SameTracks(b1, b2)
    ensures Extends(b, b2, tasks)
  {
    forall t | t in b2.triggers ensures OldOrNewRecord(b, b2, tasks, t) { assert OldOrNewRecord(b, b1, tasks, t); }
    forall e | e in b2.executions ensures OldOrNewExecution(b, b2, e) { assert OldOrNewExecution(b, b1, e); }
  }

  lemma TickWorkflowSubmits(defs: Definitions, wdefs: WorkflowDefinitions, b: Book, running: seq<Id>, instance: string, now: Time)
    requires instance in b.workflows
    ensures var b', w := TickWorkflow(defs, wdefs, b, running, instance, now), b.workflows[instance];
      || SameTracks(b, b')
      || (w.definition in wdefs && w.step < |wdefs[w.definition]|
          && var r := Submit(defs, b, running, StepRequest(wdefs[w.definition][w.step], instance, w, now), now);
          r.Ok? && SameTracks(r.value.0, b'))
  {
  }

  lemma TickWorkflowExtends(defs: Definitions, wdefs: WorkflowDefinitions, b: Book, running: seq<Id>, instance: string, now: Time, tasks: set<string>)
    requires instance in b.workflows && forall d, n :: d in wdefs && 0 <= n < |wdefs[d]| && wdefs[d][n] in defs ==> wdefs[d][n] in tasks
    ensures Extends(b, TickWorkflow(defs, wdefs, b, running, instance, now), tasks)
  {
    var b', w := TickWorkflow(defs, wdefs, b, running, instance, now), b.workflows[instance];
    TickWorkflowSubmits(defs, wdefs, b, running, instance, now);
    if SameTracks(b, b') {
      SameTracksExtend(b, b, b', tasks);
    } else {
      var req := StepRequest(wdefs[w.definition][w.step], instance, w, now);
      SubmitExtends(defs, b, running, req, now, tasks);
      SameTracksExtend(b, Submit(defs, b, running, req, now).value.0, b', tasks);
    }
  }

  lemma {:induction false} TickTasksExtends(defs: Definitions, b: Book, visits: seq<Visit>, now: Time, tasks: set<string>)
    requires forall v :: v in visits ==> v.subject in defs && (defs[v.subject].interval > 0 ==> v.subject in tasks)
    ensures Extends(b, TickTasks(defs, b, visits, now), tasks)
    decreases |visits|
  {
    if visits != [] {
      var v := visits[0];
      assert v in visits;
      var b1 := TickTask(defs, b, v.running, v.subject, now);
      TickTaskExtends(defs, b, v.running, v.subject, now, tasks);
      TickTasksExtends(defs, b1, visits[1..], now, tasks);
      ExtendsThrough(b, b1, TickTasks(defs, b1, visits[1..], now), tasks);
    }
  }

  lemma {:induction false} TickWorkflowsExtends(defs: Definitions, wdefs: WorkflowDefinitions, b: Book, visits: seq<Visit>, now: Time, tasks: set<string>)
    requires forall v :: v in visits ==> v.subject in b.workflows
    requires forall d, n :: d in wdefs && 0 <= n < |wdefs[d]| && wdefs[d][n] in defs ==> wdefs[d][n] in tasks
    ensures Extends(b, TickWorkflows(defs, wdefs, b, visits, now), tasks)
    decreases |visits|
  {
    if visits != [] {
      var v := visits[0];
      var b1 := TickWorkflow(defs, wdefs, b, v.running, v.subject, now);
      TickWorkflowExtends(defs, wdefs, b, v.running, v.subject, now, tasks);
      TickWorkflowsExtends(defs, wdefs, b1, visits[1..], now, tasks);
      ExtendsThrough(b, b1, TickWorkflows(defs, wdefs, b1, visits[1..], now), tasks);
    }
  }

  lemma ScanExtends(defs: Definitions, b: Book, blocked: set<string>, now: Time, tasks: set<string>)
    ensures Extends(b, MarkWaiting(DropUnregistered(defs, b, now), blocked), tasks)
  {
  }

  lemma AdmitExtends(b: Book, key: string, now: Time, tasks: set<string>)
    requires key in b.pending
    ensures Extends(b, Admit(b, key, now), tasks)
  {
  }

  lemma {:induction false} AdmitManyExtends(defs: Definitions, s: Scheduler, keys: seq<string>, now: Time, tasks: set<string>)
    requires InOrder(defs, s, keys, now)
    ensures Extends(s.book, AdmitMany(defs, s, keys, now).book, tasks)
    decreases |keys|
  {
    if keys != [] {
      var s1 := ScanTo(defs, s, keys[0], now);
      var s2 := AdmitChosen(defs, s, keys[0], now);
      var blocked := set k | k in s.book.pending && Obstructed(defs, s, k, now) && Precedes(s.book.pending[k], s.book.pending[keys[0]], now);
      ScanExtends(defs, s.book, blocked, now, tasks);
      AdmitExtends(s1.book, keys[0], now, tasks);
      ExtendsThrough(s.book, s1.book, s2.book, tasks);
      AdmitManyExtends(defs, s2, keys[1..], now, tasks);
      ExtendsThrough(s.book, s2.book, AdmitMany(defs, s2, keys[1..], now).book, tasks);
    }
  }

  lemma PreemptExtends(defs: Definitions, b: Book, running: map<Id, seq<Claim>>, tasks: set<string>)
    ensures Extends(b, Preempt(defs, b, running), tasks)
  {
  }

  lemma {:induction false} RecoverAllExtends(defs: Definitions, b: Book, order: seq<Id>, now: Time, tasks: set<string>)
    requires forall e :: e in order ==> e in b.executions
    ensures Extends(b, RecoverAll(defs, b, order, now), tasks)
    decreases |order|
  {
    if order != [] {
      var b1 := RecoverOne(defs, b, order[0], now);
      RecoverOneExtends(defs, b, order[0], now, tasks);
      RecoverAllExtends(defs, b1, order[1..], now, tasks);
      ExtendsThrough(b, b1, RecoverAll(defs, b1, order[1..], now), tasks);
    }
  }

  lemma RecoverOneExtends(defs: Definitions, b: Book, e: Id, now: Time, tasks: set<string>)
    requires e in b.executions
    ensures Extends(b, RecoverOne(defs, b, e, now), tasks)
  {
    var b1 := b.(executions := b.executions[e := b.executions[e].(state := ExInterrupted, finishedAt := now)]);
    assert Extends(b, b1, tasks);
    if Unfinished(b.executions[e].state) && Resumes(defs, b, e) {
      RequeueExtends(b1, e, 0, now, tasks);
      ExtendsThrough(b, b1, Requeue(b1, e, 0, now), tasks);
    }
  }

  // -------------------------------------------------------------------- steps

  /** No schedule and no workflow submits a task outside of these. */
  ghost predicate SelfSubmits(defs: Definitions, wdefs: WorkflowDefinitions, tasks: set<string>) {
    && (forall d :: d in defs && defs[d].interval > 0 ==> d in tasks)
    && (forall d, n :: d in wdefs && 0 <= n < |wdefs[d]| && wdefs[d][n] in defs ==> wdefs[d][n] in tasks)
  }

  lemma PreparedExtends(defs: Definitions, wdefs: WorkflowDefinitions, s: Scheduler, tasks: seq<Visit>, workflows: seq<Visit>, now: Time, made: set<string>)
    requires ValidVisits(defs, s, tasks, workflows) && SelfSubmits(defs, wdefs, made)
    ensures Extends(s.book, Prepared(defs, wdefs, s, tasks, workflows, now).book, made)
  {
    TickTasksKeepsWorkflows(defs, s.book, tasks, now);
    var b1 := TickTasks(defs, s.book, tasks, now);
    var b2 := TickWorkflows(defs, wdefs, b1, workflows, now);
    TickTasksExtends(defs, s.book, tasks, now, made);
    TickWorkflowsExtends(defs, wdefs, b1, workflows, now, made);
    ExtendsThrough(s.book, b1, b2, made);
    PreemptExtends(defs, b2, s.running, made);
    ExtendsThrough(s.book, b2, Preempt(defs, b2, s.running), made);
  }

  lemma AdmissionExtends(defs: Definitions, s: Scheduler, keys: seq<string>, now: Time, tasks: set<string>)
    requires InOrder(defs, s, keys, now)
    ensures Extends(s.book, ScanNone(defs, AdmitMany(defs, s, keys, now), now).book, tasks)
  {
    var last := AdmitMany(defs, s, keys, now);
    AdmitManyExtends(defs, s, keys, now, tasks);
    var blocked := set k | k in last.book.pending && Obstructed(defs, last, k, now);
    ScanExtends(defs, last.book, blocked, now, tasks);
    ExtendsThrough(s.book, last.book, ScanNone(defs, last, now).book, tasks);
  }

  lemma RoundExtends(wdefs: WorkflowDefinitions, sys: System, step: Step, tasks: set<string>)
    requires step.RoundStep? && Enabled(wdefs, sys, step) && SelfSubmits(sys.defs, wdefs, tasks)
    ensures Extends(sys.s.book, Apply(wdefs, sys, step).s.book, tasks)
  {
    var p := Prepared(sys.defs, wdefs, sys.s, step.tasks, step.workflows, step.now);
    PreparedExtends(sys.defs, wdefs, sys.s, step.tasks, step.workflows, step.now, tasks);
    AdmissionExtends(sys.defs, p, step.keys, step.now, tasks);
    ExtendsThrough(sys.s.book, p.book, Apply(wdefs, sys, step).s.book, tasks);
  }

  lemma FinishExtends(wdefs: WorkflowDefinitions, sys: System, step: Step, tasks: set<string>)
    requires step.FinishStep? && Enabled(wdefs, sys, step)
    ensures Extends(sys.s.book, Apply(wdefs, sys, step).s.book, tasks)
  {
    var b := sys.s.book;
    var b1 := Concluded(sys.defs, wdefs, sys.s, step.execution, step.outcome, step.order, step.now);
    ConcludeExtends(sys.defs[b.executions[step.execution].task], wdefs, b, step.execution, step.outcome, step.order, step.now, tasks);
    assert Extends(b1, Forget(b1, step.removed), tasks);
    ExtendsThrough(b, b1, Forget(b1, step.removed), tasks);
  }

  lemma ReloadExtends(defs: Definitions, stored: Book, order: seq<Id>, now: Time, tasks: set<string>)
    requires forall e :: e in order ==> e in stored.executions
    ensures Extends(stored, Reload(defs, stored, order, now), tasks)
  {
    var v := RegisterSchedules(defs, stored, now);
    assert Extends(stored, v, tasks);
    RecoverAllExtends(defs, v, order, now, tasks);
    ExtendsThrough(stored, v, RecoverAll(defs, v, order, now), tasks);
  }

  lemma RestartExtends(b: Book, stored: Book, recovering: Definitions, registered: Definitions, order: seq<Id>, now: Time, tasks: set<string>)
    requires Extends(b, stored, tasks) && forall e :: e in order ==> e in stored.executions
    ensures Extends(b, RegisterSchedules(registered, Reload(recovering, stored, order, now), now), tasks)
  {
    var recovered := Reload(recovering, stored, order, now);
    ReloadExtends(recovering, stored, order, now, tasks);
    ExtendsThrough(b, stored, recovered, tasks);
    assert Extends(recovered, RegisterSchedules(registered, recovered, now), tasks);
    ExtendsThrough(b, recovered, RegisterSchedules(registered, recovered, now), tasks);
  }

  lemma CrashExtends(wdefs: WorkflowDefinitions, sys: System, step: Step, tasks: set<string>)
    requires step.CrashStep? && Enabled(wdefs, sys, step) && Consistent(sys)
    ensures Extends(sys.s.book, Apply(wdefs, sys, step).s.book, tasks)
  {
    assert Extends(sys.s.book, sys.disk, tasks);
    RestartExtends(sys.s.book, sys.disk, step.recovering, step.registered, step.interrupted, step.now, tasks);
  }

  /** No step changes what a record asks for, and none makes records of a task
      that is neither submitted, nor scheduled, nor a workflow step. */
  lemma StepExtends(wdefs: WorkflowDefinitions, sys: System, step: Step, tasks: set<string>)
    requires Consistent(sys) && Enabled(wdefs, sys, step) && SelfSubmits(sys.defs, wdefs, tasks)
    requires step.SubmitStep? ==> step.req.task in tasks
    ensures Extends(sys.s.book, Apply(wdefs, sys, step).s.book, tasks)
  {
    match step {
      case SubmitStep(req, running, now, persisted) => SubmitExtends(sys.defs, sys.s.book, running, req, now, tasks);
      case RoundStep(_, _, _, _) => RoundExtends(wdefs, sys, step, tasks);
      case StartStep(e) =>
      case FinishStep(_, _, _, _, _) => FinishExtends(wdefs, sys, step, tasks);
      case AdvanceStep(definition, key, quiet, maximum, now, persisted) => AdvanceExtends(sys.s.book, definition, key, quiet, maximum, now, tasks);
      case CrashStep(_, _, _, _) => CrashExtends(wdefs, sys, step, tasks);
    }
  }
}
