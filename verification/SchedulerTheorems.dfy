/** What holds over whole runs of the scheduler, crashes and restarts included. */
module SchedulerTheorems {
  import opened TaskTypes
  import opened SchedulerSpec
  import opened SchedulerInvariants
  import opened SchedulerRecovery
  import opened SchedulerRound
  import opened SchedulerTiming
  import opened SchedulerHistory
  import opened WorkflowChains
  import opened SchedulerRuns

  // ------------------------------------------------------ following a trigger

  /** Interrupted or failed work of this task is never queued again. */
  predicate NeverRequeues(defs: Definitions, task: string) {
    task in defs ==> defs[task].recovery.RecoveryAttention? && defs[task].retry.maxAttempts <= 1
  }

  predicate StepNeverRequeues(sys: System, step: Step, task: string) {
    NeverRequeues(sys.defs, task) && (step.CrashStep? ==> NeverRequeues(step.recovering, task))
  }

  ghost predicate TrackedIn(sys: System, t: Id, c: Carry, once: bool) {
    Tracked(sys.s.book, sys.s.running.Keys, t, c, once)
  }

  lemma FinishTracked(wdefs: WorkflowDefinitions, sys: System, step: Step, t: Id, c: Carry, once: bool)
    requires Consistent(sys) && step.FinishStep? && Enabled(wdefs, sys, step) && TrackedIn(sys, t, c, once)
    requires once ==> NeverRequeues(sys.defs, c.task)
    ensures TrackedIn(Apply(wdefs, sys, step), t, c, once)
  {
    var e := step.execution;
    ConcludedTracked(wdefs, sys, step, t, c, once);
    var b1 := Concluded(sys.defs, wdefs, sys.s, e, step.outcome, step.order, step.now);
    ShrinkTracked(b1, Forget(b1, step.removed), sys.s.running.Keys - {e}, sys.s.running.Keys - {e}, t, c, once);
    assert (sys.s.running - {e}).Keys == sys.s.running.Keys - {e};
  }

  lemma ConcludedTracked(wdefs: WorkflowDefinitions, sys: System, step: Step, t: Id, c: Carry, once: bool)
    requires Consistent(sys) && step.FinishStep? && Enabled(wdefs, sys, step) && TrackedIn(sys, t, c, once)
    requires once ==> NeverRequeues(sys.defs, c.task)
    ensures Tracked(Concluded(sys.defs, wdefs, sys.s, step.execution, step.outcome, step.order, step.now), sys.s.running.Keys - {step.execution}, t, c, once)
  {
    var e, b := step.execution, sys.s.book;
    assert b.executions[e].attempt >= 1;
    ConcludeTracked(sys.defs[b.executions[e].task], wdefs, b, sys.s.running.Keys, e, step.outcome, step.order, step.now, t, c, once);
  }

  lemma RestartTracked(sys: System, recovering: Definitions, registered: Definitions, order: seq<Id>, now: Time,
                       t: Id, c: Carry, once: bool)
    requires OnDisk(sys) && Enumerates(order, sys.disk.executions.Keys) && TrackedIn(sys, t, c, once)
    requires sys.s.running.Keys == LiveSet(sys.s.book)
    requires once ==> NeverRequeues(recovering, c.task)
    ensures Tracked(RegisterSchedules(registered, Reload(recovering, sys.disk, order, now), now), {}, t, c, once)
  {
    var b := sys.s.book.(periodicNext := sys.disk.periodicNext);
    ReloadIsRestart(sys, recovering, order, now);
    SameLists(sys.s.book, b, sys.s.running.Keys, t, c, once);
    ReloadTracked(recovering, b, order, now, t, c, once);
    var recovered := Restart(recovering, b, order, now);
    ShrinkTracked(recovered, RegisterSchedules(registered, recovered, now), LiveSet(recovered), {}, t, c, once);
  }

  lemma SameLists(b: Book, b': Book, live: set<Id>, t: Id, c: Carry, once: bool)
    requires Tracked(b, live, t, c, once) && live == LiveSet(b) && b' == b.(periodicNext := b'.periodicNext)
    ensures LiveSet(b') == live && Tracked(b', live, t, c, once)
  {
    ShrinkTracked(b, b', live, live, t, c, once);
  }

  lemma CrashTracked(wdefs: WorkflowDefinitions, sys: System, step: Step, t: Id, c: Carry, once: bool)
    requires Consistent(sys) && step.CrashStep? && Enabled(wdefs, sys, step) && TrackedIn(sys, t, c, once)
    requires once ==> NeverRequeues(step.recovering, c.task)
    ensures TrackedIn(Apply(wdefs, sys, step), t, c, once)
  {
    RestartTracked(sys, step.recovering, step.registered, step.interrupted, step.now, t, c, once);
    assert Apply(wdefs, sys, step).s.running.Keys == {};
  }

  lemma RoundStepTracked(wdefs: WorkflowDefinitions, sys: System, step: Step, t: Id, c: Carry, once: bool)
    requires step.RoundStep? && Enabled(wdefs, sys, step) && TrackedIn(sys, t, c, once)
    ensures TrackedIn(Apply(wdefs, sys, step), t, c, once)
  {
    var p := Prepared(sys.defs, wdefs, sys.s, step.tasks, step.workflows, step.now);
    var s' := ScanNone(sys.defs, AdmitMany(sys.defs, p, step.keys, step.now), step.now);
    RoundTracked(sys.defs, wdefs, sys.s, step.tasks, step.workflows, step.keys, step.now, s', t, c, once);
  }

  lemma AdvanceStepTracked(wdefs: WorkflowDefinitions, sys: System, step: Step, t: Id, c: Carry, once: bool)
    requires step.AdvanceStep? && Enabled(wdefs, sys, step) && TrackedIn(sys, t, c, once)
    ensures TrackedIn(Apply(wdefs, sys, step), t, c, once)
  {
    var b, instance := sys.s.book, step.definition + ":" + step.key;
    if instance in b.workflows { CancelTracked(b, sys.s.running.Keys, b.workflows[instance].trigger, step.now, t, c, once); }
  }

  /** Whatever happens next, a trigger once carried turns up again only for a
      later attempt, and not at all if its task is never queued again. */
  lemma StepTracked(wdefs: WorkflowDefinitions, sys: System, step: Step, t: Id, c: Carry, once: bool)
    requires Consistent(sys) && Enabled(wdefs, sys, step) && TrackedIn(sys, t, c, once)
    requires once ==> StepNeverRequeues(sys, step, c.task)
    ensures TrackedIn(Apply(wdefs, sys, step), t, c, once)
  {
    var b, live := sys.s.book, sys.s.running.Keys;
    match step {
      case SubmitStep(req, running, now, persisted) => SubmitTracked(sys.defs, b, live, running, req, now, t, c, once);
      case RoundStep(_, _, _, _) => RoundStepTracked(wdefs, sys, step, t, c, once);
      case StartStep(e) =>
      case FinishStep(e, outcome, order, removed, now) => FinishTracked(wdefs, sys, step, t, c, once);
      case AdvanceStep(_, _, _, _, _, _) => AdvanceStepTracked(wdefs, sys, step, t, c, once);
      case CrashStep(recovering, registered, interrupted, now) => CrashTracked(wdefs, sys, step, t, c, once);
    }
  }

  // ------------------------------------------------------- logs of executions

  /** Of two entries that share a trigger the later one has the higher attempt. */
  ghost predicate Rising(log: seq<Carry>) {
    forall i, j, t :: 0 <= i < j < |log| && t in log[i].triggers && t in log[j].triggers ==> log[i].attempt < log[j].attempt
  }

  /** A live execution that is not in the log yet may be appended. */
  lemma AppendEntry(b: Book, live: set<Id>, log: seq<Carry>, e: Id)
    requires Bookkeeping(b, live) && e in live && Rising(log)
    requires forall i, t :: 0 <= i < |log| && t in log[i].triggers ==> Tracked(b, live, t, log[i], false)
    requires forall i :: 0 <= i < |log| ==> log[i].execution != e
    ensures var log' := log + [CarryOf(b, e)];
      Rising(log') && forall i, t :: 0 <= i < |log'| && t in log'[i].triggers ==> Tracked(b, live, t, log'[i], false)
  {
    var c := CarryOf(b, e);
    var log' := log + [c];
    forall i, t | 0 <= i < |log| && t in log[i].triggers && t in c.triggers
      ensures log[i].attempt < c.attempt
    {
      assert Tracked(b, live, t, log[i], false);
      assert TrackedExecution(e, b.executions[e], t, log[i], false);
    }
    forall i, t | 0 <= i < |log'| && t in log'[i].triggers
      ensures Tracked(b, live, t, log'[i], false)
    {
      if i == |log| { CarryIsTracked(b, live, e, t, false); }
    }
  }

  // -------------------------------------------------------- numbers only grow

  /** Executions that appear after a step got their number in that step. */
  ghost predicate NumbersGrow(s: Scheduler, s': Scheduler) {
    && s.book.sequence <= s'.book.sequence
    && forall e :: e in s'.running ==> e in s.running || e > s.book.sequence
  }

  lemma {:induction false} TickTasksGrow(defs: Definitions, b: Book, visits: seq<Visit>, now: Time)
    requires forall v :: v in visits ==> v.subject in defs
    ensures b.sequence <= TickTasks(defs, b, visits, now).sequence
    decreases |visits|
  {
    if visits != [] { TickTasksGrow(defs, TickTask(defs, b, visits[0].running, visits[0].subject, now), visits[1..], now); }
  }

  lemma {:induction false} TickWorkflowsGrow(defs: Definitions, wdefs: WorkflowDefinitions, b: Book, visits: seq<Visit>, now: Time)
    requires forall v :: v in visits ==> v.subject in b.workflows
    ensures b.sequence <= TickWorkflows(defs, wdefs, b, visits, now).sequence
    decreases |visits|
  {
    if visits != [] {
      TickWorkflowsGrow(defs, wdefs, TickWorkflow(defs, wdefs, b, visits[0].running, visits[0].subject, now), visits[1..], now);
    }
  }

  lemma {:induction false} AdmitManyNumbers(defs: Definitions, s: Scheduler, keys: seq<string>, now: Time)
    requires InOrder(defs, s, keys, now)
    ensures NumbersGrow(s, AdmitMany(defs, s, keys, now))
    decreases |keys|
  {
    if keys != [] { AdmitManyNumbers(defs, AdmitChosen(defs, s, keys[0], now), keys[1..], now); }
  }

  lemma {:induction false} SatisfyAllSequence(wdefs: WorkflowDefinitions, b: Book, order: seq<string>, x: Execution, now: Time)
    ensures SatisfyAll(wdefs, b, order, x, now).sequence == b.sequence
    decreases |order|
  {
    if order != [] {
      if order[0] in b.workflows { SatisfyAllSequence(wdefs, SatisfyOne(wdefs, b, order[0], x, now), order[1..], x, now); }
      else { SatisfyAllSequence(wdefs, b, order[1..], x, now); }
    }
  }

  lemma {:induction false} RecoverAllSequence(defs: Definitions, b: Book, order: seq<Id>, now: Time)
    requires forall e :: e in order ==> e in b.executions
    ensures b.sequence <= RecoverAll(defs, b, order, now).sequence
    decreases |order|
  {
    if order != [] { RecoverAllSequence(defs, RecoverOne(defs, b, order[0], now), order[1..], now); }
  }

  lemma PreparedGrow(defs: Definitions, wdefs: WorkflowDefinitions, s: Scheduler, tasks: seq<Visit>, workflows: seq<Visit>, now: Time)
    requires ValidVisits(defs, s, tasks, workflows)
    ensures var p := Prepared(defs, wdefs, s, tasks, workflows, now);
      p.running == s.running && s.book.sequence <= p.book.sequence
  {
    TickTasksKeepsWorkflows(defs, s.book, tasks, now);
    TickTasksGrow(defs, s.book, tasks, now);
    TickWorkflowsGrow(defs, wdefs, TickTasks(defs, s.book, tasks, now), workflows, now);
  }

  lemma ConcludeGrow(d: Definition, wdefs: WorkflowDefinitions, b: Book, e: Id, outcome: Outcome, order: seq<string>, now: Time)
    requires e in b.executions
    ensures b.sequence <= Conclude(d, wdefs, b, e, outcome, order, now).sequence
  {
    var b1 := EndExecution(b, e, outcome, now);
    if outcome.Succeeded? { SatisfyAllSequence(wdefs, Settle(b1, e, Fulfilled, now), order, b1.executions[e], now); }
  }

  lemma RoundNumbers(wdefs: WorkflowDefinitions, sys: System, step: Step)
    requires Consistent(sys) && step.RoundStep? && Enabled(wdefs, sys, step)
    ensures NumbersGrow(sys.s, Apply(wdefs, sys, step).s)
    ensures forall e :: e in Apply(wdefs, sys, step).spawned ==> e in sys.spawned || e > sys.s.book.sequence
  {
    PreparedGrow(sys.defs, wdefs, sys.s, step.tasks, step.workflows, step.now);
    AdmitManyNumbers(sys.defs, Prepared(sys.defs, wdefs, sys.s, step.tasks, step.workflows, step.now), step.keys, step.now);
  }

  lemma FinishNumbers(wdefs: WorkflowDefinitions, sys: System, step: Step)
    requires step.FinishStep? && Enabled(wdefs, sys, step)
    ensures NumbersGrow(sys.s, Apply(wdefs, sys, step).s)
  {
    ConcludeGrow(sys.defs[sys.s.book.executions[step.execution].task], wdefs, sys.s.book, step.execution, step.outcome, step.order, step.now);
  }

  lemma CrashNumbers(wdefs: WorkflowDefinitions, sys: System, step: Step)
    requires Consistent(sys) && step.CrashStep? && Enabled(wdefs, sys, step)
    ensures NumbersGrow(sys.s, Apply(wdefs, sys, step).s)
  {
    RecoverAllSequence(step.recovering, RegisterSchedules(step.recovering, sys.disk, step.now), step.interrupted, step.now);
  }

  lemma OtherNumbers(wdefs: WorkflowDefinitions, sys: System, step: Step)
    requires Enabled(wdefs, sys, step) && (step.SubmitStep? || step.StartStep? || step.AdvanceStep?)
    ensures NumbersGrow(sys.s, Apply(wdefs, sys, step).s)
  {
  }

  lemma StepNumbers(wdefs: WorkflowDefinitions, sys: System, step: Step)
    requires Consistent(sys) && Enabled(wdefs, sys, step)
    ensures NumbersGrow(sys.s, Apply(wdefs, sys, step).s)
  {
    match step {
      case SubmitStep(_, _, _, _) => OtherNumbers(wdefs, sys, step);
      case RoundStep(_, _, _, _) => RoundNumbers(wdefs, sys, step);
      case StartStep(_) => OtherNumbers(wdefs, sys, step);
      case FinishStep(_, _, _, _, _) => FinishNumbers(wdefs, sys, step);
      case AdvanceStep(_, _, _, _, _, _) => OtherNumbers(wdefs, sys, step);
      case CrashStep(_, _, _, _) => CrashNumbers(wdefs, sys, step);
    }
  }

  lemma StepSpawns(wdefs: WorkflowDefinitions, sys: System, step: Step)
    requires Consistent(sys) && Enabled(wdefs, sys, step)
    ensures forall e :: e in Apply(wdefs, sys, step).spawned ==> e in sys.spawned || e > sys.s.book.sequence
  {
    if step.RoundStep? { RoundNumbers(wdefs, sys, step); }
  }

  // --------------------------------------------------------------- admissions

  ghost predicate LogHolds(s: Scheduler, log: seq<Carry>) {
    && (forall i, t :: 0 <= i < |log| && t in log[i].triggers ==> Tracked(s.book, s.running.Keys, t, log[i], false))
    && Rising(log)
    && (forall i :: 0 <= i < |log| ==> log[i].execution <= s.book.sequence)
  }

  lemma AdmitChosenLog(defs: Definitions, s: Scheduler, key: string, now: Time, log: seq<Carry>)
    requires Sound(defs, s) && Chosen(defs, s, key, now) && LogHolds(s, log)
    ensures var s' := AdmitChosen(defs, s, key, now);
      s'.book.sequence in s'.book.executions && LogHolds(s', log + [CarryOf(s'.book, s'.book.sequence)])
  {
    var s' := AdmitChosen(defs, s, key, now);
    AdmitChosenKeeps(defs, s, key, now);
    forall i, t | 0 <= i < |log| && t in log[i].triggers
      ensures Tracked(s'.book, s'.running.Keys, t, log[i], false)
    {
      AdmitChosenTracked(defs, s, key, now, t, log[i], false);
    }
    AppendEntry(s'.book, s'.running.Keys, log, s'.book.sequence);
  }

  lemma AdmittedUnfold(defs: Definitions, s: Scheduler, keys: seq<string>, now: Time, log: seq<Carry>)
    requires InOrder(defs, s, keys, now) && keys != []
    ensures var s' := AdmitChosen(defs, s, keys[0], now);
      && AdmitMany(defs, s, keys, now) == AdmitMany(defs, s', keys[1..], now)
      && log + Admitted(defs, s, keys, now)
         == log + [CarryOf(s'.book, s'.book.sequence)] + Admitted(defs, s', keys[1..], now)
  {
  }

  lemma {:induction false} AdmitManyLog(defs: Definitions, s: Scheduler, keys: seq<string>, now: Time, log: seq<Carry>)
    requires Sound(defs, s) && InOrder(defs, s, keys, now) && LogHolds(s, log)
    ensures LogHolds(AdmitMany(defs, s, keys, now), log + Admitted(defs, s, keys, now))
    decreases |keys|
  {
    if keys == [] {
      assert log + [] == log;
    } else {
      var s' := AdmitChosen(defs, s, keys[0], now);
      var c := CarryOf(s'.book, s'.book.sequence);
      AdmitChosenLog(defs, s, keys[0], now, log);
      AdmitChosenKeeps(defs, s, keys[0], now);
      AdmitManyLog(defs, s', keys[1..], now, log + [c]);
      AdmittedUnfold(defs, s, keys, now, log);
    }
  }

  lemma PreparedLog(defs: Definitions, wdefs: WorkflowDefinitions, s: Scheduler, tasks: seq<Visit>, workflows: seq<Visit>,
                    now: Time, log: seq<Carry>)
    requires ValidVisits(defs, s, tasks, workflows) && LogHolds(s, log)
    ensures LogHolds(Prepared(defs, wdefs, s, tasks, workflows, now), log)
  {
    var p := Prepared(defs, wdefs, s, tasks, workflows, now);
    PreparedGrow(defs, wdefs, s, tasks, workflows, now);
    forall i, t | 0 <= i < |log| && t in log[i].triggers
      ensures Tracked(p.book, p.running.Keys, t, log[i], false)
    {
      PreparedTracked(defs, wdefs, s, tasks, workflows, now, t, log[i], false);
    }
  }

  lemma ScanLog(defs: Definitions, s: Scheduler, now: Time, log: seq<Carry>)
    requires LogHolds(s, log)
    ensures LogHolds(ScanNone(defs, s, now), log)
  {
    var s' := ScanNone(defs, s, now);
    forall i, t | 0 <= i < |log| && t in log[i].triggers
      ensures Tracked(s'.book, s'.running.Keys, t, log[i], false)
    {
      ShrinkTracked(s.book, s'.book, s.running.Keys, s'.running.Keys, t, log[i], false);
    }
  }

  lemma StepAdmissions(wdefs: WorkflowDefinitions, sys: System, step: Step)
    requires Consistent(sys) && Enabled(wdefs, sys, step) && LogHolds(sys.s, sys.admissions)
    ensures LogHolds(Apply(wdefs, sys, step).s, Apply(wdefs, sys, step).admissions)
  {
    if step.RoundStep? {
      var p := Prepared(sys.defs, wdefs, sys.s, step.tasks, step.workflows, step.now);
      PreparedLog(sys.defs, wdefs, sys.s, step.tasks, step.workflows, step.now, sys.admissions);
      PreparedKeeps(sys.defs, wdefs, sys.s, step.tasks, step.workflows, step.now);
      AdmitManyLog(sys.defs, p, step.keys, step.now, sys.admissions);
      ScanLog(sys.defs, AdmitMany(sys.defs, p, step.keys, step.now), step.now,
              sys.admissions + Admitted(sys.defs, p, step.keys, step.now));
    } else {
      StepLog(wdefs, sys, step, sys.admissions);
    }
  }

  lemma StepLog(wdefs: WorkflowDefinitions, sys: System, step: Step, log: seq<Carry>)
    requires Consistent(sys) && Enabled(wdefs, sys, step) && LogHolds(sys.s, log)
    ensures LogHolds(Apply(wdefs, sys, step).s, log)
  {
    StepNumbers(wdefs, sys, step);
    forall i, t | 0 <= i < |log| && t in log[i].triggers
      ensures TrackedIn(Apply(wdefs, sys, step), t, log[i], false)
    {
      assert TrackedIn(sys, t, log[i], false);
      StepTracked(wdefs, sys, step, t, log[i], false);
    }
  }

  // ------------------------------------------------------------ runner starts

  ghost predicate NoneIn(log: seq<Carry>, executions: set<Id>) {
    forall i :: 0 <= i < |log| ==> log[i].execution !in executions
  }

  lemma StepStarts(wdefs: WorkflowDefinitions, sys: System, step: Step)
    requires Consistent(sys) && Enabled(wdefs, sys, step) && LogHolds(sys.s, sys.starts) && NoneIn(sys.starts, sys.spawned)
    ensures var sys' := Apply(wdefs, sys, step); LogHolds(sys'.s, sys'.starts) && NoneIn(sys'.starts, sys'.spawned)
  {
    StepLog(wdefs, sys, step, sys.starts);
    StepSpawns(wdefs, sys, step);
    if step.StartStep? {
      AppendEntry(sys.s.book, sys.s.running.Keys, sys.starts, step.execution);
    }
  }

  /** No trigger of this task has had its runner started twice. */
  ghost predicate StartedOnce(log: seq<Carry>, task: string) {
    forall i, j :: 0 <= i < j < |log| && log[i].task == task && log[j].task == task ==> log[i].triggers !! log[j].triggers
  }

  ghost predicate Spent(sys: System, log: seq<Carry>, task: string) {
    forall i, t :: 0 <= i < |log| && log[i].task == task && t in log[i].triggers ==> TrackedIn(sys, t, log[i], true)
  }

  lemma StepSpent(wdefs: WorkflowDefinitions, sys: System, step: Step, task: string)
    requires Consistent(sys) && Enabled(wdefs, sys, step) && StepNeverRequeues(sys, step, task)
    requires NoneIn(sys.starts, sys.spawned) && Spent(sys, sys.starts, task) && StartedOnce(sys.starts, task)
    ensures var sys' := Apply(wdefs, sys, step); Spent(sys', sys'.starts, task) && StartedOnce(sys'.starts, task)
  {
    var sys' := Apply(wdefs, sys, step);
    forall i, t | 0 <= i < |sys.starts| && sys.starts[i].task == task && t in sys.starts[i].triggers
      ensures TrackedIn(sys', t, sys.starts[i], true)
    {
      assert TrackedIn(sys, t, sys.starts[i], true);
      StepTracked(wdefs, sys, step, t, sys.starts[i], true);
    }
    if step.StartStep? {
      var e, c := step.execution, CarryOf(sys.s.book, step.execution);
      forall t | t in c.triggers
        ensures TrackedIn(sys, t, c, true)
      {
        CarryIsTracked(sys.s.book, sys.s.running.Keys, e, t, true);
      }
      forall i | 0 <= i < |sys.starts| && sys.starts[i].task == task
        ensures sys.starts[i].triggers !! c.triggers
      {
        forall t | t in sys.starts[i].triggers
          ensures t !in c.triggers
        {
          assert TrackedIn(sys, t, sys.starts[i], true);
          assert TrackedExecution(e, sys.s.book.executions[e], t, sys.starts[i], true);
        }
      }
    }
  }

  // ------------------------------------------------------------------ retries

  /** Every retry of this task left attempts to spare. */
  ghost predicate WithinBudget(log: seq<Carry>, task: string, most: nat) {
    forall i :: 0 <= i < |log| && log[i].task == task ==> 1 <= log[i].attempt < most
  }

  predicate AttemptsAtMost(defs: Definitions, task: string, most: nat) {
    task in defs ==> defs[task].retry.maxAttempts <= most
  }

  lemma FinishRetries(wdefs: WorkflowDefinitions, sys: System, step: Step)
    requires Consistent(sys) && step.FinishStep? && Enabled(wdefs, sys, step)
    requires LogHolds(sys.s, sys.retries) && NoneIn(sys.retries, sys.s.running.Keys)
    ensures LogHolds(Apply(wdefs, sys, step).s, sys.retries + [CarryOf(sys.s.book, step.execution)])
  {
    AppendEntry(sys.s.book, sys.s.running.Keys, sys.retries, step.execution);
    StepLog(wdefs, sys, step, sys.retries + [CarryOf(sys.s.book, step.execution)]);
  }

  lemma StepRetries(wdefs: WorkflowDefinitions, sys: System, step: Step)
    requires Consistent(sys) && Enabled(wdefs, sys, step) && LogHolds(sys.s, sys.retries) && NoneIn(sys.retries, sys.s.running.Keys)
    ensures var sys' := Apply(wdefs, sys, step); LogHolds(sys'.s, sys'.retries) && NoneIn(sys'.retries, sys'.s.running.Keys)
  {
    if step.FinishStep? {
      StepNumbers(wdefs, sys, step);
      StepLog(wdefs, sys, step, sys.retries);
      FinishRetries(wdefs, sys, step);
    } else {
      OtherRetries(wdefs, sys, step);
    }
  }

  lemma OtherRetries(wdefs: WorkflowDefinitions, sys: System, step: Step)
    requires Consistent(sys) && Enabled(wdefs, sys, step) && LogHolds(sys.s, sys.retries) && NoneIn(sys.retries, sys.s.running.Keys)
    requires !step.FinishStep?
    ensures var sys' := Apply(wdefs, sys, step); LogHolds(sys'.s, sys'.retries) && NoneIn(sys'.retries, sys'.s.running.Keys)
  {
    StepNumbers(wdefs, sys, step);
    StepLog(wdefs, sys, step, sys.retries);
    assert Apply(wdefs, sys, step).retries == sys.retries;
  }

  lemma StepBudget(wdefs: WorkflowDefinitions, sys: System, step: Step, task: string, most: nat)
    requires Consistent(sys) && Enabled(wdefs, sys, step) && AttemptsAtMost(sys.defs, task, most)
    requires WithinBudget(sys.retries, task, most)
    ensures WithinBudget(Apply(wdefs, sys, step).retries, task, most)
  {
    if step.FinishStep? {
      FinishBudget(wdefs, sys, step, task, most);
    } else {
      assert Apply(wdefs, sys, step).retries == sys.retries;
    }
  }

  lemma FinishBudget(wdefs: WorkflowDefinitions, sys: System, step: Step, task: string, most: nat)
    requires Consistent(sys) && step.FinishStep? && Enabled(wdefs, sys, step) && AttemptsAtMost(sys.defs, task, most)
    requires WithinBudget(sys.retries, task, most)
    ensures WithinBudget(Apply(wdefs, sys, step).retries, task, most)
  {
    assert sys.s.book.executions[step.execution].attempt >= 1;
  }

  function RetriesOf(log: seq<Carry>, task: string, t: Id): nat {
    if log == [] then 0
    else
      var last := log[|log| - 1];
      RetriesOf(log[..|log| - 1], task, t) + (if last.task == task && t in last.triggers then 1 else 0)
  }

  lemma {:induction false} RetriesBounded(log: seq<Carry>, task: string, t: Id, most: nat)
    requires Rising(log)
    requires forall i :: 0 <= i < |log| && log[i].task == task && t in log[i].triggers ==> 1 <= log[i].attempt <= most
    ensures RetriesOf(log, task, t) <= most
  {
    if log != [] {
      var front, last := log[..|log| - 1], log[|log| - 1];
      if last.task == task && t in last.triggers {
        RetriesBounded(front, task, t, last.attempt - 1);
      } else {
        RetriesBounded(front, task, t, most);
      }
    }
  }

  // ---------------------------------------------------------------- workflows

  lemma {:induction false} RecoverAllWorkflows(defs: Definitions, b: Book, order: seq<Id>, now: Time)
    requires forall e :: e in order ==> e in b.executions
    ensures RecoverAll(defs, b, order, now).workflows == b.workflows
    decreases |order|
  {
    if order != [] { RecoverAllWorkflows(defs, RecoverOne(defs, b, order[0], now), order[1..], now); }
  }

  lemma RoundProgress(wdefs: WorkflowDefinitions, sys: System, step: Step)
    requires step.RoundStep? && Enabled(wdefs, sys, step)
    ensures SameProgressAll(sys.s.book, Apply(wdefs, sys, step).s.book)
  {
    var b := sys.s.book;
    TickTasksKeepsWorkflows(sys.defs, b, step.tasks, step.now);
    var b1 := TickTasks(sys.defs, b, step.tasks, step.now);
    TickWorkflowsProgress(sys.defs, wdefs, b1, step.workflows, step.now);
    var p := Prepared(sys.defs, wdefs, sys.s, step.tasks, step.workflows, step.now);
    AdmitManyFrame(sys.defs, p, step.keys, step.now);
    assert SameProgressAll(b, p.book);
  }

  lemma ConcludeChains(d: Definition, wdefs: WorkflowDefinitions, b: Book, e: Id, outcome: Outcome, order: seq<string>, now: Time,
                       successes: set<Success>, advanced: map<string, Time>)
    requires e in b.executions && ChainsHold(wdefs, b, successes, advanced)
    requires outcome.Succeeded? ==> Success(e, b.executions[e].task, b.executions[e].startedAt, now) in successes
    ensures ChainsHold(wdefs, Conclude(d, wdefs, b, e, outcome, order, now), successes, advanced)
  {
    var b1 := EndExecution(b, e, outcome, now);
    var x := b1.executions[e];
    if outcome.Succeeded? {
      SatisfyAllChains(wdefs, Settle(b1, e, Fulfilled, now), order, x, now, Success(e, x.task, x.startedAt, now), successes, advanced);
    } else {
      SameProgressKeeps(wdefs, b, Conclude(d, wdefs, b, e, outcome, order, now), successes, advanced);
    }
  }

  lemma FinishChains(wdefs: WorkflowDefinitions, sys: System, step: Step)
    requires step.FinishStep? && Enabled(wdefs, sys, step) && ChainsHold(wdefs, sys.s.book, sys.successes, sys.advanced)
    ensures var sys' := Apply(wdefs, sys, step); ChainsHold(wdefs, sys'.s.book, sys'.successes, sys'.advanced)
  {
    var sys' := Apply(wdefs, sys, step);
    var e, b := step.execution, sys.s.book;
    MoreSuccessesKeep(wdefs, b, sys.successes, sys'.successes, sys.advanced);
    ConcludeChains(sys.defs[b.executions[e].task], wdefs, b, e, step.outcome, step.order, step.now, sys'.successes, sys.advanced);
    SameProgressKeeps(wdefs, Concluded(sys.defs, wdefs, sys.s, step.execution, step.outcome, step.order, step.now), sys'.s.book, sys'.successes, sys.advanced);
  }

  lemma StepChains(wdefs: WorkflowDefinitions, sys: System, step: Step)
    requires (forall d :: d in wdefs ==> wdefs[d] != []) && Enabled(wdefs, sys, step)
    requires OnDisk(sys) && ChainsHold(wdefs, sys.s.book, sys.successes, sys.advanced)
    ensures var sys' := Apply(wdefs, sys, step); ChainsHold(wdefs, sys'.s.book, sys'.successes, sys'.advanced)
  {
    match step {
      case SubmitStep(_, _, _, _) => SubmitChains(wdefs, sys, step);
      case RoundStep(_, _, _, _) => RoundChains(wdefs, sys, step);
      case StartStep(_) => StartChains(wdefs, sys, step);
      case FinishStep(_, _, _, _, _) => FinishChains(wdefs, sys, step);
      case AdvanceStep(_, _, _, _, _, _) => AdvanceStepChains(wdefs, sys, step);
      case CrashStep(_, _, _, _) => CrashChains(wdefs, sys, step);
    }
  }

  lemma SubmitChains(wdefs: WorkflowDefinitions, sys: System, step: Step)
    requires step.SubmitStep? && Enabled(wdefs, sys, step) && ChainsHold(wdefs, sys.s.book, sys.successes, sys.advanced)
    ensures var sys' := Apply(wdefs, sys, step); ChainsHold(wdefs, sys'.s.book, sys'.successes, sys'.advanced)
  {
    SameProgressKeeps(wdefs, sys.s.book, Apply(wdefs, sys, step).s.book, sys.successes, sys.advanced);
  }

  lemma StartChains(wdefs: WorkflowDefinitions, sys: System, step: Step)
    requires step.StartStep? && Enabled(wdefs, sys, step) && ChainsHold(wdefs, sys.s.book, sys.successes, sys.advanced)
    ensures var sys' := Apply(wdefs, sys, step); ChainsHold(wdefs, sys'.s.book, sys'.successes, sys'.advanced)
  {
  }

  lemma AdvanceStepChains(wdefs: WorkflowDefinitions, sys: System, step: Step)
    requires (forall d :: d in wdefs ==> wdefs[d] != []) && step.AdvanceStep? && Enabled(wdefs, sys, step)
    requires ChainsHold(wdefs, sys.s.book, sys.successes, sys.advanced)
    ensures var sys' := Apply(wdefs, sys, step); ChainsHold(wdefs, sys'.s.book, sys'.successes, sys'.advanced)
  {
    AdvanceChains(wdefs, sys.s.book, step.definition, step.key, step.quiet, step.maximum, step.now, sys.successes, sys.advanced);
  }

  lemma RoundChains(wdefs: WorkflowDefinitions, sys: System, step: Step)
    requires step.RoundStep? && Enabled(wdefs, sys, step) && ChainsHold(wdefs, sys.s.book, sys.successes, sys.advanced)
    ensures var sys' := Apply(wdefs, sys, step); ChainsHold(wdefs, sys'.s.book, sys'.successes, sys'.advanced)
  {
    RoundProgress(wdefs, sys, step);
    SameProgressKeeps(wdefs, sys.s.book, Apply(wdefs, sys, step).s.book, sys.successes, sys.advanced);
  }

  lemma CrashChains(wdefs: WorkflowDefinitions, sys: System, step: Step)
    requires step.CrashStep? && Enabled(wdefs, sys, step)
    requires OnDisk(sys) && ChainsHold(wdefs, sys.s.book, sys.successes, sys.advanced)
    ensures var sys' := Apply(wdefs, sys, step); ChainsHold(wdefs, sys'.s.book, sys'.successes, sys'.advanced)
  {
    RecoverAllWorkflows(step.recovering, RegisterSchedules(step.recovering, sys.disk, step.now), step.interrupted, step.now);
    SameProgressKeeps(wdefs, sys.s.book, Apply(wdefs, sys, step).s.book, sys.successes, sys.advanced);
  }

  // --------------------------------------------------------------- whole runs

  ghost predicate RunInvariant(wdefs: WorkflowDefinitions, sys: System) {
    && Consistent(sys)
    && LogHolds(sys.s, sys.admissions)
    && LogHolds(sys.s, sys.starts) && NoneIn(sys.starts, sys.spawned)
    && LogHolds(sys.s, sys.retries) && NoneIn(sys.retries, sys.s.running.Keys)
    && ChainsHold(wdefs, sys.s.book, sys.successes, sys.advanced)
  }

  lemma StepKeepsRunInvariant(wdefs: WorkflowDefinitions, sys: System, step: Step)
    requires (forall d :: d in wdefs ==> wdefs[d] != []) && RunInvariant(wdefs, sys) && Enabled(wdefs, sys, step)
    ensures RunInvariant(wdefs, Apply(wdefs, sys, step))
  {
    StepConsistent(wdefs, sys, step);
    StepAdmissions(wdefs, sys, step);
    StepStarts(wdefs, sys, step);
    StepRetries(wdefs, sys, step);
    StepChains(wdefs, sys, step);
  }

  lemma FollowsKeepsRunInvariant(wdefs: WorkflowDefinitions, sys: System, step: Step, sys': System)
    requires (forall d :: d in wdefs ==> wdefs[d] != []) && RunInvariant(wdefs, sys) && Follows(wdefs, sys, step, sys')
    ensures RunInvariant(wdefs, sys')
  {
    StepKeepsRunInvariant(wdefs, sys, step);
  }

  lemma FreshHolds(wdefs: WorkflowDefinitions, defs: Definitions, now: Time)
    ensures RunInvariant(wdefs, Fresh(defs, now))
  {
    FreshConsistent(defs, now);
  }

  lemma {:induction false} RunKeeps(wdefs: WorkflowDefinitions, states: seq<System>, steps: seq<Step>, n: nat)
    requires (forall d :: d in wdefs ==> wdefs[d] != []) && IsRun(wdefs, states, steps) && n < |states|
    ensures RunInvariant(wdefs, states[n])
    decreases n
  {
    if n == 0 {
      var defs, now :| states[0] == Fresh(defs, now);
      FreshHolds(wdefs, defs, now);
    } else {
      RunKeeps(wdefs, states, steps, n - 1);
      assert Follows(wdefs, states[n - 1], steps[n - 1], states[n]);
      FollowsKeepsRunInvariant(wdefs, states[n - 1], steps[n - 1], states[n]);
    }
  }

  /** Successive admissions of one trigger carry strictly increasing attempt
      numbers, whatever crashes lie between them. */
  lemma AttemptsIncrease(wdefs: WorkflowDefinitions, states: seq<System>, steps: seq<Step>, n: nat, i: nat, j: nat, t: Id)
    requires (forall d :: d in wdefs ==> wdefs[d] != []) && IsRun(wdefs, states, steps) && n < |states|
    requires i < j < |states[n].admissions|
    requires t in states[n].admissions[i].triggers && t in states[n].admissions[j].triggers
    ensures states[n].admissions[i].attempt < states[n].admissions[j].attempt
  {
    RunKeeps(wdefs, states, steps, n);
  }

  lemma SpentFollows(wdefs: WorkflowDefinitions, sys: System, step: Step, sys': System, task: string)
    requires RunInvariant(wdefs, sys) && Follows(wdefs, sys, step, sys') && StepNeverRequeues(sys, step, task)
    requires Spent(sys, sys.starts, task) && StartedOnce(sys.starts, task)
    ensures Spent(sys', sys'.starts, task) && StartedOnce(sys'.starts, task)
  {
    StepSpent(wdefs, sys, step, task);
  }

  /** In no run, with crashes at any step boundary, is the runner of a trigger
      started twice, if its task asks for attention instead of recovery and has
      no retries. */
  lemma {:induction false} RunnerStartsAtMostOnce(wdefs: WorkflowDefinitions, states: seq<System>, steps: seq<Step>, n: nat, task: string)
    requires (forall d :: d in wdefs ==> wdefs[d] != []) && IsRun(wdefs, states, steps) && n < |states|
    requires forall i :: 0 <= i < |steps| ==> StepNeverRequeues(states[i], steps[i], task)
    ensures StartedOnce(states[n].starts, task) && Spent(states[n], states[n].starts, task)
    decreases n
  {
    if n == 0 {
      var defs, now :| states[0] == Fresh(defs, now);
    } else {
      RunnerStartsAtMostOnce(wdefs, states, steps, n - 1, task);
      RunKeeps(wdefs, states, steps, n - 1);
      assert Follows(wdefs, states[n - 1], steps[n - 1], states[n]);
      SpentFollows(wdefs, states[n - 1], steps[n - 1], states[n], task);
    }
  }

  lemma BudgetFollows(wdefs: WorkflowDefinitions, sys: System, step: Step, sys': System, task: string, most: nat)
    requires RunInvariant(wdefs, sys) && Follows(wdefs, sys, step, sys') && AttemptsAtMost(sys.defs, task, most)
    requires WithinBudget(sys.retries, task, most)
    ensures WithinBudget(sys'.retries, task, most)
  {
    StepBudget(wdefs, sys, step, task, most);
  }

  lemma {:induction false} BudgetKeeps(wdefs: WorkflowDefinitions, states: seq<System>, steps: seq<Step>, n: nat, task: string, most: nat)
    requires (forall d :: d in wdefs ==> wdefs[d] != []) && IsRun(wdefs, states, steps) && n < |states|
    requires forall i :: 0 <= i < |states| ==> AttemptsAtMost(states[i].defs, task, most)
    ensures WithinBudget(states[n].retries, task, most)
    decreases n
  {
    if n == 0 {
      var defs, now :| states[0] == Fresh(defs, now);
    } else {
      BudgetKeeps(wdefs, states, steps, n - 1, task, most);
      RunKeeps(wdefs, states, steps, n - 1);
      assert Follows(wdefs, states[n - 1], steps[n - 1], states[n]);
      BudgetFollows(wdefs, states[n - 1], steps[n - 1], states[n], task, most);
    }
  }

  /** Retryable failures put a trigger back in the queue at most one time fewer
      than the task allows attempts, over the whole run. */
  lemma RetriesStayWithinPolicy(wdefs: WorkflowDefinitions, states: seq<System>, steps: seq<Step>, n: nat, task: string, most: nat, t: Id)
    requires (forall d :: d in wdefs ==> wdefs[d] != []) && IsRun(wdefs, states, steps) && n < |states|
    requires most >= 1 && forall i :: 0 <= i < |states| ==> AttemptsAtMost(states[i].defs, task, most)
    ensures RetriesOf(states[n].retries, task, t) <= most - 1
  {
    RunKeeps(wdefs, states, steps, n);
    BudgetKeeps(wdefs, states, steps, n, task, most);
    RetriesBounded(states[n].retries, task, t, most - 1);
  }

  /** A workflow that has succeeded did so through a chain of successful
      executions of its steps in order, the first of them started no earlier than
      its latest advance and each next one no earlier than the one before it
      finished. */
  lemma SucceededWorkflowHasChain(wdefs: WorkflowDefinitions, states: seq<System>, steps: seq<Step>, n: nat, instance: string)
    returns (chain: seq<Success>)
    requires (forall d :: d in wdefs ==> wdefs[d] != []) && IsRun(wdefs, states, steps) && n < |states|
    requires instance in states[n].s.book.workflows
    requires states[n].s.book.workflows[instance].state.WfSucceeded?
    requires states[n].s.book.workflows[instance].definition in wdefs
    ensures instance in states[n].advanced
    ensures IsChain(chain, states[n].successes, wdefs[states[n].s.book.workflows[instance].definition], states[n].advanced[instance])
  {
    RunKeeps(wdefs, states, steps, n);
    var w := states[n].s.book.workflows[instance];
    var since := states[n].advanced[instance];
    assert WorkflowHolds(wdefs, w, states[n].successes, since);
    var done := wdefs[w.definition];
    assert done[..w.step] == done;
    chain := JustifiedChain(states[n].successes, done, since, w.readyAfter);
  }
}
