/** When a workflow step becomes due.  Every advance starts the quiet period anew, but
    the deadline stands from the first advance on, so advances that keep coming
    cannot put the step off for longer than the maximum delay. */
module WorkflowDeadlines {
  import opened TaskTypes
  import opened SchedulerSpec
  import opened SchedulerInvariants
  import opened SchedulerRound
  import opened SchedulerTiming
  import opened SchedulerOutcomes
  import opened WorkflowChains
  import opened SchedulerRuns
  import opened SchedulerTheorems

  function InstanceOf(step: Step): string
    requires step.AdvanceStep?
  {
    step.definition + ":" + step.key
  }

  /** The step advances this instance, and the store took it. */
  predicate Advances(step: Step, instance: string) {
    step.AdvanceStep? && step.persisted && InstanceOf(step) == instance
  }

  // ------------------------------------------------------------- single steps

  /** The dates of an instance after a step. */
  ghost predicate DatesFollow(b: Book, step: Step, b': Book, instance: string) {
    if Advances(step, instance) then Restarted(b, instance, step.quiet, step.maximum, step.now, b')
    else
      (instance in b'.workflows <==> instance in b.workflows)
      && (instance in b.workflows ==>
            && b'.workflows[instance].notBefore == b.workflows[instance].notBefore
            && b'.workflows[instance].deadline == b.workflows[instance].deadline)
  }

  ghost predicate AllDatesFollow(b: Book, step: Step, b': Book) { forall i :: DatesFollow(b, step, b', i) }

  ghost predicate SameDates(b: Book, b': Book) {
    && b'.workflows.Keys == b.workflows.Keys
    && forall i :: i in b.workflows ==>
         b'.workflows[i].notBefore == b.workflows[i].notBefore && b'.workflows[i].deadline == b.workflows[i].deadline
  }

  lemma {:induction false} TickWorkflowsDates(defs: Definitions, wdefs: WorkflowDefinitions, b: Book, visits: seq<Visit>, now: Time)
    requires forall v :: v in visits ==> v.subject in b.workflows
    ensures SameDates(b, TickWorkflows(defs, wdefs, b, visits, now))
    decreases |visits|
  {
    if visits != [] {
      var v := visits[0];
      TickWorkflowEffect(defs, wdefs, b, v.running, v.subject, now);
      TickWorkflowsDates(defs, wdefs, TickWorkflow(defs, wdefs, b, v.running, v.subject, now), visits[1..], now);
    }
  }

  lemma RoundDates(wdefs: WorkflowDefinitions, sys: System, step: Step)
    requires step.RoundStep? && Enabled(wdefs, sys, step)
    ensures SameDates(sys.s.book, Apply(wdefs, sys, step).s.book)
  {
    TickTasksKeepsWorkflows(sys.defs, sys.s.book, step.tasks, step.now);
    TickWorkflowsDates(sys.defs, wdefs, TickTasks(sys.defs, sys.s.book, step.tasks, step.now), step.workflows, step.now);
    AdmitManyFrame(sys.defs, Prepared(sys.defs, wdefs, sys.s, step.tasks, step.workflows, step.now), step.keys, step.now);
  }

  lemma {:induction false} SatisfyAllDates(wdefs: WorkflowDefinitions, b: Book, order: seq<string>, x: Execution, now: Time)
    ensures SameDates(b, SatisfyAll(wdefs, b, order, x, now))
    decreases |order|
  {
    if order != [] {
      if order[0] in b.workflows { SatisfyAllDates(wdefs, SatisfyOne(wdefs, b, order[0], x, now), order[1..], x, now); }
      else { SatisfyAllDates(wdefs, b, order[1..], x, now); }
    }
  }

  lemma ConcludeDates(d: Definition, wdefs: WorkflowDefinitions, b: Book, e: Id, outcome: Outcome, order: seq<string>, now: Time)
    requires e in b.executions
    ensures SameDates(b, Conclude(d, wdefs, b, e, outcome, order, now))
  {
    var b1 := EndExecution(b, e, outcome, now);
    if outcome.Succeeded? { SatisfyAllDates(wdefs, Settle(b1, e, Fulfilled, now), order, b1.executions[e], now); }
  }

  lemma FinishDates(wdefs: WorkflowDefinitions, sys: System, step: Step)
    requires step.FinishStep? && Enabled(wdefs, sys, step)
    ensures SameDates(sys.s.book, Apply(wdefs, sys, step).s.book)
  {
    ConcludeDates(sys.defs[sys.s.book.executions[step.execution].task], wdefs, sys.s.book, step.execution, step.outcome, step.order, step.now);
  }

  lemma CrashDates(wdefs: WorkflowDefinitions, sys: System, step: Step)
    requires step.CrashStep? && Enabled(wdefs, sys, step) && OnDisk(sys)
    ensures SameDates(sys.s.book, Apply(wdefs, sys, step).s.book)
  {
    RecoverAllWorkflows(step.recovering, RegisterSchedules(step.recovering, sys.disk, step.now), step.interrupted, step.now);
  }

  lemma AdvanceDates(wdefs: WorkflowDefinitions, sys: System, step: Step, instance: string)
    requires step.AdvanceStep? && Enabled(wdefs, sys, step)
    ensures DatesFollow(sys.s.book, step, Apply(wdefs, sys, step).s.book, instance)
  {
    AdvanceRestarts(sys.s.book, step.definition, step.key, step.quiet, step.maximum, step.now);
  }

  /** The earliest time moves with every advance, and the deadline only with the one
      that opens the instance: no other step, and no crash, touches either. */
  lemma StepDates(wdefs: WorkflowDefinitions, sys: System, step: Step, instance: string)
    requires OnDisk(sys) && Enabled(wdefs, sys, step)
    ensures DatesFollow(sys.s.book, step, Apply(wdefs, sys, step).s.book, instance)
  {
    match step {
      case SubmitStep(_, _, _, _) =>
      case RoundStep(_, _, _, _) => RoundDates(wdefs, sys, step);
      case StartStep(_) =>
      case FinishStep(_, _, _, _, _) => FinishDates(wdefs, sys, step);
      case AdvanceStep(_, _, _, _, _, _) => AdvanceDates(wdefs, sys, step, instance);
      case CrashStep(_, _, _, _) => CrashDates(wdefs, sys, step);
    }
  }

  // --------------------------------------------------------------- whole runs

  ghost predicate DatesAlong(states: seq<System>, steps: seq<Step>) {
    && |states| == |steps| + 1 && states[0].s.book.workflows == map[]
    && forall k :: 0 <= k < |steps| ==> AllDatesFollow(states[k].s.book, steps[k], states[k + 1].s.book)
  }

  lemma FollowsDates(wdefs: WorkflowDefinitions, sys: System, step: Step, sys': System)
    requires RunInvariant(wdefs, sys) && Follows(wdefs, sys, step, sys')
    ensures AllDatesFollow(sys.s.book, step, sys'.s.book)
  {
    forall i { StepDates(wdefs, sys, step, i); }
  }

  lemma RunDates(wdefs: WorkflowDefinitions, states: seq<System>, steps: seq<Step>)
    requires (forall d :: d in wdefs ==> wdefs[d] != []) && IsRun(wdefs, states, steps)
    ensures DatesAlong(states, steps)
  {
    forall k | 0 <= k < |steps|
      ensures AllDatesFollow(states[k].s.book, steps[k], states[k + 1].s.book)
    {
      RunKeeps(wdefs, states, steps, k);
      FollowsDates(wdefs, states[k], steps[k], states[k + 1]);
    }
  }

  /** Step m is the advance that opened the instance as it is in state n. */
  ghost predicate Opened(states: seq<System>, steps: seq<Step>, m: nat, n: nat, instance: string)
    requires |states| == |steps| + 1 && n < |states|
  {
    && m < n && Advances(steps[m], instance) && Open(states[m].s.book, instance)
    && forall k :: m < k < n && Advances(steps[k], instance) ==> !Open(states[k].s.book, instance)
  }

  lemma {:induction false} OpenedAlong(states: seq<System>, steps: seq<Step>, n: nat, instance: string) returns (m: nat)
    requires DatesAlong(states, steps) && n < |states| && instance in states[n].s.book.workflows
    ensures Opened(states, steps, m, n, instance)
    ensures states[n].s.book.workflows[instance].deadline == steps[m].now + steps[m].maximum
    decreases n
  {
    assert n > 0;
    assert DatesFollow(states[n - 1].s.book, steps[n - 1], states[n].s.book, instance);
    if Advances(steps[n - 1], instance) && Open(states[n - 1].s.book, instance) {
      m := n - 1;
    } else {
      m := OpenedAlong(states, steps, n - 1, instance);
    }
  }

  /** In every state of every run, the deadline of an instance is the time of the
      advance that opened it plus that advance's maximum delay, however many
      advances, successes, failures and crashes lie in between. */
  lemma DeadlineOfOpening(wdefs: WorkflowDefinitions, states: seq<System>, steps: seq<Step>, n: nat, instance: string) returns (m: nat)
    requires (forall d :: d in wdefs ==> wdefs[d] != []) && IsRun(wdefs, states, steps) && n < |states|
    requires instance in states[n].s.book.workflows
    ensures Opened(states, steps, m, n, instance)
    ensures states[n].s.book.workflows[instance].deadline == steps[m].now + steps[m].maximum
  {
    RunDates(wdefs, states, steps);
    m := OpenedAlong(states, steps, n, instance);
  }

  // ---------------------------------------------------------- due, and not yet

  /** The current step has a trigger that has not ended, or the instance is not under
      way. */
  predicate TakenUp(b: Book, instance: string) {
    && instance in b.workflows
    && var w := b.workflows[instance];
    Idle(w) || (w.trigger != 0 && w.trigger in b.triggers && !Terminal(b.triggers[w.trigger].state))
  }

  lemma SubmitKeepsTaken(defs: Definitions, b: Book, running: seq<Id>, req: Request, now: Time, instance: string)
    requires Numbered(b) && TakenUp(b, instance) && Submit(defs, b, running, req, now).Ok?
    ensures TakenUp(Submit(defs, b, running, req, now).value.0, instance)
  {
  }

  /** A tick of any instance leaves this one taken up. */
  lemma TickKeepsTaken(defs: Definitions, wdefs: WorkflowDefinitions, b: Book, running: seq<Id>, i: string, now: Time, instance: string)
    requires Numbered(b) && i in b.workflows && TakenUp(b, instance)
    ensures TakenUp(TickWorkflow(defs, wdefs, b, running, i, now), instance)
  {
    var w := b.workflows[i];
    TickWorkflowEffect(defs, wdefs, b, running, i, now);
    if w.definition in wdefs && w.step < |wdefs[w.definition]| {
      var req := StepRequest(wdefs[w.definition][w.step], i, w, now);
      if Submit(defs, b, running, req, now).Ok? { SubmitKeepsTaken(defs, b, running, req, now, instance); }
    }
  }

  /** Its own tick, when its time has come, takes it up. */
  lemma TickTakesUp(defs: Definitions, wdefs: WorkflowDefinitions, b: Book, running: seq<Id>, instance: string, now: Time)
    requires instance in b.workflows
    requires var w := b.workflows[instance];
      (w.definition in wdefs && !Idle(w) ==> w.step < |wdefs[w.definition]|) && 0 < w.deadline <= now
    ensures TakenUp(TickWorkflow(defs, wdefs, b, running, instance, now), instance)
  {
  }

  lemma {:induction false} TicksTakeUp(defs: Definitions, wdefs: WorkflowDefinitions, b: Book, live: set<Id>, visits: seq<Visit>, now: Time, instance: string)
    requires Bookkeeping(b, live) && forall v :: v in visits ==> v.subject in b.workflows && forall e :: e in v.running ==> e in live
    requires instance in b.workflows
    requires var w := b.workflows[instance];
      (w.definition in wdefs && !Idle(w) ==> w.step < |wdefs[w.definition]|) && 0 < w.deadline <= now
    requires TakenUp(b, instance) || exists v :: v in visits && v.subject == instance
    ensures TakenUp(TickWorkflows(defs, wdefs, b, visits, now), instance)
    decreases |visits|
  {
    if visits != [] {
      var v := visits[0];
      var b1 := TickWorkflow(defs, wdefs, b, v.running, v.subject, now);
      TickWorkflowKeeps(defs, wdefs, b, live, v.running, v.subject, now);
      TickWorkflowEffect(defs, wdefs, b, v.running, v.subject, now);
      if v.subject == instance {
        TickTakesUp(defs, wdefs, b, v.running, instance, now);
      } else if TakenUp(b, instance) {
        TickKeepsTaken(defs, wdefs, b, v.running, v.subject, now, instance);
      } else {
        var u :| u in visits && u.subject == instance;
        assert u in visits[1..];
      }
      TicksTakeUp(defs, wdefs, b1, live, visits[1..], now, instance);
    }
  }

  lemma PreparedTakesUp(defs: Definitions, wdefs: WorkflowDefinitions, s: Scheduler, tasks: seq<Visit>, workflows: seq<Visit>, now: Time, instance: string)
    requires Sound(defs, s) && ValidVisits(defs, s, tasks, workflows)
    requires instance in s.book.workflows && exists v :: v in workflows && v.subject == instance
    requires var w := s.book.workflows[instance];
      (w.definition in wdefs && !Idle(w) ==> w.step < |wdefs[w.definition]|) && 0 < w.deadline <= now
    ensures TakenUp(Prepared(defs, wdefs, s, tasks, workflows, now).book, instance)
  {
    TickTasksKeepsWorkflows(defs, s.book, tasks, now);
    TickTasksKeeps(defs, s.book, s.running.Keys, tasks, now);
    TicksTakeUp(defs, wdefs, TickTasks(defs, s.book, tasks, now), s.running.Keys, workflows, now, instance);
  }

  /** However many advances follow the one that opened the instance, a round at or
      after that advance's time plus its maximum delay finds the current step in
      flight or submits it. */
  lemma DueByDeadline(wdefs: WorkflowDefinitions, states: seq<System>, steps: seq<Step>, m: nat, n: nat, instance: string)
    requires (forall d :: d in wdefs ==> wdefs[d] != []) && IsRun(wdefs, states, steps) && n < |steps|
    requires Opened(states, steps, m, n, instance) && instance in states[n].s.book.workflows
    requires steps[n].RoundStep? && (exists v :: v in steps[n].workflows && v.subject == instance)
    requires 0 < steps[m].now + steps[m].maximum <= steps[n].now
    ensures var sys, step := states[n], steps[n];
      ValidVisits(sys.defs, sys.s, step.tasks, step.workflows)
      && TakenUp(Prepared(sys.defs, wdefs, sys.s, step.tasks, step.workflows, step.now).book, instance)
  {
    var opening := DeadlineOfOpening(wdefs, states, steps, n, instance);
    OpenedOnce(states, steps, m, opening, n, instance);
    RunKeeps(wdefs, states, steps, n);
    FollowsVisits(wdefs, states[n], steps[n], states[n + 1]);
    StepInRange(wdefs, states[n], instance);
    PreparedTakesUp(states[n].defs, wdefs, states[n].s, steps[n].tasks, steps[n].workflows, steps[n].now, instance);
  }

  lemma FollowsVisits(wdefs: WorkflowDefinitions, sys: System, step: Step, sys': System)
    requires step.RoundStep? && Follows(wdefs, sys, step, sys')
    ensures ValidVisits(sys.defs, sys.s, step.tasks, step.workflows)
  {
  }

  lemma StepInRange(wdefs: WorkflowDefinitions, sys: System, instance: string)
    requires RunInvariant(wdefs, sys) && instance in sys.s.book.workflows
    ensures var w := sys.s.book.workflows[instance]; w.definition in wdefs && !Idle(w) ==> w.step < |wdefs[w.definition]|
  {
    assert WorkflowHolds(wdefs, sys.s.book.workflows[instance], sys.successes, sys.advanced[instance]);
  }

  lemma OpenedOnce(states: seq<System>, steps: seq<Step>, m: nat, k: nat, n: nat, instance: string)
    requires |states| == |steps| + 1 && n < |states|
    requires Opened(states, steps, m, n, instance) && Opened(states, steps, k, n, instance)
    ensures m == k
  {
  }

  // ------------------------------------------------------------- not too early

  /** The first step waits for the quiet period and a later one for its predecessor,
      unless the deadline comes first: until then a round leaves the instance as
      it is. */
  lemma QuietUntilReady(defs: Definitions, wdefs: WorkflowDefinitions, s: Scheduler, tasks: seq<Visit>, workflows: seq<Visit>, now: Time, instance: string)
    requires ValidVisits(defs, s, tasks, workflows) && instance in s.book.workflows
    requires var w := s.book.workflows[instance];
      && w.definition in wdefs && w.trigger == 0
      && now < (if w.step == 0 then w.notBefore else w.readyAfter) && (w.deadline == 0 || now < w.deadline)
    ensures var b := Prepared(defs, wdefs, s, tasks, workflows, now).book;
      instance in b.workflows && b.workflows[instance] == s.book.workflows[instance]
  {
    TickTasksKeepsWorkflows(defs, s.book, tasks, now);
    TicksLeaveQuiet(defs, wdefs, TickTasks(defs, s.book, tasks, now), workflows, now, instance);
  }

  lemma {:induction false} TicksLeaveQuiet(defs: Definitions, wdefs: WorkflowDefinitions, b: Book, visits: seq<Visit>, now: Time, instance: string)
    requires (forall v :: v in visits ==> v.subject in b.workflows) && instance in b.workflows
    requires var w := b.workflows[instance];
      && w.definition in wdefs && w.trigger == 0
      && now < (if w.step == 0 then w.notBefore else w.readyAfter) && (w.deadline == 0 || now < w.deadline)
    ensures var b' := TickWorkflows(defs, wdefs, b, visits, now);
      instance in b'.workflows && b'.workflows[instance] == b.workflows[instance]
    decreases |visits|
  {
    if visits != [] {
      var v := visits[0];
      TickWorkflowEffect(defs, wdefs, b, v.running, v.subject, now);
      TickIsQuiet(defs, wdefs, b, v.running, v.subject, now, instance);
      TicksLeaveQuiet(defs, wdefs, TickWorkflow(defs, wdefs, b, v.running, v.subject, now), visits[1..], now, instance);
    }
  }

  lemma TickIsQuiet(defs: Definitions, wdefs: WorkflowDefinitions, b: Book, running: seq<Id>, i: string, now: Time, instance: string)
    requires i in b.workflows && instance in b.workflows
    requires var w := b.workflows[instance];
      && w.definition in wdefs && w.trigger == 0
      && now < (if w.step == 0 then w.notBefore else w.readyAfter) && (w.deadline == 0 || now < w.deadline)
    ensures TickWorkflow(defs, wdefs, b, running, i, now).workflows[instance] == b.workflows[instance]
  {
    TickWorkflowEffect(defs, wdefs, b, running, i, now);
  }
}
