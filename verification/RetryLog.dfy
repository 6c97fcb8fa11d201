/** The log of retries against what really went back into the queue. */
module RetryLog {
  import opened TaskTypes
  import opened SchedulerHistory
  import opened SchedulerRuns
  import opened SchedulerTheorems
  import opened SchedulerOutcomes

  /** A failure is logged as a retry exactly if its triggers are waiting again. */
  lemma LoggedIffWaiting(wdefs: WorkflowDefinitions, sys: System, step: Step, t: Id)
    requires Consistent(sys) && step.FinishStep? && Enabled(wdefs, sys, step) && step.outcome.Errored?
    requires t in sys.s.book.executions[step.execution].triggers && t in sys.s.book.triggers
    ensures var sys' := Apply(wdefs, sys, step); var waiting := t in sys'.s.book.triggers && sys'.s.book.triggers[t].state.Pending?;
      sys'.retries == if waiting then sys.retries + [CarryOf(sys.s.book, step.execution)] else sys.retries
  {
    FinishDisposes(sys.defs, wdefs, sys.s, step.execution, step.outcome, step.order, step.removed, step.now, t);
  }

  /** The step put these triggers of a failed execution back into the queue. */
  ghost predicate RetriedBy(sys: System, step: Step, sys': System, c: Carry) {
    && step.FinishStep? && step.outcome.Errored? && step.execution in sys.s.book.executions && c == CarryOf(sys.s.book, step.execution)
    && forall t :: t in c.triggers ==> t in sys'.s.book.triggers && sys'.s.book.triggers[t].state.Pending?
  }

  ghost predicate LogGrows(sys: System, step: Step, sys': System) {
    || sys'.retries == sys.retries
    || (|sys'.retries| == |sys.retries| + 1 && sys'.retries[..|sys.retries|] == sys.retries && RetriedBy(sys, step, sys', sys'.retries[|sys.retries|]))
  }

  lemma FinishLogsRetry(wdefs: WorkflowDefinitions, sys: System, step: Step)
    requires Consistent(sys) && Enabled(wdefs, sys, step) && step.FinishStep? && step.outcome.Errored?
    ensures LogGrows(sys, step, Apply(wdefs, sys, step))
  {
    var c := CarryOf(sys.s.book, step.execution);
    forall t | t in c.triggers { LoggedIffWaiting(wdefs, sys, step, t); }
  }

  lemma StepLogsRetry(wdefs: WorkflowDefinitions, sys: System, step: Step)
    requires Consistent(sys) && Enabled(wdefs, sys, step)
    ensures LogGrows(sys, step, Apply(wdefs, sys, step))
  {
    if step.FinishStep? && step.outcome.Errored? { FinishLogsRetry(wdefs, sys, step); }
  }

  lemma FollowsLogsRetry(wdefs: WorkflowDefinitions, sys: System, step: Step, sys': System)
    requires RunInvariant(wdefs, sys) && Follows(wdefs, sys, step, sys')
    ensures LogGrows(sys, step, sys')
  {
    StepLogsRetry(wdefs, sys, step);
  }

  ghost predicate LogGrowsAlong(states: seq<System>, steps: seq<Step>) {
    && |states| == |steps| + 1 && states[0].retries == []
    && forall i :: 0 <= i < |steps| ==> LogGrows(states[i], steps[i], states[i + 1])
  }

  lemma RunLogGrows(wdefs: WorkflowDefinitions, states: seq<System>, steps: seq<Step>)
    requires (forall d :: d in wdefs ==> wdefs[d] != []) && IsRun(wdefs, states, steps)
    ensures LogGrowsAlong(states, steps)
  {
    forall n | 0 <= n < |steps|
      ensures LogGrows(states[n], steps[n], states[n + 1])
    {
      RunKeeps(wdefs, states, steps, n);
      FollowsLogsRetry(wdefs, states[n], steps[n], states[n + 1]);
    }
  }

  lemma {:induction false} LoggedAlong(states: seq<System>, steps: seq<Step>, n: nat, k: nat)
    requires LogGrowsAlong(states, steps) && n < |states| && k < |states[n].retries|
    ensures exists m :: 0 <= m < n && RetriedBy(states[m], steps[m], states[m + 1], states[n].retries[k])
    decreases n
  {
    if n > 0 {
      assert LogGrows(states[n - 1], steps[n - 1], states[n]);
      if k < |states[n - 1].retries| {
        LoggedAlong(states, steps, n - 1, k);
        assert states[n].retries[k] == states[n - 1].retries[k];
      }
    }
  }

  /** Over a whole run, whatever the log of retries holds has been put back into the
      queue by the end of a failed execution. */
  lemma LoggedWasRetried(wdefs: WorkflowDefinitions, states: seq<System>, steps: seq<Step>, n: nat, k: nat)
    requires (forall d :: d in wdefs ==> wdefs[d] != []) && IsRun(wdefs, states, steps) && n < |states| && k < |states[n].retries|
    ensures exists m :: 0 <= m < n && RetriedBy(states[m], steps[m], states[m + 1], states[n].retries[k])
  {
    RunLogGrows(wdefs, states, steps);
    LoggedAlong(states, steps, n, k);
  }
}
