/** What a request was promised when it was accepted is what it gets: whoever holds its
    trigger, through coalescing, retries, preemption and crashes, covers at least
    what was asked for. */
module CoverageGuarantee {
  import opened TaskTypes
  import opened SchedulerSpec
  import opened SchedulerInvariants
  import opened SchedulerHistory
  import opened SchedulerRuns
  import opened SchedulerTheorems
  import opened SubmissionOutcomes

  /** Nothing but what was asked for: no execution has carried the trigger yet. */
  function Asked(t: Id, task: string, coverage: nat): Carry { Carry(0, task, {t}, 0, coverage) }

  lemma NewIsUnheld(b: Book, live: set<Id>, t: Id)
    requires Bookkeeping(b, live) && t == b.sequence + 1
    ensures forall k :: k in b.pending ==> t !in b.pending[k].triggers
    ensures forall e :: e in b.executions ==> t !in b.executions[e].triggers
  {
  }

  lemma TakenIsOwed(d: Definition, b: Book, live: set<Id>, running: seq<Id>, r: Request, now: Time, b': Book, receipt: Receipt)
    requires Bookkeeping(b, live) && RequestTaken(d, b, running, r, now, b', receipt) && b'.sequence > b.sequence && Shaped(b')
    ensures Tracked(b', live, b.sequence + 1, Asked(b.sequence + 1, r.task, r.coverage), false)
  {
    var t := b.sequence + 1;
    var c := Asked(t, r.task, r.coverage);
    NewIsUnheld(b, live, t);
    forall k | k in b'.pending
      ensures TrackedIntent(b'.pending[k], t, c, false)
    {
      assert WellFormedIntent(k, b'.pending[k]);
    }
    forall e | e in live && e in b'.executions
      ensures TrackedExecution(e, b'.executions[e], t, c, false)
    {
    }
  }

  lemma SubmissionIsOwed(defs: Definitions, b: Book, live: set<Id>, running: seq<Id>, req: Request, now: Time)
    requires Bookkeeping(b, live) && (forall e :: e in running ==> e in live) && Submit(defs, b, running, req, now).Ok?
    ensures Tracked(Submit(defs, b, running, req, now).value.0, live, b.sequence + 1, Asked(b.sequence + 1, req.task, req.coverage), false)
  {
    var r := Normalized(defs[req.task], req);
    RequestIsTaken(defs[req.task], b, running, r, now);
    SubmitKeeps(defs, b, live, running, req, now);
    TakenIsOwed(defs[req.task], b, live, running, r, now, Submit(defs, b, running, req, now).value.0, Submit(defs, b, running, req, now).value.1);
  }

  lemma SubmitStepOwes(wdefs: WorkflowDefinitions, sys: System, step: Step, sys': System)
    requires RunInvariant(wdefs, sys) && Follows(wdefs, sys, step, sys') && step.SubmitStep? && step.persisted
    ensures var t := sys.s.book.sequence + 1; TrackedIn(sys', t, Asked(t, step.req.task, step.req.coverage), false)
  {
    SubmissionIsOwed(sys.defs, sys.s.book, sys.s.running.Keys, step.running, step.req, step.now);
  }

  lemma FollowsOwes(wdefs: WorkflowDefinitions, sys: System, step: Step, sys': System)
    requires RunInvariant(wdefs, sys) && Follows(wdefs, sys, step, sys')
    ensures StaysOwed(sys, sys')
  {
    forall t, c | TrackedIn(sys, t, c, false) { StepTracked(wdefs, sys, step, t, c, false); }
  }

  ghost predicate StaysOwed(sys: System, sys': System) {
    forall t, c :: TrackedIn(sys, t, c, false) ==> TrackedIn(sys', t, c, false)
  }

  ghost predicate OwedAlong(states: seq<System>) { forall k :: 0 <= k < |states| - 1 ==> StaysOwed(states[k], states[k + 1]) }

  lemma RunOwes(wdefs: WorkflowDefinitions, states: seq<System>, steps: seq<Step>)
    requires (forall d :: d in wdefs ==> wdefs[d] != []) && IsRun(wdefs, states, steps)
    ensures OwedAlong(states)
  {
    forall k | 0 <= k < |states| - 1
      ensures StaysOwed(states[k], states[k + 1])
    {
      RunKeeps(wdefs, states, steps, k);
      FollowsOwes(wdefs, states[k], steps[k], states[k + 1]);
    }
  }

  lemma {:induction false} OwedUntil(states: seq<System>, m: nat, n: nat, t: Id, c: Carry)
    requires OwedAlong(states) && m <= n < |states| && TrackedIn(states[m], t, c, false)
    ensures TrackedIn(states[n], t, c, false)
    decreases n
  {
    if m < n {
      OwedUntil(states, m, n - 1, t, c);
      assert StaysOwed(states[n - 1], states[n]);
    }
  }

  lemma OwedInRuns(wdefs: WorkflowDefinitions, states: seq<System>, steps: seq<Step>, m: nat, n: nat)
    requires (forall d :: d in wdefs ==> wdefs[d] != []) && IsRun(wdefs, states, steps) && m < n < |states|
    requires steps[m].SubmitStep? && steps[m].persisted
    ensures var t := states[m].s.book.sequence + 1; TrackedIn(states[n], t, Asked(t, steps[m].req.task, steps[m].req.coverage), false)
  {
    RunOwes(wdefs, states, steps);
    RunKeeps(wdefs, states, steps, m);
    SubmitStepOwes(wdefs, states[m], steps[m], states[m + 1]);
    var t := states[m].s.book.sequence + 1;
    OwedUntil(states, m + 1, n, t, Asked(t, steps[m].req.task, steps[m].req.coverage));
  }

  /** In every state after a request was accepted, every intent and every running
      execution that holds its trigger covers what the request asked for. */
  lemma CoverageHolds(wdefs: WorkflowDefinitions, states: seq<System>, steps: seq<Step>, m: nat, n: nat)
    requires (forall d :: d in wdefs ==> wdefs[d] != []) && IsRun(wdefs, states, steps) && m < n < |states|
    requires steps[m].SubmitStep? && steps[m].persisted
    ensures var t, s := states[m].s.book.sequence + 1, states[n].s;
      && (forall k :: k in s.book.pending && t in s.book.pending[k].triggers ==> s.book.pending[k].coverage >= steps[m].req.coverage)
      && (forall e :: e in s.running && e in s.book.executions && t in s.book.executions[e].triggers ==>
            s.book.executions[e].coverage >= steps[m].req.coverage)
  {
    OwedInRuns(wdefs, states, steps, m, n);
    var t, s := states[m].s.book.sequence + 1, states[n].s;
    var c := Asked(t, steps[m].req.task, steps[m].req.coverage);
    forall k | k in s.book.pending && t in s.book.pending[k].triggers
      ensures s.book.pending[k].coverage >= steps[m].req.coverage
    {
      assert TrackedIntent(s.book.pending[k], t, c, false);
    }
    forall e | e in s.running && e in s.book.executions && t in s.book.executions[e].triggers
      ensures s.book.executions[e].coverage >= steps[m].req.coverage
    {
      assert TrackedExecution(e, s.book.executions[e], t, c, false);
    }
  }
}
