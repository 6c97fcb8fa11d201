/** The guarantees of the scheduler read off its invariant, and the places where
    they need a condition. */
module SchedulerGuarantees {
  import opened TaskTypes
  import opened SchedulerSpec
  import opened SchedulerInvariants
  import opened SchedulerRecovery
  import opened Resources
  import opened SchedulerRound
  import opened SchedulerRuns
  import opened SchedulerTheorems

  /** Where a trigger can be held. */
  datatype Holder = InIntent(key: string) | InExecution(execution: Id)

  ghost function Holders(s: Scheduler, t: Id): set<Holder> {
    (set k | k in s.book.pending && t in s.book.pending[k].triggers :: InIntent(k)) +
    (set e | e in s.running && e in s.book.executions && t in s.book.executions[e].triggers :: InExecution(e))
  }

  function KeyOfHolder(s: Scheduler, h: Holder): string {
    match h
    case InIntent(k) => k
    case InExecution(e) => if e in s.book.executions then ExecutionKey(s.book.executions[e]) else ""
  }

  /** No trigger is lost and none is doubled: one that has not ended is in exactly
      one pending intent or running execution, under its own key; one that has
      ended is in none. */
  lemma HeldExactlyOnce(defs: Definitions, s: Scheduler, t: Id)
    requires Sound(defs, s) && t in s.book.triggers
    ensures Terminal(s.book.triggers[t].state) ==> Holders(s, t) == {}
    ensures !Terminal(s.book.triggers[t].state) ==>
      exists h :: Holders(s, t) == {h} && KeyOfHolder(s, h) == TriggerKey(s.book.triggers[t])
  {
    var r := s.book.triggers[t];
    forall k | InIntent(k) in Holders(s, t)
      ensures Queued(r.state) && k == TriggerKey(r)
    {
      assert QueuedUnder(s.book, k, t);
    }
    forall e | InExecution(e) in Holders(s, t)
      ensures Active(r.state) && e == r.execution
    {
      assert CarriedIn(s.book, e, t);
    }
    if Terminal(r.state) {
      forall h | h in Holders(s, t)
        ensures false
      {
        match h { case InIntent(k) => case InExecution(e) => }
      }
    } else {
      assert Placed(s.book, s.running.Keys, t);
      var h := if Active(r.state) then InExecution(r.execution) else InIntent(TriggerKey(r));
      assert h in Holders(s, t);
      assert Holders(s, t) == {h};
      if Active(r.state) { assert CarriedIn(s.book, r.execution, t); }
    }
  }

  /** Write-ahead admission: an execution whose runner has been started is on disk
      as unfinished, with the triggers it carries in memory. */
  lemma StartedIsOnDisk(wdefs: WorkflowDefinitions, states: seq<System>, steps: seq<Step>, n: nat, e: Id)
    requires (forall d :: d in wdefs ==> wdefs[d] != []) && IsRun(wdefs, states, steps) && n < |states|
    requires e in states[n].s.running
    ensures var sys := states[n];
      && e in sys.s.book.executions && e in sys.disk.executions && Unfinished(sys.disk.executions[e].state)
      && sys.disk.executions[e] == sys.s.book.executions[e]
      && forall t :: t in sys.disk.executions[e].triggers && t in sys.s.book.triggers && sys.s.book.triggers[t].durable ==>
           t in sys.disk.triggers && sys.disk.triggers[t] == sys.s.book.triggers[t]
  {
    RunKeeps(wdefs, states, steps, n);
    assert e in LiveSet(states[n].s.book);
  }

  // ------------------------------------------- one execution per key at a time

  /** A second execution of the same task and key can be admitted beside a running
      one exactly when the task's own claims do not exclude each other: the
      scheduler itself does not keep them apart. */
  lemma OverlapIffClaimsAllow(defs: Definitions, s: Scheduler, e: Id, k: string, now: Time)
    requires Sound(defs, s) && e in s.running && k in s.book.pending
    requires s.book.pending[k].task == s.book.executions[e].task && k == ExecutionKey(s.book.executions[e])
    requires Ready(s.book.pending[k], now)
    ensures Candidate(defs, s, k, now) <==> !ClaimsConflict(s.running[e], s.running[e])
  {
    ConflictsIff(s.table, s.running, s.running[e]);
  }

  /** A task whose claims exclude each other runs at most once at a time. */
  lemma SelfExcludingRunsAlone(defs: Definitions, s: Scheduler, e: Id, f: Id)
    requires Sound(defs, s) && e in s.running && f in s.running
    requires s.book.executions[e].task == s.book.executions[f].task
    requires var claims := defs[s.book.executions[e].task].resources; ClaimsConflict(claims, claims)
    ensures e == f
  {
  }

  // ------------------------------------------------------ references that hold

  ghost predicate ReferencesHold(sys: System) {
    Closed(sys.s.book, sys.s.running.Keys)
  }

  ghost predicate SafeCrash(sys: System, step: Step) {
    step.CrashStep? ==> CrashSafe(step.recovering, sys.s.book)
  }

  lemma ReloadClosedIff(sys: System, recovering: Definitions, order: seq<Id>, now: Time)
    requires Consistent(sys) && ReferencesHold(sys) && Enumerates(order, sys.disk.executions.Keys)
    ensures Closed(Reload(recovering, sys.disk, order, now), {}) <==> CrashSafe(recovering, sys.s.book)
  {
    var b := sys.s.book.(periodicNext := sys.disk.periodicNext);
    ReloadIsRestart(sys, recovering, order, now);
    FrameKeeps(sys.s.book, b, sys.s.running.Keys);
    assert LiveSet(b) == LiveSet(sys.s.book);
    RestartClosedIff(recovering, b, order, now);
  }

  lemma CrashReferences(wdefs: WorkflowDefinitions, sys: System, step: Step)
    requires Consistent(sys) && ReferencesHold(sys) && step.CrashStep? && Enabled(wdefs, sys, step)
    ensures ReferencesHold(Apply(wdefs, sys, step)) <==> CrashSafe(step.recovering, sys.s.book)
  {
    ReloadClosedIff(sys, step.recovering, step.interrupted, step.now);
    assert Apply(wdefs, sys, step).s.running.Keys == {};
  }

  /** Every reference the scheduler follows without a check has its record, after
      every step, exactly when no crash strikes while a surviving list mixes
      durable with non-durable triggers. */
  lemma StepReferences(wdefs: WorkflowDefinitions, sys: System, step: Step)
    requires Consistent(sys) && ReferencesHold(sys) && Enabled(wdefs, sys, step)
    ensures ReferencesHold(Apply(wdefs, sys, step)) <==> SafeCrash(sys, step)
  {
    var b, live := sys.s.book, sys.s.running.Keys;
    match step {
      case SubmitStep(req, running, now, persisted) => SubmitKeeps(sys.defs, b, live, running, req, now);
      case RoundStep(tasks, workflows, keys, now) =>
        var p := Prepared(sys.defs, wdefs, sys.s, tasks, workflows, now);
        RoundKeeps(sys.defs, wdefs, sys.s, tasks, workflows, keys, now, ScanNone(sys.defs, AdmitMany(sys.defs, p, keys, now), now));
      case StartStep(e) =>
      case FinishStep(e, outcome, order, removed, now) => FinishSound(sys.defs, wdefs, sys.s, e, outcome, order, removed, now);
      case AdvanceStep(definition, key, quiet, maximum, now, persisted) => AdvanceKeeps(b, live, definition, key, quiet, maximum, now);
      case CrashStep(recovering, registered, interrupted, now) => CrashReferences(wdefs, sys, step);
    }
  }

  /** Over a whole run the references hold as long as every crash is safe. */
  lemma {:induction false} ReferencesHoldInRuns(wdefs: WorkflowDefinitions, states: seq<System>, steps: seq<Step>, n: nat)
    requires (forall d :: d in wdefs ==> wdefs[d] != []) && IsRun(wdefs, states, steps) && n < |states|
    requires forall i :: 0 <= i < |steps| ==> SafeCrash(states[i], steps[i])
    ensures ReferencesHold(states[n])
    decreases n
  {
    if n == 0 {
      var defs, now :| states[0] == Fresh(defs, now);
    } else {
      ReferencesHoldInRuns(wdefs, states, steps, n - 1);
      RunKeeps(wdefs, states, steps, n - 1);
      assert Follows(wdefs, states[n - 1], steps[n - 1], states[n]);
      StepReferences(wdefs, states[n - 1], steps[n - 1]);
    }
  }

  // A run in which a crash is unsafe.

  function RetryingTask(): Definitions {
    map["inventory" := Definition(0, [], false, 0, PRIORITY_PERIODIC, RetryPolicy(3, 0, 0), RecoveryRetry, true, (active, kind) => true)]
  }

  function ManualRun(): Request { Request("inventory", Manual, PRIORITY_MANUAL, true, "", 0, 0, 0, "", "") }

  function PeriodicTick(): Request { Request("inventory", Periodic, PRIORITY_PERIODIC, false, "", 0, 0, 0, "", "") }

  /** The record after the manual run has been submitted and the tick joined it. */
  function MixedBook(): Book {
    var key := IntentKey("inventory", "");
    var b := Enqueue(Fresh(RetryingTask(), 1).s.book, key, ManualRun(), 2);
    if key in b.pending then Coalesce(b, key, PeriodicTick(), 3) else b
  }

  lemma MixedBookFacts(key: string)
    requires key == IntentKey("inventory", "")
    ensures var b := MixedBook();
      && b.pending.Keys == {key} && b.pending[key].triggers == [1, 3] && b.executions == map[]
      && b.triggers.Keys == {1, 3} && b.triggers[1].durable && !b.triggers[3].durable && !Terminal(b.triggers[3].state)
  {
  }

  lemma MixedBookReached() returns (states: seq<System>, steps: seq<Step>)
    ensures IsRun(map[], states, steps) && |steps| == 2
    ensures states[2].s.book == MixedBook() && states[2].disk == PersistedView(MixedBook())
  {
    var defs := RetryingTask();
    var step0, step1 := SubmitStep(ManualRun(), [], 2, true), SubmitStep(PeriodicTick(), [], 3, true);
    assert Normalized(defs["inventory"], ManualRun()) == ManualRun();
    assert Normalized(defs["inventory"], PeriodicTick()) == PeriodicTick();
    RunStarts(map[], defs, 1);
    var sys1 := Apply(map[], Fresh(defs, 1), step0);
    assert sys1.s.book == Enqueue(Fresh(defs, 1).s.book, IntentKey("inventory", ""), ManualRun(), 2);
    RunGoesOn(map[], [Fresh(defs, 1)], [], step0, sys1);
    var sys2 := Apply(map[], sys1, step1);
    states, steps := [Fresh(defs, 1)] + [sys1], [] + [step0];
    RunGoesOn(map[], states, steps, step1, sys2);
    states, steps := states + [sys2], steps + [step1];
  }

  /** Some intent names a trigger that has no record. */
  ghost predicate NamesNoRecord(b: Book) {
    exists k, t :: k in b.pending && t in b.pending[k].triggers && t !in b.triggers
  }

  lemma MixedBookCrashes(sys: System, key: string) returns (sys': System, crash: Step)
    requires key == IntentKey("inventory", "") && sys.disk == PersistedView(MixedBook())
    ensures crash.CrashStep? && Follows(map[], sys, crash, sys')
    ensures NamesNoRecord(sys'.s.book)
  {
    MixedBookFacts(key);
    assert HasDurable(MixedBook().triggers, [1, 3]) by { assert 1 in [1, 3]; }
    assert 3 in [1, 3];
    crash := CrashStep(RetryingTask(), RetryingTask(), [], 4);
    sys' := Apply(map[], sys, crash);
    assert key in sys'.s.book.pending && 3 in sys'.s.book.pending[key].triggers && 3 !in sys'.s.book.triggers;
  }

  /** Such a crash is within reach: a manual run is waiting, its periodic tick
      joins it, the process dies.  The next process holds an intent that names a
      trigger without a record. */
  lemma UnsafeCrashIsReachable() returns (states: seq<System>, steps: seq<Step>)
    ensures IsRun(map[], states, steps) && |steps| == 3 && steps[2].CrashStep?
    ensures NamesNoRecord(states[3].s.book)
  {
    states, steps := MixedBookReached();
    var sys', crash := MixedBookCrashes(states[2], IntentKey("inventory", ""));
    RunGoesOn(map[], states, steps, crash, sys');
    states, steps := states + [sys'], steps + [crash];
  }
}
