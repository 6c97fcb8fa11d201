/** A journaled removal is urgent work: once handed to the scheduler it waits with the
    priority of a mutation, and whatever interruptible work is in its way is asked to
    stop. */
module RemovalUrgency {
  import opened TaskTypes
  import opened SchedulerSpec
  import opened SchedulerLookup
  import opened SchedulerInvariants
  import opened Resources
  import opened SchedulerRound
  import opened SchedulerRuns
  import opened SchedulerHeld
  import opened SubmissionOutcomes
  import opened RemovalJournal

  /** The intent of the removal: urgent, kept over a restart, and about this event. */
  ghost predicate Urges(b: Book, id: nat) {
    && RemovalKey(id) in b.pending
    && var i := b.pending[RemovalKey(id)];
    && i.priority >= PRIORITY_MUTATION && i.payload == Digits(id)
    && exists t :: t in i.triggers && t in b.triggers && b.triggers[t].durable && b.triggers[t].state.Pending? && RecordOf(b.triggers[t], id)
  }

  /** ... and nothing has to be waited for. */
  ghost predicate UrgesNow(b: Book, id: nat) {
    && Urges(b, id)
    && var i := b.pending[RemovalKey(id)]; i.task == REMOVAL && i.key == OperationKey(id) && i.notBefore == 0 && i.deadline == 0
  }

  /** Nothing of this removal waits or runs. */
  ghost predicate Unheard(b: Book, running: set<Id>, id: nat) {
    && RemovalKey(id) !in b.pending
    && forall e :: e in running && e in b.executions ==> ExecutionKey(b.executions[e]) != RemovalKey(id)
  }

  /** The running execution of this very removal takes the trigger. */
  ghost predicate AlreadyRuns(b: Book, running: set<Id>, id: nat) {
    exists e :: e in running && e in b.executions && b.executions[e].task == REMOVAL && ExecutionKey(b.executions[e]) == RemovalKey(id)
  }

  /** What handing over a removal leaves behind. */
  ghost predicate Hastened(b: Book, running: set<Id>, id: nat, b': Book) {
    && (Urges(b', id) || AlreadyRuns(b, running, id))
    && (Unheard(b, running, id) ==> UrgesNow(b', id))
  }

  lemma RemovalUrges(defs: Definitions, b: Book, running: map<Id, seq<Claim>>, order: seq<Id>, id: nat, now: Time)
    requires Covers(order, running) && Submit(defs, b, order, RemovalRequest(id), now).Ok?
    ensures var b' := Submit(defs, b, order, RemovalRequest(id), now).value.0; Hastened(b, running.Keys, id, b')
  {
    var (b', receipt) := Submit(defs, b, order, RemovalRequest(id), now).value;
    SubmitTakesIn(defs, b, order, RemovalRequest(id), now);
    var r :| Resolves(defs[REMOVAL], RemovalRequest(id), r) && RequestTaken(defs[REMOVAL], b, order, r, now, b', receipt);
    assert RecordedAs(b', r, now, receipt.trigger);
    assert Digits(id) != "" by { DigitsNonEmpty(id); }
    if !receipt.disposition.AsAttached? {
      assert QueuedIn(b, RemovalKey(id), r, now, b', receipt.trigger);
      assert receipt.trigger in b'.pending[RemovalKey(id)].triggers;
    }
  }

  // -------------------------------------------------------------- in every run

  lemma RecordBehind(core: System, events: map<nat, Entry>, id: nat, t: Id)
    requires RecordsKnown(core.s.book, events) && HeldAt(core.s.book, core.s.running.Keys, RemovalKey(id))
    requires HeldUnder(core.s.book, core.s.running.Keys, RemovalKey(id), t)
    requires t in core.s.book.triggers ==> TriggerKey(core.s.book.triggers[t]) == RemovalKey(id)
    ensures t in core.s.book.triggers && RecordOf(core.s.book.triggers[t], id)
  {
    var r := core.s.book.triggers[t];
    assert KnownRecord(events, r);
    assert NoNul(REMOVAL);
    IntentKeyTells(r.task, r.key, REMOVAL, id);
  }

  /** A removal without a record is neither waiting nor running. */
  lemma NoRecordUnheard(core: System, events: map<nat, Entry>, id: nat)
    requires Consistent(core) && RemovalsHeld(core) && RecordsKnown(core.s.book, events)
    requires NoRecord(core.s.book, id)
    ensures Unheard(core.s.book, core.s.running.Keys, id)
  {
    var b, live := core.s.book, core.s.running.Keys;
    assert HeldAt(b, live, RemovalKey(id));
    if RemovalKey(id) in b.pending {
      var t := b.pending[RemovalKey(id)].triggers[0];
      assert t in b.pending[RemovalKey(id)].triggers && QueuedUnder(b, RemovalKey(id), t);
      RecordBehind(core, events, id, t);
      assert false;
    }
    forall e | e in live && e in b.executions
      ensures ExecutionKey(b.executions[e]) != RemovalKey(id)
    {
      if ExecutionKey(b.executions[e]) == RemovalKey(id) {
        var t := b.executions[e].triggers[0];
        assert t in b.executions[e].triggers && CarriedIn(b, e, t);
        RecordBehind(core, events, id, t);
        assert false;
      }
    }
  }

  /** Handing over an admitted removal, in any state a run can be in, makes it urgent. */
  lemma ScheduledUrges(wdefs: WorkflowDefinitions, j: Journaled, step: JStep)
    requires JInvariant(j) && step.Schedule? && JEnabled(wdefs, j, step) && step.persisted && REMOVAL in j.core.defs
    ensures UrgesNow(JApply(wdefs, j, step).core.s.book, step.id)
  {
    SubmitTakesIn(j.core.defs, j.core.s.book, step.running, RemovalRequest(step.id), step.now);
    NoRecordUnheard(j.core, j.events, step.id);
    RemovalUrges(j.core.defs, j.core.s.book, j.core.s.running, step.running, step.id, step.now);
  }

  lemma NoLatestNoRecord(b: Book, id: nat)
    requires IsLatest(b.triggers, REMOVAL, OperationKey(id), None)
    ensures NoRecord(b, id)
  {
    forall t | t in b.triggers
      ensures !RecordOf(b.triggers[t], id)
    {
      assert !Matches(b.triggers[t], REMOVAL, OperationKey(id));
    }
  }

  /** So does submitting it again after a restart. */
  lemma RecoveredUrges(wdefs: WorkflowDefinitions, j: Journaled, step: JStep)
    requires JInvariant(j) && step.Recover? && JEnabled(wdefs, j, step) && Resubmits(j, step)
    ensures UrgesNow(JApply(wdefs, j, step).core.s.book, j.phase.todo[0])
  {
    var id := j.phase.todo[0];
    RecoverStep(wdefs, j, step);
    NoLatestNoRecord(j.core.s.book, id);
    NoRecordUnheard(j.core, j.events, id);
    RemovalUrges(j.core.defs, j.core.s.book, j.core.s.running, [], id, step.now);
  }

  lemma FollowsUrges(wdefs: WorkflowDefinitions, j: Journaled, step: JStep, j': Journaled)
    requires JInvariant(j) && JFollows(wdefs, j, step, j')
    ensures step.Schedule? && step.persisted && REMOVAL in j.core.defs ==> UrgesNow(j'.core.s.book, step.id)
    ensures step.Recover? && j.phase.Recovering? && j.phase.todo != [] && j.phase.todo[0] in j.events && Resubmits(j, step) ==>
      UrgesNow(j'.core.s.book, j.phase.todo[0])
  {
    if step.Schedule? && step.persisted && REMOVAL in j.core.defs { ScheduledUrges(wdefs, j, step); }
    if step.Recover? && Resubmits(j, step) { RecoveredUrges(wdefs, j, step); }
  }

  /** In every run, with any crashes, a removal that the scheduler takes, at first or
      after a restart, waits as urgent work that is ready at once. */
  lemma RemovalsAreUrgent(wdefs: WorkflowDefinitions, states: seq<Journaled>, steps: seq<JStep>, n: nat)
    requires IsJRun(wdefs, states, steps) && n < |steps|
    ensures var j, step := states[n], steps[n];
      && (step.Schedule? && step.persisted && REMOVAL in j.core.defs ==> UrgesNow(states[n + 1].core.s.book, step.id))
      && (step.Recover? && j.phase.Recovering? && j.phase.todo != [] && j.phase.todo[0] in j.events && Resubmits(j, step) ==>
            UrgesNow(states[n + 1].core.s.book, j.phase.todo[0]))
  {
    JRunKeeps(wdefs, states, steps, n);
    FollowsUrges(wdefs, states[n], steps[n], states[n + 1]);
  }

  // --------------------------------------------------------------- preemption

  /** What waits keeps waiting, and no less urgently. */
  ghost predicate KeepsWaiting(b: Book, b': Book, key: string) {
    key in b.pending ==> key in b'.pending && b'.pending[key].task == b.pending[key].task && b'.pending[key].priority >= b.pending[key].priority
  }

  /** Running work keeps its claims on record and its priority. */
  ghost predicate SamePriority(b: Book, b': Book, e: Id) {
    e in b.executions ==> e in b'.executions && b'.executions[e].task == b.executions[e].task && b'.executions[e].priority == b.executions[e].priority
  }

  lemma SubmitKeepsWaiting(defs: Definitions, b: Book, running: seq<Id>, req: Request, now: Time, key: string, e: Id)
    requires Submit(defs, b, running, req, now).Ok?
    ensures var b' := Submit(defs, b, running, req, now).value.0; KeepsWaiting(b, b', key) && SamePriority(b, b', e)
  {
  }

  lemma {:induction false} TickTasksKeepWaiting(defs: Definitions, b: Book, visits: seq<Visit>, now: Time, key: string, e: Id)
    requires forall v :: v in visits ==> v.subject in defs
    ensures var b' := TickTasks(defs, b, visits, now); KeepsWaiting(b, b', key) && SamePriority(b, b', e)
    decreases |visits|
  {
    if visits != [] {
      var v := visits[0];
      var req := PeriodicRequest(v.subject, DueTime(b, v.subject));
      if Submit(defs, b, v.running, req, now).Ok? { SubmitKeepsWaiting(defs, b, v.running, req, now, key, e); }
      TickTasksKeepWaiting(defs, TickTask(defs, b, v.running, v.subject, now), visits[1..], now, key, e);
    }
  }

  lemma TickWorkflowKeepsWaiting(defs: Definitions, wdefs: WorkflowDefinitions, b: Book, running: seq<Id>, instance: string, now: Time, key: string, e: Id)
    requires instance in b.workflows
    ensures var b' := TickWorkflow(defs, wdefs, b, running, instance, now); KeepsWaiting(b, b', key) && SamePriority(b, b', e)
  {
    var w := b.workflows[instance];
    if w.definition in wdefs && w.step < |wdefs[w.definition]| {
      var req := StepRequest(wdefs[w.definition][w.step], instance, w, now);
      if Submit(defs, b, running, req, now).Ok? { SubmitKeepsWaiting(defs, b, running, req, now, key, e); }
    }
  }

  lemma {:induction false} TickWorkflowsKeepWaiting(defs: Definitions, wdefs: WorkflowDefinitions, b: Book, visits: seq<Visit>, now: Time, key: string, e: Id)
    requires forall v :: v in visits ==> v.subject in b.workflows
    ensures var b' := TickWorkflows(defs, wdefs, b, visits, now); KeepsWaiting(b, b', key) && SamePriority(b, b', e)
    decreases |visits|
  {
    if visits != [] {
      var v := visits[0];
      TickWorkflowKeepsWaiting(defs, wdefs, b, v.running, v.subject, now, key, e);
      TickWorkflowsKeepWaiting(defs, wdefs, TickWorkflow(defs, wdefs, b, v.running, v.subject, now), visits[1..], now, key, e);
    }
  }

  /** The running execution stands in the way of waiting mutation work. */
  ghost predicate StandsInTheWay(defs: Definitions, b: Book, running: map<Id, seq<Claim>>, key: string, e: Id) {
    && key in b.pending && b.pending[key].task in defs && b.pending[key].priority >= PRIORITY_MUTATION
    && e in running && e in b.executions && b.executions[e].task in defs && defs[b.executions[e].task].interruptible
    && b.executions[e].priority < b.pending[key].priority
    && Excludes(defs[b.pending[key].task].resources, running[e])
  }

  lemma PreemptsWhatStands(defs: Definitions, b: Book, running: map<Id, seq<Claim>>, e: Id)
    requires e in b.executions
    ensures var b' := Preempt(defs, b, running);
      e in b'.executions
      && b'.executions[e] == if exists k :: StandsInTheWay(defs, b, running, k, e) then b.executions[e].(state := ExCancelling) else b.executions[e]
  {
    forall k
      ensures (k in b.pending && Yields(defs, b, running, k, e)) <==> StandsInTheWay(defs, b, running, k, e)
    {
      if k in b.pending && b.pending[k].task in defs && e in running { ExcludesIff(defs[b.pending[k].task].resources, running[e]); }
    }
  }

  /** Whatever stands in the way of waiting mutation work when a round begins is asked
      to stop in that round. */
  lemma RoundPreempts(defs: Definitions, wdefs: WorkflowDefinitions, s: Scheduler, tasks: seq<Visit>, workflows: seq<Visit>, now: Time, key: string, e: Id)
    requires ValidVisits(defs, s, tasks, workflows) && StandsInTheWay(defs, s.book, s.running, key, e)
    ensures var b := Prepared(defs, wdefs, s, tasks, workflows, now).book; e in b.executions && b.executions[e].state.ExCancelling?
  {
    TickTasksKeepsWorkflows(defs, s.book, tasks, now);
    var b1 := TickTasks(defs, s.book, tasks, now);
    var b2 := TickWorkflows(defs, wdefs, b1, workflows, now);
    TickTasksKeepWaiting(defs, s.book, tasks, now, key, e);
    TickWorkflowsKeepWaiting(defs, wdefs, b1, workflows, now, key, e);
    assert StandsInTheWay(defs, b2, s.running, key, e);
    PreemptsWhatStands(defs, b2, s.running, e);
  }

  /** Interruptible work of lower priority that shares a resource with an urgent
      removal is asked to stop in the next round. */
  lemma RemovalPreempts(defs: Definitions, wdefs: WorkflowDefinitions, s: Scheduler, tasks: seq<Visit>, workflows: seq<Visit>, now: Time, id: nat, e: Id)
    requires ValidVisits(defs, s, tasks, workflows) && UrgesNow(s.book, id) && REMOVAL in defs
    requires e in s.running && e in s.book.executions && s.book.executions[e].task in defs && defs[s.book.executions[e].task].interruptible
    requires s.book.executions[e].priority < PRIORITY_MUTATION && Excludes(defs[REMOVAL].resources, s.running[e])
    ensures var b := Prepared(defs, wdefs, s, tasks, workflows, now).book; e in b.executions && b.executions[e].state.ExCancelling?
  {
    assert StandsInTheWay(defs, s.book, s.running, RemovalKey(id), e);
    RoundPreempts(defs, wdefs, s, tasks, workflows, now, RemovalKey(id), e);
  }
}
