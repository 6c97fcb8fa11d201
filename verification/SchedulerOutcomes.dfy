/** What an operation means, read off the records before and after it.  The end of an
    execution: for each trigger it carried, for the intent its triggers go back to,
    and for the workflows that waited for it.  An advance: for the dates of the
    instance, and for the trigger it supersedes. */
module SchedulerOutcomes {
  import opened TaskTypes
  import opened SchedulerSpec
  import opened SchedulerInvariants
  import opened SchedulerRecovery
  import opened SchedulerRound
  import opened SchedulerTiming
  import opened SchedulerHistory

  function Max(a: int, b: int): int { if a >= b then a else b }

  // ----------------------------------------------------------------- triggers

  /** The trigger is in the intent of this key and nowhere else. */
  ghost predicate OnlyIn(s: Scheduler, key: string, t: Id) {
    && key in s.book.pending && t in s.book.pending[key].triggers
    && (forall k :: k in s.book.pending && k != key ==> t !in s.book.pending[k].triggers)
    && (forall f :: f in s.running && f in s.book.executions ==> t !in s.book.executions[f].triggers)
  }

  /** The intent of the execution's key: what waited there before, raised to what the
      execution carried, or a new intent with all of that. */
  ghost predicate TakenBack(b: Book, x: Execution, earliest: Time, now: Time, i: Intent) {
    var key := ExecutionKey(x);
    if key in b.pending then
      var j := b.pending[key];
      && i.id == j.id && i.task == j.task && i.key == j.key && i.payload == j.payload
      && i.deadline == j.deadline && i.createdAt == j.createdAt
      && i.attempt == Max(j.attempt, x.attempt + 1) && i.priority == Max(j.priority, x.priority)
      && i.coverage == Max(j.coverage, x.coverage) && i.notBefore == Max(j.notBefore, earliest)
    else
      && i.task == x.task && i.key == x.key && i.payload == x.payload && i.deadline == 0 && i.createdAt == now
      && i.attempt == x.attempt + 1 && i.priority == x.priority && i.coverage == x.coverage && i.notBefore == earliest
  }

  /** The trigger waits for a later attempt. */
  ghost predicate WaitsAgain(s: Scheduler, x: Execution, earliest: Time, now: Time, s': Scheduler, t: Id) {
    var key := ExecutionKey(x);
    && t in s'.book.triggers && s'.book.triggers[t].state.Pending? && OnlyIn(s', key, t)
    && s'.book.triggers[t].target == s'.book.pending[key].id && s'.book.triggers[t].notBefore == s'.book.pending[key].notBefore
    && TakenBack(s.book, x, earliest, now, s'.book.pending[key])
  }

  /** The trigger has ended, and its record is kept unless history was trimmed. */
  ghost predicate EndedAs(s: Scheduler, removed: set<Id>, s': Scheduler, t: Id, state: TriggerState, now: Time) {
    if t in s'.book.triggers then s'.book.triggers[t].state == state && s'.book.triggers[t].finishedAt == now
    else exists r :: r in removed && r in s.book.executions && t in s.book.executions[r].triggers
  }

  /** When a delay that starts now is over; one that is not positive asks for no wait. */
  function From(delay: int, now: Time): Time { if delay > 0 then now + delay else 0 }

  /** What becomes of a trigger that execution e carried. */
  ghost predicate Disposed(d: Definition, s: Scheduler, e: Id, outcome: Outcome, removed: set<Id>, now: Time, s': Scheduler, t: Id)
    requires e in s.book.executions
  {
    var x := s.book.executions[e];
    match outcome
    case Succeeded(_) => EndedAs(s, removed, s', t, Fulfilled, now)
    case Errored(retryable) =>
      if retryable && x.attempt < d.retry.maxAttempts then WaitsAgain(s, x, From(DelayAfter(d.retry, x.attempt), now), now, s', t)
      else EndedAs(s, removed, s', t, Failed, now)
    case Canceled =>
      if d.recovery.RecoveryRetry? then WaitsAgain(s, x, From(d.interruptionDelay, now), now, s', t)
      else EndedAs(s, removed, s', t, Attention, now)
  }

  function DelayOf(d: Definition, x: Execution, outcome: Outcome): int {
    if outcome.Canceled? then d.interruptionDelay else DelayAfter(d.retry, x.attempt)
  }

  lemma ConcludeRequeues(d: Definition, wdefs: WorkflowDefinitions, b: Book, e: Id, outcome: Outcome, order: seq<string>, now: Time)
    requires e in b.executions && b.executions[e].attempt >= 1 && MayRequeue(d, b.executions[e], outcome)
    ensures Conclude(d, wdefs, b, e, outcome, order, now) == Requeue(EndExecution(b, e, outcome, now), e, DelayOf(d, b.executions[e], outcome), now)
  {
    RetryDelayClosedForm(d.retry, b.executions[e].attempt);
  }

  lemma RequeueTakesBack(b: Book, e: Id, delay: int, now: Time, t: Id)
    requires e in b.executions && t in b.triggers && t in b.executions[e].triggers
    ensures var b', x := Requeue(b, e, delay, now), b.executions[e]; var key := ExecutionKey(x);
      && t in b'.triggers && b'.triggers[t].state.Pending?
      && key in b'.pending && t in b'.pending[key].triggers
      && b'.triggers[t].target == b'.pending[key].id && b'.triggers[t].notBefore == b'.pending[key].notBefore
      && TakenBack(b, x, From(delay, now), now, b'.pending[key])
  {
    var x := b.executions[e];
    AppendUniqueProperties(if ExecutionKey(x) in b.pending then b.pending[ExecutionKey(x)].triggers else [], x.triggers);
  }

  /** A queued trigger is under its own key, so in one intent and in no execution. */
  lemma QueuedOnce(defs: Definitions, s: Scheduler, key: string, t: Id)
    requires Sound(defs, s) && t in s.book.triggers && Queued(s.book.triggers[t].state)
    requires key in s.book.pending && t in s.book.pending[key].triggers
    ensures OnlyIn(s, key, t)
  {
    assert QueuedUnder(s.book, key, t);
    forall k | k in s.book.pending && t in s.book.pending[k].triggers
      ensures k == key
    {
      assert QueuedUnder(s.book, k, t);
    }
    forall f | f in s.running && f in s.book.executions
      ensures t !in s.book.executions[f].triggers
    {
      assert t in s.book.executions[f].triggers ==> CarriedIn(s.book, f, t);
    }
  }

  /** Trimming history leaves what waits. */
  lemma ForgetWaiting(b: Book, removed: set<Id>, t: Id)
    requires t in b.triggers && b.triggers[t].state.Pending?
    ensures var b' := Forget(b, removed); t in b'.triggers && b'.triggers[t] == b.triggers[t] && b'.pending == b.pending
  {
  }

  lemma RequeuedOnly(defs: Definitions, wdefs: WorkflowDefinitions, s: Scheduler, e: Id, outcome: Outcome,
                     order: seq<string>, removed: set<Id>, now: Time, key: string, t: Id)
    requires Sound(defs, s) && e in s.running && s.book.executions[e].task in defs
    requires ValidTrim(Concluded(defs, wdefs, s, e, outcome, order, now), s.running.Keys - {e}, HISTORY_LIMIT, removed)
    requires var b := Finished(defs, wdefs, s, e, outcome, order, removed, now).book;
      t in b.triggers && b.triggers[t].state.Pending? && key in b.pending && t in b.pending[key].triggers
    ensures OnlyIn(Finished(defs, wdefs, s, e, outcome, order, removed, now), key, t)
  {
    FinishSound(defs, wdefs, s, e, outcome, order, removed, now);
    QueuedOnce(defs, Finished(defs, wdefs, s, e, outcome, order, removed, now), key, t);
  }

  lemma RequeuedWaits(defs: Definitions, wdefs: WorkflowDefinitions, s: Scheduler, e: Id, outcome: Outcome,
                      order: seq<string>, removed: set<Id>, now: Time, t: Id)
    requires Sound(defs, s) && e in s.running && s.book.executions[e].task in defs
    requires ValidTrim(Concluded(defs, wdefs, s, e, outcome, order, now), s.running.Keys - {e}, HISTORY_LIMIT, removed)
    requires MayRequeue(defs[s.book.executions[e].task], s.book.executions[e], outcome)
    requires t in s.book.executions[e].triggers && t in s.book.triggers
    ensures var x := s.book.executions[e];
      WaitsAgain(s, x, From(DelayOf(defs[x.task], x, outcome), now), now, Finished(defs, wdefs, s, e, outcome, order, removed, now), t)
  {
    var x := s.book.executions[e];
    var b1, delay := EndExecution(s.book, e, outcome, now), DelayOf(defs[x.task], x, outcome);
    ConcludeRequeues(defs[x.task], wdefs, s.book, e, outcome, order, now);
    RequeueTakesBack(b1, e, delay, now, t);
    ForgetWaiting(Requeue(b1, e, delay, now), removed, t);
    RequeuedOnly(defs, wdefs, s, e, outcome, order, removed, now, ExecutionKey(x), t);
  }

  lemma {:induction false} SatisfyAllEnded(wdefs: WorkflowDefinitions, b: Book, order: seq<string>, x: Execution, now: Time, t: Id)
    requires t in b.triggers && Terminal(b.triggers[t].state)
    ensures var b' := SatisfyAll(wdefs, b, order, x, now); t in b'.triggers && b'.triggers[t] == b.triggers[t]
    decreases |order|
  {
    if order != [] {
      if order[0] in b.workflows { SatisfyAllEnded(wdefs, SatisfyOne(wdefs, b, order[0], x, now), order[1..], x, now, t); }
      else { SatisfyAllEnded(wdefs, b, order[1..], x, now, t); }
    }
  }

  /** What an ended execution leaves when it does not go back to the queue. */
  function EndState(outcome: Outcome): TriggerState {
    match outcome case Succeeded(_) => Fulfilled case Errored(_) => Failed case Canceled => Attention
  }

  lemma SettledEnds(d: Definition, wdefs: WorkflowDefinitions, b: Book, e: Id, outcome: Outcome, order: seq<string>, now: Time, t: Id)
    requires e in b.executions && !MayRequeue(d, b.executions[e], outcome)
    requires t in b.executions[e].triggers && t in b.triggers
    ensures var b' := Conclude(d, wdefs, b, e, outcome, order, now);
      t in b'.triggers && b'.triggers[t].state == EndState(outcome) && b'.triggers[t].finishedAt == now
  {
    var b1 := EndExecution(b, e, outcome, now);
    if outcome.Succeeded? { SatisfyAllEnded(wdefs, Settle(b1, e, Fulfilled, now), order, b1.executions[e], now, t); }
  }

  lemma ForgottenWas(b: Book, removed: set<Id>, t: Id)
    requires t in b.triggers && t !in Forget(b, removed).triggers
    ensures exists r :: r in removed && r in b.executions && t in b.executions[r].triggers
  {
  }

  lemma SettledStays(defs: Definitions, wdefs: WorkflowDefinitions, s: Scheduler, e: Id, outcome: Outcome,
                     order: seq<string>, removed: set<Id>, now: Time, t: Id)
    requires Sound(defs, s) && e in s.running && s.book.executions[e].task in defs
    requires !MayRequeue(defs[s.book.executions[e].task], s.book.executions[e], outcome)
    requires t in s.book.executions[e].triggers && t in s.book.triggers
    ensures EndedAs(s, removed, Finished(defs, wdefs, s, e, outcome, order, removed, now), t, EndState(outcome), now)
  {
    var d, b := defs[s.book.executions[e].task], s.book;
    var b1 := Concluded(defs, wdefs, s, e, outcome, order, now);
    SettledEnds(d, wdefs, b, e, outcome, order, now, t);
    ConcludeExecutions(d, wdefs, b, e, outcome, order, now);
    if t !in Forget(b1, removed).triggers {
      ForgottenWas(b1, removed, t);
      var r :| r in removed && r in b1.executions && t in b1.executions[r].triggers;
      assert r in b.executions && t in b.executions[r].triggers;
    }
  }

  /** Every trigger of a finished execution gets what the outcome and the task say:
      another attempt not before its time, or its end. */
  lemma FinishDisposes(defs: Definitions, wdefs: WorkflowDefinitions, s: Scheduler, e: Id, outcome: Outcome,
                       order: seq<string>, removed: set<Id>, now: Time, t: Id)
    requires Sound(defs, s) && e in s.running && s.book.executions[e].task in defs
    requires ValidTrim(Concluded(defs, wdefs, s, e, outcome, order, now), s.running.Keys - {e}, HISTORY_LIMIT, removed)
    requires t in s.book.executions[e].triggers && t in s.book.triggers
    ensures Disposed(defs[s.book.executions[e].task], s, e, outcome, removed, now, Finished(defs, wdefs, s, e, outcome, order, removed, now), t)
  {
    if MayRequeue(defs[s.book.executions[e].task], s.book.executions[e], outcome) {
      RequeuedWaits(defs, wdefs, s, e, outcome, order, removed, now, t);
    } else {
      SettledStays(defs, wdefs, s, e, outcome, order, removed, now, t);
    }
  }

  // ---------------------------------------------------------------- workflows

  /** The instance waited for this very success: its current step is the task, and
      the execution did not start before the step was ready. */
  predicate Awaits(wdefs: WorkflowDefinitions, w: Workflow, x: Execution) {
    && !w.state.WfSucceeded? && w.definition in wdefs && w.step < |wdefs[w.definition]|
    && wdefs[w.definition][w.step] == x.task && w.readyAfter <= x.startedAt
  }

  /** One step further, ready from now on; after the last step it has succeeded. */
  predicate OneStepOn(wdefs: WorkflowDefinitions, w: Workflow, now: Time, w': Workflow)
    requires w.definition in wdefs
  {
    && w'.step == w.step + 1 && w'.readyAfter == now && w'.trigger == 0
    && w'.state == (if w'.step == |wdefs[w.definition]| then WfSucceeded else WfPending)
    && w'.definition == w.definition && w'.revision == w.revision && w'.notBefore == w.notBefore && w'.deadline == w.deadline
  }

  /** Some trigger of the execution was submitted for this instance. */
  predicate AskedBy(b: Book, x: Execution, instance: string) {
    instance != "" && exists t :: t in x.triggers && t in b.triggers && b.triggers[t].workflow == instance
  }

  /** What becomes of an instance when an execution ends. */
  ghost predicate Answered(wdefs: WorkflowDefinitions, d: Definition, b: Book, x: Execution, outcome: Outcome, now: Time,
                           instance: string, w: Workflow, w': Workflow) {
    match outcome
    case Succeeded(_) => if Awaits(wdefs, w, x) then OneStepOn(wdefs, w, now, w') else w' == w
    case Errored(retryable) =>
      if !(retryable && x.attempt < d.retry.maxAttempts) && AskedBy(b, x, instance)
      then w' == w.(state := WfAttention, trigger := 0) else w' == w
    case Canceled => w' == w
  }

  lemma {:induction false} SatisfyAllMoves(wdefs: WorkflowDefinitions, b: Book, order: seq<string>, x: Execution, now: Time, instance: string)
    requires instance in b.workflows && forall i, j :: 0 <= i < j < |order| ==> order[i] != order[j]
    ensures var w, w' := b.workflows[instance], SatisfyAll(wdefs, b, order, x, now).workflows[instance];
      if instance in order && Awaits(wdefs, w, x) then OneStepOn(wdefs, w, x.finishedAt, w') else w' == w
    decreases |order|
  {
    if order != [] {
      var b1 := if order[0] in b.workflows then SatisfyOne(wdefs, b, order[0], x, now) else b;
      SatisfyAllMoves(wdefs, b1, order[1..], x, now, instance);
      assert instance in order <==> instance == order[0] || instance in order[1..];
    }
  }

  /** A success moves on every instance that waited for it, and no other; a failure
      that is not retried stops every instance that asked for it. */
  lemma FinishAnswers(defs: Definitions, wdefs: WorkflowDefinitions, s: Scheduler, e: Id, outcome: Outcome,
                      order: seq<string>, removed: set<Id>, now: Time, instance: string)
    requires e in s.running && e in s.book.executions && s.book.executions[e].task in defs
    requires Enumerates(order, s.book.workflows.Keys) && instance in s.book.workflows
    ensures var s', x := Finished(defs, wdefs, s, e, outcome, order, removed, now), s.book.executions[e];
      instance in s'.book.workflows
      && Answered(wdefs, defs[x.task], s.book, x, outcome, now, instance, s.book.workflows[instance], s'.book.workflows[instance])
  {
    var b1 := EndExecution(s.book, e, outcome, now);
    if outcome.Succeeded? {
      SatisfyAllMoves(wdefs, Settle(b1, e, Fulfilled, now), order, b1.executions[e], now, instance);
    } else if outcome.Errored? {
      var settled := Settle(b1, e, Failed, now);
      assert forall t :: t in settled.triggers <==> t in s.book.triggers;
      assert forall t :: t in s.book.triggers ==> settled.triggers[t].workflow == s.book.triggers[t].workflow;
    }
  }

  /** The execution is over, and how it ended is on record.  Of an execution that history
      drops, the ended triggers go with it. */
  lemma FinishRecords(defs: Definitions, wdefs: WorkflowDefinitions, s: Scheduler, e: Id, outcome: Outcome,
                      order: seq<string>, removed: set<Id>, now: Time)
    requires e in s.running && e in s.book.executions && s.book.executions[e].task in defs
    ensures var s' := Finished(defs, wdefs, s, e, outcome, order, removed, now);
      && e !in s'.running
      && (forall f :: f in s'.book.executions <==> f in s.book.executions && f !in removed)
      && (forall f :: f in s'.book.executions && f != e ==> s'.book.executions[f] == s.book.executions[f])
      && (e !in removed ==>
            && s'.book.executions[e].finishedAt == now
            && s'.book.executions[e].state == (match outcome case Canceled => ExInterrupted case Errored(_) => ExFailed
                                                             case Succeeded(degraded) => if degraded then ExDegraded else ExSucceeded))
      && (forall r, t :: r in removed && r in s.book.executions && t in s.book.executions[r].triggers && t in s'.book.triggers ==>
            !Terminal(s'.book.triggers[t].state))
  {
    var b1 := Concluded(defs, wdefs, s, e, outcome, order, now);
    ConcludeExecutions(defs[s.book.executions[e].task], wdefs, s.book, e, outcome, order, now);
    forall r, t | r in removed && r in s.book.executions && t in s.book.executions[r].triggers
      ensures t in CarriedBy(b1, removed)
    {
      assert r in b1.executions && t in b1.executions[r].triggers;
    }
  }

  lemma TrimBounds(b: Book, live: set<Id>, limit: nat, removed: set<Id>)
    requires ValidTrim(b, live, limit, removed)
    ensures |b.executions - removed| <= limit || (b.executions - removed).Keys <= live
  {
    assert (b.executions - removed).Keys == b.executions.Keys - removed;
    assert |(b.executions - removed).Keys| == |b.executions.Keys| - |removed|;
  }

  /** At most 500 executions stay on record, or only running ones. */
  lemma HistoryIsBounded(defs: Definitions, wdefs: WorkflowDefinitions, s: Scheduler, e: Id, outcome: Outcome,
                         order: seq<string>, removed: set<Id>, now: Time)
    requires e in s.running && e in s.book.executions && s.book.executions[e].task in defs
    requires ValidTrim(Concluded(defs, wdefs, s, e, outcome, order, now), s.running.Keys - {e}, HISTORY_LIMIT, removed)
    ensures var s' := Finished(defs, wdefs, s, e, outcome, order, removed, now);
      |s'.book.executions| <= 500 || s'.book.executions.Keys <= s'.running.Keys
  {
    TrimBounds(Concluded(defs, wdefs, s, e, outcome, order, now), s.running.Keys - {e}, HISTORY_LIMIT, removed);
    assert (s.running - {e}).Keys == s.running.Keys - {e};
  }

  function EndOf(b: Book, e: Id, now: Time, f: Id): Time
    requires f in b.executions
  {
    if f == e then now else b.executions[f].finishedAt
  }

  /** What history drops ended no later than what has ended and stays. */
  lemma OldestGoFirst(defs: Definitions, wdefs: WorkflowDefinitions, s: Scheduler, e: Id, outcome: Outcome,
                      order: seq<string>, removed: set<Id>, now: Time, r: Id, f: Id)
    requires e in s.running && e in s.book.executions && s.book.executions[e].task in defs
    requires ValidTrim(Concluded(defs, wdefs, s, e, outcome, order, now), s.running.Keys - {e}, HISTORY_LIMIT, removed)
    requires r in removed && f in s.book.executions && f !in removed && (f == e || f !in s.running)
    ensures r in s.book.executions && EndOf(s.book, e, now, r) <= EndOf(s.book, e, now, f)
  {
    var b1 := Concluded(defs, wdefs, s, e, outcome, order, now);
    ConcludeExecutions(defs[s.book.executions[e].task], wdefs, s.book, e, outcome, order, now);
    assert f in b1.executions.Keys - (s.running.Keys - {e}) - removed;
    assert b1.executions[r].finishedAt <= b1.executions[f].finishedAt;
  }

  // ------------------------------------------------------------ other triggers

  /** The queued trigger of an instance that moved on without it. */
  predicate Superseded(wdefs: WorkflowDefinitions, b: Book, order: seq<string>, x: Execution, t: Id) {
    && t != 0 && t in b.triggers && Queued(b.triggers[t].state)
    && exists i :: i in order && i in b.workflows && Awaits(wdefs, b.workflows[i], x) && b.workflows[i].trigger == t
  }

  lemma SatisfyOneCancels(wdefs: WorkflowDefinitions, b: Book, instance: string, x: Execution, now: Time, t: Id)
    requires t in b.triggers && instance in b.workflows
    ensures var b' := SatisfyOne(wdefs, b, instance, x, now); var w := b.workflows[instance];
      && t in b'.triggers
      && b'.triggers[t] == (if t != 0 && w.trigger == t && Queued(b.triggers[t].state) && Awaits(wdefs, w, x)
                            then b.triggers[t].(state := Cancelled, finishedAt := now) else b.triggers[t])
      && forall i :: i in b.workflows && i != instance ==> b'.workflows[i] == b.workflows[i]
  {
  }

  lemma {:induction false} SatisfyAllCancels(wdefs: WorkflowDefinitions, b: Book, order: seq<string>, x: Execution, now: Time, t: Id)
    requires t in b.triggers && (forall i :: i in order ==> i in b.workflows) && forall i, j :: 0 <= i < j < |order| ==> order[i] != order[j]
    ensures var b' := SatisfyAll(wdefs, b, order, x, now);
      t in b'.triggers
      && b'.triggers[t] == if Superseded(wdefs, b, order, x, t) then b.triggers[t].(state := Cancelled, finishedAt := now) else b.triggers[t]
    decreases |order|
  {
    if order != [] {
      var b1 := SatisfyOne(wdefs, b, order[0], x, now);
      SatisfyOneCancels(wdefs, b, order[0], x, now, t);
      SatisfyAllCancels(wdefs, b1, order[1..], x, now, t);
      SupersededStep(wdefs, b, b1, order, x, t);
    }
  }

  /** Whoever supersedes the trigger comes first or later. */
  lemma SupersededStep(wdefs: WorkflowDefinitions, b: Book, b1: Book, order: seq<string>, x: Execution, t: Id)
    requires order != [] && order[0] in b.workflows && order[0] !in order[1..]
    requires t in b.triggers && t in b1.triggers && b1.workflows.Keys == b.workflows.Keys
    requires forall i :: i in b.workflows && i != order[0] ==> b1.workflows[i] == b.workflows[i]
    requires var w := b.workflows[order[0]];
      Queued(b1.triggers[t].state) <==> Queued(b.triggers[t].state) && !(t != 0 && w.trigger == t && Awaits(wdefs, w, x))
    ensures var w := b.workflows[order[0]];
      Superseded(wdefs, b, order, x, t) <==>
        (t != 0 && w.trigger == t && Queued(b.triggers[t].state) && Awaits(wdefs, w, x)) || Superseded(wdefs, b1, order[1..], x, t)
  {
    assert forall i :: i in order <==> i == order[0] || i in order[1..];
  }

  lemma SuccessLeavesOthers(wdefs: WorkflowDefinitions, b: Book, e: Id, outcome: Outcome, order: seq<string>, now: Time, t: Id)
    requires e in b.executions && outcome.Succeeded? && Enumerates(order, b.workflows.Keys)
    requires t in b.triggers && t !in b.executions[e].triggers
    ensures var b1 := EndExecution(b, e, outcome, now);
      var b' := SatisfyAll(wdefs, Settle(b1, e, Fulfilled, now), order, b1.executions[e], now);
      t in b'.triggers && b'.triggers[t] == if Superseded(wdefs, b, order, b.executions[e], t) then b.triggers[t].(state := Cancelled, finishedAt := now) else b.triggers[t]
  {
    var b1 := EndExecution(b, e, outcome, now);
    var settled := Settle(b1, e, Fulfilled, now);
    SatisfyAllCancels(wdefs, settled, order, b1.executions[e], now, t);
    assert Superseded(wdefs, settled, order, b1.executions[e], t) <==> Superseded(wdefs, b, order, b.executions[e], t);
  }

  /** Nothing else changes: a trigger the execution did not carry keeps its record,
      except that a queued one of an instance that moved on is cancelled. */
  lemma FinishLeavesOthers(defs: Definitions, wdefs: WorkflowDefinitions, s: Scheduler, e: Id, outcome: Outcome,
                           order: seq<string>, removed: set<Id>, now: Time, t: Id)
    requires e in s.running && e in s.book.executions && s.book.executions[e].task in defs
    requires Enumerates(order, s.book.workflows.Keys)
    requires t in s.book.triggers && t !in s.book.executions[e].triggers
    ensures var b', x := Finished(defs, wdefs, s, e, outcome, order, removed, now).book, s.book.executions[e];
      var superseded := outcome.Succeeded? && t != 0 && Queued(s.book.triggers[t].state)
        && exists i :: i in s.book.workflows && Awaits(wdefs, s.book.workflows[i], x) && s.book.workflows[i].trigger == t;
      var r := if superseded then s.book.triggers[t].(state := Cancelled, finishedAt := now) else s.book.triggers[t];
      if t in b'.triggers then b'.triggers[t] == r else Terminal(r.state)
  {
    if outcome.Succeeded? { SuccessLeavesOthers(wdefs, s.book, e, outcome, order, now, t); }
  }

  // --------------------------------------------------------------- altogether

  /** The end of execution e: every trigger it carried is disposed of, and every
      workflow instance has its answer. */
  ghost predicate Ended(defs: Definitions, wdefs: WorkflowDefinitions, s: Scheduler, e: Id, outcome: Outcome, removed: set<Id>, now: Time, s': Scheduler)
    requires e in s.book.executions && s.book.executions[e].task in defs
  {
    var x := s.book.executions[e];
    && (forall t :: t in x.triggers && t in s.book.triggers ==> Disposed(defs[x.task], s, e, outcome, removed, now, s', t))
    && (forall i :: i in s.book.workflows ==>
          i in s'.book.workflows
          && Answered(wdefs, defs[x.task], s.book, x, outcome, now, i, s.book.workflows[i], s'.book.workflows[i]))
  }

  lemma FinishEnds(defs: Definitions, wdefs: WorkflowDefinitions, s: Scheduler, e: Id, outcome: Outcome,
                   order: seq<string>, removed: set<Id>, now: Time)
    requires Sound(defs, s) && e in s.running && s.book.executions[e].task in defs
    requires Enumerates(order, s.book.workflows.Keys)
    requires ValidTrim(Concluded(defs, wdefs, s, e, outcome, order, now), s.running.Keys - {e}, HISTORY_LIMIT, removed)
    ensures Ended(defs, wdefs, s, e, outcome, removed, now, Finished(defs, wdefs, s, e, outcome, order, removed, now))
  {
    var x := s.book.executions[e];
    forall t | t in x.triggers && t in s.book.triggers { FinishDisposes(defs, wdefs, s, e, outcome, order, removed, now, t); }
    forall i | i in s.book.workflows { FinishAnswers(defs, wdefs, s, e, outcome, order, removed, now, i); }
  }

  // ------------------------------------------------------------------ advance

  /** The instance is not under way, so an advance opens it anew. */
  predicate Open(b: Book, instance: string) {
    instance !in b.workflows || Idle(b.workflows[instance]) || b.workflows[instance].deadline == 0
  }

  /** The instance starts over, its quiet period begins anew, and its deadline stands
      unless this is what opens it. */
  predicate Restarted(b: Book, instance: string, quiet: nat, maximum: nat, now: Time, b': Book) {
    && instance in b'.workflows
    && var w' := b'.workflows[instance];
    && w'.step == 0 && w'.state.WfPending? && w'.trigger == 0 && w'.updatedAt == now
    && w'.readyAfter == now && w'.notBefore == now + quiet
    && w'.deadline == if Open(b, instance) then now + maximum else b.workflows[instance].deadline
  }

  /** The trigger its step waited with, if it was still queued, has been cancelled and
      has left its intent; every other trigger is as it was. */
  ghost predicate Withdrawn(b: Book, instance: string, now: Time, b': Book) {
    && b'.triggers.Keys == b.triggers.Keys
    && forall t :: t in b.triggers ==>
         var waits := instance in b.workflows && t != 0 && b.workflows[instance].trigger == t && Queued(b.triggers[t].state);
         && b'.triggers[t] == (if waits then b.triggers[t].(state := Cancelled, finishedAt := now) else b.triggers[t])
         && (waits ==> forall k :: k in b'.pending ==> t !in b'.pending[k].triggers)
  }

  lemma CancelWithdraws(b: Book, live: set<Id>, t: Id, now: Time)
    requires Bookkeeping(b, live) && t != 0 && t in b.triggers && Queued(b.triggers[t].state)
    ensures forall k :: k in CancelTrigger(b, t, now).pending ==> t !in CancelTrigger(b, t, now).pending[k].triggers
  {
    var key := TriggerKey(b.triggers[t]);
    assert Placed(b, live, t);
    WithoutProperties(b.pending[key].triggers, t);
    forall k | k in b.pending && k != key
      ensures t !in b.pending[k].triggers
    {
      assert t in b.pending[k].triggers ==> QueuedUnder(b, k, t);
    }
  }

  lemma AdvanceRestarts(b: Book, definition: string, key: string, quiet: nat, maximum: nat, now: Time)
    ensures var b' := Advance(b, definition, key, quiet, maximum, now); var instance := definition + ":" + key;
      && Restarted(b, instance, quiet, maximum, now, b')
      && b'.workflows.Keys == b.workflows.Keys + {instance}
      && forall i :: i in b.workflows && i != instance ==> b'.workflows[i] == b.workflows[i]
  {
  }

  lemma AdvanceWithdraws(b: Book, live: set<Id>, definition: string, key: string, quiet: nat, maximum: nat, now: Time)
    requires Bookkeeping(b, live)
    ensures Withdrawn(b, definition + ":" + key, now, Advance(b, definition, key, quiet, maximum, now))
  {
    var instance := definition + ":" + key;
    if instance in b.workflows {
      var t := b.workflows[instance].trigger;
      if t != 0 && t in b.triggers && Queued(b.triggers[t].state) { CancelWithdraws(b, live, t, now); }
    }
  }
}
