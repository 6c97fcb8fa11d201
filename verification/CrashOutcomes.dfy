/** What a crash makes of each trigger: ended ones stay ended, those that are not kept
    over a restart are gone, durable ones wait again or need attention. */
module CrashOutcomes {
  import opened TaskTypes
  import opened SchedulerSpec
  import opened SchedulerInvariants
  import opened SchedulerRecovery
  import opened SchedulerRuns

  /** Interrupted work of this task is taken up again by itself. */
  predicate TakesUp(defs: Definitions, task: string) { task in defs && defs[task].recovery.RecoveryRetry? }

  /** The trigger waits in the intent of its key. */
  ghost predicate Waits(b: Book, t: Id) {
    && t in b.triggers && Queued(b.triggers[t].state)
    && TriggerKey(b.triggers[t]) in b.pending && t in b.pending[TriggerKey(b.triggers[t])].triggers
  }

  /** ... for a later attempt than x, and is owed no less than x covered. */
  ghost predicate WaitsAfter(b: Book, t: Id, x: Execution) {
    && Waits(b, t) && b.triggers[t].state.Pending?
    && var i := b.pending[TriggerKey(b.triggers[t])];
    i.attempt > x.attempt && i.coverage >= x.coverage && i.priority >= x.priority
  }

  // -------------------------------------------------------- one execution at a time

  lemma ResumeMeans(defs: Definitions, b: Book, e: Id, now: Time, t: Id)
    requires e in b.executions && t in b.executions[e].triggers && t in b.triggers && TriggerKey(b.triggers[t]) == ExecutionKey(b.executions[e])
    ensures WaitsAfter(Requeue(b, e, 0, now), t, b.executions[e])
  {
    var x := b.executions[e];
    AppendUniqueProperties(if ExecutionKey(x) in b.pending then b.pending[ExecutionKey(x)].triggers else [], x.triggers);
  }

  /** What recovery does to the triggers of an unfinished execution: all of them go back
      to the queue if the task takes interrupted work up and one of them is durable;
      otherwise the durable ones need attention and the others are over. */
  lemma RecoverOneMeans(defs: Definitions, b: Book, e: Id, now: Time, t: Id)
    requires e in b.executions && Unfinished(b.executions[e].state)
    requires t in b.executions[e].triggers && t in b.triggers && TriggerKey(b.triggers[t]) == ExecutionKey(b.executions[e])
    ensures var b', x := RecoverOne(defs, b, e, now), b.executions[e];
      && t in b'.triggers && b'.executions[e] == x.(state := ExInterrupted, finishedAt := now)
      && if TakesUp(defs, x.task) && (exists u :: u in x.triggers && u in b.triggers && b.triggers[u].durable) then WaitsAfter(b', t, x)
         else b'.triggers[t] == b.triggers[t].(state := if b.triggers[t].durable then Attention else Interrupted, finishedAt := now)
  {
    var x := b.executions[e];
    var b1 := b.(executions := b.executions[e := x.(state := ExInterrupted, finishedAt := now)]);
    if TakesUp(defs, x.task) && (exists u :: u in x.triggers && u in b.triggers && b.triggers[u].durable) {
      assert Resumes(defs, b, e);
      ResumeMeans(defs, b1, e, now, t);
    }
  }

  /** It leaves what other executions carried, and what waits, as it was; intents only
      gain. */
  lemma RecoverOneLeaves(defs: Definitions, b: Book, e: Id, now: Time, t: Id)
    requires e in b.executions && t in b.triggers && t !in b.executions[e].triggers
    ensures var b' := RecoverOne(defs, b, e, now); t in b'.triggers && b'.triggers[t] == b.triggers[t]
  {
  }

  lemma RecoverOneKeepsWaiting(defs: Definitions, b: Book, e: Id, now: Time, key: string)
    requires e in b.executions && key in b.pending
    ensures var b' := RecoverOne(defs, b, e, now);
      && key in b'.pending
      && var i, i' := b.pending[key], b'.pending[key];
      && i'.attempt >= i.attempt && i'.coverage >= i.coverage && i'.priority >= i.priority && forall t :: t in i.triggers ==> t in i'.triggers
  {
    var x := b.executions[e];
    AppendUniqueProperties(if ExecutionKey(x) in b.pending then b.pending[ExecutionKey(x)].triggers else [], x.triggers);
  }

  // ------------------------------------------------------------- all of them

  /** No unfinished execution among these carries the trigger. */
  ghost predicate Unaffected(b: Book, order: seq<Id>, t: Id) {
    forall e :: e in order && e in b.executions && Unfinished(b.executions[e].state) ==> t !in b.executions[e].triggers
  }

  lemma {:induction false} RecoverAllLeaves(defs: Definitions, b: Book, order: seq<Id>, now: Time, t: Id)
    requires (forall e :: e in order ==> e in b.executions) && t in b.triggers && Unaffected(b, order, t)
    ensures var b' := RecoverAll(defs, b, order, now); t in b'.triggers && b'.triggers[t] == b.triggers[t]
    decreases |order|
  {
    if order != [] {
      var b1 := RecoverOne(defs, b, order[0], now);
      if Unfinished(b.executions[order[0]].state) { RecoverOneLeaves(defs, b, order[0], now, t); }
      RecoverOneExecutions(defs, b, order[0], now);
      RecoverAllLeaves(defs, b1, order[1..], now, t);
    }
  }

  lemma {:induction false} RecoverAllKeepsWaiting(defs: Definitions, b: Book, order: seq<Id>, now: Time, key: string)
    requires (forall e :: e in order ==> e in b.executions) && key in b.pending
    ensures var b' := RecoverAll(defs, b, order, now);
      && key in b'.pending
      && var i, i' := b.pending[key], b'.pending[key];
      && i'.attempt >= i.attempt && i'.coverage >= i.coverage && i'.priority >= i.priority && forall t :: t in i.triggers ==> t in i'.triggers
    decreases |order|
  {
    if order != [] {
      RecoverOneKeepsWaiting(defs, b, order[0], now, key);
      RecoverAllKeepsWaiting(defs, RecoverOne(defs, b, order[0], now), order[1..], now, key);
    }
  }

  /** What becomes of a durable trigger that execution e carried. */
  ghost predicate Interrupts(defs: Definitions, x: Execution, r: Trigger, now: Time, b': Book, t: Id) {
    && t in b'.triggers
    && if TakesUp(defs, x.task) then WaitsAfter(b', t, x)
       else b'.triggers[t] == r.(state := Attention, finishedAt := now)
  }

  lemma CarriedOnce(b: Book, e: Id, f: Id, t: Id)
    requires Bookkeeping(b, LiveSet(b)) && e in LiveSet(b) && f in LiveSet(b) && e != f && t in b.executions[e].triggers && t in b.triggers
    ensures t !in b.executions[f].triggers
  {
    assert CarriedIn(b, e, t);
  }

  lemma {:induction false} RecoverAllInterrupts(defs: Definitions, b: Book, order: seq<Id>, now: Time, e: Id, t: Id)
    requires Bookkeeping(b, LiveSet(b)) && (forall f :: f in order ==> f in b.executions) && e in order && e in LiveSet(b)
    requires t in b.executions[e].triggers && t in b.triggers && b.triggers[t].durable
    ensures Interrupts(defs, b.executions[e], b.triggers[t], now, RecoverAll(defs, b, order, now), t)
    decreases |order|
  {
    var b1 := RecoverOne(defs, b, order[0], now);
    assert CarriedIn(b, e, t);
    RecoverOneKeeps(defs, b, LiveSet(b), order[0], now);
    RecoverOneLive(defs, b, order[0], now);
    RecoverOneExecutions(defs, b, order[0], now);
    if order[0] == e {
      RecoverOneMeans(defs, b, e, now, t);
      ThenLeft(defs, b, b1, order[1..], now, e, t);
    } else {
      if Unfinished(b.executions[order[0]].state) {
        CarriedOnce(b, e, order[0], t);
        RecoverOneLeaves(defs, b, order[0], now, t);
      }
      RecoverAllInterrupts(defs, b1, order[1..], now, e, t);
    }
  }

  /** Once recovered, the others leave it alone. */
  lemma ThenLeft(defs: Definitions, b: Book, b1: Book, order: seq<Id>, now: Time, e: Id, t: Id)
    requires Bookkeeping(b1, LiveSet(b1)) && (forall f :: f in order ==> f in b1.executions)
    requires e in b.executions && t in b.triggers && Interrupts(defs, b.executions[e], b.triggers[t], now, b1, t)
    ensures Interrupts(defs, b.executions[e], b.triggers[t], now, RecoverAll(defs, b1, order, now), t)
  {
    forall f | f in order && f in b1.executions && Unfinished(b1.executions[f].state)
      ensures t !in b1.executions[f].triggers
    {
      assert f in LiveSet(b1);
      assert t in b1.executions[f].triggers ==> CarriedIn(b1, f, t);
    }
    RecoverAllLeaves(defs, b1, order, now, t);
    if TakesUp(defs, b.executions[e].task) { RecoverAllKeepsWaiting(defs, b1, order, now, TriggerKey(b1.triggers[t])); }
  }

  // ---------------------------------------------------------------- the crash

  /** What a crash makes of a trigger. */
  ghost predicate Crashed(b: Book, recovering: Definitions, now: Time, b': Book, t: Id)
    requires t in b.triggers
  {
    var r := b.triggers[t];
    if Terminal(r.state) then t in b'.triggers && b'.triggers[t] == r
    else if !r.durable then t !in b'.triggers
    else if Queued(r.state) then Waits(b', t) && b'.triggers[t] == r
    else r.execution in b.executions && Interrupts(recovering, b.executions[r.execution], r, now, b', t)
  }

  lemma ViewMeans(b: Book, t: Id)
    requires Bookkeeping(b, LiveSet(b)) && t in b.triggers
    ensures var v, r := PersistedView(b), b.triggers[t];
      && (t in v.triggers <==> r.durable || Terminal(r.state)) && (t in v.triggers ==> v.triggers[t] == r)
      && v.executions == b.executions
      && (Queued(r.state) && r.durable ==> TriggerKey(r) in v.pending && t in v.pending[TriggerKey(r)].triggers)
  {
    if Queued(b.triggers[t].state) && b.triggers[t].durable {
      assert Placed(b, LiveSet(b), t);
      assert HasDurable(b.triggers, b.pending[TriggerKey(b.triggers[t])].triggers);
    }
  }

  lemma RestartMeans(defs: Definitions, b: Book, order: seq<Id>, now: Time, t: Id)
    requires Bookkeeping(b, LiveSet(b)) && Enumerates(order, b.executions.Keys) && t in b.triggers
    ensures Crashed(b, defs, now, Restart(defs, b, order, now), t)
  {
    var v, r := RegisterSchedules(defs, PersistedView(b), now), b.triggers[t];
    ViewMeans(b, t);
    RegisteredKeeps(defs, b, now);
    if Active(r.state) {
      assert Placed(b, LiveSet(b), t);
      if r.durable { RecoverAllInterrupts(defs, v, order, now, r.execution, t); }
    } else if t in v.triggers {
      assert Unaffected(v, order, t) by { NotCarried(v, order, t); }
      RecoverAllLeaves(defs, v, order, now, t);
      if Queued(r.state) { RecoverAllKeepsWaiting(defs, v, order, now, TriggerKey(r)); }
    }
    RestartSameKeys(defs, b, order, now);
  }

  lemma NotCarried(b: Book, order: seq<Id>, t: Id)
    requires Bookkeeping(b, LiveSet(b)) && t in b.triggers && !Active(b.triggers[t].state)
    ensures Unaffected(b, order, t)
  {
    forall e | e in order && e in b.executions && Unfinished(b.executions[e].state)
      ensures t !in b.executions[e].triggers
    {
      assert e in LiveSet(b);
    }
  }

  /** A restart brings no record back that was not stored. */
  lemma RestartSameKeys(defs: Definitions, b: Book, order: seq<Id>, now: Time)
    requires Bookkeeping(b, LiveSet(b)) && Enumerates(order, b.executions.Keys)
    ensures Restart(defs, b, order, now).triggers.Keys == PersistedView(b).triggers.Keys
  {
    RegisteredKeeps(defs, b, now);
    RecoverAllKeeps(defs, RegisterSchedules(defs, PersistedView(b), now), order, now);
  }

  /** In every state of a run, a crash and the restart after it do to each trigger what
      its record and its task say; no durable trigger is lost. */
  lemma CrashMeans(wdefs: WorkflowDefinitions, sys: System, step: Step, t: Id)
    requires Consistent(sys) && step.CrashStep? && Enabled(wdefs, sys, step) && t in sys.s.book.triggers
    ensures Crashed(sys.s.book, step.recovering, step.now, Apply(wdefs, sys, step).s.book, t)
  {
    var b := sys.s.book.(periodicNext := sys.disk.periodicNext);
    ReloadIsRestart(sys, step.recovering, step.interrupted, step.now);
    FrameKeeps(sys.s.book, b, sys.s.running.Keys);
    assert LiveSet(b) == LiveSet(sys.s.book);
    RestartMeans(step.recovering, b, step.interrupted, step.now, t);
  }

  /** A schedule goes on where it was, and one that is new starts an interval from now. */
  lemma SchedulesGoOn(defs: Definitions, b: Book, now: Time, task: string)
    requires task in defs && defs[task].interval > 0
    ensures var b' := RegisterSchedules(defs, b, now);
      && task in b'.periodicNext
      && b'.periodicNext[task] == if task in b.periodicNext && b.periodicNext[task] != 0 then b.periodicNext[task] else now + defs[task].interval
  {
  }
}
