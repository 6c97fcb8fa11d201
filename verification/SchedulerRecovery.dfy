/** A crash loses everything but the persisted record.  These lemmas say what the
    next process makes of that record, and exactly when it can work with it. */
module SchedulerRecovery {
  import opened TaskTypes
  import opened SchedulerSpec
  import opened SchedulerInvariants

  /** order visits every member of s once. */
  ghost predicate Enumerates<T(!new)>(order: seq<T>, s: set<T>) {
    && (forall i, j :: 0 <= i < j < |order| ==> order[i] != order[j])
    && (forall x :: x in order <==> x in s)
  }

  /** The record of the next process: what it reads from the store, with its
      schedules registered and its interrupted executions recovered in some
      order. */
  function Reload(defs: Definitions, stored: Book, order: seq<Id>, now: Time): Book
    requires forall e :: e in order ==> e in stored.executions
  {
    RecoverAll(defs, RegisterSchedules(defs, stored, now), order, now)
  }

  /** A crash after b was persisted, and the start that follows. */
  function Restart(defs: Definitions, b: Book, order: seq<Id>, now: Time): Book
    requires forall e :: e in order ==> e in b.executions
  {
    Reload(defs, PersistedView(b), order, now)
  }

  lemma ViewKeeps(b: Book, live: set<Id>)
    requires Bookkeeping(b, live)
    ensures Bookkeeping(PersistedView(b), live)
  {
    var v := PersistedView(b);
    assert Ordered(v);
    forall u | u in v.triggers && !Terminal(v.triggers[u].state)
      ensures Placed(v, live, u)
    {
      assert Placed(b, live, u);
    }
    forall k, t | k in v.pending && t in v.pending[k].triggers
      ensures QueuedUnder(v, k, t)
    {
      assert QueuedUnder(b, k, t);
    }
    forall f, t | f in live && f in v.executions && t in v.executions[f].triggers
      ensures CarriedIn(v, f, t)
    {
      assert CarriedIn(b, f, t);
    }
  }

  /** Recovering one execution adds and removes no record and touches no other
      execution. */
  lemma RecoverOneRecords(defs: Definitions, b: Book, e: Id, now: Time)
    requires e in b.executions
    ensures var b' := RecoverOne(defs, b, e, now);
      && b'.triggers.Keys == b.triggers.Keys
      && forall u :: u in b.triggers ==> b'.triggers[u].durable == b.triggers[u].durable
  {
  }

  lemma RecoverOneExecutions(defs: Definitions, b: Book, e: Id, now: Time)
    requires e in b.executions
    ensures RecoverOne(defs, b, e, now).executions ==
            if Unfinished(b.executions[e].state) then b.executions[e := b.executions[e].(state := ExInterrupted, finishedAt := now)]
            else b.executions
  {
  }

  lemma RecoverOneLive(defs: Definitions, b: Book, e: Id, now: Time)
    requires e in b.executions
    ensures LiveSet(RecoverOne(defs, b, e, now)) == LiveSet(b) - {e}
    ensures RecoverOne(defs, b, e, now).triggers.Keys == b.triggers.Keys
  {
    RecoverOneRecords(defs, b, e, now);
    RecoverOneExecutions(defs, b, e, now);
  }

  lemma RecoverOneKeeps(defs: Definitions, b: Book, live: set<Id>, e: Id, now: Time)
    requires Bookkeeping(b, live) && live == LiveSet(b) && e in b.executions
    ensures Bookkeeping(RecoverOne(defs, b, e, now), live - {e})
  {
    if e in live {
      var b1 := b.(executions := b.executions[e := b.executions[e].(state := ExInterrupted, finishedAt := now)]);
      RestateKeeps(b, live, b1.executions);
      if Resumes(defs, b, e) { RequeueKeeps(b1, live, e, 0, now); }
      else {
        EndTriggersKeeps(b1, live, e, (t: Trigger) => t.(state := if t.durable then Attention else Interrupted, finishedAt := now));
      }
    } else {
      assert live - {e} == live;
    }
  }

  lemma {:induction false} RecoverAllKeeps(defs: Definitions, b: Book, order: seq<Id>, now: Time)
    requires Bookkeeping(b, LiveSet(b)) && (forall e :: e in order ==> e in b.executions)
    ensures var r := RecoverAll(defs, b, order, now);
      && Bookkeeping(r, LiveSet(r)) && r.triggers.Keys == b.triggers.Keys
      && (forall e :: e in LiveSet(r) <==> e in LiveSet(b) && e !in order)
    decreases |order|
  {
    if order != [] {
      var b' := RecoverOne(defs, b, order[0], now);
      RecoverOneLive(defs, b, order[0], now);
      RecoverOneKeeps(defs, b, LiveSet(b), order[0], now);
      RecoverAllKeeps(defs, b', order[1..], now);
      assert forall e :: e in order <==> e == order[0] || e in order[1..];
    }
  }

  /** Nothing of the bookkeeping is lost in a crash: in the next process no
      execution is live, and every surviving trigger is in exactly the intent its
      record names or has ended. */
  lemma RestartKeeps(defs: Definitions, b: Book, order: seq<Id>, now: Time)
    requires Bookkeeping(b, LiveSet(b)) && Enumerates(order, b.executions.Keys)
    ensures Bookkeeping(Restart(defs, b, order, now), {})
    ensures LiveSet(Restart(defs, b, order, now)) == {}
  {
    RegisteredKeeps(defs, b, now);
    RecoverAllKeeps(defs, RegisterSchedules(defs, PersistedView(b), now), order, now);
    assert LiveSet(Restart(defs, b, order, now)) == {};
  }

  lemma RegisteredKeeps(defs: Definitions, b: Book, now: Time)
    requires Bookkeeping(b, LiveSet(b))
    ensures var registered := RegisterSchedules(defs, PersistedView(b), now);
      LiveSet(registered) == LiveSet(b) && Bookkeeping(registered, LiveSet(registered))
  {
    var registered := RegisterSchedules(defs, PersistedView(b), now);
    ViewKeeps(b, LiveSet(b));
    FrameKeeps(PersistedView(b), registered, LiveSet(b));
    assert LiveSet(registered) == LiveSet(b);
  }

  // ------------------------------------------- when a restart can be worked with

  /** A list that would survive a crash names durable triggers only.  Persisting
      drops the records of non-durable triggers but not their ids. */
  predicate Unmixed(triggers: map<Id, Trigger>, ids: seq<Id>) {
    HasDurable(triggers, ids) ==> forall t :: t in ids ==> t in triggers && triggers[t].durable
  }

  predicate RetriesTask(defs: Definitions, task: string) {
    task in defs && defs[task].recovery.RecoveryRetry?
  }

  predicate CrashSafe(defs: Definitions, b: Book) {
    && (forall k :: k in b.pending ==> Unmixed(b.triggers, b.pending[k].triggers))
    && (forall e :: e in LiveSet(b) && RetriesTask(defs, b.executions[e].task) ==> Unmixed(b.triggers, b.executions[e].triggers))
  }

  /** Every reference an intent holds has a record. */
  ghost predicate PendingResolved(b: Book) {
    forall k :: k in b.pending ==> Resolved(b.triggers, b.pending[k].triggers)
  }

  /** The recovery of e follows no reference that lacks a record. */
  ghost predicate RecoversCleanly(defs: Definitions, b: Book, e: Id)
    requires e in b.executions
  {
    Unfinished(b.executions[e].state) && Resumes(defs, b, e) ==> Resolved(b.triggers, b.executions[e].triggers)
  }

  ghost predicate Recoverable(defs: Definitions, b: Book) {
    PendingResolved(b) && forall e :: e in b.executions ==> RecoversCleanly(defs, b, e)
  }

  lemma SameDurable(triggers: map<Id, Trigger>, triggers': map<Id, Trigger>, ids: seq<Id>)
    requires triggers'.Keys == triggers.Keys && forall u :: u in triggers ==> triggers'[u].durable == triggers[u].durable
    ensures HasDurable(triggers', ids) <==> HasDurable(triggers, ids)
    ensures Resolved(triggers', ids) <==> Resolved(triggers, ids)
  {
  }

  lemma RecoverOneElsewhere(defs: Definitions, b: Book, e: Id, now: Time, f: Id)
    requires e in b.executions && f in b.executions && f != e
    ensures RecoversCleanly(defs, RecoverOne(defs, b, e, now), f) <==> RecoversCleanly(defs, b, f)
  {
    RecoverOneRecords(defs, b, e, now);
    RecoverOneExecutions(defs, b, e, now);
    SameDurable(b.triggers, RecoverOne(defs, b, e, now).triggers, b.executions[f].triggers);
  }

  /** The step itself: after recovering e every queued reference has a record
      exactly when that was so before and e brings no other. */
  lemma RecoverOneResolved(defs: Definitions, b: Book, e: Id, now: Time)
    requires e in b.executions
    ensures PendingResolved(RecoverOne(defs, b, e, now)) <==> PendingResolved(b) && RecoversCleanly(defs, b, e)
  {
    var b' := RecoverOne(defs, b, e, now);
    var x := b.executions[e];
    var key := ExecutionKey(x);
    AppendUniqueProperties(if key in b.pending then b.pending[key].triggers else [], x.triggers);
    assert b'.triggers.Keys == b.triggers.Keys;
    if Unfinished(x.state) && Resumes(defs, b, e) {
      assert forall k :: k in b.pending && k != key ==> b'.pending[k] == b.pending[k];
      assert forall t :: t in b'.pending[key].triggers <==> (key in b.pending && t in b.pending[key].triggers) || t in x.triggers;
      if PendingResolved(b') {
        assert Resolved(b'.triggers, b'.pending[key].triggers);
        forall k | k in b.pending
          ensures Resolved(b.triggers, b.pending[k].triggers)
        {
          assert Resolved(b'.triggers, b'.pending[k].triggers);
        }
      }
    } else {
      assert b'.pending == b.pending;
    }
  }

  lemma {:induction false} RecoverAllResolved(defs: Definitions, b: Book, order: seq<Id>, now: Time)
    requires forall e :: e in order ==> e in b.executions
    requires forall i, j :: 0 <= i < j < |order| ==> order[i] != order[j]
    ensures PendingResolved(RecoverAll(defs, b, order, now))
            <==> PendingResolved(b) && forall e :: e in order ==> RecoversCleanly(defs, b, e)
    decreases |order|
  {
    if order != [] {
      var b' := RecoverOne(defs, b, order[0], now);
      RecoverOneResolved(defs, b, order[0], now);
      RecoverAllResolved(defs, b', order[1..], now);
      forall e | e in order[1..]
        ensures RecoversCleanly(defs, b', e) <==> RecoversCleanly(defs, b, e)
      {
        RecoverOneElsewhere(defs, b, order[0], now, e);
      }
      assert forall e :: e in order <==> e == order[0] || e in order[1..];
    }
  }

  lemma ViewIntent(b: Book, k: string)
    requires Bookkeeping(b, LiveSet(b)) && Closed(b, LiveSet(b)) && k in b.pending
    ensures var v := PersistedView(b);
      (k in v.pending ==> Resolved(v.triggers, v.pending[k].triggers)) <==> Unmixed(b.triggers, b.pending[k].triggers)
  {
    var v := PersistedView(b);
    forall t | t in b.pending[k].triggers
      ensures t in b.triggers && (t in v.triggers <==> b.triggers[t].durable)
    {
      assert Resolved(b.triggers, b.pending[k].triggers) && QueuedUnder(b, k, t);
    }
  }

  lemma ViewExecution(defs: Definitions, b: Book, e: Id)
    requires Bookkeeping(b, LiveSet(b)) && Closed(b, LiveSet(b)) && e in LiveSet(b)
    ensures RecoversCleanly(defs, PersistedView(b), e)
            <==> (RetriesTask(defs, b.executions[e].task) ==> Unmixed(b.triggers, b.executions[e].triggers))
  {
    var v := PersistedView(b);
    var ids := b.executions[e].triggers;
    forall t | t in ids
      ensures t in b.triggers && (t in v.triggers <==> b.triggers[t].durable)
    {
      assert Resolved(b.triggers, ids) && CarriedIn(b, e, t);
    }
    assert HasDurable(v.triggers, ids) <==> HasDurable(b.triggers, ids);
  }

  /** The record read back is recoverable exactly when the record at the crash
      was crash safe. */
  lemma ViewRecoverable(defs: Definitions, b: Book)
    requires Bookkeeping(b, LiveSet(b)) && Closed(b, LiveSet(b))
    ensures Recoverable(defs, PersistedView(b)) <==> CrashSafe(defs, b)
  {
    var v := PersistedView(b);
    forall k | k in b.pending
      ensures (k in v.pending ==> Resolved(v.triggers, v.pending[k].triggers)) <==> Unmixed(b.triggers, b.pending[k].triggers)
    {
      ViewIntent(b, k);
    }
    forall e | e in LiveSet(b)
      ensures RecoversCleanly(defs, v, e)
              <==> (RetriesTask(defs, b.executions[e].task) ==> Unmixed(b.triggers, b.executions[e].triggers))
    {
      ViewExecution(defs, b, e);
    }
  }

  lemma ReloadResolved(defs: Definitions, stored: Book, order: seq<Id>, now: Time)
    requires Enumerates(order, stored.executions.Keys)
    ensures PendingResolved(Reload(defs, stored, order, now)) <==> Recoverable(defs, stored)
  {
    var v := RegisterSchedules(defs, stored, now);
    RecoverAllResolved(defs, v, order, now);
    forall e | e in v.executions
      ensures RecoversCleanly(defs, v, e) <==> RecoversCleanly(defs, stored, e)
    {
    }
    assert PendingResolved(v) <==> PendingResolved(stored);
  }

  /** The next process can follow every reference it holds, exactly when no
      surviving list mixed durable with non-durable triggers at the crash. */
  lemma RestartClosedIff(defs: Definitions, b: Book, order: seq<Id>, now: Time)
    requires Bookkeeping(b, LiveSet(b)) && Closed(b, LiveSet(b)) && Enumerates(order, b.executions.Keys)
    ensures Closed(Restart(defs, b, order, now), {}) <==> CrashSafe(defs, b)
  {
    ViewRecoverable(defs, b);
    ReloadResolved(defs, PersistedView(b), order, now);
    var r := Restart(defs, b, order, now);
    assert Closed(r, {}) <==> PendingResolved(r);
  }
}
