/** The bookkeeping invariant of the scheduler: where every trigger is.

    The set live names the executions that still carry their triggers.  While a
    process runs it is the running set; in a record read back after a crash it is
    the set of executions recorded as unfinished. */
module SchedulerInvariants {
  import opened TaskTypes
  import opened SchedulerSpec

  ghost predicate NoDuplicates(ids: seq<Id>) {
    forall i, j :: 0 <= i < j < |ids| ==> ids[i] != ids[j]
  }

  function TriggerKey(t: Trigger): string { IntentKey(t.task, t.key) }

  function ExecutionKey(x: Execution): string { IntentKey(x.task, x.key) }

  ghost predicate InRange(ids: seq<Id>, bound: nat) {
    forall t :: t in ids ==> 0 < t <= bound
  }

  /** Every identifier in use was issued by the counter. */
  ghost predicate Numbered(b: Book) {
    && (forall t :: t in b.triggers ==> 0 < t <= b.sequence)
    && (forall e :: e in b.executions ==> 0 < e <= b.sequence && InRange(b.executions[e].triggers, b.sequence))
    && (forall k :: k in b.pending ==> 0 < b.pending[k].id <= b.sequence && InRange(b.pending[k].triggers, b.sequence))
  }

  ghost predicate DistinctIntents(b: Book) {
    forall j, k :: j in b.pending && k in b.pending && b.pending[j].id == b.pending[k].id ==> j == k
  }

  /** Intents sit under their own key, are never empty and name no trigger twice. */
  ghost predicate WellFormedIntent(k: string, i: Intent) {
    IntentKey(i.task, i.key) == k && i.attempt >= 1 && i.triggers != [] && NoDuplicates(i.triggers)
  }

  ghost predicate Shaped(b: Book) {
    && (forall k :: k in b.pending ==> WellFormedIntent(k, b.pending[k]))
    && (forall e :: e in b.executions ==>
          b.executions[e].attempt >= 1 && b.executions[e].triggers != [] && NoDuplicates(b.executions[e].triggers))
  }

  /** A trigger that has not ended is in the one place its own record names. */
  ghost predicate Placed(b: Book, live: set<Id>, t: Id)
    requires t in b.triggers
  {
    var r := b.triggers[t];
    if Active(r.state) then r.execution in live && r.execution in b.executions && t in b.executions[r.execution].triggers
    else TriggerKey(r) in b.pending && t in b.pending[TriggerKey(r)].triggers
  }

  ghost predicate AllPlaced(b: Book, live: set<Id>) {
    forall t :: t in b.triggers && !Terminal(b.triggers[t].state) ==> Placed(b, live, t)
  }

  /** Whatever an intent holds is queued under that intent's key. */
  ghost predicate QueuedUnder(b: Book, k: string, t: Id) {
    t in b.triggers ==> Queued(b.triggers[t].state) && TriggerKey(b.triggers[t]) == k
  }

  ghost predicate IntentsAgree(b: Book) {
    forall k, t :: k in b.pending && t in b.pending[k].triggers ==> QueuedUnder(b, k, t)
  }

  /** Whatever a live execution carries names that execution and shares its key. */
  ghost predicate CarriedIn(b: Book, e: Id, t: Id)
    requires e in b.executions
  {
    t in b.triggers ==>
      && Active(b.triggers[t].state) && b.triggers[t].execution == e
      && TriggerKey(b.triggers[t]) == ExecutionKey(b.executions[e])
  }

  ghost predicate ExecutionsAgree(b: Book, live: set<Id>) {
    forall e, t :: e in live && e in b.executions && t in b.executions[e].triggers ==> CarriedIn(b, e, t)
  }

  ghost predicate Ordered(b: Book) {
    Numbered(b) && DistinctIntents(b) && Shaped(b)
  }

  ghost predicate Located(b: Book, live: set<Id>) {
    AllPlaced(b, live) && IntentsAgree(b) && ExecutionsAgree(b, live)
  }

  ghost predicate Bookkeeping(b: Book, live: set<Id>) {
    live <= b.executions.Keys && Ordered(b) && Located(b, live)
  }

  /** Every identifier that an intent or a live execution holds has a record.
      The scheduler follows these references without a check. */
  ghost predicate Closed(b: Book, live: set<Id>) {
    && (forall k :: k in b.pending ==> Resolved(b.triggers, b.pending[k].triggers))
    && (forall e :: e in live && e in b.executions ==> Resolved(b.triggers, b.executions[e].triggers))
  }

  // ------------------------------------------------------------ list helpers

  lemma AppendFresh(ids: seq<Id>, t: Id)
    requires NoDuplicates(ids) && t !in ids
    ensures NoDuplicates(ids + [t])
  {
  }

  lemma {:induction false} AppendUniqueProperties(existing: seq<Id>, values: seq<Id>)
    ensures forall t :: t in AppendUnique(existing, values) <==> t in existing || t in values
    ensures NoDuplicates(existing) ==> NoDuplicates(AppendUnique(existing, values))
    decreases |values|
  {
    if values != [] {
      AppendUniqueProperties(if values[0] in existing then existing else existing + [values[0]], values[1..]);
    }
  }

  lemma {:induction false} WithoutProperties(ids: seq<Id>, id: Id)
    ensures forall t :: t in Without(ids, id) <==> t in ids && t != id
    ensures NoDuplicates(ids) ==> NoDuplicates(Without(ids, id))
  {
    if ids != [] {
      WithoutProperties(ids[1..], id);
      var rest := Without(ids[1..], id);
      if NoDuplicates(ids) {
        assert NoDuplicates(ids[1..]);
        assert ids[0] !in rest;
      }
    }
  }

  // ------------------------------------------------------------------ submit

  lemma AttachOrdered(b: Book, e: Id, req: Request, now: Time)
    requires Ordered(b) && e in b.executions
    ensures Ordered(Attach(b, e, req, now))
  {
    AppendFresh(b.executions[e].triggers, b.sequence + 1);
  }

  lemma AttachCarried(b: Book, live: set<Id>, e: Id, req: Request, now: Time)
    requires Bookkeeping(b, live) && e in live
    requires ExecutionKey(b.executions[e]) == IntentKey(req.task, req.key)
    ensures ExecutionsAgree(Attach(b, e, req, now), live)
  {
    var b' := Attach(b, e, req, now);
    forall f, t | f in live && f in b'.executions && t in b'.executions[f].triggers
      ensures CarriedIn(b', f, t)
    {
      assert t in b.executions[f].triggers ==> CarriedIn(b, f, t);
    }
  }

  lemma AttachLocated(b: Book, live: set<Id>, e: Id, req: Request, now: Time)
    requires Bookkeeping(b, live) && e in live
    requires ExecutionKey(b.executions[e]) == IntentKey(req.task, req.key)
    ensures Located(Attach(b, e, req, now), live)
  {
    AttachCarried(b, live, e, req, now);
  }

  lemma AttachKeeps(b: Book, live: set<Id>, e: Id, req: Request, now: Time)
    requires Bookkeeping(b, live) && e in live
    requires ExecutionKey(b.executions[e]) == IntentKey(req.task, req.key)
    ensures Bookkeeping(Attach(b, e, req, now), live)
    ensures Closed(b, live) ==> Closed(Attach(b, e, req, now), live)
  {
    AttachOrdered(b, e, req, now);
    AttachLocated(b, live, e, req, now);
  }

  lemma CoalesceNumbered(b: Book, key: string, req: Request, now: Time)
    requires Ordered(b) && key in b.pending
    ensures Numbered(Coalesce(b, key, req, now)) && DistinctIntents(Coalesce(b, key, req, now))
  {
  }

  lemma CoalesceOrdered(b: Book, key: string, req: Request, now: Time)
    requires Ordered(b) && key in b.pending && key == IntentKey(req.task, req.key)
    ensures Ordered(Coalesce(b, key, req, now))
  {
    CoalesceNumbered(b, key, req, now);
    AppendFresh(b.pending[key].triggers, b.sequence + 1);
  }

  lemma CoalesceLocated(b: Book, live: set<Id>, key: string, req: Request, now: Time)
    requires Bookkeeping(b, live) && key in b.pending && key == IntentKey(req.task, req.key)
    ensures Located(Coalesce(b, key, req, now), live)
  {
  }

  lemma CoalesceKeeps(b: Book, live: set<Id>, key: string, req: Request, now: Time)
    requires Bookkeeping(b, live) && key in b.pending && key == IntentKey(req.task, req.key)
    ensures Bookkeeping(Coalesce(b, key, req, now), live)
    ensures Closed(b, live) ==> Closed(Coalesce(b, key, req, now), live)
  {
    CoalesceOrdered(b, key, req, now);
    CoalesceLocated(b, live, key, req, now);
  }

  lemma EnqueueOrdered(b: Book, key: string, req: Request, now: Time)
    requires Ordered(b) && key !in b.pending && key == IntentKey(req.task, req.key)
    ensures Ordered(Enqueue(b, key, req, now))
  {
  }

  lemma EnqueueLocated(b: Book, live: set<Id>, key: string, req: Request, now: Time)
    requires Bookkeeping(b, live) && key !in b.pending && key == IntentKey(req.task, req.key)
    ensures Located(Enqueue(b, key, req, now), live)
  {
  }

  lemma EnqueueKeeps(b: Book, live: set<Id>, key: string, req: Request, now: Time)
    requires Bookkeeping(b, live) && key !in b.pending && key == IntentKey(req.task, req.key)
    ensures Bookkeeping(Enqueue(b, key, req, now), live)
    ensures Closed(b, live) ==> Closed(Enqueue(b, key, req, now), live)
  {
    EnqueueOrdered(b, key, req, now);
    EnqueueLocated(b, live, key, req, now);
  }

  lemma SubmitKeeps(defs: Definitions, b: Book, live: set<Id>, running: seq<Id>, req: Request, now: Time)
    requires Bookkeeping(b, live) && (forall e :: e in running ==> e in live)
    requires Submit(defs, b, running, req, now).Ok?
    ensures var b' := Submit(defs, b, running, req, now).value.0;
      Bookkeeping(b', live) && (Closed(b, live) ==> Closed(b', live))
  {
    var d := defs[req.task];
    var r := Normalized(d, req);
    var key := IntentKey(r.task, r.key);
    match FindAttach(b, running, d, r) {
      case Some(e) => AttachKeeps(b, live, e, r, now);
      case None =>
        if key in b.pending { CoalesceKeeps(b, live, key, r, now); } else { EnqueueKeeps(b, live, key, r, now); }
    }
  }

  // ------------------------------------------------------------- cancellation

  lemma CancelShaped(b: Book, t: Id, now: Time)
    requires Shaped(b)
    ensures Shaped(CancelTrigger(b, t, now))
  {
    if t in b.triggers && TriggerKey(b.triggers[t]) in b.pending {
      WithoutProperties(b.pending[TriggerKey(b.triggers[t])].triggers, t);
    }
  }

  lemma CancelNumbered(b: Book, t: Id, now: Time)
    requires Numbered(b) && DistinctIntents(b)
    ensures Numbered(CancelTrigger(b, t, now)) && DistinctIntents(CancelTrigger(b, t, now))
  {
    if t in b.triggers && TriggerKey(b.triggers[t]) in b.pending {
      WithoutProperties(b.pending[TriggerKey(b.triggers[t])].triggers, t);
    }
  }

  lemma CancelOrdered(b: Book, t: Id, now: Time)
    requires Ordered(b)
    ensures Ordered(CancelTrigger(b, t, now))
  {
    CancelShaped(b, t, now);
    CancelNumbered(b, t, now);
  }

  lemma CancelLocated(b: Book, live: set<Id>, t: Id, now: Time)
    requires Located(b, live)
    ensures Located(CancelTrigger(b, t, now), live)
  {
    if t in b.triggers && Queued(b.triggers[t].state) && t != 0 {
      var key := TriggerKey(b.triggers[t]);
      assert key in b.pending;
      WithoutProperties(b.pending[key].triggers, t);
      var b' := CancelTrigger(b, t, now);
      assert forall k, u :: k in b'.pending && u in b'.pending[k].triggers ==> u != t && k in b.pending && u in b.pending[k].triggers;
      assert IntentsAgree(b');
      forall u | u in b'.triggers && !Terminal(b'.triggers[u].state)
        ensures Placed(b', live, u)
      {
        assert u != t && Placed(b, live, u);
      }
    }
  }

  lemma CancelKeeps(b: Book, live: set<Id>, t: Id, now: Time)
    requires Bookkeeping(b, live)
    ensures Bookkeeping(CancelTrigger(b, t, now), live)
    ensures Closed(b, live) ==> Closed(CancelTrigger(b, t, now), live)
  {
    CancelOrdered(b, t, now);
    CancelLocated(b, live, t, now);
    if t in b.triggers {
      var key := TriggerKey(b.triggers[t]);
      if key in b.pending { WithoutProperties(b.pending[key].triggers, t); }
    }
  }

  // ------------------------------------------------------------------- finish

  lemma RequeueDistinct(b: Book, e: Id, delay: int, now: Time)
    requires Ordered(b) && e in b.executions
    ensures DistinctIntents(Requeue(b, e, delay, now))
  {
  }

  lemma RequeueNumbered(b: Book, e: Id, delay: int, now: Time)
    requires Ordered(b) && e in b.executions
    ensures Numbered(Requeue(b, e, delay, now))
  {
    var x := b.executions[e];
    var key := ExecutionKey(x);
    AppendUniqueProperties(if key in b.pending then b.pending[key].triggers else [], x.triggers);
  }

  lemma RequeueShaped(b: Book, e: Id, delay: int, now: Time)
    requires Ordered(b) && e in b.executions
    ensures Shaped(Requeue(b, e, delay, now))
  {
    var x := b.executions[e];
    var key := ExecutionKey(x);
    AppendUniqueProperties(if key in b.pending then b.pending[key].triggers else [], x.triggers);
    assert x.triggers[0] in RequeuedIntent(b, x, delay, now).triggers;
  }

  lemma RequeueOrdered(b: Book, e: Id, delay: int, now: Time)
    requires Ordered(b) && e in b.executions
    ensures Ordered(Requeue(b, e, delay, now))
  {
    RequeueNumbered(b, e, delay, now);
    RequeueDistinct(b, e, delay, now);
    RequeueShaped(b, e, delay, now);
  }

  lemma RequeueLocated(b: Book, live: set<Id>, e: Id, delay: int, now: Time)
    requires Located(b, live) && e in live && e in b.executions && b.executions[e].triggers != []
    ensures Located(Requeue(b, e, delay, now), live - {e})
  {
    var x := b.executions[e];
    var key := ExecutionKey(x);
    AppendUniqueProperties(if key in b.pending then b.pending[key].triggers else [], x.triggers);
    var b' := Requeue(b, e, delay, now);
    assert forall t :: t in x.triggers ==> CarriedIn(b, e, t);
    forall u | u in b'.triggers && !Terminal(b'.triggers[u].state)
      ensures Placed(b', live - {e}, u)
    {
      if u !in x.triggers { assert Placed(b, live, u); }
    }
    forall k, t | k in b'.pending && t in b'.pending[k].triggers
      ensures QueuedUnder(b', k, t)
    {
      if t !in x.triggers { assert k in b.pending && t in b.pending[k].triggers; }
    }
    forall f, t | f in live - {e} && f in b'.executions && t in b'.executions[f].triggers
      ensures CarriedIn(b', f, t)
    {
      assert CarriedIn(b, f, t);
    }
  }

  lemma RequeueKeeps(b: Book, live: set<Id>, e: Id, delay: int, now: Time)
    requires Bookkeeping(b, live) && e in live
    ensures Bookkeeping(Requeue(b, e, delay, now), live - {e})
    ensures Closed(b, live) ==> Closed(Requeue(b, e, delay, now), live - {e})
  {
    RequeueOrdered(b, e, delay, now);
    RequeueLocated(b, live, e, delay, now);
    var x := b.executions[e];
    AppendUniqueProperties(if ExecutionKey(x) in b.pending then b.pending[ExecutionKey(x)].triggers else [], x.triggers);
  }

  /** Ending every trigger of a live execution releases it. */
  lemma EndTriggersKeeps(b: Book, live: set<Id>, e: Id, f: Trigger -> Trigger)
    requires Bookkeeping(b, live) && e in live
    requires forall t :: Terminal(f(t).state)
    ensures var b' := b.(triggers := Rewrite(b.triggers, b.executions[e].triggers, f));
      Bookkeeping(b', live - {e}) && (Closed(b, live) ==> Closed(b', live - {e}))
  {
    var b' := b.(triggers := Rewrite(b.triggers, b.executions[e].triggers, f));
    assert Ordered(b');
    forall u | u in b'.triggers && !Terminal(b'.triggers[u].state)
      ensures Placed(b', live - {e}, u)
    {
      assert Placed(b, live, u);
    }
    forall k, t | k in b'.pending && t in b'.pending[k].triggers
      ensures QueuedUnder(b', k, t)
    {
      assert QueuedUnder(b, k, t);
      if t in b.executions[e].triggers { assert CarriedIn(b, e, t); }
    }
    forall g, t | g in live - {e} && g in b'.executions && t in b'.executions[g].triggers
      ensures CarriedIn(b', g, t)
    {
      assert CarriedIn(b, g, t);
      if t in b.executions[e].triggers { assert CarriedIn(b, e, t); }
    }
  }

  // ----------------------------------------------------------- admission, trim

  lemma AdmitOrdered(b: Book, key: string, now: Time)
    requires Ordered(b) && key in b.pending
    ensures Ordered(Admit(b, key, now))
  {
  }

  lemma AdmitLocated(b: Book, live: set<Id>, key: string, now: Time)
    requires Bookkeeping(b, live) && key in b.pending
    ensures Located(Admit(b, key, now), live + {b.sequence + 1})
  {
    var b', e, ids := Admit(b, key, now), b.sequence + 1, b.pending[key].triggers;
    forall u | u in b'.triggers && !Terminal(b'.triggers[u].state)
      ensures Placed(b', live + {e}, u)
    {
      assert Placed(b, live, u);
    }
    forall k, t | k in b'.pending && t in b'.pending[k].triggers
      ensures QueuedUnder(b', k, t)
    {
      assert QueuedUnder(b, k, t);
      if t in ids { assert QueuedUnder(b, key, t); }
    }
    forall f, t | f in live + {e} && f in b'.executions && t in b'.executions[f].triggers
      ensures CarriedIn(b', f, t)
    {
      if f == e { assert QueuedUnder(b, key, t); } else {
        assert CarriedIn(b, f, t);
        if t in ids { assert QueuedUnder(b, key, t); }
      }
    }
  }

  lemma AdmitKeeps(b: Book, live: set<Id>, key: string, now: Time)
    requires Bookkeeping(b, live) && key in b.pending
    ensures Bookkeeping(Admit(b, key, now), live + {b.sequence + 1})
    ensures Closed(b, live) ==> Closed(Admit(b, key, now), live + {b.sequence + 1})
  {
    AdmitOrdered(b, key, now);
    AdmitLocated(b, live, key, now);
  }

  /** Moving a trigger between the two queued states moves nothing else. */
  lemma RelabelKeeps(b: Book, live: set<Id>, relabelled: map<Id, Trigger>)
    requires Bookkeeping(b, live) && relabelled.Keys == b.triggers.Keys
    requires forall t :: t in b.triggers ==>
      relabelled[t] == b.triggers[t] || (Queued(b.triggers[t].state) && relabelled[t] == b.triggers[t].(state := Waiting))
    ensures Bookkeeping(b.(triggers := relabelled), live)
    ensures Closed(b, live) ==> Closed(b.(triggers := relabelled), live)
  {
    var b' := b.(triggers := relabelled);
    assert Ordered(b');
    forall u | u in b'.triggers && !Terminal(b'.triggers[u].state)
      ensures Placed(b', live, u)
    {
      assert Placed(b, live, u);
    }
    assert IntentsAgree(b') by {
      assert forall k, t :: k in b.pending && t in b.pending[k].triggers ==> QueuedUnder(b, k, t);
    }
    assert ExecutionsAgree(b', live) by {
      assert forall f, t :: f in live && f in b.executions && t in b.executions[f].triggers ==> CarriedIn(b, f, t);
    }
  }

  lemma MarkWaitingKeeps(b: Book, live: set<Id>, blocked: set<string>)
    requires Bookkeeping(b, live)
    ensures Bookkeeping(MarkWaiting(b, blocked), live)
    ensures Closed(b, live) ==> Closed(MarkWaiting(b, blocked), live)
  {
    var relabelled := MarkWaiting(b, blocked).triggers;
    forall t | t in b.triggers && relabelled[t] != b.triggers[t]
      ensures Queued(b.triggers[t].state) && relabelled[t] == b.triggers[t].(state := Waiting)
    {
      var k :| k in blocked && k in b.pending && t in b.pending[k].triggers;
      assert QueuedUnder(b, k, t);
    }
    RelabelKeeps(b, live, relabelled);
  }

  lemma DropUnregisteredFacts(defs: Definitions, b: Book, live: set<Id>, now: Time, t: Id)
    requires Bookkeeping(b, live) && t in b.triggers
    ensures var b' := DropUnregistered(defs, b, now);
      b'.triggers[t] != b.triggers[t] ==>
        Queued(b.triggers[t].state) && Terminal(b'.triggers[t].state) && TriggerKey(b.triggers[t]) !in b'.pending
  {
    var b' := DropUnregistered(defs, b, now);
    if b'.triggers[t] != b.triggers[t] {
      var k :| k in b.pending && b.pending[k].task !in defs && t in b.pending[k].triggers;
      assert QueuedUnder(b, k, t);
    }
  }

  lemma DropUnregisteredLocated(defs: Definitions, b: Book, live: set<Id>, now: Time)
    requires Bookkeeping(b, live)
    ensures Located(DropUnregistered(defs, b, now), live)
  {
    var b' := DropUnregistered(defs, b, now);
    forall u | u in b'.triggers && !Terminal(b'.triggers[u].state)
      ensures Placed(b', live, u)
    {
      DropUnregisteredFacts(defs, b, live, now, u);
      assert Placed(b, live, u);
    }
    forall k, t | k in b'.pending && t in b'.pending[k].triggers
      ensures QueuedUnder(b', k, t)
    {
      assert QueuedUnder(b, k, t);
      if t in b.triggers { DropUnregisteredFacts(defs, b, live, now, t); }
    }
    forall f, t | f in live && f in b'.executions && t in b'.executions[f].triggers
      ensures CarriedIn(b', f, t)
    {
      assert CarriedIn(b, f, t);
      if t in b.triggers { DropUnregisteredFacts(defs, b, live, now, t); }
    }
  }

  lemma DropUnregisteredKeeps(defs: Definitions, b: Book, live: set<Id>, now: Time)
    requires Bookkeeping(b, live)
    ensures Bookkeeping(DropUnregistered(defs, b, now), live)
    ensures Closed(b, live) ==> Closed(DropUnregistered(defs, b, now), live)
  {
    DropUnregisteredLocated(defs, b, live, now);
    assert Ordered(DropUnregistered(defs, b, now));
  }

  lemma PreemptKeeps(defs: Definitions, b: Book, running: map<Id, seq<Claim>>, live: set<Id>)
    requires Bookkeeping(b, live)
    ensures Bookkeeping(Preempt(defs, b, running), live)
    ensures Closed(b, live) ==> Closed(Preempt(defs, b, running), live)
  {
    RestateKeeps(b, live, Preempt(defs, b, running).executions);
  }

  lemma ForgetKeeps(b: Book, live: set<Id>, removed: set<Id>)
    requires Bookkeeping(b, live) && removed !! live
    ensures Bookkeeping(Forget(b, removed), live)
    ensures Closed(b, live) ==> Closed(Forget(b, removed), live)
  {
    var b' := Forget(b, removed);
    assert Ordered(b');
    assert forall t :: t in b'.triggers ==> t in b.triggers && b'.triggers[t] == b.triggers[t];
    assert forall t :: t in b.triggers && !Terminal(b.triggers[t].state) ==> t in b'.triggers;
    forall u | u in b'.triggers && !Terminal(b'.triggers[u].state)
      ensures Placed(b', live, u)
    {
      assert Placed(b, live, u);
    }
    forall k, t | k in b'.pending && t in b'.pending[k].triggers
      ensures QueuedUnder(b', k, t) && (t in b.triggers ==> t in b'.triggers)
    {
      assert QueuedUnder(b, k, t);
    }
    forall f, t | f in live && f in b'.executions && t in b'.executions[f].triggers
      ensures CarriedIn(b', f, t) && (t in b.triggers ==> t in b'.triggers)
    {
      assert CarriedIn(b, f, t);
    }
  }

  // ------------------------------------------------------------- whole steps

  lemma SatisfyOneKeeps(wdefs: WorkflowDefinitions, b: Book, live: set<Id>, instance: string, x: Execution, now: Time)
    requires Bookkeeping(b, live) && instance in b.workflows
    ensures Bookkeeping(SatisfyOne(wdefs, b, instance, x, now), live)
    ensures Closed(b, live) ==> Closed(SatisfyOne(wdefs, b, instance, x, now), live)
  {
    var b1 := CancelTrigger(b, b.workflows[instance].trigger, now);
    CancelKeeps(b, live, b.workflows[instance].trigger, now);
    if Satisfies(wdefs, b.workflows[instance], x) { FrameKeeps(b1, SatisfyOne(wdefs, b, instance, x, now), live); }
  }

  lemma {:induction false} SatisfyAllKeeps(wdefs: WorkflowDefinitions, b: Book, live: set<Id>, order: seq<string>,
                                           x: Execution, now: Time)
    requires Bookkeeping(b, live)
    ensures Bookkeeping(SatisfyAll(wdefs, b, order, x, now), live)
    ensures Closed(b, live) ==> Closed(SatisfyAll(wdefs, b, order, x, now), live)
    decreases |order|
  {
    if order != [] {
      if order[0] in b.workflows {
        SatisfyOneKeeps(wdefs, b, live, order[0], x, now);
        SatisfyAllKeeps(wdefs, SatisfyOne(wdefs, b, order[0], x, now), live, order[1..], x, now);
      } else {
        SatisfyAllKeeps(wdefs, b, live, order[1..], x, now);
      }
    }
  }

  /** Whatever its runner returned, a finished execution lets go of every trigger
      it carried: each is queued again or has ended. */
  lemma ConcludeKeeps(d: Definition, wdefs: WorkflowDefinitions, b: Book, live: set<Id>, e: Id, outcome: Outcome,
                      order: seq<string>, now: Time)
    requires Bookkeeping(b, live) && e in live
    ensures Bookkeeping(Conclude(d, wdefs, b, e, outcome, order, now), live - {e})
    ensures Closed(b, live) ==> Closed(Conclude(d, wdefs, b, e, outcome, order, now), live - {e})
  {
    var b1 := EndExecution(b, e, outcome, now);
    EndExecutionKeeps(b, live, e, outcome, now);
    match outcome {
      case Canceled =>
        if d.recovery.RecoveryRetry? { RequeueKeeps(b1, live, e, d.interruptionDelay, now); }
        else { SettleKeeps(b1, live, e, Attention, now); }
      case Errored(retryable) =>
        if retryable && b1.executions[e].attempt < d.retry.maxAttempts {
          RequeueKeeps(b1, live, e, RetryDelay(d.retry, b1.executions[e].attempt), now);
        } else {
          SettleKeeps(b1, live, e, Failed, now);
          FrameKeeps(Settle(b1, e, Failed, now), StopWorkflows(Settle(b1, e, Failed, now), b1.executions[e].triggers), live - {e});
        }
      case Succeeded(_) =>
        SettleKeeps(b1, live, e, Fulfilled, now);
        SatisfyAllKeeps(wdefs, Settle(b1, e, Fulfilled, now), live - {e}, order, b1.executions[e], now);
    }
  }

  /** Workflows and schedules do not hold triggers. */
  lemma FrameKeeps(b: Book, b': Book, live: set<Id>)
    requires Bookkeeping(b, live)
    requires b' == b.(workflows := b'.workflows, periodicNext := b'.periodicNext)
    ensures Bookkeeping(b', live)
    ensures Closed(b, live) ==> Closed(b', live)
  {
  }

  lemma SettleKeeps(b: Book, live: set<Id>, e: Id, state: TriggerState, now: Time)
    requires Bookkeeping(b, live) && e in live && Terminal(state)
    ensures Bookkeeping(Settle(b, e, state, now), live - {e})
    ensures Closed(b, live) ==> Closed(Settle(b, e, state, now), live - {e})
  {
    EndTriggersKeeps(b, live, e, (t: Trigger) => t.(state := state, finishedAt := now));
  }

  lemma EndExecutionKeeps(b: Book, live: set<Id>, e: Id, outcome: Outcome, now: Time)
    requires Bookkeeping(b, live) && e in live
    ensures Bookkeeping(EndExecution(b, e, outcome, now), live)
    ensures Closed(b, live) ==> Closed(EndExecution(b, e, outcome, now), live)
  {
    RestateKeeps(b, live, EndExecution(b, e, outcome, now).executions);
  }

  /** Where triggers are does not depend on what state an execution reports. */
  lemma RestateKeeps(b: Book, live: set<Id>, executions: map<Id, Execution>)
    requires Bookkeeping(b, live) && executions.Keys == b.executions.Keys
    requires forall e :: e in executions ==>
      executions[e] == b.executions[e].(state := executions[e].state, finishedAt := executions[e].finishedAt)
    ensures Bookkeeping(b.(executions := executions), live)
    ensures Closed(b, live) ==> Closed(b.(executions := executions), live)
  {
    var b' := b.(executions := executions);
    assert Ordered(b') && AllPlaced(b', live);
    forall f, t | f in live && f in b'.executions && t in b'.executions[f].triggers
      ensures CarriedIn(b', f, t)
    {
      assert CarriedIn(b, f, t);
    }
  }

  lemma TickTaskKeeps(defs: Definitions, b: Book, live: set<Id>, running: seq<Id>, task: string, now: Time)
    requires Bookkeeping(b, live) && task in defs && (forall e :: e in running ==> e in live)
    ensures Bookkeeping(TickTask(defs, b, running, task, now), live)
    ensures Closed(b, live) ==> Closed(TickTask(defs, b, running, task, now), live)
  {
    var req := PeriodicRequest(task, DueTime(b, task));
    var submitted := Submit(defs, b, running, req, now);
    if submitted.Ok? { SubmitKeeps(defs, b, live, running, req, now); }
    var b' := TickTask(defs, b, running, task, now);
    if b'.sequence == b.sequence { FrameKeeps(b, b', live); } else { FrameKeeps(submitted.value.0, b', live); }
  }

  lemma TickWorkflowKeeps(defs: Definitions, wdefs: WorkflowDefinitions, b: Book, live: set<Id>, running: seq<Id>,
                          instance: string, now: Time)
    requires Bookkeeping(b, live) && instance in b.workflows && (forall e :: e in running ==> e in live)
    ensures Bookkeeping(TickWorkflow(defs, wdefs, b, running, instance, now), live)
    ensures Closed(b, live) ==> Closed(TickWorkflow(defs, wdefs, b, running, instance, now), live)
  {
    var w := b.workflows[instance];
    var b' := TickWorkflow(defs, wdefs, b, running, instance, now);
    if b' == b.(workflows := b'.workflows) {
      FrameKeeps(b, b', live);
    } else {
      var req := StepRequest(wdefs[w.definition][w.step], instance, w, now);
      SubmitKeeps(defs, b, live, running, req, now);
      FrameKeeps(Submit(defs, b, running, req, now).value.0, b', live);
    }
  }

  lemma AdvanceKeeps(b: Book, live: set<Id>, definition: string, key: string, quiet: nat, maximum: nat, now: Time)
    requires Bookkeeping(b, live)
    ensures Bookkeeping(Advance(b, definition, key, quiet, maximum, now), live)
    ensures Closed(b, live) ==> Closed(Advance(b, definition, key, quiet, maximum, now), live)
  {
    var instance := definition + ":" + key;
    if instance in b.workflows { CancelKeeps(b, live, b.workflows[instance].trigger, now); }
  }
}
