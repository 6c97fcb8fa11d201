/** The scheduler object: its fields are updated in place under one lock, step by
    step, and each method is proved to leave exactly the state that SchedulerSpec
    describes.

    The clock, the store's answer to a write and the outcome of a runner are
    parameters.  Where the program visits a map in arbitrary order, the method
    picks arbitrarily too and reports the order it took as a ghost result. */
module SchedulerManager {
  import opened TaskTypes
  import opened SchedulerSpec
  import opened SchedulerLookup
  import opened SchedulerInvariants
  import opened SchedulerRecovery
  import opened Resources
  import opened SchedulerRound
  import opened SchedulerTiming
  import opened SchedulerOutcomes
  import opened SubmissionOutcomes
  import opened SetSums
  import opened Sorting

  // ------------------------------------------------------------ loop lemmas

  lemma RewriteStep(m: map<Id, Trigger>, ids: seq<Id>, i: nat, f: Trigger -> Trigger)
    requires i < |ids| && ids[i] in m && forall t :: f(f(t)) == f(t)
    ensures var before := Rewrite(m, ids[..i], f);
      Rewrite(m, ids[..i + 1], f) == before[ids[i] := f(before[ids[i]])]
  {
    assert ids[..i + 1] == ids[..i] + [ids[i]];
  }

  lemma RewriteSkip(m: map<Id, Trigger>, ids: seq<Id>, i: nat, f: Trigger -> Trigger)
    requires i < |ids| && ids[i] !in m
    ensures Rewrite(m, ids[..i + 1], f) == Rewrite(m, ids[..i], f)
  {
    assert ids[..i + 1] == ids[..i] + [ids[i]];
  }

  lemma {:induction false} FindAttachAppend(b: Book, first: seq<Id>, rest: seq<Id>, d: Definition, req: Request)
    ensures FindAttach(b, first + rest, d, req)
            == if FindAttach(b, first, d, req).Some? then FindAttach(b, first, d, req) else FindAttach(b, rest, d, req)
  {
    if first == [] {
      assert first + rest == rest;
    } else {
      assert (first + rest)[1..] == first[1..] + rest;
      FindAttachAppend(b, first[1..], rest, d, req);
    }
  }

  lemma {:induction false} KindsOfAppend(triggers: map<Id, Trigger>, ids: seq<Id>, t: Id)
    ensures KindsOf(triggers, ids + [t]) == KindsOf(triggers, ids) + (if t in triggers then [triggers[t].kind] else [])
  {
    if ids == [] {
      assert ids + [t] == [t] && [t][1..] == [];
    } else {
      assert (ids + [t])[1..] == ids[1..] + [t];
      KindsOfAppend(triggers, ids[1..], t);
    }
  }

  lemma {:induction false} WithoutAppend(ids: seq<Id>, t: Id, id: Id)
    ensures Without(ids + [t], id) == Without(ids, id) + (if t == id then [] else [t])
  {
    if ids == [] {
      assert ids + [t] == [t] && [t][1..] == [];
    } else {
      assert (ids + [t])[1..] == ids[1..] + [t];
      WithoutAppend(ids[1..], t, id);
    }
  }

  lemma {:induction false} AppendUniqueAppend(existing: seq<Id>, values: seq<Id>, t: Id)
    ensures AppendUnique(existing, values + [t])
            == var r := AppendUnique(existing, values); if t in r then r else r + [t]
    decreases |values|
  {
    if values == [] {
      assert values + [t] == [t] && [t][1..] == [];
    } else {
      assert (values + [t])[1..] == values[1..] + [t] && (values + [t])[0] == values[0];
      AppendUniqueAppend(if values[0] in existing then existing else existing + [values[0]], values[1..], t);
    }
  }

  lemma {:induction false} SatisfyAllAppend(wdefs: WorkflowDefinitions, b: Book, order: seq<string>, instance: string,
                                            x: Execution, now: Time)
    requires instance in b.workflows
    ensures SatisfyAll(wdefs, b, order + [instance], x, now)
            == SatisfyOne(wdefs, SatisfyAll(wdefs, b, order, x, now), instance, x, now)
    decreases |order|
  {
    if order == [] {
      assert order + [instance] == [instance] && [instance][1..] == [];
    } else {
      assert (order + [instance])[1..] == order[1..] + [instance] && (order + [instance])[0] == order[0];
      if order[0] in b.workflows {
        SatisfyAllAppend(wdefs, SatisfyOne(wdefs, b, order[0], x, now), order[1..], instance, x, now);
      } else {
        SatisfyAllAppend(wdefs, b, order[1..], instance, x, now);
      }
    }
  }

  lemma {:induction false} RecoverAllAppend(defs: Definitions, b: Book, order: seq<Id>, e: Id, now: Time)
    requires (forall x :: x in order ==> x in b.executions) && e in b.executions
    ensures RecoverAll(defs, b, order + [e], now) == RecoverOne(defs, RecoverAll(defs, b, order, now), e, now)
    decreases |order|
  {
    if order == [] {
      assert order + [e] == [e] && [e][1..] == [];
    } else {
      assert (order + [e])[1..] == order[1..] + [e] && (order + [e])[0] == order[0];
      RecoverAllAppend(defs, RecoverOne(defs, b, order[0], now), order[1..], e, now);
    }
  }

  /** Some order in which the members of a set can be visited. */
  ghost function Listing(s: set<Id>): (r: seq<Id>)
    ensures forall x :: x in r <==> x in s
    decreases |s|
  {
    if s == {} then []
    else var x :| x in s; [x] + Listing(s - {x})
  }

  ghost function ListWorkflows(s: set<string>): (r: seq<string>)
    ensures Enumerates(r, s)
    decreases |s|
  {
    if s == {} then []
    else var x :| x in s; [x] + ListWorkflows(s - {x})
  }

  function FinishedAt(b: Book, e: Id): Time {
    if e in b.executions then b.executions[e].finishedAt else 0
  }

  lemma SortEnumerates(le: (Id, Id) -> bool, xs: seq<Id>, s: set<Id>)
    requires Enumerates(xs, s)
    ensures Enumerates(Sort(le, xs), s)
  {
    SortContents(le, xs);
    assert Distinct(xs);
    SortDistinct(le, xs);
  }

  function WithoutEnded(triggers: map<Id, Trigger>, ids: seq<Id>): map<Id, Trigger> {
    map t | t in triggers && !(t in ids && Terminal(triggers[t].state)) :: triggers[t]
  }

  lemma ForgetNothing(b: Book)
    ensures Forget(b, {}) == b
  {
  }

  lemma ForgetOne(b: Book, removed: set<Id>, e: Id)
    requires e in b.executions && e !in removed
    ensures var f := Forget(b, removed);
      e in f.executions && Forget(b, removed + {e})
        == f.(executions := f.executions - {e}, triggers := WithoutEnded(f.triggers, f.executions[e].triggers))
  {
    assert CarriedBy(b, removed + {e}) == CarriedBy(b, removed) + set t | t in b.executions[e].triggers;
  }

  function FirstOf(ids: seq<Id>, i: nat): set<Id>
    requires i <= |ids|
  {
    set e | e in ids[..i]
  }

  lemma NextOf(ids: seq<Id>, i: nat, s: set<Id>)
    requires i < |ids| && Enumerates(ids, s)
    ensures ids[i] in s && ids[i] !in FirstOf(ids, i) && FirstOf(ids, i + 1) == FirstOf(ids, i) + {ids[i]}
  {
    assert ids[..i + 1] == ids[..i] + [ids[i]];
  }

  lemma TrimIsValid(b: Book, live: set<Id>, limit: nat, completed: seq<Id>, i: nat, removed: set<Id>)
    requires Enumerates(completed, b.executions.Keys - live) && i <= |completed|
    requires forall m, n :: 0 <= m < n < |completed| ==> FinishedAt(b, completed[m]) <= FinishedAt(b, completed[n])
    requires removed == FirstOf(completed, i) && |removed| == i
    requires |b.executions| > limit && |b.executions| - i >= limit
    requires |b.executions| - i == limit || i == |completed|
    ensures ValidTrim(b, live, limit, removed)
  {
    assert removed <= b.executions.Keys - live;
    if i == |completed| { assert completed[..i] == completed; }
    assert forall x :: 0 <= x < i ==> completed[x] in completed[..i];
    forall r, c | r in removed && c in b.executions.Keys - live - removed
      ensures FinishedAt(b, r) <= FinishedAt(b, c)
    {
      var m :| 0 <= m < i && completed[..i][m] == r;
      assert c !in completed[..i];
      assert c in completed;
      var n :| 0 <= n < |completed| && completed[n] == c;
      assert n >= i;
    }
    forall r, c | r in removed && c in b.executions.Keys - live - removed
      ensures b.executions[r].finishedAt <= b.executions[c].finishedAt
    {
      assert FinishedAt(b, r) <= FinishedAt(b, c);
    }
  }

  ghost function Subjects(visits: seq<Visit>): set<string> { set v | v in visits :: v.subject }

  lemma {:induction false} TickTasksAppend(defs: Definitions, b: Book, visits: seq<Visit>, v: Visit, now: Time)
    requires (forall u :: u in visits ==> u.subject in defs) && v.subject in defs
    ensures TickTasks(defs, b, visits + [v], now) == TickTask(defs, TickTasks(defs, b, visits, now), v.running, v.subject, now)
    ensures Subjects(visits + [v]) == Subjects(visits) + {v.subject}
    decreases |visits|
  {
    if visits == [] {
      assert visits + [v] == [v] && [v][1..] == [];
    } else {
      assert (visits + [v])[1..] == visits[1..] + [v] && (visits + [v])[0] == visits[0];
      TickTasksAppend(defs, TickTask(defs, b, visits[0].running, visits[0].subject, now), visits[1..], v, now);
    }
  }

  lemma {:induction false} TickWorkflowsAppend(defs: Definitions, wdefs: WorkflowDefinitions, b: Book, visits: seq<Visit>, v: Visit, now: Time)
    requires (forall u :: u in visits ==> u.subject in b.workflows) && v.subject in b.workflows
    ensures TickWorkflows(defs, wdefs, b, visits, now).workflows.Keys == b.workflows.Keys
    ensures TickWorkflows(defs, wdefs, b, visits + [v], now)
            == TickWorkflow(defs, wdefs, TickWorkflows(defs, wdefs, b, visits, now), v.running, v.subject, now)
    ensures Subjects(visits + [v]) == Subjects(visits) + {v.subject}
    decreases |visits|
  {
    if visits == [] {
      assert visits + [v] == [v] && [v][1..] == [];
    } else {
      assert (visits + [v])[1..] == visits[1..] + [v] && (visits + [v])[0] == visits[0];
      TickWorkflowsAppend(defs, wdefs, TickWorkflow(defs, wdefs, b, visits[0].running, visits[0].subject, now), visits[1..], v, now);
    }
  }

  lemma RegisterNone(defs: Definitions, b: Book, now: Time)
    ensures RegisterAmong(defs, {}, b, now) == b
  {
    assert RegisterAmong(defs, {}, b, now).periodicNext == b.periodicNext;
  }

  lemma RegisterMore(defs: Definitions, done: set<string>, task: string, b: Book, now: Time)
    requires task in defs && task !in done
    ensures var r := RegisterAmong(defs, done, b, now);
      RegisterAmong(defs, done + {task}, b, now) ==
        if defs[task].interval > 0 && DueTime(r, task) == 0
        then r.(periodicNext := r.periodicNext[task := now + defs[task].interval])
        else r
  {
  }

  lemma DropNone(defs: Definitions, b: Book, now: Time)
    ensures DropAmong(defs, b, {}, now) == b
  {
    assert DropAmong(defs, b, {}, now).pending == b.pending;
    assert DropAmong(defs, b, {}, now).triggers == b.triggers;
  }

  /** The list holds exactly the ready intents among those looked at. */
  ghost predicate ReadyAmong(defs: Definitions, b: Book, done: set<string>, ready: seq<string>, now: Time)
    requires done <= b.pending.Keys
  {
    forall k :: k in ready <==> k in done && b.pending[k].task in defs && Ready(b.pending[k], now)
  }

  lemma ReadyAll(defs: Definitions, b: Book, ready: seq<string>, now: Time)
    requires ReadyAmong(defs, b, b.pending.Keys, ready, now)
    ensures var r := DropUnregistered(defs, b, now); forall k :: k in ready <==> k in r.pending && Ready(r.pending[k], now)
  {
  }

  lemma DropMorePending(defs: Definitions, b: Book, done: set<string>, key: string, now: Time)
    requires key in b.pending && key !in done
    ensures var r := DropAmong(defs, b, done, now);
      && key in r.pending && r.pending[key] == b.pending[key]
      && DropAmong(defs, b, done + {key}, now).pending == if b.pending[key].task in defs then r.pending else r.pending - {key}
  {
  }

  lemma DropMoreTriggers(defs: Definitions, b: Book, done: set<string>, key: string, now: Time)
    requires key in b.pending && key !in done
    ensures var r := DropAmong(defs, b, done, now);
      DropAmong(defs, b, done + {key}, now).triggers ==
        if b.pending[key].task in defs then r.triggers
        else Rewrite(r.triggers, b.pending[key].triggers, (t: Trigger) => t.(state := Attention, finishedAt := now))
  {
  }

  lemma WaitMore(b: Book, blocked: set<string>, key: string)
    requires key in b.pending
    ensures var r := MarkWaiting(b, blocked);
      MarkWaiting(b, blocked + {key}) == r.(triggers := Rewrite(r.triggers, b.pending[key].triggers, (t: Trigger) => t.(state := Waiting)))
  {
  }

  lemma PreemptMore(defs: Definitions, b: Book, running: map<Id, seq<Claim>>, done: set<string>, key: string)
    ensures PreemptBy(defs, PreemptBy(defs, b, running, done), running, {key}) == PreemptBy(defs, b, running, done + {key})
  {
    var r := PreemptBy(defs, b, running, done);
    forall e | e in b.executions
      ensures Preempted(defs, b, running, done + {key}, e) <==> Preempted(defs, b, running, done, e) || Preempted(defs, b, running, {key}, e)
      ensures Preempted(defs, r, running, {key}, e) <==> Preempted(defs, b, running, {key}, e)
    {
      assert key in b.pending ==> (Yields(defs, r, running, key, e) <==> Yields(defs, b, running, key, e));
    }
  }

  ghost function PreemptSome(defs: Definitions, b: Book, running: map<Id, seq<Claim>>, key: string, some: set<Id>): Book
    requires key in b.pending
  {
    b.(executions := map e | e in b.executions ::
         if e in some && Yields(defs, b, running, key, e) then b.executions[e].(state := ExCancelling) else b.executions[e])
  }

  lemma PreemptNone(defs: Definitions, b: Book, running: map<Id, seq<Claim>>, key: string)
    requires key in b.pending
    ensures PreemptSome(defs, b, running, key, {}) == b
  {
    assert PreemptSome(defs, b, running, key, {}).executions == b.executions;
  }

  lemma PreemptOne(defs: Definitions, b: Book, running: map<Id, seq<Claim>>, key: string, some: set<Id>, e: Id)
    requires key in b.pending && e in b.executions && e !in some
    ensures var r := PreemptSome(defs, b, running, key, some);
      && r.pending == b.pending && e in r.executions
      && PreemptSome(defs, b, running, key, some + {e}) ==
         if Yields(defs, r, running, key, e) then r.(executions := r.executions[e := r.executions[e].(state := ExCancelling)]) else r
  {
    var r := PreemptSome(defs, b, running, key, some);
    assert r.executions[e] == b.executions[e];
    var stops := Yields(defs, b, running, key, e);
    assert Yields(defs, r, running, key, e) == stops;
    PreemptRest(defs, b, running, key, some, e);
  }

  lemma PreemptRest(defs: Definitions, b: Book, running: map<Id, seq<Claim>>, key: string, some: set<Id>, e: Id)
    requires key in b.pending && e in b.executions && e !in some
    ensures var r, r' := PreemptSome(defs, b, running, key, some), PreemptSome(defs, b, running, key, some + {e});
      r'.executions == r.executions[e := r'.executions[e]]
  {
  }

  lemma PreemptAll(defs: Definitions, b: Book, running: map<Id, seq<Claim>>, key: string)
    requires key in b.pending
    ensures PreemptSome(defs, b, running, key, running.Keys) == PreemptBy(defs, b, running, {key})
  {
    assert forall e :: e in b.executions ==> (Preempted(defs, b, running, {key}, e) <==> Yields(defs, b, running, key, e));
  }

  function KeySet(keys: seq<string>): set<string> { set k | k in keys }

  lemma KeySetStep(keys: seq<string>, i: nat)
    requires i < |keys|
    ensures KeySet(keys[..i + 1]) == KeySet(keys[..i]) + {keys[i]}
  {
    assert keys[..i + 1] == keys[..i] + [keys[i]];
  }

  lemma MarkNothing(b: Book)
    ensures MarkWaiting(b, {}) == b
  {
  }

  /** The order of the ready list; keys without an intent come last. */
  predicate NotAfter(b: Book, j: string, k: string, now: Time) {
    k in b.pending ==> j in b.pending && !Precedes(b.pending[k], b.pending[j], now)
  }

  lemma NotAfterOrder(b: Book, now: Time)
    ensures TotalPreorder((j: string, k: string) => NotAfter(b, j, k, now))
  {
  }

  predicate Blocked(defs: Definitions, table: Table, b: Book, k: string) {
    k in b.pending && b.pending[k].task in defs && Conflicts(table, defs[b.pending[k].task].resources)
  }

  ghost predicate ReadyList(defs: Definitions, s: Scheduler, ready: seq<string>, now: Time) {
    && (forall k :: k in ready <==> k in s.book.pending && s.book.pending[k].task in defs && Ready(s.book.pending[k], now))
    && (forall i, j :: 0 <= i < j < |ready| ==> !Precedes(s.book.pending[ready[j]], s.book.pending[ready[i]], now))
  }

  lemma PrecedesTotal(i: Intent, j: Intent, now: Time)
    requires i.id != j.id && !Precedes(i, j, now)
    ensures Precedes(j, i, now)
  {
  }

  /** Whatever lies before position i in the list is not after what lies there. */
  lemma BeforeInList(defs: Definitions, s: Scheduler, ready: seq<string>, i: nat, j: nat, now: Time)
    requires DistinctIntents(s.book) && ReadyList(defs, s, ready, now) && i < j < |ready| && ready[i] != ready[j]
    ensures Precedes(s.book.pending[ready[i]], s.book.pending[ready[j]], now)
  {
    assert ready[i] in ready && ready[j] in ready;
    PrecedesTotal(s.book.pending[ready[j]], s.book.pending[ready[i]], now);
  }

  lemma PositionIsChosen(defs: Definitions, s: Scheduler, ready: seq<string>, i: nat, now: Time)
    requires DistinctIntents(s.book) && ReadyList(defs, s, ready, now) && i < |ready|
    requires (forall j :: 0 <= j < i ==> Blocked(defs, s.table, s.book, ready[j])) && !Blocked(defs, s.table, s.book, ready[i])
    ensures Chosen(defs, s, ready[i], now)
  {
    var key := ready[i];
    assert key in ready;
    forall k | Candidate(defs, s, k, now) && k != key
      ensures Precedes(s.book.pending[key], s.book.pending[k], now)
    {
      assert k in ready;
      var j :| 0 <= j < |ready| && ready[j] == k;
      assert !Blocked(defs, s.table, s.book, k);
      BeforeInList(defs, s, ready, i, j, now);
    }
  }

  /** The intents passed over are exactly the obstructed ones that come before. */
  lemma PassedOver(defs: Definitions, s: Scheduler, ready: seq<string>, i: nat, now: Time)
    requires DistinctIntents(s.book) && ReadyList(defs, s, ready, now) && i < |ready|
    requires (forall j :: 0 <= j < i ==> Blocked(defs, s.table, s.book, ready[j])) && !Blocked(defs, s.table, s.book, ready[i])
    ensures KeySet(ready[..i]) == set k | k in s.book.pending && Obstructed(defs, s, k, now)
                                           && Precedes(s.book.pending[k], s.book.pending[ready[i]], now)
  {
    var key := ready[i];
    assert key in ready;
    forall k | k in ready[..i]
      ensures k in s.book.pending && Obstructed(defs, s, k, now) && Precedes(s.book.pending[k], s.book.pending[key], now)
    {
      var j :| 0 <= j < i && ready[j] == k;
      assert k in ready && Blocked(defs, s.table, s.book, ready[j]);
      BeforeInList(defs, s, ready, j, i, now);
    }
    forall k | k in s.book.pending && Obstructed(defs, s, k, now) && Precedes(s.book.pending[k], s.book.pending[key], now)
      ensures k in ready[..i]
    {
      assert k in ready;
      var j :| 0 <= j < |ready| && ready[j] == k;
      assert Blocked(defs, s.table, s.book, k);
      assert j < i;
      assert ready[..i][j] == k;
    }
  }

  lemma AllPassedOver(defs: Definitions, s: Scheduler, ready: seq<string>, now: Time)
    requires ReadyList(defs, s, ready, now)
    requires forall j :: 0 <= j < |ready| ==> Blocked(defs, s.table, s.book, ready[j])
    ensures forall k :: !Candidate(defs, s, k, now)
    ensures KeySet(ready) == set k | k in s.book.pending && Obstructed(defs, s, k, now)
  {
    forall k | k in ready
      ensures Blocked(defs, s.table, s.book, k)
    {
      var j :| 0 <= j < |ready| && ready[j] == k;
    }
  }

  lemma ScanKeepsValid(defs: Definitions, s: Scheduler, now: Time)
    requires Sound(defs, s) && Closed(s.book, s.running.Keys)
    ensures Sound(defs, ScanNone(defs, s, now)) && Closed(ScanNone(defs, s, now).book, s.running.Keys)
  {
    var blocked := set k | k in s.book.pending && Obstructed(defs, s, k, now);
    ScanKeeps(defs, s, blocked, now);
  }

  lemma {:induction false} AdmitMore(defs: Definitions, s: Scheduler, keys: seq<string>, key: string, now: Time)
    requires InOrder(defs, s, keys, now) && Chosen(defs, AdmitMany(defs, s, keys, now), key, now)
    ensures InOrder(defs, s, keys + [key], now)
    ensures AdmitMany(defs, s, keys + [key], now) == AdmitChosen(defs, AdmitMany(defs, s, keys, now), key, now)
    decreases |keys|
  {
    if keys == [] {
      assert keys + [key] == [key] && [key][1..] == [];
    } else {
      assert (keys + [key])[1..] == keys[1..] + [key] && (keys + [key])[0] == keys[0];
      AdmitMore(defs, AdmitChosen(defs, s, keys[0], now), keys[1..], key, now);
    }
  }

  lemma EarliestOf(first: Time, second: Time, p: set<Time>, q: set<Time>)
    requires Earliest(first, p) && Earliest(second, q)
    ensures Earliest(EarlierNonZero(first, second), p + q)
  {
  }

  lemma NotUrgent(defs: Definitions, wdefs: WorkflowDefinitions, s: Scheduler, now: Time)
    requires forall k :: k in s.book.pending ==> s.book.pending[k].task in defs && !Candidate(defs, s, k, now)
    requires forall task :: task in s.book.periodicNext && task in defs && defs[task].interval > 0 ==> s.book.periodicNext[task] > now
    requires forall i :: i in s.book.workflows ==> !WorkflowDue(wdefs, s.book.workflows[i], now)
    ensures !Urgent(defs, wdefs, s, now)
  {
  }

  lemma PointsAhead(defs: Definitions, wdefs: WorkflowDefinitions, b: Book, now: Time)
    ensures forall p :: p in IntentPoints(defs, b, now) + SchedulePoints(defs, b, now) + WorkflowPoints(wdefs, b, now) ==> p > now
  {
  }

  lemma EarliestIsWake(defs: Definitions, wdefs: WorkflowDefinitions, s: Scheduler, now: Time, intents: Time, schedules: Time, workflows: Time)
    requires !Urgent(defs, wdefs, s, now)
    requires Earliest(intents, IntentPoints(defs, s.book, now)) && Earliest(schedules, SchedulePoints(defs, s.book, now))
    requires Earliest(workflows, WorkflowPoints(wdefs, s.book, now))
    ensures var next := EarlierNonZero(EarlierNonZero(intents, schedules), workflows);
      IsWakeDelay(defs, wdefs, s, now, if next == 0 then -1 else next - now)
  {
    var first, second, third := IntentPoints(defs, s.book, now), SchedulePoints(defs, s.book, now), WorkflowPoints(wdefs, s.book, now);
    PointsAhead(defs, wdefs, s.book, now);
    EarliestOf(intents, schedules, first, second);
    EarliestOf(EarlierNonZero(intents, schedules), workflows, first + second, third);
    forall p: Time
      ensures WakePoint(defs, wdefs, s, now, p) <==> p in first + second + third
    {
    }
  }

  lemma StopMore(b: Book, ids: seq<Id>, i: nat)
    requires i < |ids| && ids[i] in b.triggers
    ensures var s, w := StopWorkflows(b, ids[..i]), b.triggers[ids[i]].workflow;
      StopWorkflows(b, ids[..i + 1])
        == if w != "" && w in s.workflows then s.(workflows := s.workflows[w := s.workflows[w].(state := WfAttention, trigger := 0)]) else s
  {
    assert ids[..i + 1] == ids[..i] + [ids[i]];
  }

  class Manager {
    const definitions: Definitions
    const workflowDefinitions: WorkflowDefinitions
    var state: Book
    var running: map<Id, seq<Claim>>
    var resources: Table
    /** The record in the store. */
    var stored: Book

    ghost function View(): Scheduler
      reads this
    {
      Scheduler(state, running, resources)
    }

    ghost predicate Valid()
      reads this
    {
      Sound(definitions, View()) && Closed(state, running.Keys)
    }

    // ------------------------------------------------------------- submission

    /** The kinds of the triggers that still have a record. */
    method ActiveKinds(ids: seq<Id>) returns (kinds: seq<Kind>)
      ensures kinds == KindsOf(state.triggers, ids)
    {
      kinds := [];
      for i := 0 to |ids|
        invariant kinds == KindsOf(state.triggers, ids[..i])
      {
        KindsOfAppend(state.triggers, ids[..i], ids[i]);
        assert ids[..i + 1] == ids[..i] + [ids[i]];
        if ids[i] in state.triggers {
          kinds := kinds + [state.triggers[ids[i]].kind];
        }
      }
      assert ids[..|ids|] == ids;
    }

    /** A running execution the request may join, if there is one. */
    method FindCompatible(d: Definition, req: Request) returns (found: Option<Id>, ghost order: seq<Id>)
      requires running.Keys <= state.executions.Keys
      ensures Covers(order, running) && found == FindAttach(state, order, d, req)
    {
      var key := IntentKey(req.task, req.key);
      var todo := running.Keys;
      order := [];
      while todo != {}
        invariant todo <= running.Keys
        invariant forall e :: e in order <==> e in running.Keys - todo
        invariant FindAttach(state, order, d, req).None?
        decreases |todo|
      {
        var e :| e in todo;
        todo := todo - {e};
        FindAttachAppend(state, order, [e], d, req);
        order := order + [e];
        var x := state.executions[e];
        var kinds := ActiveKinds(x.triggers);
        if d.attachCompatible(kinds, req.kind) && x.task == req.task && IntentKey(x.task, x.key) == key && x.coverage >= req.coverage {
          FindAttachAppend(state, order, Listing(todo), d, req);
          return Some(e), order + Listing(todo);
        }
      }
      return None, order;
    }

    method SubmitLocked(request: Request, now: Time) returns (r: Result<Receipt>, ghost order: seq<Id>)
      requires running.Keys <= state.executions.Keys
      modifies `state
      ensures Covers(order, running)
      ensures match Submit(definitions, old(state), order, request, now)
        case Err(e) => r == Err(e) && state == old(state)
        case Ok((b, receipt)) => r == Ok(receipt) && state == b
    {
      order := Listing(running.Keys);
      if request.task !in definitions {
        return Err(UnknownTask), order;
      }
      var d := definitions[request.task];
      var req := Defaults(d, request);
      if req.kind.Manual? && !d.allowManual {
        return Err(NeedsPayload), order;
      }
      var found, visited := FindCompatible(d, req);
      var receipt := Place(req, found, now);
      return Ok(receipt), visited;
    }

    /** A request without a kind is manual; one without a priority takes that of
        its task, raised for manual runs. */
    method Defaults(d: Definition, request: Request) returns (req: Request)
      ensures req == Normalized(d, request)
    {
      req := request;
      if req.kind.Unset? { req := req.(kind := Manual); }
      if req.priority == 0 {
        req := req.(priority := d.priority);
        if req.kind.Manual? && req.priority < PRIORITY_MANUAL { req := req.(priority := PRIORITY_MANUAL); }
      }
    }

    /** The new trigger joins the execution that was found, else the pending
        intent under its key, else it opens an intent of its own. */
    method Place(req: Request, found: Option<Id>, now: Time) returns (receipt: Receipt)
      requires found.Some? ==> found.value in state.executions
      modifies `state
      ensures var b, key, t := old(state), IntentKey(req.task, req.key), old(state).sequence + 1;
        (state, receipt) ==
          if found.Some? then (Attach(b, found.value, req, now), Receipt(t, found.value, AsAttached, found.value))
          else if key in b.pending then (Coalesce(b, key, req, now), Receipt(t, 0, AsCoalesced, b.pending[key].id))
          else (Enqueue(b, key, req, now), Receipt(t, 0, AsPending, t + 1))
    {
      var t := state.sequence + 1;
      var trigger := NewTrigger(req, Pending, 0, 0, now);
      state := state.(sequence := t);
      var key := IntentKey(req.task, req.key);
      if found.Some? {
        var e := found.value;
        var x := state.executions[e];
        x := x.(triggers := x.triggers + [t]);
        trigger := trigger.(state := Attached, target := e, execution := e);
        receipt := Receipt(t, e, AsAttached, e);
        state := state.(executions := state.executions[e := x]);
      } else if key in state.pending {
        var i := state.pending[key];
        i := i.(triggers := i.triggers + [t]);
        if req.priority > i.priority { i := i.(priority := req.priority); }
        if req.coverage > i.coverage { i := i.(coverage := req.coverage); }
        i := i.(notBefore := LaterTime(i.notBefore, req.notBefore), deadline := EarlierNonZero(i.deadline, req.deadline));
        if req.payload != "" { i := i.(payload := req.payload); }
        trigger := trigger.(target := i.id);
        receipt := Receipt(t, 0, AsCoalesced, i.id);
        state := state.(pending := state.pending[key := i]);
      } else {
        var id := t + 1;
        var i := Intent(id, req.task, req.key, [t], req.priority, req.coverage, req.payload, req.notBefore, req.deadline, now, 1, req.workflow);
        trigger := trigger.(target := id);
        receipt := Receipt(t, 0, AsPending, id);
        state := state.(sequence := id, pending := state.pending[key := i]);
      }
      state := state.(triggers := state.triggers[t := trigger]);
    }

    /** Accepting a trigger means that it is in the store; a trigger that could
        not be stored has left no trace in memory either. */
    method SubmitRequest(request: Request, now: Time, storeWorks: bool) returns (r: Result<Receipt>, ghost order: seq<Id>)
      requires Valid()
      modifies `state, `stored
      ensures Valid() && Covers(order, running)
      ensures r.Ok? ==> stored == PersistedView(state)
      ensures r.Ok? ==> Submit(definitions, old(state), order, request, now) == Ok((state, r.value))
      ensures r.Ok? ==> request.task in definitions && TakenIn(definitions[request.task], old(state), order, request, now, state, r.value)
      ensures r.Err? ==> state == old(state) && stored == old(stored)
      ensures r.Err? <==> !storeWorks || Submit(definitions, old(state), order, request, now).Err?
    {
      var previous := state;
      ghost var before := View();
      r, order := SubmitLocked(request, now);
      if r.Ok? {
        if !storeWorks {
          state := previous;
          r := Err(NotPersisted);
        } else {
          SubmitSound(definitions, before, request, order, now);
          SubmitTakesIn(definitions, before.book, order, request, now);
          Persist();
        }
      }
    }

    /** The newest record of a task and key. */
    method LatestTriggerForKey(task: string, key: string) returns (latest: Option<Id>)
      ensures IsLatest(state.triggers, task, key, latest)
    {
      latest := None;
      var todo := state.triggers.Keys;
      while todo != {}
        invariant todo <= state.triggers.Keys
        invariant latest.None? ==> forall t :: t in state.triggers && t !in todo ==> !Matches(state.triggers[t], task, key)
        invariant latest.Some? ==> latest.value in state.triggers && latest.value !in todo && Matches(state.triggers[latest.value], task, key)
        invariant latest.Some? ==> forall t :: t in state.triggers && t !in todo && Matches(state.triggers[t], task, key) && t != latest.value ==>
          Later(state.triggers, latest.value, t)
        decreases |todo|
      {
        var t :| t in todo;
        todo := todo - {t};
        var r := state.triggers[t];
        if r.task != task || r.key != key {
          continue;
        }
        if latest.None? || r.createdAt > state.triggers[latest.value].createdAt
           || (r.createdAt == state.triggers[latest.value].createdAt && t > latest.value) {
          latest := Some(t);
        }
      }
    }

    method PersistedTriggers() returns (triggers: map<Id, Trigger>)
      ensures triggers == PersistedView(state).triggers
    {
      triggers := map[];
      var todo := state.triggers.Keys;
      while todo != {}
        invariant todo <= state.triggers.Keys
        invariant triggers == map t | t in state.triggers && t !in todo && (state.triggers[t].durable || Terminal(state.triggers[t].state)) :: state.triggers[t]
        decreases |todo|
      {
        var t :| t in todo;
        todo := todo - {t};
        if state.triggers[t].durable || Terminal(state.triggers[t].state) {
          triggers := triggers[t := state.triggers[t]];
        }
      }
    }

    method PersistedIntents() returns (pending: map<string, Intent>)
      ensures pending == PersistedView(state).pending
    {
      pending := map[];
      var todo := state.pending.Keys;
      while todo != {}
        invariant todo <= state.pending.Keys
        invariant pending == map k | k in state.pending && k !in todo && HasDurable(state.triggers, state.pending[k].triggers) :: state.pending[k]
        decreases |todo|
      {
        var k :| k in todo;
        todo := todo - {k};
        var durable := AnyDurable(state.pending[k].triggers);
        if durable {
          pending := pending[k := state.pending[k]];
        }
      }
    }

    method Persist()
      modifies `stored
      ensures stored == PersistedView(state)
    {
      var triggers := PersistedTriggers();
      var pending := PersistedIntents();
      stored := state.(triggers := triggers, pending := pending);
    }

    method AnyDurable(ids: seq<Id>) returns (durable: bool)
      ensures durable == HasDurable(state.triggers, ids)
    {
      for i := 0 to |ids|
        invariant !HasDurable(state.triggers, ids[..i])
      {
        assert ids[..i + 1] == ids[..i] + [ids[i]];
        if ids[i] in state.triggers && state.triggers[ids[i]].durable {
          return true;
        }
      }
      assert ids[..|ids|] == ids;
      return false;
    }

    // ------------------------------------------------------------- resources

    method ResourceConflict(claims: seq<Claim>) returns (conflict: bool)
      ensures conflict == Conflicts(resources, claims)
    {
      for i := 0 to |claims|
        invariant !Conflicts(resources, claims[..i])
      {
        assert claims[..i + 1] == claims[..i] + [claims[i]];
        var c := claims[i];
        if c.resource in resources {
          var use := resources[c.resource];
          if c.mode.Exclusive? && (use.shared != {} || use.exclusive != 0) {
            assert Blocks(resources, c);
            return true;
          }
          if c.mode.Shared? && use.exclusive != 0 {
            assert Blocks(resources, c);
            return true;
          }
        }
      }
      assert claims[..|claims|] == claims;
      return false;
    }

    method AcquireResources(e: Id, claims: seq<Claim>)
      modifies `resources
      ensures resources == Acquire(old(resources), e, claims)
    {
      for i := 0 to |claims|
        invariant resources == Acquire(old(resources), e, claims[..i])
      {
        assert claims[..i + 1][..i] == claims[..i];
        var c := claims[i];
        if c.resource !in resources {
          resources := resources[c.resource := Use({}, 0)];
        }
        var use := resources[c.resource];
        if c.mode.Exclusive? {
          resources := resources[c.resource := use.(exclusive := e)];
        } else {
          resources := resources[c.resource := use.(shared := use.shared + {e})];
        }
      }
      assert claims[..|claims|] == claims;
    }

    method ReleaseResources(e: Id, claims: seq<Claim>)
      modifies `resources
      ensures resources == Release(old(resources), e, claims)
    {
      for i := 0 to |claims|
        invariant resources == Release(old(resources), e, claims[..i])
      {
        assert claims[..i + 1][..i] == claims[..i];
        var c := claims[i];
        if c.resource in resources {
          var use := resources[c.resource];
          if c.mode.Exclusive? && use.exclusive == e {
            use := use.(exclusive := 0);
          } else if c.mode.Shared? {
            use := use.(shared := use.shared - {e});
          }
          resources := resources[c.resource := use];
          if use.shared == {} && use.exclusive == 0 {
            resources := resources - {c.resource};
          }
        }
      }
      assert claims[..|claims|] == claims;
    }

    // ------------------------------------------------------------- workflows

    method CancelWorkflowTrigger(t: Id, now: Time)
      modifies `state
      ensures state == CancelTrigger(old(state), t, now)
    {
      if t == 0 || t !in state.triggers {
        return;
      }
      var trigger := state.triggers[t];
      if Terminal(trigger.state) || trigger.state.Running? || trigger.state.Attached? {
        return;
      }
      var key := IntentKey(trigger.task, trigger.key);
      if key in state.pending {
        var i := state.pending[key];
        var remaining := [];
        for n := 0 to |i.triggers|
          invariant state == old(state) && remaining == Without(i.triggers[..n], t)
        {
          WithoutAppend(i.triggers[..n], i.triggers[n], t);
          assert i.triggers[..n + 1] == i.triggers[..n] + [i.triggers[n]];
          if i.triggers[n] != t {
            remaining := remaining + [i.triggers[n]];
          }
        }
        assert i.triggers[..|i.triggers|] == i.triggers;
        if remaining == [] {
          state := state.(pending := state.pending - {key});
        } else {
          state := state.(pending := state.pending[key := i.(triggers := remaining)]);
        }
      }
      state := state.(triggers := state.triggers[t := trigger.(state := Cancelled, finishedAt := now)]);
    }

    /** A first advance opens the instance, a later one starts it over. */
    method RestartInstance(definition: string, key: string, quiet: nat, maximum: nat, now: Time)
      modifies `state
      ensures state == Advance(old(state), definition, key, quiet, maximum, now)
    {
      var instance := definition + ":" + key;
      if instance !in state.workflows {
        var w := Workflow(definition, 1, 0, WfPending, now, now, now + quiet, now + maximum, 0);
        state := state.(workflows := state.workflows[instance := w]);
      } else {
        var w := state.workflows[instance];
        var wasTerminal := w.state.WfSucceeded? || w.state.WfAttention?;
        CancelWorkflowTrigger(w.trigger, now);
        w := w.(revision := w.revision + 1, step := 0, state := WfPending, updatedAt := now, readyAfter := now);
        w := w.(notBefore := now + quiet);
        if w.deadline == 0 || wasTerminal {
          w := w.(deadline := now + maximum);
        }
        state := state.(workflows := state.workflows[instance := w.(trigger := 0)]);
      }
    }

    /** Superseding a workflow is all or nothing: if it cannot be stored, memory
        is as before. */
    method AdvanceWorkflow(definition: string, key: string, quiet: nat, maximum: nat, now: Time, storeWorks: bool) returns (ok: bool)
      requires Valid()
      modifies `state, `stored
      ensures Valid()
      ensures ok <==> definition in workflowDefinitions && storeWorks
      ensures ok ==> state == Advance(old(state), definition, key, quiet, maximum, now)
      ensures ok ==> Restarted(old(state), definition + ":" + key, quiet, maximum, now, state) && Withdrawn(old(state), definition + ":" + key, now, state)
      ensures ok ==> stored == PersistedView(state)
      ensures !ok ==> state == old(state) && stored == old(stored)
    {
      if definition !in workflowDefinitions {
        return false;
      }
      var previous := state;
      ghost var before := View();
      RestartInstance(definition, key, quiet, maximum, now);
      if !storeWorks {
        state := previous;
        return false;
      }
      AdvanceSound(definitions, before, definition, key, quiet, maximum, now);
      AdvanceRestarts(before.book, definition, key, quiet, maximum, now);
      AdvanceWithdraws(before.book, before.running.Keys, definition, key, quiet, maximum, now);
      Persist();
      return true;
    }

    /** Every workflow whose current step this execution ran moves on. */
    method SatisfyWorkflows(x: Execution, now: Time) returns (ghost order: seq<string>)
      modifies `state
      ensures Enumerates(order, old(state).workflows.Keys)
      ensures state == SatisfyAll(workflowDefinitions, old(state), order, x, now)
    {
      var todo := state.workflows.Keys;
      order := [];
      while todo != {}
        invariant todo <= old(state).workflows.Keys
        invariant Enumerates(order, old(state).workflows.Keys - todo)
        invariant state == SatisfyAll(workflowDefinitions, old(state), order, x, now)
        decreases |todo|
      {
        var i :| i in todo;
        todo := todo - {i};
        SatisfyAllAppend(workflowDefinitions, old(state), order, i, x, now);
        order := order + [i];
        var w := state.workflows[i];
        if !w.state.WfSucceeded? && w.definition in workflowDefinitions {
          var steps := workflowDefinitions[w.definition];
          if w.step < |steps| && steps[w.step] == x.task && x.startedAt >= w.readyAfter {
            CancelWorkflowTrigger(w.trigger, now);
            w := w.(step := w.step + 1, trigger := 0, readyAfter := x.finishedAt);
            w := w.(state := if w.step >= |steps| then WfSucceeded else WfPending);
            state := state.(workflows := state.workflows[i := w]);
          }
        }
      }
    }

    // ------------------------------------------------------- finish and requeue

    /** Doubling once for every attempt after the first. */
    static method DelayFor(policy: RetryPolicy, attempt: nat) returns (delay: int)
      ensures delay == RetryDelay(policy, attempt)
    {
      if policy.initialDelay <= 0 {
        return MINUTE;
      }
      delay := policy.initialDelay;
      var index := 1;
      while index < attempt
        invariant 1 <= index && (index <= attempt || attempt == 0)
        invariant Backoff(policy, policy.initialDelay, attempt) == Backoff(policy, delay, if attempt == 0 then 0 else attempt - index + 1)
        decreases attempt - index
      {
        delay := 2 * delay;
        if policy.maxDelay > 0 && delay >= policy.maxDelay {
          return policy.maxDelay;
        }
        index := index + 1;
      }
    }

    /** The execution's triggers go back to the queue, into the intent already
        waiting under its key or into a new one. */
    method RequeueExecution(e: Id, delay: int, now: Time)
      requires e in state.executions && Resolved(state.triggers, state.executions[e].triggers)
      modifies `state
      ensures state == Requeue(old(state), e, delay, now)
    {
      var x := state.executions[e];
      var key := IntentKey(x.task, x.key);
      var i := MergedBack(x, delay, now);
      state := state.(sequence := if key in state.pending then state.sequence else state.sequence + 1, pending := state.pending[key := i]);
      var f := (t: Trigger) => t.(state := Pending, execution := 0, target := i.id, notBefore := i.notBefore);
      SetTriggers(x.triggers, f);
    }

    /** The intent of the execution's key, or a new one, with everything that the
        execution carried. */
    method MergedBack(x: Execution, delay: int, now: Time) returns (i: Intent)
      ensures i == RequeuedIntent(state, x, delay, now)
    {
      var key := IntentKey(x.task, x.key);
      if key !in state.pending {
        i := Intent(state.sequence + 1, x.task, x.key, [], x.priority, x.coverage, x.payload, 0, 0, now, x.attempt + 1, "");
      } else {
        i := state.pending[key];
        if x.attempt + 1 > i.attempt { i := i.(attempt := x.attempt + 1); }
      }
      var merged := MergeLists(i.triggers, x.triggers);
      i := i.(triggers := merged);
      if x.priority > i.priority { i := i.(priority := x.priority); }
      if x.coverage > i.coverage { i := i.(coverage := x.coverage); }
      if delay > 0 { i := i.(notBefore := LaterTime(i.notBefore, now + delay)); }
    }

    static method MergeLists(existing: seq<Id>, values: seq<Id>) returns (merged: seq<Id>)
      ensures merged == AppendUnique(existing, values)
    {
      var seen := set t | t in existing;
      merged := existing;
      for i := 0 to |values|
        invariant merged == AppendUnique(existing, values[..i])
        invariant forall t :: t in seen <==> t in merged
      {
        AppendUniqueAppend(existing, values[..i], values[i]);
        assert values[..i + 1] == values[..i] + [values[i]];
        if values[i] !in seen {
          merged := merged + [values[i]];
          seen := seen + {values[i]};
        }
      }
      assert values[..|values|] == values;
    }

    /** Rewrites the record of every listed trigger, one after the other. */
    method SetTriggers(ids: seq<Id>, f: Trigger -> Trigger)
      requires Resolved(state.triggers, ids) && forall t :: f(f(t)) == f(t)
      modifies `state
      ensures state == old(state).(triggers := Rewrite(old(state).triggers, ids, f))
    {
      for i := 0 to |ids|
        invariant state == old(state).(triggers := Rewrite(old(state).triggers, ids[..i], f))
      {
        RewriteStep(old(state).triggers, ids, i, f);
        state := state.(triggers := state.triggers[ids[i] := f(state.triggers[ids[i]])]);
      }
      assert ids[..|ids|] == ids;
    }

    /** As SetTriggers, passing over triggers that have no record. */
    method SetKnownTriggers(ids: seq<Id>, f: Trigger -> Trigger)
      requires forall t :: f(f(t)) == f(t)
      modifies `state
      ensures state == old(state).(triggers := Rewrite(old(state).triggers, ids, f))
    {
      for i := 0 to |ids|
        invariant state == old(state).(triggers := Rewrite(old(state).triggers, ids[..i], f))
      {
        if ids[i] in state.triggers {
          RewriteStep(old(state).triggers, ids, i, f);
          state := state.(triggers := state.triggers[ids[i] := f(state.triggers[ids[i]])]);
        } else {
          RewriteSkip(old(state).triggers, ids, i, f);
        }
      }
      assert ids[..|ids|] == ids;
    }

    /** The workflows behind failed triggers need attention. */
    method StopWorkflowsOf(ids: seq<Id>)
      requires Resolved(state.triggers, ids)
      modifies `state
      ensures state == StopWorkflows(old(state), ids)
    {
      for i := 0 to |ids|
        invariant state == StopWorkflows(old(state), ids[..i])
      {
        StopMore(old(state), ids, i);
        var w := state.triggers[ids[i]].workflow;
        if w != "" && w in state.workflows {
          state := state.(workflows := state.workflows[w := state.workflows[w].(state := WfAttention, trigger := 0)]);
        }
      }
      assert ids[..|ids|] == ids;
    }

    // ---------------------------------------------------------------- history

    /** Completed executions, oldest first. */
    method OldestFirst() returns (completed: seq<Id>)
      ensures Enumerates(completed, state.executions.Keys - running.Keys)
      ensures forall i, j :: 0 <= i < j < |completed| ==> FinishedAt(state, completed[i]) <= FinishedAt(state, completed[j])
    {
      completed := [];
      var todo := state.executions.Keys;
      while todo != {}
        invariant todo <= state.executions.Keys
        invariant Enumerates(completed, state.executions.Keys - todo - running.Keys)
        decreases |todo|
      {
        var e :| e in todo;
        todo := todo - {e};
        assert e !in completed;
        if e !in running {
          completed := completed + [e];
        }
      }
      var b := state;
      var earlier := (x: Id, y: Id) => FinishedAt(b, x) <= FinishedAt(b, y);
      SortSorted(earlier, completed);
      SortEnumerates(earlier, completed, state.executions.Keys - running.Keys);
      completed := Sort(earlier, completed);
    }

    /** Removes the oldest completed executions beyond the limit, and with each
        of them its ended triggers. */
    method TrimHistory(limit: nat) returns (ghost removed: set<Id>)
      modifies `state
      ensures ValidTrim(old(state), running.Keys, limit, removed)
      ensures state == Forget(old(state), removed)
    {
      removed := {};
      if |state.executions| <= limit {
        ForgetNothing(state);
        return;
      }
      var completed := OldestFirst();
      removed := ForgetOldest(completed, limit);
    }

    method ForgetOldest(completed: seq<Id>, limit: nat) returns (ghost removed: set<Id>)
      requires |state.executions| > limit && Enumerates(completed, state.executions.Keys - running.Keys)
      requires forall i, j :: 0 <= i < j < |completed| ==> FinishedAt(state, completed[i]) <= FinishedAt(state, completed[j])
      modifies `state
      ensures ValidTrim(old(state), running.Keys, limit, removed)
      ensures state == Forget(old(state), removed)
    {
      ghost var before := state;
      removed := {};
      var i := 0;
      ForgetNothing(before);
      while |state.executions| > limit && i < |completed|
        invariant i <= |completed|
        invariant removed == FirstOf(completed, i)
        invariant state == Forget(before, removed)
        invariant |before.executions| - |state.executions| == i == |removed|
        invariant |state.executions| >= limit
      {
        NextOf(completed, i, before.executions.Keys - running.Keys);
        ForgetExecution(completed[i], before, removed);
        removed := removed + {completed[i]};
        i := i + 1;
      }
      TrimIsValid(before, running.Keys, limit, completed, i, removed);
    }

    method ForgetExecution(e: Id, ghost before: Book, ghost removed: set<Id>)
      requires state == Forget(before, removed) && e in before.executions && e !in removed
      modifies `state
      ensures state == Forget(before, removed + {e}) && |state.executions| == |old(state).executions| - 1
    {
      ForgetOne(before, removed, e);
      var ids := state.executions[e].triggers;
      assert (state.executions - {e}).Keys == state.executions.Keys - {e};
      state := state.(executions := state.executions - {e});
      RemoveEnded(ids);
    }

    method RemoveEnded(ids: seq<Id>)
      modifies `state
      ensures state == old(state).(triggers := WithoutEnded(old(state).triggers, ids))
    {
      for i := 0 to |ids|
        invariant state == old(state).(triggers := WithoutEnded(old(state).triggers, ids[..i]))
      {
        assert ids[..i + 1] == ids[..i] + [ids[i]];
        if ids[i] in state.triggers && Terminal(state.triggers[ids[i]].state) {
          state := state.(triggers := state.triggers - {ids[i]});
        }
      }
      assert ids[..|ids|] == ids;
    }

    // ----------------------------------------------------------------- finish

    /** A runner has returned.  The execution ends, gives back its resources, and
        its triggers are queued again or end, as the outcome and the task say. */
    method FinishExecution(e: Id, outcome: Outcome, now: Time) returns (ghost order: seq<string>, ghost removed: set<Id>)
      requires Valid() && e in running
      modifies `state, `running, `resources, `stored
      ensures Valid() && stored == PersistedView(state)
      ensures old(state).executions[e].task in definitions && Enumerates(order, old(state).workflows.Keys)
      ensures ValidTrim(Concluded(definitions, workflowDefinitions, old(View()), e, outcome, order, now),
                        old(running).Keys - {e}, HISTORY_LIMIT, removed)
      ensures View() == Finished(definitions, workflowDefinitions, old(View()), e, outcome, order, removed, now)
      ensures Ended(definitions, workflowDefinitions, old(View()), e, outcome, removed, now, View())
    {
      ghost var before := View();
      order, removed := Retire(e, outcome, now);
      FinishSound(definitions, workflowDefinitions, before, e, outcome, order, removed, now);
      FinishEnds(definitions, workflowDefinitions, before, e, outcome, order, removed, now);
      Persist();
    }

    method Retire(e: Id, outcome: Outcome, now: Time) returns (ghost order: seq<string>, ghost removed: set<Id>)
      requires e in running && e in state.executions && state.executions[e].task in definitions
      requires Resolved(state.triggers, state.executions[e].triggers)
      modifies `state, `running, `resources
      ensures Enumerates(order, old(state).workflows.Keys)
      ensures ValidTrim(Concluded(definitions, workflowDefinitions, old(View()), e, outcome, order, now),
                        old(running).Keys - {e}, HISTORY_LIMIT, removed)
      ensures View() == Finished(definitions, workflowDefinitions, old(View()), e, outcome, order, removed, now)
    {
      ghost var before := View();
      EndInState(e, outcome, now);
      var claims := running[e];
      ReleaseResources(e, claims);
      running := running - {e};
      order := DisposeTriggers(e, outcome, now, before);
      removed := TrimHistory(HISTORY_LIMIT);
      assert running.Keys == before.running.Keys - {e};
    }

    method EndInState(e: Id, outcome: Outcome, now: Time)
      requires e in state.executions
      modifies `state
      ensures state == EndExecution(old(state), e, outcome, now)
    {
      var x := state.executions[e].(finishedAt := now);
      match outcome {
        case Canceled => x := x.(state := ExInterrupted);
        case Errored(_) => x := x.(state := ExFailed);
        case Succeeded(degraded) =>
          x := x.(state := ExSucceeded);
          if degraded { x := x.(state := ExDegraded); }
      }
      state := state.(executions := state.executions[e := x]);
    }

    method DisposeTriggers(e: Id, outcome: Outcome, now: Time, ghost before: Scheduler) returns (ghost order: seq<string>)
      requires e in before.book.executions && before.book.executions[e].task in definitions
      requires Resolved(before.book.triggers, before.book.executions[e].triggers)
      requires state == EndExecution(before.book, e, outcome, now)
      modifies `state
      ensures Enumerates(order, before.book.workflows.Keys)
      ensures state == Concluded(definitions, workflowDefinitions, before, e, outcome, order, now)
    {
      var x := state.executions[e];
      var d := definitions[x.task];
      order := ListWorkflows(state.workflows.Keys);
      match outcome {
        case Canceled =>
          if d.recovery.RecoveryRetry? { RequeueExecution(e, d.interruptionDelay, now); }
          else { SettleTriggers(e, Attention, now); }
        case Errored(retryable) =>
          if retryable && x.attempt < d.retry.maxAttempts {
            var delay := DelayFor(d.retry, x.attempt);
            RequeueExecution(e, delay, now);
          } else {
            SettleTriggers(e, Failed, now);
            StopWorkflowsOf(x.triggers);
          }
        case Succeeded(_) =>
          SettleTriggers(e, Fulfilled, now);
          order := SatisfyWorkflows(x, now);
      }
    }

    method SettleTriggers(e: Id, outcome: TriggerState, now: Time)
      requires e in state.executions && Resolved(state.triggers, state.executions[e].triggers)
      modifies `state
      ensures state == Settle(old(state), e, outcome, now)
      ensures Resolved(state.triggers, state.executions[e].triggers)
    {
      SetTriggers(state.executions[e].triggers, (t: Trigger) => t.(state := outcome, finishedAt := now));
    }

    // --------------------------------------------------------------- restart

    /** Ends what was running when the process died: retryable work with a durable
        trigger is queued again, everything else needs attention or is over.  The
        precondition is what keeps the unchecked references of the requeue from
        failing. */
    method RecoverInterrupted(now: Time) returns (ghost order: seq<Id>)
      requires forall e :: e in state.executions ==> RecoversCleanly(definitions, state, e)
      modifies `state
      ensures Enumerates(order, old(state).executions.Keys)
      ensures state == RecoverAll(definitions, old(state), order, now)
    {
      ghost var before := state;
      var todo := state.executions.Keys;
      order := [];
      while todo != {}
        invariant todo <= before.executions.Keys && state.executions.Keys == before.executions.Keys
        invariant Enumerates(order, before.executions.Keys - todo)
        invariant state == RecoverAll(definitions, before, order, now)
        invariant forall e :: e in todo ==> RecoversCleanly(definitions, state, e)
        decreases |todo|
      {
        var e :| e in todo;
        todo := todo - {e};
        RecoverAllAppend(definitions, before, order, e, now);
        ghost var current := state;
        RecoverExecution(e, now);
        forall f | f in todo
          ensures RecoversCleanly(definitions, state, f)
        {
          RecoverOneElsewhere(definitions, current, e, now, f);
        }
        order := order + [e];
      }
    }

    method RecoverExecution(e: Id, now: Time)
      requires e in state.executions && RecoversCleanly(definitions, state, e)
      modifies `state
      ensures state == RecoverOne(definitions, old(state), e, now)
    {
      var x := state.executions[e];
      if !x.state.ExRunning? && !x.state.ExCancelling? {
        return;
      }
      state := state.(executions := state.executions[e := x.(state := ExInterrupted, finishedAt := now)]);
      var durable := AnyDurable(x.triggers);
      if x.task in definitions && definitions[x.task].recovery.RecoveryRetry? && durable {
        RequeueExecution(e, 0, now);
      } else {
        SetKnownTriggers(x.triggers, (t: Trigger) => t.(state := if t.durable then Attention else Interrupted, finishedAt := now));
      }
    }

    /** A first registration starts the schedule of a periodic task. */
    method RegisterAll(now: Time)
      modifies `state
      ensures state == RegisterSchedules(definitions, old(state), now)
    {
      ghost var before, done := state, {};
      var todo := definitions.Keys;
      RegisterNone(definitions, before, now);
      while todo != {}
        invariant todo <= definitions.Keys && forall d :: d in done <==> d in definitions && d !in todo
        invariant state == RegisterAmong(definitions, done, before, now)
        decreases |todo|
      {
        var task :| task in todo;
        RegisterTask(task, now, before, done);
        todo, done := todo - {task}, done + {task};
      }
      assert done == definitions.Keys;
    }

    method RegisterTask(task: string, now: Time, ghost before: Book, ghost done: set<string>)
      requires task in definitions && task !in done && state == RegisterAmong(definitions, done, before, now)
      modifies `state
      ensures state == RegisterAmong(definitions, done + {task}, before, now)
    {
      RegisterMore(definitions, done, task, before, now);
      if definitions[task].interval > 0 && (task !in state.periodicNext || state.periodicNext[task] == 0) {
        state := state.(periodicNext := state.periodicNext[task := now + definitions[task].interval]);
      }
    }

    /** A process starts from what is in the store. */
    constructor (definitions: Definitions, workflowDefinitions: WorkflowDefinitions, saved: Book, now: Time)
      requires forall e :: e in saved.executions ==> RecoversCleanly(definitions, saved, e)
      ensures this.definitions == definitions && this.workflowDefinitions == workflowDefinitions
      ensures running == map[] && resources == map[] && stored == PersistedView(state)
      ensures exists order :: Enumerates(order, saved.executions.Keys) && state == Reload(definitions, saved, order, now)
    {
      this.definitions, this.workflowDefinitions := definitions, workflowDefinitions;
      state, running, resources, stored := saved, map[], map[], saved;
      new;
      RegisterAll(now);
      assert forall e :: e in saved.executions ==> RecoversCleanly(definitions, state, e)
        by { assert forall e :: e in saved.executions ==> RecoversCleanly(definitions, saved, e); }
      ghost var order := RecoverInterrupted(now);
      assert state == Reload(definitions, saved, order, now);
      Persist();
    }

    // ------------------------------------------------------------------ ticks

    method TickPeriodic(task: string, now: Time) returns (ghost order: seq<Id>)
      requires task in definitions && running.Keys <= state.executions.Keys
      modifies `state
      ensures Covers(order, running) && state == TickTask(definitions, old(state), order, task, now)
      ensures state.executions.Keys == old(state).executions.Keys
    {
      order := Listing(running.Keys);
      var interval := definitions[task].interval;
      if interval <= 0 {
        return;
      }
      var due := if task in state.periodicNext then state.periodicNext[task] else 0;
      if due == 0 {
        state := state.(periodicNext := state.periodicNext[task := now + interval]);
        return;
      }
      if now < due {
        return;
      }
      order := SubmitDue(task, due, now);
      DivisionBounds(now - due, interval);
      var steps := (now - due) / interval + 1;
      state := state.(periodicNext := state.periodicNext[task := due + steps * interval]);
    }

    /** A periodic submission; if it is refused nothing happens. */
    method SubmitDue(task: string, due: Time, now: Time) returns (ghost order: seq<Id>)
      requires running.Keys <= state.executions.Keys
      modifies `state
      ensures Covers(order, running) && state.executions.Keys == old(state).executions.Keys
      ensures var submitted := Submit(definitions, old(state), order, PeriodicRequest(task, due), now);
        state == if submitted.Ok? then submitted.value.0 else old(state)
    {
      ghost var before := state;
      var request := Request(task, Periodic, PRIORITY_PERIODIC, false, "", due, 0, 0, "", "");
      var receipt, visited := SubmitLocked(request, now);
      order := visited;
      if receipt.Ok? { SubmitSameExecutions(definitions, before, order, request, now); }
    }

    method CreatePeriodicTriggers(now: Time) returns (ghost visits: seq<Visit>)
      requires running.Keys <= state.executions.Keys
      modifies `state
      ensures forall v :: v in visits ==> v.subject in definitions && Covers(v.running, running)
      ensures (set v | v in visits :: v.subject) == definitions.Keys
      ensures state == TickTasks(definitions, old(state), visits, now)
      ensures state.executions.Keys == old(state).executions.Keys
    {
      ghost var before := state;
      var todo := definitions.Keys;
      visits := [];
      while todo != {}
        invariant todo <= definitions.Keys && state.executions.Keys == before.executions.Keys
        invariant forall v :: v in visits ==> v.subject in definitions && Covers(v.running, running)
        invariant Subjects(visits) == definitions.Keys - todo
        invariant state == TickTasks(definitions, before, visits, now)
        decreases |todo|
      {
        var task :| task in todo;
        todo := todo - {task};
        ghost var order := TickPeriodic(task, now);
        TickTasksAppend(definitions, before, visits, Visit(task, order), now);
        visits := visits + [Visit(task, order)];
      }
    }

    method TickInstance(instance: string, now: Time) returns (ghost order: seq<Id>)
      requires instance in state.workflows && running.Keys <= state.executions.Keys
      modifies `state
      ensures Covers(order, running)
      ensures state == TickWorkflow(definitions, workflowDefinitions, old(state), order, instance, now)
      ensures state.executions.Keys == old(state).executions.Keys
    {
      order := Listing(running.Keys);
      var w := state.workflows[instance];
      if w.state.WfSucceeded? || w.state.WfAttention? {
        return;
      }
      if w.definition !in workflowDefinitions {
        state := state.(workflows := state.workflows[instance := w.(state := WfAttention, updatedAt := now)]);
        return;
      }
      var steps := workflowDefinitions[w.definition];
      if w.step >= |steps| {
        return;
      }
      if w.trigger != 0 && w.trigger in state.triggers && !Terminal(state.triggers[w.trigger].state) {
        return;
      }
      if now < WorkflowReadyAt(w) {
        state := state.(workflows := state.workflows[instance := w.(trigger := 0)]);
        return;
      }
      order := SubmitStep(instance, steps[w.step], w, now);
    }

    method SubmitStep(instance: string, task: string, w: Workflow, now: Time) returns (ghost order: seq<Id>)
      requires instance in state.workflows && running.Keys <= state.executions.Keys
      modifies `state
      ensures Covers(order, running) && state.executions.Keys == old(state).executions.Keys
      ensures state == match Submit(definitions, old(state), order, StepRequest(task, instance, w, now), now)
        case Err(_) => old(state).(workflows := old(state).workflows[instance := w.(trigger := 0, state := WfAttention)])
        case Ok((b', receipt)) =>
          b'.(workflows := old(state).workflows[instance := w.(trigger := receipt.trigger, state := WfRunning)])
    {
      ghost var before := state;
      var priority := PRIORITY_CONSISTENCY;
      if w.deadline != 0 && now >= w.deadline { priority := PRIORITY_CONSISTENCY_DEADLINE; }
      var request := Request(task, WorkflowStep, priority, true, "", 0, 0, 0, "", instance);
      var receipt, visited := SubmitLocked(request, now);
      order := visited;
      if receipt.Err? {
        state := state.(workflows := state.workflows[instance := w.(trigger := 0, state := WfAttention)]);
      } else {
        SubmitSameExecutions(definitions, before, order, request, now);
        state := state.(workflows := state.workflows[instance := w.(trigger := receipt.value.trigger, state := WfRunning)]);
      }
    }

    method CreateWorkflowTriggers(now: Time) returns (ghost visits: seq<Visit>)
      requires running.Keys <= state.executions.Keys
      modifies `state
      ensures forall v :: v in visits ==> v.subject in old(state).workflows && Covers(v.running, running)
      ensures (set v | v in visits :: v.subject) == old(state).workflows.Keys
      ensures state == TickWorkflows(definitions, workflowDefinitions, old(state), visits, now)
      ensures state.executions.Keys == old(state).executions.Keys
    {
      ghost var before := state;
      var todo := state.workflows.Keys;
      visits := [];
      while todo != {}
        invariant todo <= before.workflows.Keys && state.executions.Keys == before.executions.Keys
        invariant state.workflows.Keys == before.workflows.Keys
        invariant forall v :: v in visits ==> v.subject in before.workflows && Covers(v.running, running)
        invariant Subjects(visits) == before.workflows.Keys - todo
        invariant state == TickWorkflows(definitions, workflowDefinitions, before, visits, now)
        decreases |todo|
      {
        var i :| i in todo;
        todo := todo - {i};
        ghost var order := TickInstance(i, now);
        TickWorkflowsAppend(definitions, workflowDefinitions, before, visits, Visit(i, order), now);
        visits := visits + [Visit(i, order)];
      }
    }

    // ------------------------------------------------------------- preemption

    /** Whether running execution e has to make way for the intent. */
    method MakesWay(key: string, e: Id) returns (stops: bool)
      requires key in state.pending && e in running && e in state.executions
      ensures stops == Yields(definitions, state, running, key, e)
    {
      var i, x := state.pending[key], state.executions[e];
      if i.priority < PRIORITY_MUTATION || i.task !in definitions || x.task !in definitions {
        return false;
      }
      var conflict := ClaimsClash(definitions[i.task].resources, running[e]);
      return definitions[x.task].interruptible && conflict && i.priority > x.priority;
    }

    /** Interruptible executions that block this intent are asked to stop. */
    method PreemptFor(key: string)
      requires key in state.pending && running.Keys <= state.executions.Keys
      modifies `state
      ensures state == PreemptBy(definitions, old(state), running, {key})
    {
      ghost var before, done := state, {};
      var todo := running.Keys;
      PreemptNone(definitions, before, running, key);
      while todo != {}
        invariant todo <= running.Keys && forall e :: e in done <==> e in running && e !in todo
        invariant state == PreemptSome(definitions, before, running, key, done)
        decreases |todo|
      {
        var e :| e in todo;
        PreemptNext(key, e, before, done);
        todo, done := todo - {e}, done + {e};
      }
      assert done == running.Keys;
      PreemptAll(definitions, before, running, key);
    }

    method PreemptNext(key: string, e: Id, ghost before: Book, ghost done: set<Id>)
      requires key in before.pending && running.Keys <= before.executions.Keys && e in running && e !in done
      requires state == PreemptSome(definitions, before, running, key, done)
      modifies `state
      ensures state == PreemptSome(definitions, before, running, key, done + {e})
    {
      PreemptOne(definitions, before, running, key, done, e);
      var stops := MakesWay(key, e);
      if stops {
        state := state.(executions := state.executions[e := state.executions[e].(state := ExCancelling)]);
      }
    }

    static method ClaimsClash(first: seq<Claim>, second: seq<Claim>) returns (conflict: bool)
      ensures conflict == ClaimsConflict(first, second)
    {
      for i := 0 to |first|
        invariant forall l, r :: l in first[..i] && r in second && l.resource == r.resource ==> l.mode.Shared? && r.mode.Shared?
      {
        assert first[..i + 1] == first[..i] + [first[i]];
        for j := 0 to |second|
          invariant forall r :: r in second[..j] && first[i].resource == r.resource ==> first[i].mode.Shared? && r.mode.Shared?
        {
          assert second[..j + 1] == second[..j] + [second[j]];
          if first[i].resource == second[j].resource && (first[i].mode.Exclusive? || second[j].mode.Exclusive?) {
            assert first[i] in first && second[j] in second;
            return true;
          }
        }
        assert second[..|second|] == second;
      }
      assert first[..|first|] == first;
      return false;
    }

    method PreemptForPriority()
      requires running.Keys <= state.executions.Keys
      modifies `state
      ensures state == Preempt(definitions, old(state), running)
    {
      ghost var before := state;
      var todo := state.pending.Keys;
      while todo != {}
        invariant todo <= before.pending.Keys && state.pending == before.pending && state.executions.Keys == before.executions.Keys
        invariant state == PreemptBy(definitions, before, running, before.pending.Keys - todo)
        decreases |todo|
      {
        var k :| k in todo;
        PreemptMore(definitions, before, running, before.pending.Keys - todo, k);
        assert before.pending.Keys - (todo - {k}) == before.pending.Keys - todo + {k};
        todo := todo - {k};
        PreemptFor(k);
      }
      assert before.pending.Keys - todo == before.pending.Keys;
    }

    // -------------------------------------------------------------- selection

    static method IsReady(i: Intent, now: Time) returns (ready: bool)
      ensures ready == Ready(i, now)
    {
      var readyAt := i.notBefore;
      if i.deadline != 0 && (readyAt == 0 || i.deadline < readyAt) { readyAt := i.deadline; }
      return readyAt == 0 || now >= readyAt;
    }

    method DropIntent(key: string, now: Time)
      requires key in state.pending
      modifies `state
      ensures state == old(state).(pending := old(state).pending - {key},
        triggers := Rewrite(old(state).triggers, old(state).pending[key].triggers, (t: Trigger) => t.(state := Attention, finishedAt := now)))
    {
      SetKnownTriggers(state.pending[key].triggers, (t: Trigger) => t.(state := Attention, finishedAt := now));
      state := state.(pending := state.pending - {key});
    }

    /** Drops the intents of unregistered tasks and lists the ready ones. */
    method CollectReady(now: Time) returns (ready: seq<string>)
      modifies `state
      ensures state == DropUnregistered(definitions, old(state), now)
      ensures forall k :: k in ready <==> k in state.pending && Ready(state.pending[k], now)
    {
      ghost var before, done := state, {};
      var todo := state.pending.Keys;
      ready := [];
      DropNone(definitions, before, now);
      while todo != {}
        invariant done !! todo && done + todo == before.pending.Keys
        invariant state == DropAmong(definitions, before, done, now)
        invariant ReadyAmong(definitions, before, done, ready, now)
        decreases |todo|
      {
        var k :| k in todo;
        var isReady := KeepOrDrop(k, now, before, done);
        todo, done := todo - {k}, done + {k};
        if isReady { ready := ready + [k]; }
      }
      assert done == before.pending.Keys;
      ReadyAll(definitions, before, ready, now);
    }

    method KeepOrDrop(k: string, now: Time, ghost before: Book, ghost done: set<string>) returns (isReady: bool)
      requires k in before.pending && k !in done && state == DropAmong(definitions, before, done, now)
      modifies `state
      ensures state == DropAmong(definitions, before, done + {k}, now)
      ensures isReady <==> before.pending[k].task in definitions && Ready(before.pending[k], now)
    {
      DropMorePending(definitions, before, done, k, now);
      DropMoreTriggers(definitions, before, done, k, now);
      var i := state.pending[k];
      if i.task !in definitions {
        DropIntent(k, now);
        return false;
      }
      isReady := IsReady(i, now);
    }

    /** The first ready intent, in order, whose resources are free; the ones it
        passes over wait. */
    method NextReadyIntent(now: Time) returns (key: Option<string>)
      requires Valid()
      modifies `state
      ensures key.Some? ==> Chosen(definitions, old(View()), key.value, now)
      ensures key.Some? ==> View() == ScanTo(definitions, old(View()), key.value, now)
      ensures key.None? ==> forall k :: !Candidate(definitions, old(View()), k, now)
      ensures key.None? ==> View() == ScanNone(definitions, old(View()), now)
    {
      ghost var before := View();
      var ready := CollectReady(now);
      DropUnregisteredKeeps(definitions, before.book, running.Keys, now);
      ready := InOrderOf(ready, now);
      assert ReadyList(definitions, before, ready, now);
      var i := ScanReady(ready, now);
      if i < |ready| {
        key := Some(ready[i]);
        PositionIsChosen(definitions, before, ready, i, now);
        PassedOver(definitions, before, ready, i, now);
      } else {
        key := None;
        assert ready[..i] == ready;
        AllPassedOver(definitions, before, ready, now);
      }
    }

    method InOrderOf(ready: seq<string>, now: Time) returns (sorted: seq<string>)
      requires forall k :: k in ready ==> k in state.pending
      ensures forall k :: k in sorted <==> k in ready
      ensures forall i, j :: 0 <= i < j < |sorted| ==> !Precedes(state.pending[sorted[j]], state.pending[sorted[i]], now)
    {
      var b := state;
      var order := (j: string, k: string) => NotAfter(b, j, k, now);
      NotAfterOrder(b, now);
      SortSorted(order, ready);
      SortContents(order, ready);
      sorted := Sort(order, ready);
      forall i, j | 0 <= i < j < |sorted|
        ensures !Precedes(state.pending[sorted[j]], state.pending[sorted[i]], now)
      {
        assert order(sorted[i], sorted[j]) && sorted[j] in sorted;
      }
    }

    /** Walks the ready intents in order up to the first without a conflict. */
    method ScanReady(ready: seq<string>, now: Time) returns (i: nat)
      requires forall k :: k in ready ==> k in state.pending && state.pending[k].task in definitions
      requires forall k :: k in ready ==> Resolved(state.triggers, state.pending[k].triggers)
      modifies `state
      ensures i <= |ready| && state == MarkWaiting(old(state), KeySet(ready[..i]))
      ensures forall j :: 0 <= j < i ==> Blocked(definitions, resources, old(state), ready[j])
      ensures i < |ready| ==> !Blocked(definitions, resources, old(state), ready[i])
    {
      ghost var before := state;
      MarkNothing(before);
      i := 0;
      while i < |ready|
        invariant i <= |ready|
        invariant forall j :: 0 <= j < i ==> Blocked(definitions, resources, before, ready[j])
        invariant state == MarkWaiting(before, KeySet(ready[..i]))
      {
        var k := ready[i];
        assert k in ready;
        var conflict := ResourceConflict(definitions[state.pending[k].task].resources);
        if !conflict {
          return;
        }
        KeySetStep(ready, i);
        MarkIntentWaiting(k, before, KeySet(ready[..i]));
        i := i + 1;
      }
    }

    method MarkIntentWaiting(key: string, ghost before: Book, ghost blocked: set<string>)
      requires key in before.pending && Resolved(before.triggers, before.pending[key].triggers)
      requires state == MarkWaiting(before, blocked)
      modifies `state
      ensures state == MarkWaiting(before, blocked + {key})
    {
      WaitMore(before, blocked, key);
      SetTriggers(state.pending[key].triggers, (t: Trigger) => t.(state := Waiting));
    }

    // -------------------------------------------------------------- admission

    /** Admits ready intents, each the first in order at its turn, until none can
        be admitted. */
    method AdmitReady(now: Time) returns (ghost keys: seq<string>)
      requires Valid()
      modifies `state, `running, `resources
      ensures Valid() && AdmitsReady(definitions, old(View()), keys, now, View())
    {
      ghost var before := View();
      keys := [];
      while true
        invariant Valid() && InOrder(definitions, before, keys, now) && View() == AdmitMany(definitions, before, keys, now)
        decreases |state.pending|
      {
        ghost var current := View();
        var next := NextReadyIntent(now);
        if next.None? {
          ScanKeepsValid(definitions, current, now);
          return;
        }
        AdmitChosenKeeps(definitions, current, next.value, now);
        AdmitMore(definitions, before, keys, next.value, now);
        StartExecution(next.value, current, now);
        keys := keys + [next.value];
      }
    }

    /** Turns a pending intent into a running execution holding its resources. */
    method StartExecution(key: string, ghost before: Scheduler, now: Time)
      requires Chosen(definitions, before, key, now) && View() == ScanTo(definitions, before, key, now)
      requires key == IntentKey(before.book.pending[key].task, before.book.pending[key].key)
      requires Resolved(before.book.triggers, before.book.pending[key].triggers)
      modifies `state, `running, `resources
      ensures View() == AdmitChosen(definitions, before, key, now)
      ensures |state.pending| < |before.book.pending|
    {
      assert state.pending.Keys <= before.book.pending.Keys;
      SubsetSize(state.pending.Keys, before.book.pending.Keys);
      var d := definitions[state.pending[key].task];
      var e := BeginExecution(key, now);
      AcquireResources(e, d.resources);
      running := running[e := d.resources];
    }

    /** The intent becomes the record of a running execution. */
    method BeginExecution(key: string, now: Time) returns (e: Id)
      requires key in state.pending && key == IntentKey(state.pending[key].task, state.pending[key].key)
      requires Resolved(state.triggers, state.pending[key].triggers)
      modifies `state
      ensures e == old(state).sequence + 1 && state == Admit(old(state), key, now)
    {
      var i := state.pending[key];
      e := state.sequence + 1;
      state := state.(sequence := e, pending := state.pending - {IntentKey(i.task, i.key)});
      var x := Execution(i.task, i.key, i.triggers, i.priority, i.coverage, i.payload, ExRunning, i.attempt, i.createdAt, now, 0);
      state := state.(executions := state.executions[e := x]);
      SetTriggers(i.triggers, (t: Trigger) => t.(state := Running, execution := e, target := e));
    }

    // --------------------------------------------------------------- wake timer

    method IntentWake(now: Time) returns (urgent: bool, next: Time)
      ensures urgent <==> exists k :: k in state.pending && (state.pending[k].task !in definitions || Candidate(definitions, View(), k, now))
      ensures !urgent ==> Earliest(next, IntentPoints(definitions, state, now))
    {
      var todo := state.pending.Keys;
      urgent, next := false, 0;
      ghost var points: set<Time> := {};
      while todo != {}
        invariant todo <= state.pending.Keys && 0 !in points
        invariant forall k :: k in state.pending && k !in todo ==>
          state.pending[k].task in definitions && !Candidate(definitions, View(), k, now)
        invariant points == set k | k in state.pending && k !in todo && ReadyAt(state.pending[k]) > now :: ReadyAt(state.pending[k])
        invariant Earliest(next, points)
        decreases |todo|
      {
        var k :| k in todo;
        todo := todo - {k};
        var i := state.pending[k];
        if i.task !in definitions {
          return true, 0;
        }
        var candidate := i.notBefore;
        if i.deadline != 0 && (candidate == 0 || i.deadline < candidate) { candidate := i.deadline; }
        if candidate == 0 || candidate <= now {
          var conflict := ResourceConflict(definitions[i.task].resources);
          if !conflict {
            assert Candidate(definitions, View(), k, now);
            return true, 0;
          }
        } else {
          next := EarlierNonZero(next, candidate);
          points := points + {candidate};
        }
      }
      assert points == IntentPoints(definitions, state, now);
    }

    method ScheduleWake(now: Time) returns (urgent: bool, next: Time)
      ensures urgent <==> exists task :: task in state.periodicNext && task in definitions && definitions[task].interval > 0
                                         && state.periodicNext[task] <= now
      ensures !urgent ==> Earliest(next, SchedulePoints(definitions, state, now))
    {
      var todo := state.periodicNext.Keys;
      urgent, next := false, 0;
      ghost var points: set<Time> := {};
      while todo != {}
        invariant todo <= state.periodicNext.Keys && 0 !in points
        invariant forall task :: task in state.periodicNext && task !in todo && task in definitions && definitions[task].interval > 0 ==>
          state.periodicNext[task] > now
        invariant points == set task | task in state.periodicNext && task !in todo && task in definitions
                                       && definitions[task].interval > 0 :: state.periodicNext[task]
        invariant Earliest(next, points)
        decreases |todo|
      {
        var task :| task in todo;
        todo := todo - {task};
        if task in definitions && definitions[task].interval > 0 {
          var due := state.periodicNext[task];
          if due <= now {
            return true, 0;
          }
          next := EarlierNonZero(next, due);
          points := points + {due};
        }
      }
      assert points == SchedulePoints(definitions, state, now);
    }

    method WorkflowWake(now: Time) returns (urgent: bool, next: Time)
      ensures urgent <==> exists i :: i in state.workflows && WorkflowDue(workflowDefinitions, state.workflows[i], now)
      ensures !urgent ==> Earliest(next, WorkflowPoints(workflowDefinitions, state, now))
    {
      var todo := state.workflows.Keys;
      urgent, next := false, 0;
      ghost var points: set<Time> := {};
      while todo != {}
        invariant todo <= state.workflows.Keys && 0 !in points
        invariant forall i :: i in state.workflows && i !in todo ==> !WorkflowDue(workflowDefinitions, state.workflows[i], now)
        invariant points == set i | i in state.workflows && i !in todo && !Idle(state.workflows[i]) && state.workflows[i].trigger == 0
                                    && state.workflows[i].definition in workflowDefinitions
                                    && WorkflowReadyAt(state.workflows[i]) > now :: WorkflowReadyAt(state.workflows[i])
        invariant Earliest(next, points)
        decreases |todo|
      {
        var i :| i in todo;
        todo := todo - {i};
        var w := state.workflows[i];
        if !w.state.WfSucceeded? && !w.state.WfAttention? && w.trigger == 0 && w.definition in workflowDefinitions {
          var candidate := if w.step > 0 then w.readyAfter else w.notBefore;
          if w.deadline != 0 && (candidate == 0 || w.deadline < candidate) { candidate := w.deadline; }
          if candidate == 0 || candidate <= now {
            return true, 0;
          }
          next := EarlierNonZero(next, candidate);
          points := points + {candidate};
        }
      }
      assert points == WorkflowPoints(workflowDefinitions, state, now);
    }

    /** How long the loop may sleep: not at all while something can be done, not
        beyond the earliest point at which something becomes possible. */
    method NextWakeDelay(now: Time) returns (delay: int)
      ensures IsWakeDelay(definitions, workflowDefinitions, View(), now, delay)
    {
      var urgent, intents := IntentWake(now);
      if urgent { return 0; }
      var due, schedules := ScheduleWake(now);
      if due { return 0; }
      var waiting, workflows := WorkflowWake(now);
      if waiting { return 0; }
      NotUrgent(definitions, workflowDefinitions, View(), now);
      EarliestIsWake(definitions, workflowDefinitions, View(), now, intents, schedules, workflows);
      var next := EarlierNonZero(EarlierNonZero(intents, schedules), workflows);
      return if next == 0 then -1 else next - now;
    }

    // ------------------------------------------------------------------- round

    /** One turn of the scheduler loop.  At an unmoved clock it never asks to be
        woken at once: everything that could be done has been done. */
    method Round(now: Time) returns (delay: int, ghost tasks: seq<Visit>, ghost workflows: seq<Visit>, ghost keys: seq<string>)
      requires Valid() && StepsInRange(workflowDefinitions, state)
      modifies `state, `running, `resources, `stored
      ensures Valid() && stored == PersistedView(state)
      ensures ValidVisits(definitions, old(View()), tasks, workflows)
      ensures AdmitsReady(definitions, Prepared(definitions, workflowDefinitions, old(View()), tasks, workflows, now), keys, now, View())
      ensures IsWakeDelay(definitions, workflowDefinitions, View(), now, delay) && delay != 0
    {
      tasks, workflows, keys := DoEverything(now);
      ghost var after := View();
      delay := NextWakeDelay(now);
      Persist();
      assert View() == after;
    }

    /** Submits what is due, preempts, and admits until nothing more can be done. */
    method DoEverything(now: Time) returns (ghost tasks: seq<Visit>, ghost workflows: seq<Visit>, ghost keys: seq<string>)
      requires Valid() && StepsInRange(workflowDefinitions, state)
      modifies `state, `running, `resources
      ensures Valid() && !Urgent(definitions, workflowDefinitions, View(), now)
      ensures ValidVisits(definitions, old(View()), tasks, workflows)
      ensures AdmitsReady(definitions, Prepared(definitions, workflowDefinitions, old(View()), tasks, workflows, now), keys, now, View())
    {
      ghost var before := View();
      tasks, workflows := Prepare(now);
      PreparedKeeps(definitions, workflowDefinitions, before, tasks, workflows, now);
      keys := AdmitReady(now);
      RoundLeavesNothingUrgent(definitions, workflowDefinitions, before, tasks, workflows, keys, now, View());
    }

    method Prepare(now: Time) returns (ghost tasks: seq<Visit>, ghost workflows: seq<Visit>)
      requires running.Keys <= state.executions.Keys
      modifies `state
      ensures ValidVisits(definitions, old(View()), tasks, workflows)
      ensures Subjects(tasks) == definitions.Keys && Subjects(workflows) == old(state).workflows.Keys
      ensures View() == Prepared(definitions, workflowDefinitions, old(View()), tasks, workflows, now)
    {
      ghost var before := state;
      tasks := CreatePeriodicTriggers(now);
      TickTasksKeepsWorkflows(definitions, before, tasks, now);
      workflows := CreateWorkflowTriggers(now);
      PreemptForPriority();
    }
  }
}
