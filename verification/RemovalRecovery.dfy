/** Reconciling the removal journal with the scheduler before any work starts. */
module RemovalRecovery {
  import opened TaskTypes
  import opened SchedulerSpec
  import opened SchedulerLookup
  import opened SchedulerInvariants
  import opened SchedulerRecovery
  import opened SchedulerRound
  import opened SchedulerManager
  import opened Resources
  import opened RemovalJournal
  import opened RemovalUrgency

  /** What the restart found decides what becomes of an event.  Started: nobody
      knows how far it got.  Known to the scheduler: its newest record says whether
      it is still to be done.  Unknown: it is submitted if its payload is whole. */
  ghost predicate EntryOutcome(triggers: map<Id, Trigger>, id: nat, before: Entry, after: Entry) {
    match before.status
    case EvStarted => after == before.(status := EvInterrupted)
    case EvQueued =>
      (exists latest :: IsLatest(triggers, REMOVAL, OperationKey(id), latest) && QueuedOutcome(triggers, latest, before, after))
    case _ => after == before
  }

  ghost predicate QueuedOutcome(triggers: map<Id, Trigger>, latest: Option<Id>, before: Entry, after: Entry) {
    match latest
    case Some(t) => t in triggers && after == if Terminal(triggers[t].state) then before.(status := EvInterrupted) else before
    case None => after == if before.complete then before else before.(status := EvFailed)
  }

  /** The records of one event are the same in both. */
  ghost predicate SameRecords(b: Book, b': Book, id: nat) {
    forall t ::
      (t in b.triggers && RecordOf(b.triggers[t], id) <==> t in b'.triggers && RecordOf(b'.triggers[t], id))
      && (t in b.triggers && RecordOf(b.triggers[t], id) && t in b'.triggers ==> b'.triggers[t] == b.triggers[t])
  }

  lemma LatestOfSame(b: Book, b': Book, id: nat, latest: Option<Id>)
    requires SameRecords(b, b', id) && IsLatest(b'.triggers, REMOVAL, OperationKey(id), latest)
    ensures IsLatest(b.triggers, REMOVAL, OperationKey(id), latest)
    ensures latest.Some? ==> latest.value in b.triggers && b.triggers[latest.value] == b'.triggers[latest.value]
  {
    forall t | t in b.triggers && Matches(b.triggers[t], REMOVAL, OperationKey(id))
      ensures t in b'.triggers && b'.triggers[t] == b.triggers[t]
    {
      assert RecordOf(b.triggers[t], id);
    }
    if latest.Some? { assert RecordOf(b'.triggers[latest.value], id); }
  }

  /** Submitting another event leaves this one's records alone. */
  lemma OtherRecordsSame(defs: Definitions, b: Book, running: seq<Id>, id: nat, now: Time, x: nat)
    requires Numbered(b) && Submit(defs, b, running, RemovalRequest(id), now).Ok? && x != id
    ensures SameRecords(b, Submit(defs, b, running, RemovalRequest(id), now).value.0, x)
  {
    var b' := Submit(defs, b, running, RemovalRequest(id), now).value.0;
    SubmissionRecord(defs, b, running, id, now);
    if RecordOf(b'.triggers[b.sequence + 1], x) { OperationKeyInjective(x, id); }
  }

  lemma SubmittedIsLive(defs: Definitions, b: Book, running: seq<Id>, id: nat, now: Time)
    requires Numbered(b) && Submit(defs, b, running, RemovalRequest(id), now).Ok?
    ensures var b' := Submit(defs, b, running, RemovalRequest(id), now).value.0;
      Live(b', id) && forall x :: Live(b, x) ==> Live(b', x)
  {
    var b' := Submit(defs, b, running, RemovalRequest(id), now).value.0;
    SubmissionRecord(defs, b, running, id, now);
    assert RecordOf(b'.triggers[b.sequence + 1], id);
    forall x | Live(b, x)
      ensures Live(b', x)
    {
      var t :| t in b.triggers && RecordOf(b.triggers[t], x) && !Terminal(b.triggers[t].state);
      assert b'.triggers[t] == b.triggers[t];
    }
  }

  /** One event dealt with. */
  ghost predicate Handled(b: Book, events: map<nat, Entry>, b0: Book, events0: map<nat, Entry>, id: nat) {
    && id in events && id in events0
    && if events0[id].status.EvStarted? then events[id] == events0[id]
       else EntryOutcome(b0.triggers, id, events0[id], events[id]) && (events[id].status.EvQueued? ==> Live(b, id))
  }

  /** How far recovery has come: events before n are dealt with, the others are as
      they were, and so are their records. */
  ghost predicate Progress(b: Book, events: map<nat, Entry>, b0: Book, events0: map<nat, Entry>, inFlight: seq<nat>, n: nat) {
    && n <= |inFlight| && events.Keys == events0.Keys
    && (forall i :: 0 <= i < n ==> Handled(b, events, b0, events0, inFlight[i]))
    && (forall i :: n <= i < |inFlight| ==> SameRecords(b0, b, inFlight[i]))
    && (forall id :: id in events && id !in inFlight[..n] ==> events[id] == events0[id])
  }

  /** Something may have been removed that the inventory still lists. */
  predicate NeedsRestore(before: Entry, after: Entry) {
    !before.dryRun && (before.status.EvStarted? || after.status.EvInterrupted?)
  }

  lemma Untouched(inFlight: seq<nat>, n: nat)
    requires n < |inFlight| && DistinctEvents(inFlight)
    ensures inFlight[n] !in inFlight[..n] && forall id :: id in inFlight[..n + 1] <==> id in inFlight[..n] || id == inFlight[n]
  {
    assert inFlight[..n + 1] == inFlight[..n] + [inFlight[n]];
  }

  /** The event was settled, or left to the scheduler, without a submission. */
  lemma ProgressSettled(b: Book, events: map<nat, Entry>, b0: Book, events0: map<nat, Entry>, inFlight: seq<nat>, n: nat, entry: Entry)
    requires DistinctEvents(inFlight) && n < |inFlight| && Progress(b, events, b0, events0, inFlight, n) && inFlight[n] in events
    requires Handled(b, events[inFlight[n] := entry], b0, events0, inFlight[n])
    ensures Progress(b, events[inFlight[n] := entry], b0, events0, inFlight, n + 1)
  {
    Untouched(inFlight, n);
    var after := events[inFlight[n] := entry];
    forall i | 0 <= i < n + 1
      ensures Handled(b, after, b0, events0, inFlight[i])
    {
      if i < n { assert Handled(b, events, b0, events0, inFlight[i]); }
    }
  }

  lemma SameRecordsThrough(a: Book, b: Book, c: Book, id: nat)
    requires SameRecords(a, b, id) && SameRecords(b, c, id)
    ensures SameRecords(a, c, id)
  {
  }

  lemma SubmissionSame(defs: Definitions, running: seq<Id>, now: Time, b: Book, b0: Book, inFlight: seq<nat>, n: nat, i: nat)
    requires DistinctEvents(inFlight) && n < i < |inFlight| && SameRecords(b0, b, inFlight[i])
    requires Numbered(b) && Submit(defs, b, running, RemovalRequest(inFlight[n]), now).Ok?
    ensures SameRecords(b0, Submit(defs, b, running, RemovalRequest(inFlight[n]), now).value.0, inFlight[i])
  {
    OtherRecordsSame(defs, b, running, inFlight[n], now, inFlight[i]);
    SameRecordsThrough(b0, b, Submit(defs, b, running, RemovalRequest(inFlight[n]), now).value.0, inFlight[i]);
  }

  lemma ProgressSubmitted(defs: Definitions, running: seq<Id>, now: Time, b: Book, events: map<nat, Entry>, b0: Book, events0: map<nat, Entry>, inFlight: seq<nat>, n: nat)
    requires DistinctEvents(inFlight) && n < |inFlight| && Progress(b, events, b0, events0, inFlight, n) && inFlight[n] in events
    requires Numbered(b) && Submit(defs, b, running, RemovalRequest(inFlight[n]), now).Ok?
    requires events[inFlight[n]].status.EvQueued? && EntryOutcome(b0.triggers, inFlight[n], events0[inFlight[n]], events[inFlight[n]])
    ensures Progress(Submit(defs, b, running, RemovalRequest(inFlight[n]), now).value.0, events, b0, events0, inFlight, n + 1)
  {
    Untouched(inFlight, n);
    var id := inFlight[n];
    var b' := Submit(defs, b, running, RemovalRequest(id), now).value.0;
    SubmittedIsLive(defs, b, running, id, now);
    forall i | 0 <= i < n
      ensures Handled(b', events, b0, events0, inFlight[i])
    {
      assert Handled(b, events, b0, events0, inFlight[i]);
    }
    assert Handled(b', events, b0, events0, id);
    forall i | n + 1 <= i < |inFlight|
      ensures SameRecords(b0, b', inFlight[i])
    {
      SubmissionSame(defs, running, now, b, b0, inFlight, n, i);
    }
  }

  function CutShort(events: map<nat, Entry>): map<nat, Entry> {
    map id | id in events :: if events[id].status.EvStarted? then events[id].(status := EvInterrupted) else events[id]
  }

  ghost predicate AllInFlight(events: map<nat, Entry>, inFlight: seq<nat>) {
    forall i :: 0 <= i < |inFlight| ==> inFlight[i] in events && !Final(events[inFlight[i]].status)
  }

  ghost predicate RestoreNeeded(events0: map<nat, Entry>, events: map<nat, Entry>, inFlight: seq<nat>, n: nat) {
    exists i :: 0 <= i < n && i < |inFlight| && inFlight[i] in events0 && inFlight[i] in events && NeedsRestore(events0[inFlight[i]], events[inFlight[i]])
  }

  lemma NextEvent(b: Book, events: map<nat, Entry>, b0: Book, events0: map<nat, Entry>, inFlight: seq<nat>, n: nat)
    requires DistinctEvents(inFlight) && n < |inFlight| && Progress(b, events, b0, events0, inFlight, n) && AllInFlight(events0, inFlight)
    ensures var id := inFlight[n]; id in events && id in events0 && events[id] == events0[id] && !Final(events[id].status)
  {
    Untouched(inFlight, n);
  }

  lemma RestoreStep(events0: map<nat, Entry>, before: map<nat, Entry>, events: map<nat, Entry>, inFlight: seq<nat>, n: nat)
    requires n < |inFlight| && DistinctEvents(inFlight) && inFlight[n] in events0 && inFlight[n] in events && before.Keys == events.Keys
    requires forall id :: id in events && id != inFlight[n] ==> events[id] == before[id]
    ensures RestoreNeeded(events0, events, inFlight, n + 1) <==>
      RestoreNeeded(events0, before, inFlight, n) || NeedsRestore(events0[inFlight[n]], events[inFlight[n]])
  {
    if RestoreNeeded(events0, before, inFlight, n) {
      var i :| 0 <= i < n && inFlight[i] in events0 && inFlight[i] in before && NeedsRestore(events0[inFlight[i]], before[inFlight[i]]);
      assert inFlight[i] != inFlight[n];
    }
  }

  /** Every event as its own outcome demands, and settled or still to be done. */
  ghost predicate Recovered(b0: Book, b: Book, events0: map<nat, Entry>, events: map<nat, Entry>) {
    && events.Keys == events0.Keys
    && (forall id :: id in events ==> EntryOutcome(b0.triggers, id, events0[id], events[id]))
    && (forall id :: id in events ==> Final(events[id].status) || (events[id].status.EvQueued? && Live(b, id)))
  }

  lemma AllHandled(b: Book, events: map<nat, Entry>, b0: Book, events0: map<nat, Entry>, inFlight: seq<nat>, id: nat)
    requires Progress(b, events, b0, events0, inFlight, |inFlight|) && Enumerates(inFlight, InFlight(events0)) && id in events
    ensures !Final(events0[id].status) ==> Handled(b, events, b0, events0, id)
    ensures Final(events0[id].status) ==> events[id] == events0[id]
    ensures !Final(events0[id].status) ==> id in inFlight
  {
    assert inFlight[..|inFlight|] == inFlight;
    assert id in inFlight <==> id in InFlight(events0);
    if id in inFlight {
      var i :| 0 <= i < |inFlight| && inFlight[i] == id;
    }
  }

  lemma ProgressRecovered(b: Book, events: map<nat, Entry>, b0: Book, events0: map<nat, Entry>, inFlight: seq<nat>)
    requires Progress(b, events, b0, events0, inFlight, |inFlight|) && Enumerates(inFlight, InFlight(events0))
    ensures Recovered(b0, b, events0, CutShort(events))
  {
    forall id | id in events
      ensures EntryOutcome(b0.triggers, id, events0[id], CutShort(events)[id])
      ensures var after := CutShort(events)[id]; Final(after.status) || (after.status.EvQueued? && Live(b, id))
    {
      AllHandled(b, events, b0, events0, inFlight, id);
    }
  }

  ghost predicate RestoreWanted(events0: map<nat, Entry>, events: map<nat, Entry>) {
    exists id :: id in events0 && id in events && !Final(events0[id].status) && NeedsRestore(events0[id], events[id])
  }

  lemma RestoreIffWanted(b: Book, events: map<nat, Entry>, b0: Book, events0: map<nat, Entry>, inFlight: seq<nat>)
    requires Progress(b, events, b0, events0, inFlight, |inFlight|) && Enumerates(inFlight, InFlight(events0))
    ensures RestoreNeeded(events0, events, inFlight, |inFlight|) <==> RestoreWanted(events0, CutShort(events))
  {
    if RestoreNeeded(events0, events, inFlight, |inFlight|) {
      var i :| 0 <= i < |inFlight| && inFlight[i] in events0 && inFlight[i] in events && NeedsRestore(events0[inFlight[i]], events[inFlight[i]]);
      assert inFlight[i] in inFlight && inFlight[i] in InFlight(events0);
      assert NeedsRestore(events0[inFlight[i]], CutShort(events)[inFlight[i]]);
    }
    if RestoreWanted(events0, CutShort(events)) {
      var id :| id in events0 && id in CutShort(events) && !Final(events0[id].status) && NeedsRestore(events0[id], CutShort(events)[id]);
      AllHandled(b, events, b0, events0, inFlight, id);
      var i :| 0 <= i < |inFlight| && inFlight[i] == id;
      assert NeedsRestore(events0[inFlight[i]], events[inFlight[i]]);
    }
  }

  /** Some removal, not a dry run, had been started, or was queued and has now been found
      to have ended. */
  ghost predicate MayHaveMutated(events0: map<nat, Entry>, events: map<nat, Entry>) {
    exists id :: id in events0 && id in events && !events0[id].dryRun
      && (events0[id].status.EvStarted? || (events0[id].status.EvQueued? && events[id].status.EvInterrupted?))
  }

  lemma RestoreMeans(b: Book, b0: Book, events0: map<nat, Entry>, events: map<nat, Entry>)
    requires Recovered(b0, b, events0, events)
    ensures RestoreWanted(events0, events) <==> MayHaveMutated(events0, events)
  {
  }

  lemma EnumeratedInFlight(events: map<nat, Entry>, inFlight: seq<nat>)
    requires Enumerates(inFlight, InFlight(events))
    ensures DistinctEvents(inFlight) && AllInFlight(events, inFlight)
  {
    forall i | 0 <= i < |inFlight|
      ensures inFlight[i] in InFlight(events)
    {
      assert inFlight[i] in inFlight;
    }
  }

  // ------------------------------------------------------ steps of the journal

  /** The state of the journaled system that the fields stand for. */
  ghost predicate Shown(j: Journaled, defs: Definitions, s: Scheduler, stored: Book, events: map<nat, Entry>) {
    j.core.defs == defs && j.core.s == s && j.core.disk == stored && j.events == events
  }

  /** One event was recovered as the journaled system does it. */
  ghost predicate Recovers(defs: Definitions, b: Book, stored: Book, events: map<nat, Entry>, id: nat, latest: Option<Id>, now: Time,
                           b': Book, stored': Book, events': map<nat, Entry>) {
    && id in events && id in events' && events' == events[id := events'[id]]
    && (!events[id].status.EvStarted? ==> IsLatest(b.triggers, REMOVAL, OperationKey(id), latest))
    && RecoverEntry(defs, b, [], events[id], id, latest, now) == Some((b', events'[id]))
    && stored' == if b' == b then stored else PersistedView(b')
  }

  datatype Verdict = LeaveIt | Close(status: EntryStatus) | SubmitAgain

  function VerdictOf(triggers: map<Id, Trigger>, event: Entry, latest: Option<Id>): Verdict {
    if event.status.EvStarted? then LeaveIt
    else if latest.Some? then
      if latest.value in triggers && !Terminal(triggers[latest.value].state) then LeaveIt else Close(EvInterrupted)
    else if event.complete then SubmitAgain
    else Close(EvFailed)
  }

  function WithVerdict(event: Entry, verdict: Verdict): Entry { if verdict.Close? then event.(status := verdict.status) else event }

  /** Unless the event is submitted again, acting on the verdict deals with it. */
  ghost predicate Allows(b: Book, events: map<nat, Entry>, b0: Book, events0: map<nat, Entry>, inFlight: seq<nat>, n: nat, verdict: Verdict)
    requires n < |inFlight| && inFlight[n] in events && inFlight[n] in events0
  {
    if verdict.SubmitAgain? then
      events[inFlight[n]].status.EvQueued? && EntryOutcome(b0.triggers, inFlight[n], events0[inFlight[n]], events[inFlight[n]])
    else Progress(b, events[inFlight[n] := WithVerdict(events[inFlight[n]], verdict)], b0, events0, inFlight, n + 1)
  }

  lemma VerdictHandled(b: Book, events: map<nat, Entry>, b0: Book, events0: map<nat, Entry>, inFlight: seq<nat>, n: nat, latest: Option<Id>)
    requires DistinctEvents(inFlight) && n < |inFlight| && Progress(b, events, b0, events0, inFlight, n) && inFlight[n] in events
    requires !Final(events[inFlight[n]].status)
    requires !events[inFlight[n]].status.EvStarted? ==> IsLatest(b.triggers, REMOVAL, OperationKey(inFlight[n]), latest)
    ensures inFlight[n] in events0 && Allows(b, events, b0, events0, inFlight, n, VerdictOf(b.triggers, events[inFlight[n]], latest))
  {
    var id := inFlight[n];
    Untouched(inFlight, n);
    if !events[id].status.EvStarted? {
      LatestOfSame(b0, b, id, latest);
      assert latest.Some? ==> RecordOf(b.triggers[latest.value], id);
    }
    var verdict := VerdictOf(b.triggers, events[id], latest);
    if !verdict.SubmitAgain? { ProgressSettled(b, events, b0, events0, inFlight, n, WithVerdict(events[id], verdict)); }
  }

  /** What acting on a verdict does to the scheduler. */
  ghost predicate Acted(defs: Definitions, b: Book, stored: Book, running: map<Id, seq<Claim>>, id: nat, verdict: Verdict, now: Time, b': Book, stored': Book) {
    if verdict.SubmitAgain? then
      exists order :: Covers(order, running) && SubmittedBy(defs, b, order, id, now, b') && stored' == PersistedView(b')
    else b' == b && stored' == stored
  }

  ghost predicate SubmittedBy(defs: Definitions, b: Book, order: seq<Id>, id: nat, now: Time, b': Book) {
    var r := Submit(defs, b, order, RemovalRequest(id), now);
    r.Ok? && b' == r.value.0 && b' != b
  }

  lemma HasMember(ids: seq<Id>)
    requires ids != []
    ensures exists e :: e in ids
  {
    assert ids[0] in ids;
  }

  /** Acting on the verdict is what the journaled system does. */
  lemma VerdictRecovers(defs: Definitions, b: Book, stored: Book, running: map<Id, seq<Claim>>, events: map<nat, Entry>, id: nat, latest: Option<Id>, now: Time, b': Book, stored': Book)
    requires id in events && running == map[]
    requires !events[id].status.EvStarted? ==> IsLatest(b.triggers, REMOVAL, OperationKey(id), latest)
    requires Acted(defs, b, stored, running, id, VerdictOf(b.triggers, events[id], latest), now, b', stored')
    ensures Recovers(defs, b, stored, events, id, latest, now, b', stored', events[id := WithVerdict(events[id], VerdictOf(b.triggers, events[id], latest))])
  {
    if VerdictOf(b.triggers, events[id], latest).SubmitAgain? {
      var order :| Covers(order, running) && SubmittedBy(defs, b, order, id, now, b') && stored' == PersistedView(b');
      if order != [] { HasMember(order); }
    }
  }

  lemma RecoversIsStep(wdefs: WorkflowDefinitions, j: Journaled, defs: Definitions, b: Book, table: Table, stored: Book, events: map<nat, Entry>,
                       id: nat, latest: Option<Id>, now: Time, b': Book, stored': Book, events': map<nat, Entry>)
    requires Shown(j, defs, Scheduler(b, map[], table), stored, events)
    requires j.phase.Recovering? && j.phase.todo != [] && j.phase.todo[0] == id
    requires Recovers(defs, b, stored, events, id, latest, now, b', stored', events')
    ensures JEnabled(wdefs, j, Recover(latest, now))
    ensures var j' := JApply(wdefs, j, Recover(latest, now));
      Shown(j', defs, Scheduler(b', map[], table), stored', events') && j'.phase == Recovering(j.phase.todo[1..])
  {
  }

  /** The steps so far lead from j to what the fields show now. */
  ghost predicate Tracks(wdefs: WorkflowDefinitions, j: Journaled, states: seq<Journaled>, steps: seq<JStep>,
                         defs: Definitions, s: Scheduler, stored: Book, events: map<nat, Entry>, phase: Phase) {
    && JPath(wdefs, states, steps) && states[0] == j
    && Shown(states[|steps|], defs, s, stored, events) && states[|steps|].phase == phase
  }

  /** The path so far and one recovered event more. */
  lemma NextStep(wdefs: WorkflowDefinitions, j: Journaled, states: seq<Journaled>, steps: seq<JStep>,
                 defs: Definitions, b: Book, table: Table, stored: Book, events: map<nat, Entry>,
                 inFlight: seq<nat>, n: nat, latest: Option<Id>, now: Time, b': Book, stored': Book, events': map<nat, Entry>)
    returns (states': seq<Journaled>, steps': seq<JStep>)
    requires n < |inFlight| && Tracks(wdefs, j, states, steps, defs, Scheduler(b, map[], table), stored, events, Recovering(inFlight[n..]))
    requires Recovers(defs, b, stored, events, inFlight[n], latest, now, b', stored', events')
    ensures Tracks(wdefs, j, states', steps', defs, Scheduler(b', map[], table), stored', events', Recovering(inFlight[n + 1..]))
  {
    var last := states[|steps|];
    assert inFlight[n..][0] == inFlight[n] && inFlight[n..][1..] == inFlight[n + 1..];
    RecoversIsStep(wdefs, last, defs, b, table, stored, events, inFlight[n], latest, now, b', stored', events');
    JPathMore(wdefs, states, steps, Recover(latest, now));
    states', steps' := states + [JApply(wdefs, last, Recover(latest, now))], steps + [Recover(latest, now)];
  }

  /** The path so far and the end of recovery. */
  lemma LastStep(wdefs: WorkflowDefinitions, j: Journaled, states: seq<Journaled>, steps: seq<JStep>,
                 defs: Definitions, s: Scheduler, stored: Book, events: map<nat, Entry>)
    returns (states': seq<Journaled>, steps': seq<JStep>)
    requires Tracks(wdefs, j, states, steps, defs, s, stored, events, Recovering([]))
    ensures Tracks(wdefs, j, states', steps', defs, s, stored, CutShort(events), Serving)
  {
    var last := states[|steps|];
    JPathMore(wdefs, states, steps, Resume);
    states', steps' := states + [JApply(wdefs, last, Resume)], steps + [Resume];
  }

  lemma SubmissionIsNew(defs: Definitions, b: Book, running: seq<Id>, id: nat, now: Time)
    requires Submit(defs, b, running, RemovalRequest(id), now).Ok?
    ensures Submit(defs, b, running, RemovalRequest(id), now).value.0 != b
  {
    SubmissionRecord(defs, b, running, id, now);
  }

  /** j2 follows from j by the step Accept and then the step Schedule. */
  ghost predicate ExecutesAs(wdefs: WorkflowDefinitions, j: Journaled, id: nat, dryRun: bool, schedule: JStep, j2: Journaled) {
    && JEnabled(wdefs, j, Accept(id, dryRun))
    && JFollows(wdefs, JApply(wdefs, j, Accept(id, dryRun)), schedule, j2)
  }

  /** The removal was journaled and handed to the scheduler; what the scheduler
      refused is journaled as failed if that can be written. */
  ghost predicate Executed(defs: Definitions, s: Scheduler, stored: Book, events: map<nat, Entry>,
                           id: nat, dryRun: bool, order: seq<Id>, now: Time, storeWorks: bool, updateWorks: bool,
                           s': Scheduler, stored': Book, events': map<nat, Entry>) {
    var r := Submit(defs, s.book, order, RemovalRequest(id), now);
    && Covers(order, s.running)
    && if storeWorks && r.Ok? then
         s' == s.(book := r.value.0) && stored' == PersistedView(r.value.0) && events' == events[id := Entry(EvQueued, true, dryRun)]
       else
         s' == s && stored' == stored && events' == events[id := Entry(if updateWorks then EvFailed else EvQueued, true, dryRun)]
  }

  /** That is the step Accept and then the step Schedule. */
  lemma ExecutionIsSteps(wdefs: WorkflowDefinitions, j: Journaled, defs: Definitions, s: Scheduler, stored: Book, events: map<nat, Entry>,
                         id: nat, dryRun: bool, order: seq<Id>, now: Time, storeWorks: bool, updateWorks: bool,
                         s': Scheduler, stored': Book, events': map<nat, Entry>) returns (j2: Journaled)
    requires Shown(j, defs, s, stored, events) && j.phase.Serving? && id !in events
    requires Executed(defs, s, stored, events, id, dryRun, order, now, storeWorks, updateWorks, s', stored', events')
    ensures ExecutesAs(wdefs, j, id, dryRun, Schedule(id, order, now, storeWorks, updateWorks), j2)
    ensures Shown(j2, defs, s', stored', events')
  {
    var j1 := JApply(wdefs, j, Accept(id, dryRun));
    assert Shown(j1, defs, s, stored, events[id := Entry(EvQueued, true, dryRun)]) && id in j1.admitting && j1.phase.Serving?;
    j2 := ScheduleIsStep(wdefs, j1, defs, s, stored, j1.events, id, order, now, storeWorks, updateWorks);
    assert j1.events[id := j1.events[id].(status := EvFailed)] == events[id := Entry(EvFailed, true, dryRun)];
  }

  lemma ScheduleIsStep(wdefs: WorkflowDefinitions, j: Journaled, defs: Definitions, s: Scheduler, stored: Book, events: map<nat, Entry>,
                       id: nat, order: seq<Id>, now: Time, storeWorks: bool, updateWorks: bool) returns (j2: Journaled)
    requires Shown(j, defs, s, stored, events) && j.phase.Serving? && id in events && id in j.admitting && Covers(order, s.running)
    ensures JFollows(wdefs, j, Schedule(id, order, now, storeWorks, updateWorks), j2)
    ensures var r := Submit(defs, s.book, order, RemovalRequest(id), now);
      if storeWorks && r.Ok? then Shown(j2, defs, s.(book := r.value.0), PersistedView(r.value.0), events)
      else Shown(j2, defs, s, stored, if updateWorks then events[id := events[id].(status := EvFailed)] else events)
  {
    if Submit(defs, s.book, order, RemovalRequest(id), now).Ok? { SubmissionIsNew(defs, s.book, order, id, now); }
    j2 := JApply(wdefs, j, Schedule(id, order, now, storeWorks, updateWorks));
  }

  class RemovalServer {
    const tasks: Manager
    /** The journal. */
    var events: map<nat, Entry>

    constructor (tasks: Manager, events: map<nat, Entry>)
      ensures this.tasks == tasks && this.events == events
    {
      this.tasks := tasks;
      this.events := events;
    }

    ghost predicate Shows(j: Journaled)
      reads this, tasks
    {
      Shown(j, tasks.definitions, tasks.View(), tasks.stored, events)
    }

    /** A removal is journaled before it is submitted; one the scheduler rejects is
        journaled as failed, or stays queued for the next restart if even that
        cannot be written. */
    method ExecuteRemoval(id: nat, dryRun: bool, now: Time, journalWorks: bool, storeWorks: bool, updateWorks: bool)
      returns (accepted: bool, ghost order: seq<Id>)
      requires tasks.Valid() && id !in events
      modifies this, tasks`state, tasks`stored
      ensures tasks.Valid()
      ensures accepted <==> journalWorks && storeWorks && REMOVAL in tasks.definitions
      ensures !journalWorks ==> events == old(events)
      ensures accepted ==> events == old(events)[id := Entry(EvQueued, true, dryRun)] && Live(tasks.state, id) && tasks.stored == PersistedView(tasks.state)
      ensures accepted ==> Hastened(old(tasks.state), tasks.running.Keys, id, tasks.state)
      ensures !accepted ==> tasks.state == old(tasks.state) && tasks.stored == old(tasks.stored)
      ensures !accepted && journalWorks ==>
        events == old(events)[id := Entry(if updateWorks then EvFailed else EvQueued, true, dryRun)]
      ensures journalWorks ==>
        Executed(tasks.definitions, old(tasks.View()), old(tasks.stored), old(events), id, dryRun, order, now, storeWorks, updateWorks,
                 tasks.View(), tasks.stored, events)
    {
      order := [];
      if !journalWorks {
        return false, order;
      }
      events := events[id := Entry(EvQueued, true, dryRun)];
      accepted, order := SubmitRemoval(id, now, storeWorks);
      if !accepted && updateWorks {
        events := events[id := events[id].(status := EvFailed)];
      }
    }

    /** Hands a journaled removal to the scheduler. */
    method SubmitRemoval(id: nat, now: Time, storeWorks: bool) returns (accepted: bool, ghost order: seq<Id>)
      requires tasks.Valid()
      modifies tasks`state, tasks`stored
      ensures tasks.Valid() && Covers(order, tasks.running)
      ensures accepted <==> storeWorks && REMOVAL in tasks.definitions
      ensures accepted <==> storeWorks && Submit(tasks.definitions, old(tasks.state), order, RemovalRequest(id), now).Ok?
      ensures accepted ==> tasks.state == Submit(tasks.definitions, old(tasks.state), order, RemovalRequest(id), now).value.0
      ensures accepted ==> tasks.stored == PersistedView(tasks.state) && Live(tasks.state, id)
      ensures accepted ==> Hastened(old(tasks.state), tasks.running.Keys, id, tasks.state)
      ensures !accepted ==> tasks.state == old(tasks.state) && tasks.stored == old(tasks.stored)
    {
      ghost var b := tasks.state;
      var receipt, visited := tasks.SubmitRequest(RemovalRequest(id), now, storeWorks);
      accepted, order := receipt.Ok?, visited;
      if accepted {
        SubmittedIsLive(tasks.definitions, b, order, id, now);
        RemovalUrges(tasks.definitions, b, tasks.running, order, id, now);
      }
    }

    /** What is to be done about an event, by its status and its newest record. */
    method Judge(id: nat, event: Entry) returns (verdict: Verdict, ghost latest: Option<Id>)
      ensures !event.status.EvStarted? ==> IsLatest(tasks.state.triggers, REMOVAL, OperationKey(id), latest)
      ensures verdict == VerdictOf(tasks.state.triggers, event, latest)
    {
      latest := None;
      if event.status.EvStarted? {
        return LeaveIt, latest;
      }
      var newest := tasks.LatestTriggerForKey(REMOVAL, OperationKey(id));
      latest := newest;
      if newest.Some? {
        return if Terminal(tasks.state.triggers[newest.value].state) then Close(EvInterrupted) else LeaveIt, latest;
      }
      return if event.complete then SubmitAgain else Close(EvFailed), latest;
    }

    /** Settles the event, leaves it, or submits it again. */
    method Act(inFlight: seq<nat>, n: nat, verdict: Verdict, now: Time, journalWorks: bool, storeWorks: bool, ghost b0: Book, ghost events0: map<nat, Entry>)
      returns (ok: bool)
      requires tasks.Valid() && DistinctEvents(inFlight) && n < |inFlight| && inFlight[n] in events && inFlight[n] in events0
      requires Progress(tasks.state, events, b0, events0, inFlight, n)
      requires Allows(tasks.state, events, b0, events0, inFlight, n, verdict)
      modifies this, tasks`state, tasks`stored
      ensures tasks.Valid()
      ensures ok ==> Progress(tasks.state, events, b0, events0, inFlight, n + 1)
      ensures ok ==> events == old(events)[inFlight[n] := WithVerdict(old(events)[inFlight[n]], verdict)]
      ensures ok ==> Acted(tasks.definitions, old(tasks.state), old(tasks.stored), tasks.running, inFlight[n], verdict, now, tasks.state, tasks.stored)
      ensures ok && tasks.state != old(tasks.state) ==> Hastened(old(tasks.state), tasks.running.Keys, inFlight[n], tasks.state)
      ensures journalWorks && storeWorks && REMOVAL in tasks.definitions ==> ok
    {
      var id := inFlight[n];
      assert events[id := events[id]] == events;
      match verdict {
        case LeaveIt =>
          ok := true;
        case Close(status) =>
          ok := journalWorks;
          if ok { events := events[id := events[id].(status := status)]; }
        case SubmitAgain =>
          ghost var order;
          ok, order := Resubmit(inFlight, n, now, storeWorks, b0, events0);
      }
    }

    /** One in-flight event: settled, left to the scheduler, or submitted again. */
    method RecoverEvent(inFlight: seq<nat>, n: nat, now: Time, journalWorks: bool, storeWorks: bool, ghost b0: Book, ghost events0: map<nat, Entry>)
      returns (ok: bool, restore: bool, ghost latest: Option<Id>)
      requires tasks.Valid() && DistinctEvents(inFlight) && n < |inFlight|
      requires inFlight[n] in events && !Final(events[inFlight[n]].status)
      requires Progress(tasks.state, events, b0, events0, inFlight, n)
      modifies this, tasks`state, tasks`stored
      ensures tasks.Valid()
      ensures ok ==> Progress(tasks.state, events, b0, events0, inFlight, n + 1)
      ensures ok ==> inFlight[n] in events && events == old(events)[inFlight[n] := events[inFlight[n]]]
      ensures ok ==> (restore <==> NeedsRestore(old(events[inFlight[n]]), events[inFlight[n]]))
      ensures ok && tasks.state != old(tasks.state) ==> Hastened(old(tasks.state), tasks.running.Keys, inFlight[n], tasks.state)
      ensures journalWorks && storeWorks && REMOVAL in tasks.definitions ==> ok
      ensures ok && tasks.running == map[] ==>
        Recovers(tasks.definitions, old(tasks.state), old(tasks.stored), old(events), inFlight[n], latest, now, tasks.state, tasks.stored, events)
    {
      var event := events[inFlight[n]];
      var verdict;
      verdict, latest := Judge(inFlight[n], event);
      VerdictHandled(tasks.state, events, b0, events0, inFlight, n, latest);
      ok := Act(inFlight, n, verdict, now, journalWorks, storeWorks, b0, events0);
      restore := !event.dryRun && (event.status.EvStarted? || verdict == Close(EvInterrupted));
      if ok && tasks.running == map[] {
        VerdictRecovers(tasks.definitions, old(tasks.state), old(tasks.stored), tasks.running, old(events), inFlight[n], latest, now, tasks.state, tasks.stored);
      }
    }

    /** A whole command the scheduler never heard of. */
    method Resubmit(inFlight: seq<nat>, n: nat, now: Time, storeWorks: bool, ghost b0: Book, ghost events0: map<nat, Entry>) returns (ok: bool, ghost order: seq<Id>)
      requires tasks.Valid() && DistinctEvents(inFlight) && n < |inFlight| && inFlight[n] in events && inFlight[n] in events0
      requires Progress(tasks.state, events, b0, events0, inFlight, n)
      requires events[inFlight[n]].status.EvQueued? && EntryOutcome(b0.triggers, inFlight[n], events0[inFlight[n]], events[inFlight[n]])
      modifies tasks`state, tasks`stored
      ensures tasks.Valid() && Covers(order, tasks.running)
      ensures ok <==> storeWorks && REMOVAL in tasks.definitions
      ensures ok ==> Progress(tasks.state, events, b0, events0, inFlight, n + 1)
      ensures ok ==> SubmittedBy(tasks.definitions, old(tasks.state), order, inFlight[n], now, tasks.state) && tasks.stored == PersistedView(tasks.state)
      ensures ok ==> Hastened(old(tasks.state), tasks.running.Keys, inFlight[n], tasks.state)
    {
      ghost var b := tasks.state;
      ok, order := SubmitRemoval(inFlight[n], now, storeWorks);
      if ok {
        ProgressSubmitted(tasks.definitions, order, now, b, events, b0, events0, inFlight, n);
        SubmissionIsNew(tasks.definitions, b, order, inFlight[n], now);
      }
    }

    method RecoverEvents(inFlight: seq<nat>, now: Time, journalWorks: bool, storeWorks: bool, ghost j: Journaled)
      returns (ok: bool, restore: bool, ghost states: seq<Journaled>, ghost steps: seq<JStep>)
      requires tasks.Valid() && DistinctEvents(inFlight) && AllInFlight(events, inFlight)
      modifies this, tasks`state, tasks`stored
      ensures tasks.Valid() && tasks.running == old(tasks.running)
      ensures ok ==> Progress(tasks.state, events, old(tasks.state), old(events), inFlight, |inFlight|)
      ensures ok ==> (restore <==> RestoreNeeded(old(events), events, inFlight, |inFlight|))
      ensures journalWorks && storeWorks && REMOVAL in tasks.definitions ==> ok
      ensures ok && old(Shows(j)) && tasks.running == map[] && j.phase == Recovering(inFlight) ==>
        TracksHere(j, states, steps, Recovering([]))
    {
      ok, restore, states, steps := true, false, [j], [];
      ghost var b0, events0 := tasks.state, events;
      ghost var matched := Shows(j) && tasks.running == map[] && j.phase == Recovering(inFlight);
      assert inFlight[0..] == inFlight && inFlight[|inFlight|..] == [];
      var n := 0;
      while n < |inFlight| && ok
        invariant n <= |inFlight|
        invariant tasks.Valid() && tasks.running == old(tasks.running)
        invariant ok ==> Reached(inFlight, n, restore, b0, events0)
        invariant journalWorks && storeWorks && REMOVAL in tasks.definitions ==> ok
        invariant ok && matched ==> TracksHere(j, states, steps, Recovering(inFlight[n..]))
      {
        ok, restore, states, steps := RecoverNext(inFlight, n, restore, now, journalWorks, storeWorks, b0, events0, matched, j, states, steps);
        n := n + 1;
      }
    }

    /** The first n events are dealt with, and restore says whether one of them
        needs the inventory restored. */
    ghost predicate Reached(inFlight: seq<nat>, n: nat, restore: bool, b0: Book, events0: map<nat, Entry>)
      reads this, tasks
    {
      Progress(tasks.state, events, b0, events0, inFlight, n) && (restore <==> RestoreNeeded(events0, events, inFlight, n))
    }

    /** With nothing running, the steps so far lead from j to here. */
    ghost predicate TracksHere(j: Journaled, states: seq<Journaled>, steps: seq<JStep>, phase: Phase)
      reads this, tasks
    {
      tasks.running == map[] && Tracks(tasks.workflowDefinitions, j, states, steps, tasks.definitions, tasks.View(), tasks.stored, events, phase)
    }

    method RecoverNext(inFlight: seq<nat>, n: nat, restore0: bool, now: Time, journalWorks: bool, storeWorks: bool, ghost b0: Book, ghost events0: map<nat, Entry>,
                       ghost matched: bool, ghost j: Journaled, ghost states0: seq<Journaled>, ghost steps0: seq<JStep>)
      returns (ok: bool, restore: bool, ghost states: seq<Journaled>, ghost steps: seq<JStep>)
      requires tasks.Valid() && DistinctEvents(inFlight) && n < |inFlight| && AllInFlight(events0, inFlight)
      requires Reached(inFlight, n, restore0, b0, events0)
      requires matched ==> TracksHere(j, states0, steps0, Recovering(inFlight[n..]))
      modifies this, tasks`state, tasks`stored
      ensures tasks.Valid() && tasks.running == old(tasks.running)
      ensures ok ==> Reached(inFlight, n + 1, restore, b0, events0)
      ensures journalWorks && storeWorks && REMOVAL in tasks.definitions ==> ok
      ensures ok && matched ==> TracksHere(j, states, steps, Recovering(inFlight[n + 1..]))
    {
      states, steps := states0, steps0;
      ghost var b, stored, before, table, latest := tasks.state, tasks.stored, events, tasks.resources, None;
      assert matched ==> tasks.View() == Scheduler(b, map[], table);
      ok, restore, latest := RecoverInTurn(inFlight, n, restore0, now, journalWorks, storeWorks, b0, events0);
      if ok && matched {
        states, steps := NextStep(tasks.workflowDefinitions, j, states0, steps0, tasks.definitions, b, table, stored, before,
          inFlight, n, latest, now, tasks.state, tasks.stored, events);
        assert tasks.View() == Scheduler(tasks.state, map[], table);
      }
    }

    method RecoverInTurn(inFlight: seq<nat>, n: nat, restore0: bool, now: Time, journalWorks: bool, storeWorks: bool, ghost b0: Book, ghost events0: map<nat, Entry>)
      returns (ok: bool, restore: bool, ghost latest: Option<Id>)
      requires tasks.Valid() && DistinctEvents(inFlight) && n < |inFlight| && AllInFlight(events0, inFlight)
      requires Reached(inFlight, n, restore0, b0, events0)
      modifies this, tasks`state, tasks`stored
      ensures tasks.Valid()
      ensures ok ==> Reached(inFlight, n + 1, restore, b0, events0)
      ensures journalWorks && storeWorks && REMOVAL in tasks.definitions ==> ok
      ensures ok && tasks.running == map[] ==>
        Recovers(tasks.definitions, old(tasks.state), old(tasks.stored), old(events), inFlight[n], latest, now, tasks.state, tasks.stored, events)
    {
      NextEvent(tasks.state, events, b0, events0, inFlight, n);
      ghost var before := events;
      ok, restore, latest := RecoverEvent(inFlight, n, now, journalWorks, storeWorks, b0, events0);
      restore := restore || restore0;
      if ok { RestoreStep(events0, before, events, inFlight, n); }
    }

    /** Whatever was marked as started was cut short. */
    method InterruptStarted()
      modifies this
      ensures events == CutShort(old(events))
    {
      events := CutShort(events);
    }

    /** After this every removal is settled, or queued with a trigger that has not
        ended; restore tells whether a removal may have changed something that the
        inventory does not know of.  It is a path of Recover steps and a Resume. */
    method RecoverScheduledRemovals(inFlight: seq<nat>, now: Time, journalWorks: bool, storeWorks: bool, ghost j: Journaled)
      returns (ok: bool, restore: bool, ghost states: seq<Journaled>, ghost steps: seq<JStep>)
      requires tasks.Valid() && Enumerates(inFlight, InFlight(events))
      modifies this, tasks`state, tasks`stored
      ensures tasks.Valid() && tasks.running == old(tasks.running)
      ensures ok ==> Recovered(old(tasks.state), tasks.state, old(events), events)
      ensures ok ==> (restore <==> RestoreWanted(old(events), events))
      ensures ok ==> (restore <==> MayHaveMutated(old(events), events))
      ensures journalWorks && storeWorks && REMOVAL in tasks.definitions ==> ok
      ensures ok && old(Shows(j)) && tasks.running == map[] && j.phase == Recovering(inFlight) ==>
        TracksHere(j, states, steps, Serving)
    {
      ghost var b0, events0 := tasks.state, events;
      EnumeratedInFlight(events, inFlight);
      ok, restore, states, steps := RecoverEvents(inFlight, now, journalWorks, storeWorks, j);
      if !ok {
        return false, false, states, steps;
      }
      ProgressRecovered(tasks.state, events, b0, events0, inFlight);
      RestoreIffWanted(tasks.state, events, b0, events0, inFlight);
      RestoreMeans(tasks.state, b0, events0, CutShort(events));
      if old(Shows(j)) && tasks.running == map[] && j.phase == Recovering(inFlight) {
        states, steps := LastStep(tasks.workflowDefinitions, j, states, steps, tasks.definitions, tasks.View(), tasks.stored, events);
      }
      InterruptStarted();
    }
  }
}
