/** In which order waiting work is admitted, what admission does to it, and what it
    never admits together. */
module AdmissionOrder {
  import opened TaskTypes
  import opened SchedulerSpec
  import opened SchedulerInvariants
  import opened Resources
  import opened SchedulerRound
  import opened SchedulerRuns
  import opened SchedulerTheorems

  // -------------------------------------------------------------------- ageing

  lemma WholeMinutes(a: int, b: int, k: nat)
    requires a >= b + k * MINUTE && b >= 0
    ensures a / MINUTE >= b / MINUTE + k
  {
  }

  /** Mutation work goes before all other work, however long that has waited, and by
      its own priority among itself. */
  lemma MutationGoesFirst(i: Intent, j: Intent, now: Time)
    requires i.priority >= PRIORITY_MUTATION && i.priority > j.priority
    ensures Precedes(i, j, now)
  {
  }

  /** Nothing starves below mutation work: an intent goes before every other one that
      was created later by as many minutes as its priority is higher. */
  lemma WaitingOvertakes(i: Intent, j: Intent, now: Time)
    requires i.priority < PRIORITY_MUTATION && j.priority < PRIORITY_MUTATION
    requires i.createdAt < j.createdAt <= now
    requires j.createdAt >= i.createdAt + (if j.priority > i.priority then (j.priority - i.priority) * MINUTE else 0)
    ensures Precedes(i, j, now)
  {
    var k := if j.priority > i.priority then j.priority - i.priority else 0;
    WholeMinutes(now - i.createdAt, now - j.createdAt, k);
  }

  /** And no sooner: until it has waited that long, work of higher priority goes first. */
  lemma PriorityHolds(i: Intent, j: Intent, now: Time)
    requires i.priority < j.priority < PRIORITY_MUTATION
    requires now < i.createdAt + (j.priority - i.priority) * MINUTE
    ensures Precedes(j, i, now)
  {
    if now > i.createdAt {
      var k := j.priority - i.priority;
      assert (now - i.createdAt) / MINUTE < k;
    }
  }

  /** An intent is ready when its earliest time or its deadline has come, whichever is
      first; one that sets neither is ready at once. */
  predicate Come(earliest: Time, deadline: Time, p: Time) {
    (earliest == 0 && deadline == 0) || 0 < earliest <= p || 0 < deadline <= p
  }

  lemma ReadyWhen(i: Intent, now: Time)
    ensures Ready(i, now) <==> Come(i.notBefore, i.deadline, now)
  {
  }

  // ----------------------------------------------------------------- admission

  /** What can be admitted now: ready, and no running execution claims one of its
      resources in a way that excludes it. */
  lemma CandidateWhen(defs: Definitions, s: Scheduler, k: string, now: Time)
    requires Sound(defs, s) && k in s.book.pending && s.book.pending[k].task in defs
    ensures Candidate(defs, s, k, now) <==>
      Ready(s.book.pending[k], now) && forall e :: e in s.running ==> !Excludes(defs[s.book.pending[k].task].resources, s.running[e])
  {
    var claims := defs[s.book.pending[k].task].resources;
    ConflictsIff(s.table, s.running, claims);
    forall e | e in s.running { ExcludesIff(claims, s.running[e]); }
  }

  /** The admitted execution is what the intent was, started now, with the claims of its
      task. */
  lemma AdmissionStarts(defs: Definitions, s: Scheduler, key: string, now: Time)
    requires Chosen(defs, s, key, now)
    ensures var s', i := AdmitChosen(defs, s, key, now), s.book.pending[key]; var e := s'.book.sequence;
      && e == s.book.sequence + 1 && e in s'.book.executions
      && s'.book.executions[e] == Execution(i.task, i.key, i.triggers, i.priority, i.coverage, i.payload, ExRunning, i.attempt, i.createdAt, now, 0)
      && s'.running == s.running[e := defs[i.task].resources]
      && key !in s'.book.pending
      && (forall f :: f in s.book.executions && f != e ==> f in s'.book.executions && s'.book.executions[f] == s.book.executions[f])
      && forall k :: k in s'.book.pending <==> k in s.book.pending && k != key && s.book.pending[k].task in defs
  {
  }

  /** What admission does to the record of a trigger. */
  ghost predicate Moved(defs: Definitions, s: Scheduler, key: string, now: Time, s': Scheduler, t: Id)
    requires key in s.book.pending && t in s.book.triggers
  {
    && t in s'.book.triggers
    && var r, r', e := s.book.triggers[t], s'.book.triggers[t], s'.book.sequence;
    if t in s.book.pending[key].triggers then r' == r.(state := Running, execution := e, target := e)
    else if exists k :: k in s.book.pending && s.book.pending[k].task !in defs && t in s.book.pending[k].triggers then
      r' == r.(state := Attention, finishedAt := now)
    else
      || r' == r
      || (r' == r.(state := Waiting)
          && exists k :: k in s.book.pending && t in s.book.pending[k].triggers && HeldUp(defs, s, k, now))
  }

  /** The intent is ready and has to wait for a running execution. */
  ghost predicate HeldUp(defs: Definitions, s: Scheduler, k: string, now: Time) {
    && k in s.book.pending && s.book.pending[k].task in defs && Ready(s.book.pending[k], now)
    && exists e :: e in s.running && Excludes(defs[s.book.pending[k].task].resources, s.running[e])
  }

  lemma ObstructedIsHeldUp(defs: Definitions, s: Scheduler, k: string, now: Time)
    requires Sound(defs, s)
    ensures Obstructed(defs, s, k, now) <==> HeldUp(defs, s, k, now)
  {
    if k in s.book.pending && s.book.pending[k].task in defs && Ready(s.book.pending[k], now) { CandidateWhen(defs, s, k, now); }
  }

  /** The triggers of the admitted intent run, those of dropped intents need attention,
      and what is marked as waiting waits for a running execution; no other record
      changes. */
  lemma AdmissionMoves(defs: Definitions, s: Scheduler, key: string, now: Time, t: Id)
    requires Sound(defs, s) && Chosen(defs, s, key, now) && t in s.book.triggers
    ensures Moved(defs, s, key, now, AdmitChosen(defs, s, key, now), t)
  {
    forall k { ObstructedIsHeldUp(defs, s, k, now); }
    forall k | k in s.book.pending && t in s.book.pending[k].triggers
      ensures k == TriggerKey(s.book.triggers[t])
    {
      assert QueuedUnder(s.book, k, t);
    }
  }

  // ---------------------------------------------------------- never at one time

  /** In no state of any run do two running executions claim one resource unless both
      share it. */
  lemma ApartInRuns(wdefs: WorkflowDefinitions, states: seq<System>, steps: seq<Step>, n: nat, e: Id, f: Id, l: Claim, r: Claim)
    requires (forall d :: d in wdefs ==> wdefs[d] != []) && IsRun(wdefs, states, steps) && n < |states|
    requires e in states[n].s.running && f in states[n].s.running && e != f
    requires l in states[n].s.running[e] && r in states[n].s.running[f] && l.resource == r.resource
    ensures l.mode.Shared? && r.mode.Shared?
  {
    RunKeeps(wdefs, states, steps, n);
    ExcludesIff(states[n].s.running[e], states[n].s.running[f]);
    assert !Excludes(states[n].s.running[e], states[n].s.running[f]);
  }
}
