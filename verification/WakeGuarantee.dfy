/** The scheduler sleeps exactly as long as it has nothing to do: what a round leaves,
    and when the next one comes, in terms of what could be done. */
module WakeGuarantee {
  import opened TaskTypes
  import opened SchedulerSpec
  import opened Resources
  import opened SchedulerRound
  import opened SchedulerTiming
  import opened AdmissionOrder

  /** The intent of a registered task whose date has come. */
  predicate IntentComes(defs: Definitions, b: Book, k: string, p: Time) {
    k in b.pending && b.pending[k].task in defs && Come(b.pending[k].notBefore, b.pending[k].deadline, p)
  }

  /** ... and no running execution is in its way. */
  ghost predicate IntentPossible(defs: Definitions, s: Scheduler, k: string, p: Time) {
    && IntentComes(defs, s.book, k, p)
    && forall e :: e in s.running ==> !Excludes(defs[s.book.pending[k].task].resources, s.running[e])
  }

  predicate ScheduleComes(defs: Definitions, b: Book, task: string, p: Time) {
    task in b.periodicNext && task in defs && defs[task].interval > 0 && b.periodicNext[task] <= p
  }

  /** A workflow under way that waits for nothing but its date. */
  predicate StepComes(wdefs: WorkflowDefinitions, b: Book, i: string, p: Time) {
    && i in b.workflows
    && var w := b.workflows[i];
    && !Idle(w) && w.trigger == 0 && w.definition in wdefs
    && Come(if w.step == 0 then w.notBefore else w.readyAfter, w.deadline, p)
  }

  /** Something could be done at time p, as things stand. */
  ghost predicate Possible(defs: Definitions, wdefs: WorkflowDefinitions, s: Scheduler, p: Time) {
    || (exists k :: k in s.book.pending && s.book.pending[k].task !in defs)
    || (exists k :: IntentPossible(defs, s, k, p))
    || (exists task :: ScheduleComes(defs, s.book, task, p))
    || (exists i :: StepComes(wdefs, s.book, i, p))
  }

  lemma IntentPossibleIff(defs: Definitions, s: Scheduler, k: string, p: Time)
    requires Sound(defs, s)
    ensures IntentPossible(defs, s, k, p) <==> Candidate(defs, s, k, p)
  {
    if k in s.book.pending && s.book.pending[k].task in defs {
      CandidateWhen(defs, s, k, p);
      ReadyWhen(s.book.pending[k], p);
    }
  }

  lemma UrgentMeans(defs: Definitions, wdefs: WorkflowDefinitions, s: Scheduler, now: Time)
    requires Sound(defs, s)
    ensures Urgent(defs, wdefs, s, now) <==> Possible(defs, wdefs, s, now)
  {
    forall k { IntentPossibleIff(defs, s, k, now); }
    forall i
      ensures StepComes(wdefs, s.book, i, now) <==> i in s.book.workflows && WorkflowDue(wdefs, s.book.workflows[i], now)
    {
    }
    forall task
      ensures ScheduleComes(defs, s.book, task, now) <==>
        task in s.book.periodicNext && task in defs && defs[task].interval > 0 && s.book.periodicNext[task] <= now
    {
    }
  }

  /** After a round at an unmoved clock nothing can be done. */
  lemma RoundLeavesNothingPossible(defs: Definitions, wdefs: WorkflowDefinitions, s: Scheduler, tasks: seq<Visit>,
                                   workflows: seq<Visit>, keys: seq<string>, now: Time, s': Scheduler)
    requires Sound(defs, s) && ValidVisits(defs, s, tasks, workflows) && StepsInRange(wdefs, s.book)
    requires (set v | v in tasks :: v.subject) == defs.Keys
    requires (set v | v in workflows :: v.subject) == s.book.workflows.Keys
    requires AdmitsReady(defs, Prepared(defs, wdefs, s, tasks, workflows, now), keys, now, s')
    ensures !Possible(defs, wdefs, s', now)
  {
    RoundLeavesNothingUrgent(defs, wdefs, s, tasks, workflows, keys, now, s');
    RoundKeeps(defs, wdefs, s, tasks, workflows, keys, now, s');
    UrgentMeans(defs, wdefs, s', now);
  }

  /** What becomes possible later becomes so at a point the timer looks at. */
  lemma PossibleAtPoint(defs: Definitions, wdefs: WorkflowDefinitions, s: Scheduler, now: Time, p: Time)
    requires Sound(defs, s) && !Possible(defs, wdefs, s, now) && Possible(defs, wdefs, s, p) && now <= p
    ensures exists q: Time :: q <= p && WakePoint(defs, wdefs, s, now, q)
  {
    if k :| IntentPossible(defs, s, k, p) {
      assert !IntentPossible(defs, s, k, now);
      ReadyWhen(s.book.pending[k], p);
      ReadyWhen(s.book.pending[k], now);
      assert ReadyAt(s.book.pending[k]) in IntentPoints(defs, s.book, now);
      assert WakePoint(defs, wdefs, s, now, ReadyAt(s.book.pending[k]));
    } else if task :| ScheduleComes(defs, s.book, task, p) {
      assert !ScheduleComes(defs, s.book, task, now);
      assert s.book.periodicNext[task] in SchedulePoints(defs, s.book, now);
      assert WakePoint(defs, wdefs, s, now, s.book.periodicNext[task]);
    } else {
      var i :| StepComes(wdefs, s.book, i, p);
      assert !StepComes(wdefs, s.book, i, now);
      assert WorkflowReadyAt(s.book.workflows[i]) in WorkflowPoints(wdefs, s.book, now);
      assert WakePoint(defs, wdefs, s, now, WorkflowReadyAt(s.book.workflows[i]));
    }
  }

  /** The date of something comes exactly then. */
  ghost predicate SomethingComes(defs: Definitions, wdefs: WorkflowDefinitions, b: Book, p: Time) {
    || (exists k :: IntentComes(defs, b, k, p) && forall q: Time :: q < p ==> !IntentComes(defs, b, k, q))
    || (exists task :: ScheduleComes(defs, b, task, p) && forall q: Time :: q < p ==> !ScheduleComes(defs, b, task, q))
    || (exists i :: StepComes(wdefs, b, i, p) && forall q: Time :: q < p ==> !StepComes(wdefs, b, i, q))
  }

  lemma PointComes(defs: Definitions, wdefs: WorkflowDefinitions, s: Scheduler, now: Time, p: Time)
    requires WakePoint(defs, wdefs, s, now, p)
    ensures SomethingComes(defs, wdefs, s.book, p)
  {
    var b := s.book;
    if p in IntentPoints(defs, b, now) {
      var k :| k in b.pending && b.pending[k].task in defs && ReadyAt(b.pending[k]) > now && ReadyAt(b.pending[k]) == p;
      assert IntentComes(defs, b, k, p) && forall q: Time :: q < p ==> !IntentComes(defs, b, k, q);
    } else if p in SchedulePoints(defs, b, now) {
      var task :| task in b.periodicNext && task in defs && defs[task].interval > 0 && b.periodicNext[task] > now && b.periodicNext[task] == p;
      assert ScheduleComes(defs, b, task, p) && forall q: Time :: q < p ==> !ScheduleComes(defs, b, task, q);
    } else {
      var i :| i in b.workflows && !Idle(b.workflows[i]) && b.workflows[i].trigger == 0 && b.workflows[i].definition in wdefs
               && WorkflowReadyAt(b.workflows[i]) > now && WorkflowReadyAt(b.workflows[i]) == p;
      assert StepComes(wdefs, b, i, p) && forall q: Time :: q < p ==> !StepComes(wdefs, b, i, q);
    }
  }

  /** The timer is never late and never set for nothing: 0 exactly if something can be
      done now, otherwise until then nothing can be done, and then some date comes;
      without a timer nothing ever becomes possible by itself. */
  lemma WakesInTime(defs: Definitions, wdefs: WorkflowDefinitions, s: Scheduler, now: Time, delay: int)
    requires Sound(defs, s) && IsWakeDelay(defs, wdefs, s, now, delay)
    ensures delay >= -1 && (delay == 0 <==> Possible(defs, wdefs, s, now))
    ensures delay == -1 ==> forall p :: now <= p ==> !Possible(defs, wdefs, s, p)
    ensures delay > 0 ==> (forall p :: now <= p < now + delay ==> !Possible(defs, wdefs, s, p)) && SomethingComes(defs, wdefs, s.book, now + delay)
  {
    UrgentMeans(defs, wdefs, s, now);
    if delay != 0 {
      forall p | now <= p && (delay == -1 || p < now + delay)
        ensures !Possible(defs, wdefs, s, p)
      {
        if Possible(defs, wdefs, s, p) { PossibleAtPoint(defs, wdefs, s, now, p); }
      }
      if delay > 0 { PointComes(defs, wdefs, s, now, now + delay); }
    }
  }
}
