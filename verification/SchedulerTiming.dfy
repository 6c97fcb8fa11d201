/** Timing: retry delays, periodic grids, what a round leaves behind, and when
    the scheduler has to wake up next. */
module SchedulerTiming {
  import opened TaskTypes
  import opened SchedulerSpec
  import opened SchedulerRound

  // ------------------------------------------------------------------ retries

  function PowerOfTwo(n: nat): nat {
    if n == 0 then 1 else 2 * PowerOfTwo(n - 1)
  }

  function Min(a: int, b: int): int { if a <= b then a else b }

  lemma {:induction false} BackoffClosedForm(policy: RetryPolicy, delay: int, attempt: nat)
    requires delay > 0 && attempt >= 1
    ensures Backoff(policy, delay, attempt) ==
      if attempt == 1 then delay
      else if policy.maxDelay <= 0 then delay * PowerOfTwo(attempt - 1)
      else Min(delay * PowerOfTwo(attempt - 1), policy.maxDelay)
    decreases attempt
  {
    if attempt > 1 {
      BackoffClosedForm(policy, 2 * delay, attempt - 1);
      assert delay * PowerOfTwo(attempt - 1) == (2 * delay) * PowerOfTwo(attempt - 2);
      PowerAtLeastOne(attempt - 2);
      assert (2 * delay) * PowerOfTwo(attempt - 2) >= 2 * delay by { MultiplyMonotone(2 * delay, PowerOfTwo(attempt - 2)); }
    }
  }

  lemma MultiplyMonotone(a: int, n: nat)
    requires a > 0 && n >= 1
    ensures a * n >= a
  {
  }

  lemma {:induction false} PowerAtLeastOne(n: nat)
    ensures PowerOfTwo(n) >= 1
  {
    if n > 0 { PowerAtLeastOne(n - 1); }
  }

  /** The delay after a failed attempt: the initial delay, doubled once for each
      attempt before, and capped at the maximum when there is one.  Only the first
      attempt escapes the cap. */
  function DelayAfter(policy: RetryPolicy, attempt: nat): int {
    if policy.initialDelay <= 0 then MINUTE
    else if attempt <= 1 then policy.initialDelay
    else if policy.maxDelay <= 0 then policy.initialDelay * PowerOfTwo(attempt - 1)
    else Min(policy.initialDelay * PowerOfTwo(attempt - 1), policy.maxDelay)
  }

  lemma RetryDelayClosedForm(policy: RetryPolicy, attempt: nat)
    requires attempt >= 1
    ensures RetryDelay(policy, attempt) == DelayAfter(policy, attempt) > 0
  {
    if policy.initialDelay > 0 {
      BackoffClosedForm(policy, policy.initialDelay, attempt);
      PowerAtLeastOne(attempt - 1);
      MultiplyMonotone(policy.initialDelay, PowerOfTwo(attempt - 1));
    }
  }

  // --------------------------------------------------------------- schedules

  predicate OnGrid(due: Time, interval: nat, p: Time)
    requires interval > 0
  {
    p >= due && (p - due) % interval == 0
  }

  /** A missed schedule fires once and continues at the first point of its own
      grid that lies in the future. */
  lemma NextDueIsFirstFuturePoint(due: Time, interval: nat, now: Time)
    requires interval > 0 && due <= now
    ensures var next := NextDue(due, interval, now);
      && OnGrid(due, interval, next) && next > now
      && forall p: Time :: OnGrid(due, interval, p) && p > now ==> p >= next
  {
    DivisionBounds(now - due, interval);
    var q: int := (now - due) / interval;
    var next := NextDue(due, interval, now);
    assert next - due == (q + 1) * interval == q * interval + interval;
    ModuloUnique(next - due, q + 1, 0, interval);
    forall p: Time | OnGrid(due, interval, p) && p > now
      ensures p >= next
    {
      DivisionBounds(p - due, interval);
      var m: int := (p - due) / interval;
      if m <= q { MultiplyAtMost(m, q, interval); } else { MultiplyAtMost(q + 1, m, interval); }
    }
  }

  lemma MultiplyAtMost(a: int, b: int, n: nat)
    requires a <= b
    ensures a * n <= b * n
  {
  }

  lemma DivisionBounds(x: int, n: nat)
    requires n > 0 && x >= 0
    ensures x == (x / n) * n + x % n && 0 <= x % n < n && x / n >= 0
  {
  }

  lemma MultiplyStep(a: int, b: int, n: nat)
    requires a < b
    ensures a * n + n <= b * n
  {
    MultiplyAtMost(a + 1, b, n);
    assert (a + 1) * n == a * n + n;
  }

  lemma ModuloUnique(x: int, q: int, r: int, n: nat)
    requires n > 0 && x == q * n + r && 0 <= r < n
    ensures x % n == r
  {
    var d := x / n;
    assert x == d * n + x % n;
    if d < q { MultiplyStep(d, q, n); }
    if q < d { MultiplyStep(q, d, n); }
  }

  /** No schedule of a registered task is left in the past. */
  ghost predicate SchedulesAhead(defs: Definitions, b: Book, tasks: set<string>, now: Time) {
    forall task :: task in tasks && task in defs && defs[task].interval > 0 ==> DueTime(b, task) > now
  }

  lemma TickTaskAhead(defs: Definitions, b: Book, running: seq<Id>, task: string, tasks: set<string>, now: Time)
    requires task in defs && SchedulesAhead(defs, b, tasks, now)
    ensures SchedulesAhead(defs, TickTask(defs, b, running, task, now), tasks + {task}, now)
  {
    if defs[task].interval > 0 && 0 < DueTime(b, task) <= now {
      NextDueIsFirstFuturePoint(DueTime(b, task), defs[task].interval, now);
    }
  }

  lemma {:induction false} TickTasksAhead(defs: Definitions, b: Book, visits: seq<Visit>, done: set<string>, now: Time)
    requires forall v :: v in visits ==> v.subject in defs
    requires SchedulesAhead(defs, b, done, now)
    ensures SchedulesAhead(defs, TickTasks(defs, b, visits, now), done + (set v | v in visits :: v.subject), now)
    decreases |visits|
  {
    if visits != [] {
      var v := visits[0];
      TickTaskAhead(defs, b, v.running, v.subject, done, now);
      TickTasksAhead(defs, TickTask(defs, b, v.running, v.subject, now), visits[1..], done + {v.subject}, now);
      assert done + (set u | u in visits :: u.subject) == done + {v.subject} + (set u | u in visits[1..] :: u.subject);
    } else {
      assert done + (set u | u in visits :: u.subject) == done;
    }
  }

  // --------------------------------------------------------------- workflows

  /** A workflow that waits for nothing but its next submission. */
  predicate WorkflowDue(wdefs: WorkflowDefinitions, w: Workflow, now: Time) {
    !Idle(w) && w.trigger == 0 && w.definition in wdefs && WorkflowReadyAt(w) <= now
  }

  /** A workflow that is not idle has a current step. */
  ghost predicate StepsInRange(wdefs: WorkflowDefinitions, b: Book) {
    forall i :: i in b.workflows ==>
      var w := b.workflows[i]; w.definition in wdefs && !Idle(w) ==> w.step < |wdefs[w.definition]|
  }

  ghost predicate NoneDue(wdefs: WorkflowDefinitions, b: Book, instances: set<string>, now: Time) {
    forall i :: i in instances && i in b.workflows ==> !WorkflowDue(wdefs, b.workflows[i], now)
  }

  lemma TickWorkflowNotDue(defs: Definitions, wdefs: WorkflowDefinitions, b: Book, running: seq<Id>, instance: string,
                           done: set<string>, now: Time)
    requires instance in b.workflows && StepsInRange(wdefs, b) && NoneDue(wdefs, b, done, now)
    ensures var b' := TickWorkflow(defs, wdefs, b, running, instance, now);
      StepsInRange(wdefs, b') && NoneDue(wdefs, b', done + {instance}, now)
  {
    var b' := TickWorkflow(defs, wdefs, b, running, instance, now);
    TickWorkflowEffect(defs, wdefs, b, running, instance, now);
    assert b'.workflows[instance].definition == b.workflows[instance].definition;
  }

  lemma TickWorkflowEffect(defs: Definitions, wdefs: WorkflowDefinitions, b: Book, running: seq<Id>, instance: string, now: Time)
    requires instance in b.workflows
    ensures var w, w' := b.workflows[instance], TickWorkflow(defs, wdefs, b, running, instance, now).workflows[instance];
      && (forall i :: i in b.workflows && i != instance ==>
            TickWorkflow(defs, wdefs, b, running, instance, now).workflows[i] == b.workflows[i])
      && w' == w.(state := w'.state, trigger := w'.trigger, updatedAt := w'.updatedAt)
      && (Idle(w) ==> Idle(w')) && (w'.state.WfSucceeded? ==> w.state.WfSucceeded?)
      && (w.definition in wdefs && w.step < |wdefs[w.definition]| ==> !WorkflowDue(wdefs, w', now))
  {
    var w := b.workflows[instance];
    if !Idle(w) && w.definition in wdefs && w.step < |wdefs[w.definition]| {
      var req := StepRequest(wdefs[w.definition][w.step], instance, w, now);
      var submitted := Submit(defs, b, running, req, now);
      if submitted.Ok? { assert submitted.value.1.trigger == b.sequence + 1; }
    }
  }

  lemma TickWorkflowFrame(defs: Definitions, wdefs: WorkflowDefinitions, b: Book, running: seq<Id>, instance: string, now: Time)
    requires instance in b.workflows
    ensures TickWorkflow(defs, wdefs, b, running, instance, now).periodicNext == b.periodicNext
  {
  }

  lemma FirstVisit(visits: seq<Visit>, done: set<string>)
    requires visits != []
    ensures done + (set u | u in visits :: u.subject) == done + {visits[0].subject} + (set u | u in visits[1..] :: u.subject)
  {
  }

  lemma {:induction false} TickWorkflowsNotDue(defs: Definitions, wdefs: WorkflowDefinitions, b: Book, visits: seq<Visit>,
                                               done: set<string>, now: Time)
    requires forall v :: v in visits ==> v.subject in b.workflows
    requires StepsInRange(wdefs, b) && NoneDue(wdefs, b, done, now)
    ensures var b' := TickWorkflows(defs, wdefs, b, visits, now);
      StepsInRange(wdefs, b') && NoneDue(wdefs, b', done + (set v | v in visits :: v.subject), now)
      && b'.workflows.Keys == b.workflows.Keys && b'.periodicNext == b.periodicNext
    decreases |visits|
  {
    if visits != [] {
      var v := visits[0];
      var b1 := TickWorkflow(defs, wdefs, b, v.running, v.subject, now);
      TickWorkflowNotDue(defs, wdefs, b, v.running, v.subject, done, now);
      TickWorkflowFrame(defs, wdefs, b, v.running, v.subject, now);
      TickWorkflowsNotDue(defs, wdefs, b1, visits[1..], done + {v.subject}, now);
      FirstVisit(visits, done);
    } else {
      assert done + (set u | u in visits :: u.subject) == done;
    }
  }

  // ----------------------------------------------------------- after a round

  /** Something the scheduler could do at this instant. */
  ghost predicate Urgent(defs: Definitions, wdefs: WorkflowDefinitions, s: Scheduler, now: Time) {
    || (exists k :: k in s.book.pending && s.book.pending[k].task !in defs)
    || (exists k :: Candidate(defs, s, k, now))
    || (exists task :: task in s.book.periodicNext && task in defs && defs[task].interval > 0 && s.book.periodicNext[task] <= now)
    || (exists i :: i in s.book.workflows && WorkflowDue(wdefs, s.book.workflows[i], now))
  }

  lemma {:induction false} AdmitManyFrame(defs: Definitions, s: Scheduler, keys: seq<string>, now: Time)
    requires InOrder(defs, s, keys, now)
    ensures var s' := AdmitMany(defs, s, keys, now);
      s'.book.workflows == s.book.workflows && s'.book.periodicNext == s.book.periodicNext
    decreases |keys|
  {
    if keys != [] { AdmitManyFrame(defs, AdmitChosen(defs, s, keys[0], now), keys[1..], now); }
  }

  lemma PreparedNotDue(defs: Definitions, wdefs: WorkflowDefinitions, s: Scheduler, tasks: seq<Visit>,
                       workflows: seq<Visit>, now: Time)
    requires ValidVisits(defs, s, tasks, workflows) && StepsInRange(wdefs, s.book)
    requires (set v | v in tasks :: v.subject) == defs.Keys
    requires (set v | v in workflows :: v.subject) == s.book.workflows.Keys
    ensures var b := Prepared(defs, wdefs, s, tasks, workflows, now).book;
      NoneDue(wdefs, b, b.workflows.Keys, now) && SchedulesAhead(defs, b, defs.Keys, now)
  {
    TickTasksKeepsWorkflows(defs, s.book, tasks, now);
    var b1 := TickTasks(defs, s.book, tasks, now);
    TickTasksAhead(defs, s.book, tasks, {}, now);
    assert {} + (set v | v in tasks :: v.subject) == defs.Keys;
    TickWorkflowsNotDue(defs, wdefs, b1, workflows, {}, now);
    assert {} + (set v | v in workflows :: v.subject) == s.book.workflows.Keys;
  }

  /** A round that visits every task and every workflow leaves nothing that could
      be done at the same instant: no ready intent with free resources, no due
      schedule, no workflow waiting to be submitted. */
  lemma RoundLeavesNothingUrgent(defs: Definitions, wdefs: WorkflowDefinitions, s: Scheduler, tasks: seq<Visit>,
                                 workflows: seq<Visit>, keys: seq<string>, now: Time, s': Scheduler)
    requires ValidVisits(defs, s, tasks, workflows) && StepsInRange(wdefs, s.book)
    requires (set v | v in tasks :: v.subject) == defs.Keys
    requires (set v | v in workflows :: v.subject) == s.book.workflows.Keys
    requires AdmitsReady(defs, Prepared(defs, wdefs, s, tasks, workflows, now), keys, now, s')
    ensures !Urgent(defs, wdefs, s', now)
  {
    var p := Prepared(defs, wdefs, s, tasks, workflows, now);
    PreparedNotDue(defs, wdefs, s, tasks, workflows, now);
    AdmitManyFrame(defs, p, keys, now);
    NotUrgentFrom(defs, wdefs, p.book, AdmitMany(defs, p, keys, now), s', now);
  }

  lemma NotUrgentFrom(defs: Definitions, wdefs: WorkflowDefinitions, b: Book, last: Scheduler, s': Scheduler, now: Time)
    requires NoneDue(wdefs, b, b.workflows.Keys, now) && SchedulesAhead(defs, b, defs.Keys, now)
    requires last.book.workflows == b.workflows && last.book.periodicNext == b.periodicNext
    requires (forall k :: !Candidate(defs, last, k, now)) && s' == ScanNone(defs, last, now)
    ensures !Urgent(defs, wdefs, s', now)
  {
    NothingLeft(defs, last, s', now);
    forall task | task in s'.book.periodicNext && task in defs && defs[task].interval > 0
      ensures s'.book.periodicNext[task] > now
    {
      assert DueTime(b, task) == s'.book.periodicNext[task];
    }
  }

  lemma NothingLeft(defs: Definitions, last: Scheduler, s': Scheduler, now: Time)
    requires (forall k :: !Candidate(defs, last, k, now)) && s' == ScanNone(defs, last, now)
    ensures forall k :: !Candidate(defs, s', k, now)
    ensures forall k :: k in s'.book.pending ==> s'.book.pending[k].task in defs
    ensures s'.book.workflows == last.book.workflows && s'.book.periodicNext == last.book.periodicNext
  {
    forall k
      ensures !Candidate(defs, s', k, now)
    {
      assert !Candidate(defs, last, k, now);
    }
  }

  // ------------------------------------------------------------ the wake timer

  function IntentPoints(defs: Definitions, b: Book, now: Time): set<Time> {
    set k | k in b.pending && b.pending[k].task in defs && ReadyAt(b.pending[k]) > now :: ReadyAt(b.pending[k])
  }

  function SchedulePoints(defs: Definitions, b: Book, now: Time): set<Time> {
    set task | task in b.periodicNext && task in defs && defs[task].interval > 0 && b.periodicNext[task] > now :: b.periodicNext[task]
  }

  function WorkflowPoints(wdefs: WorkflowDefinitions, b: Book, now: Time): set<Time> {
    set i | i in b.workflows && !Idle(b.workflows[i]) && b.workflows[i].trigger == 0 && b.workflows[i].definition in wdefs
            && WorkflowReadyAt(b.workflows[i]) > now :: WorkflowReadyAt(b.workflows[i])
  }

  /** A later instant at which something becomes possible without any signal. */
  predicate WakePoint(defs: Definitions, wdefs: WorkflowDefinitions, s: Scheduler, now: Time, p: Time) {
    p in IntentPoints(defs, s.book, now) || p in SchedulePoints(defs, s.book, now) || p in WorkflowPoints(wdefs, s.book, now)
  }

  /** The earliest of the points, or 0 when there is none. */
  predicate Earliest(next: Time, points: set<Time>) {
    if next == 0 then points == {} else next in points && forall p :: p in points ==> next <= p
  }

  /** What the wake timer is set to: 0 to go on at once, -1 for no timer. */
  ghost predicate IsWakeDelay(defs: Definitions, wdefs: WorkflowDefinitions, s: Scheduler, now: Time, delay: int) {
    if Urgent(defs, wdefs, s, now) then delay == 0
    else if delay == -1 then forall p :: !WakePoint(defs, wdefs, s, now, p)
    else delay > 0 && WakePoint(defs, wdefs, s, now, now + delay)
         && forall p :: WakePoint(defs, wdefs, s, now, p) ==> now + delay <= p
  }
}
