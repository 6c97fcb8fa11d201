/** The whole state of a running scheduler and one round of its loop: schedules
    and workflows submit what is due, mutation work preempts, then every ready
    intent whose resources are free is admitted in order. */
module SchedulerRound {
  import opened TaskTypes
  import opened SchedulerSpec
  import opened SchedulerInvariants
  import opened Resources

  datatype Scheduler = Scheduler(book: Book, running: map<Id, seq<Claim>>, table: Table)

  /** The order in which the running set was visited for one submission. */
  datatype Visit = Visit(subject: string, running: seq<Id>)

  ghost predicate Covers(order: seq<Id>, running: map<Id, seq<Claim>>) {
    forall e :: e in order <==> e in running
  }

  // ---------------------------------------------------------------- selection

  /** An intent that can be admitted now. */
  ghost predicate Candidate(defs: Definitions, s: Scheduler, k: string, now: Time) {
    && k in s.book.pending && s.book.pending[k].task in defs
    && Ready(s.book.pending[k], now)
    && !Conflicts(s.table, defs[s.book.pending[k].task].resources)
  }

  /** A ready intent that has to wait for a resource. */
  ghost predicate Obstructed(defs: Definitions, s: Scheduler, k: string, now: Time) {
    && k in s.book.pending && s.book.pending[k].task in defs
    && Ready(s.book.pending[k], now)
    && Conflicts(s.table, defs[s.book.pending[k].task].resources)
  }

  /** The candidate that comes first. */
  ghost predicate Chosen(defs: Definitions, s: Scheduler, k: string, now: Time) {
    && Candidate(defs, s, k, now)
    && forall j :: Candidate(defs, s, j, now) && j != k ==> Precedes(s.book.pending[k], s.book.pending[j], now)
  }

  ghost function ScanNone(defs: Definitions, s: Scheduler, now: Time): Scheduler {
    var blocked := set k | k in s.book.pending && Obstructed(defs, s, k, now);
    s.(book := MarkWaiting(DropUnregistered(defs, s.book, now), blocked))
  }

  /** Looking for the next intent stops at the chosen one, so only what comes
      before it is marked as waiting. */
  ghost function ScanTo(defs: Definitions, s: Scheduler, key: string, now: Time): Scheduler
    requires key in s.book.pending
  {
    var blocked := set k | k in s.book.pending && Obstructed(defs, s, k, now)
                           && Precedes(s.book.pending[k], s.book.pending[key], now);
    s.(book := MarkWaiting(DropUnregistered(defs, s.book, now), blocked))
  }

  ghost function Admission(defs: Definitions, s: Scheduler, key: string, now: Time): Scheduler
    requires key in s.book.pending && s.book.pending[key].task in defs
  {
    var e, claims := s.book.sequence + 1, defs[s.book.pending[key].task].resources;
    Scheduler(Admit(s.book, key, now), s.running[e := claims], Acquire(s.table, e, claims))
  }

  ghost function AdmitChosen(defs: Definitions, s: Scheduler, key: string, now: Time): Scheduler
    requires Chosen(defs, s, key, now)
  {
    Admission(defs, ScanTo(defs, s, key, now), key, now)
  }

  /** Admitting the listed intents one after another, each the first in order at
      its turn. */
  ghost predicate InOrder(defs: Definitions, s: Scheduler, keys: seq<string>, now: Time)
    decreases |keys|
  {
    keys == [] || (Chosen(defs, s, keys[0], now) && InOrder(defs, AdmitChosen(defs, s, keys[0], now), keys[1..], now))
  }

  ghost function AdmitMany(defs: Definitions, s: Scheduler, keys: seq<string>, now: Time): Scheduler
    requires InOrder(defs, s, keys, now)
    decreases |keys|
  {
    if keys == [] then s else AdmitMany(defs, AdmitChosen(defs, s, keys[0], now), keys[1..], now)
  }

  /** The admission loop: it ends when no candidate is left. */
  ghost predicate AdmitsReady(defs: Definitions, s: Scheduler, keys: seq<string>, now: Time, s': Scheduler) {
    && InOrder(defs, s, keys, now)
    && var last := AdmitMany(defs, s, keys, now);
    && (forall k :: !Candidate(defs, last, k, now))
    && s' == ScanNone(defs, last, now)
  }

  // -------------------------------------------------------------------- ticks

  function TickTasks(defs: Definitions, b: Book, visits: seq<Visit>, now: Time): Book
    requires forall v :: v in visits ==> v.subject in defs
    decreases |visits|
  {
    if visits == [] then b
    else TickTasks(defs, TickTask(defs, b, visits[0].running, visits[0].subject, now), visits[1..], now)
  }

  function TickWorkflows(defs: Definitions, wdefs: WorkflowDefinitions, b: Book, visits: seq<Visit>, now: Time): (r: Book)
    requires forall v :: v in visits ==> v.subject in b.workflows
    decreases |visits|
  {
    if visits == [] then b
    else TickWorkflows(defs, wdefs, TickWorkflow(defs, wdefs, b, visits[0].running, visits[0].subject, now), visits[1..], now)
  }

  /** Everything up to the admission loop. */
  ghost function Prepared(defs: Definitions, wdefs: WorkflowDefinitions, s: Scheduler, tasks: seq<Visit>,
                          workflows: seq<Visit>, now: Time): Scheduler
    requires forall v :: v in tasks ==> v.subject in defs
    requires forall v :: v in workflows ==> v.subject in s.book.workflows
  {
    TickTasksKeepsWorkflows(defs, s.book, tasks, now);
    var ticked := TickWorkflows(defs, wdefs, TickTasks(defs, s.book, tasks, now), workflows, now);
    s.(book := Preempt(defs, ticked, s.running))
  }

  lemma {:induction false} TickTasksKeepsWorkflows(defs: Definitions, b: Book, visits: seq<Visit>, now: Time)
    requires forall v :: v in visits ==> v.subject in defs
    ensures TickTasks(defs, b, visits, now).workflows == b.workflows
    decreases |visits|
  {
    if visits != [] {
      TickTasksKeepsWorkflows(defs, TickTask(defs, b, visits[0].running, visits[0].subject, now), visits[1..], now);
    }
  }

  // --------------------------------------------------------------- invariants

  /** What holds of a running scheduler between any two operations. */
  ghost predicate Sound(defs: Definitions, s: Scheduler) {
    && Bookkeeping(s.book, s.running.Keys)
    && s.running.Keys == LiveSet(s.book)
    && Held(defs, s)
  }

  /** Each running execution holds what its task claims, the table records
      exactly that, and no two of them are in conflict. */
  ghost predicate Held(defs: Definitions, s: Scheduler) {
    && Mirrors(s.table, s.running)
    && Compatible(s.running)
    && (forall e :: e in s.running && e in s.book.executions ==>
          s.book.executions[e].task in defs && s.running[e] == defs[s.book.executions[e].task].resources)
  }

  lemma ScanKeeps(defs: Definitions, s: Scheduler, blocked: set<string>, now: Time)
    requires Sound(defs, s)
    ensures Sound(defs, s.(book := MarkWaiting(DropUnregistered(defs, s.book, now), blocked)))
    ensures Closed(s.book, s.running.Keys) ==> Closed(MarkWaiting(DropUnregistered(defs, s.book, now), blocked), s.running.Keys)
  {
    DropUnregisteredKeeps(defs, s.book, s.running.Keys, now);
    MarkWaitingKeeps(DropUnregistered(defs, s.book, now), s.running.Keys, blocked);
    assert LiveSet(MarkWaiting(DropUnregistered(defs, s.book, now), blocked)) == LiveSet(s.book);
  }

  lemma AdmitHeld(defs: Definitions, s: Scheduler, key: string, now: Time)
    requires Held(defs, s) && Numbered(s.book) && s.running.Keys == LiveSet(s.book)
    requires key in s.book.pending && s.book.pending[key].task in defs
    requires !Conflicts(s.table, defs[s.book.pending[key].task].resources)
    ensures var s' := Admission(defs, s, key, now); Held(defs, s') && s'.running.Keys == LiveSet(s'.book)
  {
    var e, claims := s.book.sequence + 1, defs[s.book.pending[key].task].resources;
    assert e !in s.running;
    AcquireMirrors(s.table, s.running, e, claims);
    AcquireCompatible(s.table, s.running, e, claims);
    AdmitOthers(s.book, key, now);
  }

  lemma AdmitOthers(b: Book, key: string, now: Time)
    requires Numbered(b) && key in b.pending
    ensures var b' := Admit(b, key, now);
      && LiveSet(b') == LiveSet(b) + {b.sequence + 1}
      && b'.executions.Keys == b.executions.Keys + {b.sequence + 1}
      && forall x :: x in b.executions ==> b'.executions[x] == b.executions[x]
  {
  }

  lemma AdmitChosenKeeps(defs: Definitions, s: Scheduler, key: string, now: Time)
    requires Sound(defs, s) && Chosen(defs, s, key, now)
    ensures var s' := AdmitChosen(defs, s, key, now);
      Sound(defs, s') && (Closed(s.book, s.running.Keys) ==> Closed(s'.book, s'.running.Keys))
  {
    ScanToKeeps(defs, s, key, now);
    ScanToWaits(defs, s, key, now);
    AdmitSound(defs, ScanTo(defs, s, key, now), key, now);
  }

  lemma ScanToKeeps(defs: Definitions, s: Scheduler, key: string, now: Time)
    requires Sound(defs, s) && Chosen(defs, s, key, now)
    ensures var s1 := ScanTo(defs, s, key, now);
      Sound(defs, s1) && (Closed(s.book, s.running.Keys) ==> Closed(s1.book, s1.running.Keys))
  {
    var blocked := set k | k in s.book.pending && Obstructed(defs, s, k, now)
                           && Precedes(s.book.pending[k], s.book.pending[key], now);
    ScanKeeps(defs, s, blocked, now);
  }

  lemma ScanToWaits(defs: Definitions, s: Scheduler, key: string, now: Time)
    requires Chosen(defs, s, key, now)
    ensures var s1 := ScanTo(defs, s, key, now);
      s1.running == s.running && s1.table == s.table && key in s1.book.pending && s1.book.pending[key] == s.book.pending[key]
  {
  }

  lemma AdmitSound(defs: Definitions, s: Scheduler, key: string, now: Time)
    requires Sound(defs, s) && key in s.book.pending && s.book.pending[key].task in defs
    requires !Conflicts(s.table, defs[s.book.pending[key].task].resources)
    ensures var s' := Admission(defs, s, key, now);
      Sound(defs, s') && (Closed(s.book, s.running.Keys) ==> Closed(s'.book, s'.running.Keys))
  {
    AdmitBook(defs, s, key, now);
    AdmitHeld(defs, s, key, now);
  }

  lemma AdmitBook(defs: Definitions, s: Scheduler, key: string, now: Time)
    requires Bookkeeping(s.book, s.running.Keys) && key in s.book.pending && s.book.pending[key].task in defs
    ensures var s' := Admission(defs, s, key, now);
      Bookkeeping(s'.book, s'.running.Keys) && (Closed(s.book, s.running.Keys) ==> Closed(s'.book, s'.running.Keys))
  {
    AdmitKeeps(s.book, s.running.Keys, key, now);
    assert Admission(defs, s, key, now).running.Keys == s.running.Keys + {s.book.sequence + 1};
  }

  lemma {:induction false} AdmitManyKeeps(defs: Definitions, s: Scheduler, keys: seq<string>, now: Time)
    requires Sound(defs, s) && InOrder(defs, s, keys, now)
    ensures Sound(defs, AdmitMany(defs, s, keys, now))
    ensures Closed(s.book, s.running.Keys)
            ==> Closed(AdmitMany(defs, s, keys, now).book, AdmitMany(defs, s, keys, now).running.Keys)
    decreases |keys|
  {
    if keys != [] {
      AdmitChosenKeeps(defs, s, keys[0], now);
      AdmitManyKeeps(defs, AdmitChosen(defs, s, keys[0], now), keys[1..], now);
    }
  }

  /** No operation before admission starts or ends an execution. */
  ghost predicate SameExecutions(b: Book, b': Book) {
    && b'.executions.Keys == b.executions.Keys
    && forall e :: e in b.executions ==>
         b'.executions[e].task == b.executions[e].task && b'.executions[e].state == b.executions[e].state
  }

  lemma SubmitSameExecutions(defs: Definitions, b: Book, running: seq<Id>, req: Request, now: Time)
    requires Submit(defs, b, running, req, now).Ok?
    ensures SameExecutions(b, Submit(defs, b, running, req, now).value.0)
  {
  }

  lemma SubmitSound(defs: Definitions, s: Scheduler, req: Request, running: seq<Id>, now: Time)
    requires Sound(defs, s) && Covers(running, s.running) && Submit(defs, s.book, running, req, now).Ok?
    ensures var b' := Submit(defs, s.book, running, req, now).value.0;
      Sound(defs, s.(book := b')) && (Closed(s.book, s.running.Keys) ==> Closed(b', s.running.Keys))
  {
    SubmitKeeps(defs, s.book, s.running.Keys, running, req, now);
    SubmitSameExecutions(defs, s.book, running, req, now);
    assert LiveSet(Submit(defs, s.book, running, req, now).value.0) == LiveSet(s.book);
  }

  lemma AdvanceSound(defs: Definitions, s: Scheduler, definition: string, key: string, quiet: nat, maximum: nat, now: Time)
    requires Sound(defs, s)
    ensures var b' := Advance(s.book, definition, key, quiet, maximum, now);
      Sound(defs, s.(book := b')) && (Closed(s.book, s.running.Keys) ==> Closed(b', s.running.Keys))
  {
    AdvanceKeeps(s.book, s.running.Keys, definition, key, quiet, maximum, now);
    assert LiveSet(Advance(s.book, definition, key, quiet, maximum, now)) == LiveSet(s.book);
  }

  lemma {:induction false} TickTasksSameExecutions(defs: Definitions, b: Book, visits: seq<Visit>, now: Time)
    requires forall v :: v in visits ==> v.subject in defs
    ensures SameExecutions(b, TickTasks(defs, b, visits, now))
    decreases |visits|
  {
    if visits != [] {
      var req := PeriodicRequest(visits[0].subject, DueTime(b, visits[0].subject));
      if Submit(defs, b, visits[0].running, req, now).Ok? { SubmitSameExecutions(defs, b, visits[0].running, req, now); }
      TickTasksSameExecutions(defs, TickTask(defs, b, visits[0].running, visits[0].subject, now), visits[1..], now);
    }
  }

  lemma {:induction false} TickTasksKeeps(defs: Definitions, b: Book, live: set<Id>, visits: seq<Visit>, now: Time)
    requires Bookkeeping(b, live)
    requires forall v :: v in visits ==> v.subject in defs && forall e :: e in v.running ==> e in live
    ensures var b' := TickTasks(defs, b, visits, now);
      Bookkeeping(b', live) && (Closed(b, live) ==> Closed(b', live))
    decreases |visits|
  {
    if visits != [] {
      TickTaskKeeps(defs, b, live, visits[0].running, visits[0].subject, now);
      TickTasksKeeps(defs, TickTask(defs, b, visits[0].running, visits[0].subject, now), live, visits[1..], now);
    }
  }

  lemma TickWorkflowSameExecutions(defs: Definitions, wdefs: WorkflowDefinitions, b: Book, running: seq<Id>,
                                   instance: string, now: Time)
    requires instance in b.workflows
    ensures SameExecutions(b, TickWorkflow(defs, wdefs, b, running, instance, now))
  {
    var w := b.workflows[instance];
    if w.definition in wdefs && w.step < |wdefs[w.definition]| {
      var req := StepRequest(wdefs[w.definition][w.step], instance, w, now);
      if Submit(defs, b, running, req, now).Ok? { SubmitSameExecutions(defs, b, running, req, now); }
    }
  }

  lemma {:induction false} TickWorkflowsSameExecutions(defs: Definitions, wdefs: WorkflowDefinitions, b: Book,
                                                       visits: seq<Visit>, now: Time)
    requires forall v :: v in visits ==> v.subject in b.workflows
    ensures SameExecutions(b, TickWorkflows(defs, wdefs, b, visits, now))
    decreases |visits|
  {
    if visits != [] {
      TickWorkflowSameExecutions(defs, wdefs, b, visits[0].running, visits[0].subject, now);
      TickWorkflowsSameExecutions(defs, wdefs, TickWorkflow(defs, wdefs, b, visits[0].running, visits[0].subject, now), visits[1..], now);
    }
  }

  lemma {:induction false} TickWorkflowsKeeps(defs: Definitions, wdefs: WorkflowDefinitions, b: Book, live: set<Id>,
                                              visits: seq<Visit>, now: Time)
    requires Bookkeeping(b, live)
    requires forall v :: v in visits ==> v.subject in b.workflows && forall e :: e in v.running ==> e in live
    ensures var b' := TickWorkflows(defs, wdefs, b, visits, now);
      Bookkeeping(b', live) && (Closed(b, live) ==> Closed(b', live))
    decreases |visits|
  {
    if visits != [] {
      TickWorkflowKeeps(defs, wdefs, b, live, visits[0].running, visits[0].subject, now);
      TickWorkflowsKeeps(defs, wdefs, TickWorkflow(defs, wdefs, b, visits[0].running, visits[0].subject, now), live, visits[1..], now);
    }
  }

  ghost predicate ValidVisits(defs: Definitions, s: Scheduler, tasks: seq<Visit>, workflows: seq<Visit>) {
    && (forall v :: v in tasks ==> v.subject in defs && Covers(v.running, s.running))
    && (forall v :: v in workflows ==> v.subject in s.book.workflows && Covers(v.running, s.running))
  }

  lemma PreparedKeeps(defs: Definitions, wdefs: WorkflowDefinitions, s: Scheduler, tasks: seq<Visit>,
                      workflows: seq<Visit>, now: Time)
    requires Sound(defs, s) && ValidVisits(defs, s, tasks, workflows)
    ensures var s' := Prepared(defs, wdefs, s, tasks, workflows, now);
      Sound(defs, s') && (Closed(s.book, s.running.Keys) ==> Closed(s'.book, s'.running.Keys))
  {
    var live := s.running.Keys;
    TickTasksKeepsWorkflows(defs, s.book, tasks, now);
    var b1 := TickTasks(defs, s.book, tasks, now);
    TickTasksKeeps(defs, s.book, live, tasks, now);
    TickTasksSameExecutions(defs, s.book, tasks, now);
    var b2 := TickWorkflows(defs, wdefs, b1, workflows, now);
    TickWorkflowsKeeps(defs, wdefs, b1, live, workflows, now);
    TickWorkflowsSameExecutions(defs, wdefs, b1, workflows, now);
    PreemptKeeps(defs, b2, s.running, live);
    PreparedHeld(defs, s, b2);
  }

  lemma PreparedHeld(defs: Definitions, s: Scheduler, b: Book)
    requires Sound(defs, s) && SameExecutions(s.book, b)
    ensures var s' := s.(book := Preempt(defs, b, s.running));
      Held(defs, s') && s'.running.Keys == LiveSet(s'.book)
  {
    assert LiveSet(b) == LiveSet(s.book);
    PreemptLive(defs, b, s.running);
  }

  lemma PreemptLive(defs: Definitions, b: Book, running: map<Id, seq<Claim>>)
    requires running.Keys == LiveSet(b)
    ensures LiveSet(Preempt(defs, b, running)) == LiveSet(b) && SameTasks(b, Preempt(defs, b, running))
  {
  }

  ghost predicate SameTasks(b: Book, b': Book) {
    b'.executions.Keys == b.executions.Keys && forall e :: e in b.executions ==> b'.executions[e].task == b.executions[e].task
  }

  /** A round keeps the scheduler sound. */
  lemma RoundKeeps(defs: Definitions, wdefs: WorkflowDefinitions, s: Scheduler, tasks: seq<Visit>,
                   workflows: seq<Visit>, keys: seq<string>, now: Time, s': Scheduler)
    requires Sound(defs, s) && ValidVisits(defs, s, tasks, workflows)
    requires AdmitsReady(defs, Prepared(defs, wdefs, s, tasks, workflows, now), keys, now, s')
    ensures Sound(defs, s') && (Closed(s.book, s.running.Keys) ==> Closed(s'.book, s'.running.Keys))
  {
    PreparedKeeps(defs, wdefs, s, tasks, workflows, now);
    var p := Prepared(defs, wdefs, s, tasks, workflows, now);
    AdmitManyKeeps(defs, p, keys, now);
    var last := AdmitMany(defs, p, keys, now);
    var blocked := set k | k in last.book.pending && Obstructed(defs, last, k, now);
    ScanKeeps(defs, last, blocked, now);
  }

  // ------------------------------------------------------------------- finish

  ghost function Concluded(defs: Definitions, wdefs: WorkflowDefinitions, s: Scheduler, e: Id, outcome: Outcome,
                           order: seq<string>, now: Time): Book
    requires e in s.book.executions && s.book.executions[e].task in defs
  {
    Conclude(defs[s.book.executions[e].task], wdefs, s.book, e, outcome, order, now)
  }

  /** The scheduler after execution e has returned. */
  ghost function Finished(defs: Definitions, wdefs: WorkflowDefinitions, s: Scheduler, e: Id, outcome: Outcome,
                          order: seq<string>, removed: set<Id>, now: Time): Scheduler
    requires e in s.running && e in s.book.executions && s.book.executions[e].task in defs
  {
    Scheduler(Forget(Concluded(defs, wdefs, s, e, outcome, order, now), removed), s.running - {e},
              Release(s.table, e, s.running[e]))
  }

  lemma {:induction false} SatisfyAllExecutions(wdefs: WorkflowDefinitions, b: Book, order: seq<string>, x: Execution, now: Time)
    ensures SatisfyAll(wdefs, b, order, x, now).executions == b.executions
    decreases |order|
  {
    if order != [] {
      if order[0] in b.workflows { SatisfyAllExecutions(wdefs, SatisfyOne(wdefs, b, order[0], x, now), order[1..], x, now); }
      else { SatisfyAllExecutions(wdefs, b, order[1..], x, now); }
    }
  }

  lemma ConcludeExecutions(d: Definition, wdefs: WorkflowDefinitions, b: Book, e: Id, outcome: Outcome, order: seq<string>, now: Time)
    requires e in b.executions
    ensures Conclude(d, wdefs, b, e, outcome, order, now).executions == EndExecution(b, e, outcome, now).executions
  {
    var b1 := EndExecution(b, e, outcome, now);
    if outcome.Succeeded? { SatisfyAllExecutions(wdefs, Settle(b1, e, Fulfilled, now), order, b1.executions[e], now); }
  }

  lemma FinishHeld(defs: Definitions, s: Scheduler, b': Book, e: Id)
    requires Held(defs, s) && e in s.running
    requires forall f :: f in s.running && f != e && f in b'.executions ==> f in s.book.executions && b'.executions[f] == s.book.executions[f]
    ensures Held(defs, Scheduler(b', s.running - {e}, Release(s.table, e, s.running[e])))
  {
    ReleaseMirrors(s.table, s.running, e);
  }

  lemma FinishedLive(b: Book, e: Id, outcome: Outcome, now: Time, b': Book, removed: set<Id>)
    requires e in b.executions && removed !! (LiveSet(b) - {e})
    requires b'.executions == EndExecution(b, e, outcome, now).executions - removed
    ensures LiveSet(b') == LiveSet(b) - {e}
    ensures forall f :: f in b'.executions && f != e ==> b'.executions[f] == b.executions[f]
  {
  }

  /** A finished execution leaves the scheduler sound: its claims are given back
      and its triggers have moved on, whatever it returned. */
  lemma FinishSound(defs: Definitions, wdefs: WorkflowDefinitions, s: Scheduler, e: Id, outcome: Outcome,
                    order: seq<string>, removed: set<Id>, now: Time)
    requires Sound(defs, s) && e in s.running && s.book.executions[e].task in defs
    requires ValidTrim(Concluded(defs, wdefs, s, e, outcome, order, now), s.running.Keys - {e}, HISTORY_LIMIT, removed)
    ensures var s' := Finished(defs, wdefs, s, e, outcome, order, removed, now);
      Sound(defs, s') && (Closed(s.book, s.running.Keys) ==> Closed(s'.book, s'.running.Keys))
  {
    var d := defs[s.book.executions[e].task];
    var b1 := Concluded(defs, wdefs, s, e, outcome, order, now);
    var b2 := Forget(b1, removed);
    ConcludeKeeps(d, wdefs, s.book, s.running.Keys, e, outcome, order, now);
    ConcludeExecutions(d, wdefs, s.book, e, outcome, order, now);
    ForgetKeeps(b1, s.running.Keys - {e}, removed);
    FinishedLive(s.book, e, outcome, now, b2, removed);
    FinishHeld(defs, s, b2, e);
    assert (s.running - {e}).Keys == s.running.Keys - {e};
  }
}
