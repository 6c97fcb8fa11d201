/** The scheduler as a transition system.  Every public operation runs under one
    lock, so a run is a sequence of whole operations; a crash may come between
    any two of them and leaves only what was persisted. */
module SchedulerRuns {
  import opened TaskTypes
  import opened SchedulerSpec
  import opened SchedulerInvariants
  import opened SchedulerRecovery
  import opened SchedulerRound
  import opened SchedulerHistory
  import opened WorkflowChains

  /** disk is the persisted record; spawned are the admitted executions whose
      runner has not been started yet.  The last five components record the
      history of the run; no operation reads them. */
  datatype System = System(
    defs: Definitions, s: Scheduler, disk: Book, spawned: set<Id>,
    admissions: seq<Carry>, starts: seq<Carry>, retries: seq<Carry>,
    successes: set<Success>, advanced: map<string, Time>)

  datatype Step =
    | SubmitStep(req: Request, running: seq<Id>, now: Time, persisted: bool)
    | RoundStep(tasks: seq<Visit>, workflows: seq<Visit>, keys: seq<string>, now: Time)
    | StartStep(execution: Id)
    | FinishStep(execution: Id, outcome: Outcome, order: seq<string>, removed: set<Id>, now: Time)
    | AdvanceStep(definition: string, key: string, quiet: nat, maximum: nat, now: Time, persisted: bool)
    | CrashStep(recovering: Definitions, registered: Definitions, interrupted: seq<Id>, now: Time)

  ghost predicate Enabled(wdefs: WorkflowDefinitions, sys: System, step: Step) {
    match step
    case SubmitStep(req, running, now, persisted) =>
      Covers(running, sys.s.running) && Submit(sys.defs, sys.s.book, running, req, now).Ok?
    case RoundStep(tasks, workflows, keys, now) =>
      && ValidVisits(sys.defs, sys.s, tasks, workflows)
      && InOrder(sys.defs, Prepared(sys.defs, wdefs, sys.s, tasks, workflows, now), keys, now)
      && forall k :: !Candidate(sys.defs, AdmitMany(sys.defs, Prepared(sys.defs, wdefs, sys.s, tasks, workflows, now), keys, now), k, now)
    case StartStep(e) =>
      e in sys.spawned && e in sys.s.running && e in sys.s.book.executions
    case FinishStep(e, outcome, order, removed, now) =>
      && e in sys.s.running && e in sys.s.book.executions && sys.s.book.executions[e].task in sys.defs
      && Enumerates(order, sys.s.book.workflows.Keys)
      && ValidTrim(Concluded(sys.defs, wdefs, sys.s, e, outcome, order, now), sys.s.running.Keys - {e}, HISTORY_LIMIT, removed)
    case AdvanceStep(definition, key, quiet, maximum, now, persisted) =>
      definition in wdefs
    case CrashStep(recovering, registered, interrupted, now) =>
      Enumerates(interrupted, sys.disk.executions.Keys)
  }

  /** The admissions made on the way through the listed intents. */
  ghost function Admitted(defs: Definitions, s: Scheduler, keys: seq<string>, now: Time): seq<Carry>
    requires InOrder(defs, s, keys, now)
    decreases |keys|
  {
    if keys == [] then []
    else
      var s' := AdmitChosen(defs, s, keys[0], now);
      [CarryOf(s'.book, s'.book.sequence)] + Admitted(defs, s', keys[1..], now)
  }

  /** In memory after an operation, and on disk when it was persisted. */
  function Persist(sys: System, s: Scheduler): System {
    sys.(s := s, disk := PersistedView(s.book))
  }

  ghost function Apply(wdefs: WorkflowDefinitions, sys: System, step: Step): System
    requires Enabled(wdefs, sys, step)
  {
    match step
    case SubmitStep(req, running, now, persisted) =>
      if !persisted then sys
      else Persist(sys, sys.s.(book := Submit(sys.defs, sys.s.book, running, req, now).value.0))
    case RoundStep(tasks, workflows, keys, now) =>
      var p := Prepared(sys.defs, wdefs, sys.s, tasks, workflows, now);
      var s' := ScanNone(sys.defs, AdmitMany(sys.defs, p, keys, now), now);
      Persist(sys, s').(spawned := sys.spawned + (s'.running.Keys - sys.s.running.Keys),
                        admissions := sys.admissions + Admitted(sys.defs, p, keys, now))
    case StartStep(e) =>
      sys.(spawned := sys.spawned - {e}, starts := sys.starts + [CarryOf(sys.s.book, e)])
    case FinishStep(e, outcome, order, removed, now) =>
      var x := sys.s.book.executions[e];
      Persist(sys, Finished(sys.defs, wdefs, sys.s, e, outcome, order, removed, now)).(
        spawned := sys.spawned - {e},
        retries := if outcome.Errored? && MayRequeue(sys.defs[x.task], x, outcome) then sys.retries + [CarryOf(sys.s.book, e)] else sys.retries,
        successes := if outcome.Succeeded? then sys.successes + {Success(e, x.task, x.startedAt, now)} else sys.successes)
    case AdvanceStep(definition, key, quiet, maximum, now, persisted) =>
      if !persisted then sys
      else Persist(sys, sys.s.(book := Advance(sys.s.book, definition, key, quiet, maximum, now)))
             .(advanced := sys.advanced[definition + ":" + key := now])
    case CrashStep(recovering, registered, interrupted, now) =>
      var recovered := Reload(recovering, sys.disk, interrupted, now);
      sys.(defs := registered, s := Scheduler(RegisterSchedules(registered, recovered, now), map[], map[]),
           disk := PersistedView(recovered), spawned := {})
  }

  /** A fresh installation. */
  function Fresh(defs: Definitions, now: Time): System {
    var empty := Book(0, map[], map[], map[], map[], map[]);
    System(defs, Scheduler(RegisterSchedules(defs, empty, now), map[], map[]), empty, {}, [], [], [], {}, map[])
  }

  ghost predicate Follows(wdefs: WorkflowDefinitions, sys: System, step: Step, sys': System) {
    Enabled(wdefs, sys, step) && sys' == Apply(wdefs, sys, step)
  }

  /** states is a run: it starts fresh and every step is enabled and applied. */
  ghost predicate IsRun(wdefs: WorkflowDefinitions, states: seq<System>, steps: seq<Step>) {
    && |states| == |steps| + 1
    && (exists defs, now :: states[0] == Fresh(defs, now))
    && forall i :: 0 <= i < |steps| ==> Follows(wdefs, states[i], steps[i], states[i + 1])
  }

  lemma RunStarts(wdefs: WorkflowDefinitions, defs: Definitions, now: Time)
    ensures IsRun(wdefs, [Fresh(defs, now)], [])
  {
    assert [Fresh(defs, now)][0] == Fresh(defs, now);
  }

  lemma RunGoesOn(wdefs: WorkflowDefinitions, states: seq<System>, steps: seq<Step>, step: Step, sys: System)
    requires IsRun(wdefs, states, steps) && Follows(wdefs, states[|steps|], step, sys)
    ensures IsRun(wdefs, states + [sys], steps + [step])
  {
    var states', steps' := states + [sys], steps + [step];
    assert states'[0] == states[0];
    forall i | 0 <= i < |steps'|
      ensures Follows(wdefs, states'[i], steps'[i], states'[i + 1])
    {
      if i < |steps| { assert Follows(wdefs, states[i], steps[i], states[i + 1]); }
    }
  }

  // ------------------------------------------------------------ the invariant

  /** Every operation persists before it lets go of the lock, so between two
      operations the disk lags behind memory in nothing but new schedules. */
  ghost predicate OnDisk(sys: System) {
    sys.disk == PersistedView(sys.s.book.(periodicNext := sys.disk.periodicNext))
  }

  ghost predicate Consistent(sys: System) {
    Sound(sys.defs, sys.s) && OnDisk(sys) && sys.spawned <= sys.s.running.Keys
  }

  lemma FreshConsistent(defs: Definitions, now: Time)
    ensures Consistent(Fresh(defs, now))
  {
    var sys := Fresh(defs, now);
    assert LiveSet(sys.s.book) == {};
  }

  /** What the next process reads is what a restart from memory would give. */
  lemma ReloadIsRestart(sys: System, defs: Definitions, order: seq<Id>, now: Time)
    requires OnDisk(sys) && Enumerates(order, sys.disk.executions.Keys)
    ensures var b := sys.s.book.(periodicNext := sys.disk.periodicNext);
      Enumerates(order, b.executions.Keys) && Reload(defs, sys.disk, order, now) == Restart(defs, b, order, now)
  {
  }

  lemma IdleHeld(defs: Definitions, b: Book)
    requires Bookkeeping(b, {}) && LiveSet(b) == {}
    ensures Sound(defs, Scheduler(b, map[], map[]))
  {
    var none: map<Id, seq<Claim>> := map[];
    assert none.Keys == {};
  }

  lemma CrashSound(wdefs: WorkflowDefinitions, sys: System, step: Step)
    requires Consistent(sys) && step.CrashStep? && Enabled(wdefs, sys, step)
    ensures Sound(Apply(wdefs, sys, step).defs, Apply(wdefs, sys, step).s)
  {
    var b := sys.s.book.(periodicNext := sys.disk.periodicNext);
    ReloadIsRestart(sys, step.recovering, step.interrupted, step.now);
    FrameKeeps(sys.s.book, b, sys.s.running.Keys);
    assert LiveSet(b) == LiveSet(sys.s.book);
    RestartKeeps(step.recovering, b, step.interrupted, step.now);
    var recovered := Restart(step.recovering, b, step.interrupted, step.now);
    var b' := RegisterSchedules(step.registered, recovered, step.now);
    FrameKeeps(recovered, b', {});
    assert LiveSet(b') == LiveSet(recovered);
    IdleHeld(step.registered, b');
  }

  /** No operation, and no crash, breaks the invariant. */
  lemma StepConsistent(wdefs: WorkflowDefinitions, sys: System, step: Step)
    requires Consistent(sys) && Enabled(wdefs, sys, step)
    ensures Consistent(Apply(wdefs, sys, step))
  {
    match step {
      case SubmitStep(req, running, now, persisted) => SubmitSound(sys.defs, sys.s, req, running, now);
      case RoundStep(tasks, workflows, keys, now) =>
        var p := Prepared(sys.defs, wdefs, sys.s, tasks, workflows, now);
        var s' := ScanNone(sys.defs, AdmitMany(sys.defs, p, keys, now), now);
        RoundKeeps(sys.defs, wdefs, sys.s, tasks, workflows, keys, now, s');
        AdmitManyGrows(sys.defs, p, keys, now);
      case StartStep(e) =>
      case FinishStep(e, outcome, order, removed, now) => FinishSound(sys.defs, wdefs, sys.s, e, outcome, order, removed, now);
      case AdvanceStep(definition, key, quiet, maximum, now, persisted) => AdvanceSound(sys.defs, sys.s, definition, key, quiet, maximum, now);
      case CrashStep(recovering, registered, interrupted, now) => CrashSound(wdefs, sys, step);
    }
  }

  lemma {:induction false} AdmitManyGrows(defs: Definitions, s: Scheduler, keys: seq<string>, now: Time)
    requires InOrder(defs, s, keys, now)
    ensures s.running.Keys <= AdmitMany(defs, s, keys, now).running.Keys
    decreases |keys|
  {
    if keys != [] { AdmitManyGrows(defs, AdmitChosen(defs, s, keys[0], now), keys[1..], now); }
  }
}
