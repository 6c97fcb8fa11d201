/** The journal of removals on top of the scheduler.  A removal is journaled as
    queued, submitted, marked as started before its first mutation, and settled at
    the end.  After a restart the journal is reconciled with the scheduler before
    any work starts. */
module RemovalJournal {
  import opened TaskTypes
  import opened SchedulerSpec
  import opened SchedulerLookup
  import opened SchedulerInvariants
  import opened SchedulerRecovery
  import opened SchedulerRound
  import opened SchedulerHistory
  import opened SchedulerRuns
  import opened SchedulerTheorems
  import opened SchedulerRecords
  import opened SchedulerHeld

  const REMOVAL: string := "removal-operation"

  datatype EntryStatus = EvQueued | EvStarted | EvSucceeded | EvPartial | EvFailed | EvDryRun | EvInterrupted

  predicate Final(s: EntryStatus) { !s.EvQueued? && !s.EvStarted? }

  /** complete: the payload holds the whole command. */
  datatype Entry = Entry(status: EntryStatus, complete: bool, dryRun: bool)

  // --------------------------------------------------------------------- keys

  function Digits(n: nat): string {
    var last := [('0' as int + n % 10) as char];
    if n < 10 then last else Digits(n / 10) + last
  }

  function OperationKey(id: nat): string { "operation:" + Digits(id) }

  lemma {:induction false} DigitsInjective(a: nat, b: nat)
    requires Digits(a) == Digits(b)
    ensures a == b
  {
    var x, y := Digits(a), Digits(b);
    assert x[|x| - 1] == ('0' as int + a % 10) as char && y[|y| - 1] == ('0' as int + b % 10) as char;
    assert a % 10 == b % 10;
    DigitsNonEmpty(a / 10);
    DigitsNonEmpty(b / 10);
    if a >= 10 && b >= 10 {
      assert Digits(a / 10) == x[..|x| - 1] && Digits(b / 10) == y[..|y| - 1];
      DigitsInjective(a / 10, b / 10);
    }
  }

  lemma DigitsNonEmpty(n: nat)
    ensures |Digits(n)| >= 1
  {
  }

  lemma OperationKeyInjective(a: nat, b: nat)
    requires OperationKey(a) == OperationKey(b)
    ensures a == b
  {
    assert OperationKey(a)[|"operation:"|..] == Digits(a);
    assert OperationKey(b)[|"operation:"|..] == Digits(b);
    DigitsInjective(a, b);
  }

  predicate NoNul(s: string) { '\0' !in s }

  function FirstNul(s: string): nat { if s == "" || s[0] == '\0' then 0 else 1 + FirstNul(s[1..]) }

  lemma {:induction false} FirstNulAfter(a: string, rest: string)
    requires NoNul(a)
    ensures FirstNul(a + ['\0'] + rest) == |a|
  {
    var s := a + ['\0'] + rest;
    if a == "" {
      assert s[0] == '\0';
    } else {
      assert a[0] in a && s[0] == a[0];
      assert s[1..] == a[1..] + ['\0'] + rest;
      FirstNulAfter(a[1..], rest);
    }
  }

  /** Task ids hold no separator, so an intent key tells its task and key. */
  lemma IntentKeyTells(a: string, k: string, b: string, id: nat)
    requires NoNul(a) && NoNul(b) && IntentKey(a, k) == IntentKey(b, OperationKey(id))
    ensures a == b && k == OperationKey(id)
  {
    var s, t := IntentKey(a, k), IntentKey(b, OperationKey(id));
    FirstNulAfter(a, if k == "" then "default" else k);
    FirstNulAfter(b, OperationKey(id));
    assert a == s[..|a|] && b == t[..|b|];
    assert s[|a| + 1..] == if k == "" then "default" else k;
    assert t[|b| + 1..] == OperationKey(id);
    assert OperationKey(id)[0] == 'o';
  }

  predicate RecordOf(r: Trigger, id: nat) { r.task == REMOVAL && r.key == OperationKey(id) }

  // -------------------------------------------------------------------- system

  /** What the runner of a removal has come to. */
  datatype Runner = Entered | Marked(event: nat) | Done

  datatype Phase = Recovering(todo: seq<nat>) | Serving

  datatype Mutation = Mutation(event: nat, carry: Carry)

  /** mutated records the history; nothing reads it. */
  datatype Journaled = Journaled(core: System, events: map<nat, Entry>, admitting: set<nat>, runners: map<Id, Runner>, phase: Phase, mutated: seq<Mutation>)

  datatype JStep =
    | Accept(id: nat, dryRun: bool)
    | Schedule(id: nat, running: seq<Id>, now: Time, persisted: bool, recorded: bool)
    | Work(step: Step)
    | Mark(execution: Id, event: nat, dryRun: bool)
    | Mutate(execution: Id)
    | Conclusion(execution: Id, event: nat, status: EntryStatus)
    | Crash(step: Step, inFlight: seq<nat>)
    | Recover(latest: Option<Id>, now: Time)
    | Resume

  function RemovalRequest(id: nat): Request {
    Request(REMOVAL, Event, PRIORITY_MUTATION, true, OperationKey(id), 0, 0, 0, Digits(id), "")
  }

  /** What recovery does about one event: settled by the scheduler's word, or
      queued again when the scheduler never heard of it.  None: it cannot go on. */
  function RecoverEntry(defs: Definitions, b: Book, running: seq<Id>, entry: Entry, id: nat, latest: Option<Id>, now: Time): Option<(Book, Entry)> {
    if entry.status.EvStarted? then Some((b, entry))
    else if latest.Some? then
      if latest.value in b.triggers && !Terminal(b.triggers[latest.value].state) then Some((b, entry))
      else Some((b, entry.(status := EvInterrupted)))
    else if !entry.complete then Some((b, entry.(status := EvFailed)))
    else
      match Submit(defs, b, running, RemovalRequest(id), now)
      case Ok((b', _)) => Some((b', entry))
      case Err(_) => None
  }

  ghost predicate Runs(j: Journaled, e: Id, event: nat) {
    var b := j.core.s.book;
    e in j.runners && e in b.executions && b.executions[e].task == REMOVAL && b.executions[e].key == OperationKey(event) && event in j.events
  }

  function InFlight(events: map<nat, Entry>): set<nat> { set id | id in events && !Final(events[id].status) }

  ghost predicate JEnabled(wdefs: WorkflowDefinitions, j: Journaled, step: JStep) {
    match step
    case Accept(id, _) => j.phase.Serving? && id !in j.events
    case Schedule(id, running, now, persisted, recorded) => j.phase.Serving? && id in j.admitting && Covers(running, j.core.s.running)
    case Work(s) =>
      && j.phase.Serving? && Enabled(wdefs, j.core, s) && !s.CrashStep?
      && (s.SubmitStep? ==> s.req.task != REMOVAL)
    case Mark(e, event, _) => Runs(j, e, event) && j.runners[e] == Entered
    case Mutate(e) => e in j.runners && j.runners[e].Marked? && e in j.core.s.book.executions
    case Conclusion(e, event, status) => Runs(j, e, event) && Final(status)
    case Crash(s, inFlight) =>
      && s.CrashStep? && Enabled(wdefs, j.core, s)
      && Enumerates(inFlight, InFlight(j.events))
    case Recover(latest, now) =>
      && j.phase.Recovering? && j.phase.todo != [] && j.phase.todo[0] in j.events
      && (!j.events[j.phase.todo[0]].status.EvStarted? ==> IsLatest(j.core.s.book.triggers, REMOVAL, OperationKey(j.phase.todo[0]), latest))
      && RecoverEntry(j.core.defs, j.core.s.book, [], j.events[j.phase.todo[0]], j.phase.todo[0], latest, now).Some?
      && j.core.s.running == map[]
    case Resume => j.phase.Recovering? && j.phase.todo == []
  }

  function Submitted(core: System, b: Book): System { if b == core.s.book then core else Persist(core, core.s.(book := b)) }

  ghost function JApply(wdefs: WorkflowDefinitions, j: Journaled, step: JStep): Journaled
    requires JEnabled(wdefs, j, step)
  {
    match step
    case Accept(id, dryRun) =>
      j.(events := j.events[id := Entry(EvQueued, true, dryRun)], admitting := j.admitting + {id})
    case Schedule(id, running, now, persisted, recorded) =>
      var r := Submit(j.core.defs, j.core.s.book, running, RemovalRequest(id), now);
      if persisted && r.Ok? then j.(core := Submitted(j.core, r.value.0), admitting := j.admitting - {id})
      else j.(events := if recorded && id in j.events then j.events[id := j.events[id].(status := EvFailed)] else j.events, admitting := j.admitting - {id})
    case Work(s) =>
      j.(core := Apply(wdefs, j.core, s),
         runners := match s
                    case StartStep(e) => if j.core.s.book.executions[e].task == REMOVAL then j.runners[e := Entered] else j.runners
                    case FinishStep(e, _, _, _, _) => j.runners - {e}
                    case _ => j.runners)
    case Mark(e, event, dryRun) =>
      j.(events := j.events[event := j.events[event].(status := EvStarted, dryRun := dryRun)], runners := j.runners[e := Marked(event)])
    case Mutate(e) =>
      j.(mutated := j.mutated + [Mutation(j.runners[e].event, CarryOf(j.core.s.book, e))])
    case Conclusion(e, event, status) =>
      j.(events := j.events[event := j.events[event].(status := status)], runners := j.runners[e := Done])
    case Crash(s, inFlight) =>
      j.(core := Apply(wdefs, j.core, s), admitting := {}, runners := map[], phase := Recovering(inFlight))
    case Recover(latest, now) =>
      var id := j.phase.todo[0];
      var (b, entry) := RecoverEntry(j.core.defs, j.core.s.book, [], j.events[id], id, latest, now).value;
      j.(core := Submitted(j.core, b), events := j.events[id := entry], phase := Recovering(j.phase.todo[1..]))
    case Resume =>
      j.(events := map id | id in j.events :: if j.events[id].status.EvStarted? then j.events[id].(status := EvInterrupted) else j.events[id],
         phase := Serving)
  }

  /** states are passed through by the steps, one after the other. */
  ghost predicate JPath(wdefs: WorkflowDefinitions, states: seq<Journaled>, steps: seq<JStep>) {
    && |states| == |steps| + 1
    && forall i :: 0 <= i < |steps| ==> JFollows(wdefs, states[i], steps[i], states[i + 1])
  }

  ghost predicate JFollows(wdefs: WorkflowDefinitions, j: Journaled, step: JStep, j': Journaled) {
    JEnabled(wdefs, j, step) && j' == JApply(wdefs, j, step)
  }

  lemma JPathMore(wdefs: WorkflowDefinitions, states: seq<Journaled>, steps: seq<JStep>, step: JStep)
    requires JPath(wdefs, states, steps) && JEnabled(wdefs, states[|steps|], step)
    ensures JPath(wdefs, states + [JApply(wdefs, states[|steps|], step)], steps + [step])
  {
    var more, j' := states + [JApply(wdefs, states[|steps|], step)], steps + [step];
    forall i | 0 <= i < |j'|
      ensures JFollows(wdefs, more[i], j'[i], more[i + 1])
    {
      if i < |steps| { assert JFollows(wdefs, states[i], steps[i], states[i + 1]); }
    }
  }

  function JFresh(defs: Definitions, now: Time): Journaled { Journaled(Fresh(defs, now), map[], {}, map[], Serving, []) }

  /** How removals are set up: their task asks for attention after a crash, is
      never retried, and only removals submit it. */
  ghost predicate Installed(defs: Definitions, wdefs: WorkflowDefinitions) {
    && (forall d :: d in defs ==> NoNul(d))
    && NeverRequeues(defs, REMOVAL)
    && SelfSubmits(defs, wdefs, defs.Keys - {REMOVAL})
  }

  ghost predicate Proper(wdefs: WorkflowDefinitions, j: Journaled, step: JStep) {
    && Installed(j.core.defs, wdefs)
    && (step.Crash? && step.step.CrashStep? ==> NeverRequeues(step.step.recovering, REMOVAL))
  }

  ghost predicate IsJRun(wdefs: WorkflowDefinitions, states: seq<Journaled>, steps: seq<JStep>) {
    && |states| == |steps| + 1
    && (exists defs, now :: states[0] == JFresh(defs, now))
    && forall i :: 0 <= i < |steps| ==> Proper(wdefs, states[i], steps[i]) && JFollows(wdefs, states[i], steps[i], states[i + 1])
  }

  // ------------------------------------------------------------ the invariant

  ghost predicate KnownRecord(events: map<nat, Entry>, r: Trigger) {
    NoNul(r.task) && (r.task == REMOVAL ==> exists id :: id in events && RecordOf(r, id))
  }

  /** Records of removals are records of journaled events, one each at most. */
  ghost predicate RecordsKnown(b: Book, events: map<nat, Entry>) {
    && (forall t :: t in b.triggers ==> KnownRecord(events, b.triggers[t]))
    && (forall t, u, id :: t in b.triggers && u in b.triggers && RecordOf(b.triggers[t], id) && RecordOf(b.triggers[u], id) ==> t == u)
  }

  ghost predicate NoRecord(b: Book, id: nat) { forall t :: t in b.triggers ==> !RecordOf(b.triggers[t], id) }

  /** An event being admitted is queued and unknown to the scheduler. */
  ghost predicate AdmittingIsNew(b: Book, events: map<nat, Entry>, admitting: set<nat>) {
    forall id :: id in admitting ==> id in events && events[id].status.EvQueued? && NoRecord(b, id)
  }

  /** A mutated event never looks queued again, and its record can no longer reach
      another runner. */
  ghost predicate MutationSpent(core: System, events: map<nat, Entry>, m: Mutation) {
    && m.event in events && !events[m.event].status.EvQueued? && m.carry.task == REMOVAL
    && forall t :: t in core.s.book.triggers && RecordOf(core.s.book.triggers[t], m.event) ==> TrackedIn(core, t, m.carry, true)
  }

  ghost predicate MutationsSpent(core: System, events: map<nat, Entry>, mutated: seq<Mutation>) {
    forall i :: 0 <= i < |mutated| ==> MutationSpent(core, events, mutated[i])
  }

  ghost predicate RunnerFits(core: System, events: map<nat, Entry>, e: Id, r: Runner) {
    && e in core.s.running
    && (r.Marked? ==>
          && r.event in events && !events[r.event].status.EvQueued?
          && e in core.s.book.executions && core.s.book.executions[e].task == REMOVAL && core.s.book.executions[e].key == OperationKey(r.event))
  }

  ghost predicate RunnersFit(core: System, events: map<nat, Entry>, runners: map<Id, Runner>) {
    forall e :: e in runners ==> RunnerFits(core, events, e, runners[e])
  }

  /** Each event is mutated by one execution at most. */
  ghost predicate MutatedOnce(mutated: seq<Mutation>) {
    forall i, k :: 0 <= i < k < |mutated| && mutated[i].event == mutated[k].event ==> mutated[i].carry.execution == mutated[k].carry.execution
  }

  function RemovalKey(id: nat): string { IntentKey(REMOVAL, OperationKey(id)) }

  /** Every id held for a removal has its record, even if a crash leaves other tasks
      with ids that do not. */
  ghost predicate RemovalsHeld(core: System) {
    forall id: nat :: HeldAt(core.s.book, core.s.running.Keys, RemovalKey(id))
  }

  ghost predicate JInvariant(j: Journaled) {
    && Consistent(j.core) && RemovalsHeld(j.core)
    && RecordsKnown(j.core.s.book, j.events)
    && AdmittingIsNew(j.core.s.book, j.events, j.admitting)
    && MutationsSpent(j.core, j.events, j.mutated)
    && RunnersFit(j.core, j.events, j.runners)
    && MutatedOnce(j.mutated)
  }

  // ----------------------------------------------------- changes of the record

  /** The records of removals in b' are those of b, and at most a new one of id. */
  ghost predicate Adds(b: Book, b': Book, id: Option<nat>) {
    && (forall t :: t in b'.triggers ==> AddedRecord(b, b', id, t))
    && (forall e :: e in b'.executions ==> OldOrNewExecution(b, b', e))
  }

  ghost predicate AddedRecord(b: Book, b': Book, id: Option<nat>, t: Id)
    requires t in b'.triggers
  {
    || (t in b.triggers && SameRequest(b.triggers[t], b'.triggers[t]))
    || (b'.triggers[t].task != REMOVAL && NoNul(b'.triggers[t].task))
    || (id.Some? && t == b.sequence + 1 && RecordOf(b'.triggers[t], id.value))
  }

  lemma RecordsKept(b: Book, b': Book, events: map<nat, Entry>, events': map<nat, Entry>, id: Option<nat>)
    requires RecordsKnown(b, events) && Adds(b, b', id) && events.Keys <= events'.Keys
    requires id.Some? ==> id.value in events && NoRecord(b, id.value)
    ensures RecordsKnown(b', events')
  {
    forall t | t in b'.triggers
      ensures KnownRecord(events', b'.triggers[t])
    {
      assert AddedRecord(b, b', id, t);
      if t in b.triggers { assert KnownRecord(events, b.triggers[t]); }
      if id.Some? && RecordOf(b'.triggers[t], id.value) { assert id.value in events'; }
    }
    forall t, u, x | t in b'.triggers && u in b'.triggers && RecordOf(b'.triggers[t], x) && RecordOf(b'.triggers[u], x)
      ensures t == u
    {
      assert AddedRecord(b, b', id, t) && AddedRecord(b, b', id, u);
      if id.Some? && RecordOf(b'.triggers[t], id.value) { OperationKeyInjective(x, id.value); }
    }
  }

  lemma NoRecordKept(b: Book, b': Book, id: Option<nat>, x: nat)
    requires Adds(b, b', id) && NoRecord(b, x) && id != Some(x)
    ensures NoRecord(b', x)
  {
    forall t | t in b'.triggers
      ensures !RecordOf(b'.triggers[t], x)
    {
      assert AddedRecord(b, b', id, t);
      if RecordOf(b'.triggers[t], x) && id.Some? && RecordOf(b'.triggers[t], id.value) { OperationKeyInjective(x, id.value); }
    }
  }

  /** Whatever the step submits under a removal's key is durable. */
  ghost predicate DurableRemoval(core: System, step: Step, id: nat) {
    NotScheduled(core.defs, RemovalKey(id)) && (step.SubmitStep? && IntentKey(step.req.task, step.req.key) == RemovalKey(id) ==> step.req.durable)
  }

  ghost predicate DurableRemovals(core: System, step: Step) { forall id: nat :: DurableRemoval(core, step, id) }

  lemma OthersKeepOff(wdefs: WorkflowDefinitions, core: System, step: Step, id: nat)
    requires Enabled(wdefs, core, step) && Installed(core.defs, wdefs)
    requires step.SubmitStep? && step.req.task == REMOVAL ==> step.req.durable
    ensures DurableRemoval(core, step, id)
  {
    assert NoNul(REMOVAL);
    forall task | task in core.defs && core.defs[task].interval > 0
      ensures IntentKey(task, "") != RemovalKey(id)
    {
      if IntentKey(task, "") == RemovalKey(id) { IntentKeyTells(task, "", REMOVAL, id); }
    }
    if step.SubmitStep? && IntentKey(step.req.task, step.req.key) == RemovalKey(id) {
      IntentKeyTells(step.req.task, step.req.key, REMOVAL, id);
    }
  }

  /** A step of the scheduler as far as the journal is concerned; submitted is the
      event it submits, if any. */
  ghost predicate Moves(wdefs: WorkflowDefinitions, core: System, step: Step, submitted: Option<nat>) {
    && Consistent(core) && RemovalsHeld(core) && Enabled(wdefs, core, step)
    && StepNeverRequeues(core, step, REMOVAL) && DurableRemovals(core, step)
    && Adds(core.s.book, Apply(wdefs, core, step).s.book, submitted)
  }

  lemma MoveKeepsCore(wdefs: WorkflowDefinitions, core: System, step: Step, submitted: Option<nat>)
    requires Moves(wdefs, core, step, submitted)
    ensures Consistent(Apply(wdefs, core, step)) && RemovalsHeld(Apply(wdefs, core, step))
  {
    StepConsistent(wdefs, core, step);
    forall id: nat
      ensures HeldAt(Apply(wdefs, core, step).s.book, Apply(wdefs, core, step).s.running.Keys, RemovalKey(id))
    {
      assert DurableRemoval(core, step, id);
      assert HeldAt(core.s.book, core.s.running.Keys, RemovalKey(id));
      StepHeldAt(wdefs, core, step, RemovalKey(id));
    }
  }

  lemma MoveKeepsMutation(wdefs: WorkflowDefinitions, core: System, step: Step, submitted: Option<nat>, events: map<nat, Entry>, m: Mutation)
    requires Moves(wdefs, core, step, submitted) && MutationSpent(core, events, m) && submitted != Some(m.event)
    ensures MutationSpent(Apply(wdefs, core, step), events, m)
  {
    var b, b' := core.s.book, Apply(wdefs, core, step).s.book;
    forall t | t in b'.triggers && RecordOf(b'.triggers[t], m.event)
      ensures TrackedIn(Apply(wdefs, core, step), t, m.carry, true)
    {
      assert AddedRecord(b, b', submitted, t);
      if submitted.Some? && RecordOf(b'.triggers[t], submitted.value) { OperationKeyInjective(m.event, submitted.value); }
      StepTracked(wdefs, core, step, t, m.carry, true);
    }
  }

  lemma MoveKeepsRunner(wdefs: WorkflowDefinitions, core: System, step: Step, submitted: Option<nat>, events: map<nat, Entry>, e: Id, r: Runner)
    requires Moves(wdefs, core, step, submitted) && RunnerFits(core, events, e, r)
    requires !step.CrashStep? && (step.FinishStep? ==> step.execution != e)
    ensures RunnerFits(Apply(wdefs, core, step), events, e, r)
  {
    StepConsistent(wdefs, core, step);
    StaysRunning(wdefs, core, step, e);
    var b, b' := core.s.book, Apply(wdefs, core, step).s.book;
    assert e in b.executions && e in b'.executions;
    assert OldOrNewExecution(b, b', e);
  }

  lemma StaysRunning(wdefs: WorkflowDefinitions, core: System, step: Step, e: Id)
    requires Consistent(core) && Enabled(wdefs, core, step) && e in core.s.running
    requires !step.CrashStep? && (step.FinishStep? ==> step.execution != e)
    ensures e in Apply(wdefs, core, step).s.running
  {
    if step.RoundStep? {
      AdmitManyGrows(core.defs, Prepared(core.defs, wdefs, core.s, step.tasks, step.workflows, step.now), step.keys, step.now);
    }
  }

  /** A step that submits no removal. */
  lemma OtherStepMoves(wdefs: WorkflowDefinitions, core: System, step: Step)
    requires Consistent(core) && RemovalsHeld(core) && Enabled(wdefs, core, step) && Installed(core.defs, wdefs)
    requires step.SubmitStep? ==> step.req.task != REMOVAL
    requires step.CrashStep? ==> NeverRequeues(step.recovering, REMOVAL)
    ensures Moves(wdefs, core, step, None)
  {
    var tasks := core.defs.Keys - {REMOVAL};
    forall id: nat { OthersKeepOff(wdefs, core, step, id); }
    StepExtends(wdefs, core, step, tasks);
    var b, b' := core.s.book, Apply(wdefs, core, step).s.book;
    forall t | t in b'.triggers
      ensures AddedRecord(b, b', None, t)
    {
      assert OldOrNewRecord(b, b', tasks, t);
    }
  }

  /** Submitting a removal. */
  lemma SubmissionMoves(wdefs: WorkflowDefinitions, core: System, running: seq<Id>, id: nat, now: Time)
    requires Consistent(core) && RemovalsHeld(core) && Installed(core.defs, wdefs) && Covers(running, core.s.running)
    requires Submit(core.defs, core.s.book, running, RemovalRequest(id), now).Ok?
    ensures var step := SubmitStep(RemovalRequest(id), running, now, true);
      && Moves(wdefs, core, step, Some(id))
      && Apply(wdefs, core, step) == Submitted(core, Submit(core.defs, core.s.book, running, RemovalRequest(id), now).value.0)
  {
    SubmissionAdds(core.defs, core.s.book, running, id, now);
    SubmissionRecord(core.defs, core.s.book, running, id, now);
    forall x: nat { OthersKeepOff(wdefs, core, SubmitStep(RemovalRequest(id), running, now, true), x); }
  }

  lemma SubmissionAdds(defs: Definitions, b: Book, running: seq<Id>, id: nat, now: Time)
    requires Submit(defs, b, running, RemovalRequest(id), now).Ok?
    ensures Adds(b, Submit(defs, b, running, RemovalRequest(id), now).value.0, Some(id))
  {
    SubmissionRecord(defs, b, running, id, now);
    SubmitExtends(defs, b, running, RemovalRequest(id), now, {REMOVAL});
  }

  lemma SubmissionRecord(defs: Definitions, b: Book, running: seq<Id>, id: nat, now: Time)
    requires Submit(defs, b, running, RemovalRequest(id), now).Ok?
    ensures var b' := Submit(defs, b, running, RemovalRequest(id), now).value.0;
      && b'.sequence > b.sequence
      && b'.triggers.Keys == b.triggers.Keys + {b.sequence + 1}
      && (forall t :: t in b.triggers && t != b.sequence + 1 ==> b'.triggers[t] == b.triggers[t])
      && RecordOf(b'.triggers[b.sequence + 1], id) && !Terminal(b'.triggers[b.sequence + 1].state)
  {
    SubmissionTriggers(defs, b, running, id, now);
  }

  lemma SubmissionTriggers(defs: Definitions, b: Book, running: seq<Id>, id: nat, now: Time)
    requires Submit(defs, b, running, RemovalRequest(id), now).Ok?
    ensures var b' := Submit(defs, b, running, RemovalRequest(id), now).value.0;
      exists r :: b'.triggers == b.triggers[b.sequence + 1 := r] && RecordOf(r, id) && !Terminal(r.state)
  {
    var b' := Submit(defs, b, running, RemovalRequest(id), now).value.0;
    var r := b'.triggers[b.sequence + 1];
    assert b'.triggers == b.triggers[b.sequence + 1 := r];
  }

  // ----------------------------------------------------------- the journal steps

  /** What an event's status may do: it never becomes queued again. */
  ghost predicate NeverQueuedAgain(events: map<nat, Entry>, events': map<nat, Entry>) {
    && events.Keys <= events'.Keys
    && forall id :: id in events && !events[id].status.EvQueued? ==> !events'[id].status.EvQueued?
  }

  /** Parts of the invariant after a scheduler step that may submit one event. */
  lemma MoveKeeps(wdefs: WorkflowDefinitions, j: Journaled, step: Step, submitted: Option<nat>, j': Journaled)
    requires JInvariant(j) && Moves(wdefs, j.core, step, submitted)
    requires j'.core == Apply(wdefs, j.core, step) && j'.mutated == j.mutated && NeverQueuedAgain(j.events, j'.events)
    requires submitted.Some? ==> submitted.value in j.events && j.events[submitted.value].status.EvQueued? && NoRecord(j.core.s.book, submitted.value)
    ensures Consistent(j'.core) && RemovalsHeld(j'.core)
    ensures RecordsKnown(j'.core.s.book, j'.events)
    ensures MutationsSpent(j'.core, j'.events, j'.mutated) && MutatedOnce(j'.mutated)
  {
    MoveKeepsCore(wdefs, j.core, step, submitted);
    RecordsKept(j.core.s.book, j'.core.s.book, j.events, j'.events, submitted);
    forall i | 0 <= i < |j.mutated|
      ensures MutationSpent(j'.core, j'.events, j.mutated[i])
    {
      assert MutationSpent(j.core, j.events, j.mutated[i]);
      MoveKeepsMutation(wdefs, j.core, step, submitted, j.events, j.mutated[i]);
    }
  }

  lemma WorkKeeps(wdefs: WorkflowDefinitions, j: Journaled, step: JStep)
    requires JInvariant(j) && step.Work? && JEnabled(wdefs, j, step) && Proper(wdefs, j, step)
    ensures JInvariant(JApply(wdefs, j, step))
  {
    var j', s := JApply(wdefs, j, step), step.step;
    OtherStepMoves(wdefs, j.core, s);
    MoveKeeps(wdefs, j, s, None, j');
    WorkKeepsRunners(wdefs, j, step);
    forall id | id in j.admitting
      ensures NoRecord(j'.core.s.book, id)
    {
      NoRecordKept(j.core.s.book, j'.core.s.book, None, id);
    }
  }

  lemma WorkKeepsRunners(wdefs: WorkflowDefinitions, j: Journaled, step: JStep)
    requires step.Work? && JEnabled(wdefs, j, step) && Moves(wdefs, j.core, step.step, None) && RunnersFit(j.core, j.events, j.runners)
    ensures var j' := JApply(wdefs, j, step); RunnersFit(j'.core, j'.events, j'.runners)
  {
    var j' := JApply(wdefs, j, step);
    forall e | e in j'.runners { WorkKeepsRunner(wdefs, j, step, e); }
  }

  lemma WorkKeepsRunner(wdefs: WorkflowDefinitions, j: Journaled, step: JStep, e: Id)
    requires step.Work? && JEnabled(wdefs, j, step) && Moves(wdefs, j.core, step.step, None) && RunnersFit(j.core, j.events, j.runners)
    requires e in JApply(wdefs, j, step).runners
    ensures var j' := JApply(wdefs, j, step); RunnerFits(j'.core, j'.events, e, j'.runners[e])
  {
    var j' := JApply(wdefs, j, step);
    if e in j.runners && j'.runners[e] == j.runners[e] {
      assert RunnerFits(j.core, j.events, e, j.runners[e]);
      MoveKeepsRunner(wdefs, j.core, step.step, None, j.events, e, j.runners[e]);
    }
  }

  lemma CrashKeeps(wdefs: WorkflowDefinitions, j: Journaled, step: JStep)
    requires JInvariant(j) && step.Crash? && JEnabled(wdefs, j, step) && Proper(wdefs, j, step)
    ensures JInvariant(JApply(wdefs, j, step))
  {
    OtherStepMoves(wdefs, j.core, step.step);
    MoveKeeps(wdefs, j, step.step, None, JApply(wdefs, j, step));
  }

  lemma ScheduleKeeps(wdefs: WorkflowDefinitions, j: Journaled, step: JStep)
    requires JInvariant(j) && step.Schedule? && JEnabled(wdefs, j, step) && Proper(wdefs, j, step)
    ensures JInvariant(JApply(wdefs, j, step))
  {
    var j' := JApply(wdefs, j, step);
    var r := Submit(j.core.defs, j.core.s.book, step.running, RemovalRequest(step.id), step.now);
    if step.persisted && r.Ok? {
      SubmissionMoves(wdefs, j.core, step.running, step.id, step.now);
      SubmissionKeeps(wdefs, j, step.running, step.id, step.now, j');
    } else {
      JournalKeeps(j, j');
    }
  }

  lemma SubmissionKeeps(wdefs: WorkflowDefinitions, j: Journaled, running: seq<Id>, id: nat, now: Time, j': Journaled)
    requires JInvariant(j) && Installed(j.core.defs, wdefs) && Covers(running, j.core.s.running)
    requires id in j.events && j.events[id].status.EvQueued? && NoRecord(j.core.s.book, id)
    requires Submit(j.core.defs, j.core.s.book, running, RemovalRequest(id), now).Ok?
    requires j'.core == Submitted(j.core, Submit(j.core.defs, j.core.s.book, running, RemovalRequest(id), now).value.0)
    requires j'.events == j.events && j'.runners == j.runners && j'.mutated == j.mutated && j'.admitting == j.admitting - {id}
    ensures JInvariant(j')
  {
    var s := SubmitStep(RemovalRequest(id), running, now, true);
    SubmissionMoves(wdefs, j.core, running, id, now);
    MoveKeeps(wdefs, j, s, Some(id), j');
    forall x | x in j'.admitting
      ensures NoRecord(j'.core.s.book, x)
    {
      NoRecordKept(j.core.s.book, j'.core.s.book, Some(id), x);
    }
    forall e | e in j'.runners
      ensures RunnerFits(j'.core, j'.events, e, j'.runners[e])
    {
      assert RunnerFits(j.core, j.events, e, j.runners[e]);
      MoveKeepsRunner(wdefs, j.core, s, Some(id), j.events, e, j.runners[e]);
    }
  }

  /** Steps that touch the journal only. */
  lemma JournalKeeps(j: Journaled, j': Journaled)
    requires JInvariant(j) && j'.core == j.core && j'.mutated == j.mutated && NeverQueuedAgain(j.events, j'.events)
    requires forall id :: id in j'.admitting ==> id in j'.events && j'.events[id].status.EvQueued? && NoRecord(j.core.s.book, id)
    requires forall e :: e in j'.runners ==> RunnerFits(j.core, j'.events, e, j'.runners[e])
    ensures JInvariant(j')
  {
    forall t | t in j.core.s.book.triggers
      ensures KnownRecord(j'.events, j.core.s.book.triggers[t])
    {
      assert KnownRecord(j.events, j.core.s.book.triggers[t]);
    }
    forall i | 0 <= i < |j.mutated|
      ensures MutationSpent(j'.core, j'.events, j.mutated[i])
    {
      assert MutationSpent(j.core, j.events, j.mutated[i]);
    }
  }

  /** A live removal carries the record of its event. */
  lemma CarriesItsRecord(core: System, e: Id, event: nat)
    requires Consistent(core) && RemovalsHeld(core) && e in core.s.running
    requires (forall t :: t in core.s.book.triggers ==> NoNul(core.s.book.triggers[t].task))
    requires core.s.book.executions[e].task == REMOVAL && core.s.book.executions[e].key == OperationKey(event)
    ensures var t := core.s.book.executions[e].triggers[0]; t in core.s.book.triggers && RecordOf(core.s.book.triggers[t], event)
  {
    var b := core.s.book;
    var x := b.executions[e];
    var t := x.triggers[0];
    assert t in x.triggers;
    assert HeldAt(b, core.s.running.Keys, RemovalKey(event)) && HeldUnder(b, core.s.running.Keys, RemovalKey(event), t);
    assert CarriedIn(b, e, t);
    assert NoNul(REMOVAL);
    IntentKeyTells(b.triggers[t].task, b.triggers[t].key, REMOVAL, event);
  }

  /** The only record of the event is the one that the execution carries. */
  lemma OnlyRecord(j: Journaled, e: Id, event: nat) returns (carried: Id)
    requires JInvariant(j) && e in j.core.s.running
    requires j.core.s.book.executions[e].task == REMOVAL && j.core.s.book.executions[e].key == OperationKey(event)
    ensures carried in j.core.s.book.executions[e].triggers && carried in j.core.s.book.triggers && RecordOf(j.core.s.book.triggers[carried], event)
    ensures forall t :: t in j.core.s.book.triggers && RecordOf(j.core.s.book.triggers[t], event) ==> t == carried
  {
    var b := j.core.s.book;
    forall t | t in b.triggers ensures NoNul(b.triggers[t].task) { assert KnownRecord(j.events, b.triggers[t]); }
    CarriesItsRecord(j.core, e, event);
    carried := b.executions[e].triggers[0];
  }

  lemma NewlySpent(j: Journaled, e: Id, event: nat)
    requires JInvariant(j) && e in j.core.s.running && event in j.events && !j.events[event].status.EvQueued?
    requires j.core.s.book.executions[e].task == REMOVAL && j.core.s.book.executions[e].key == OperationKey(event)
    ensures MutationSpent(j.core, j.events, Mutation(event, CarryOf(j.core.s.book, e)))
  {
    var carried := OnlyRecord(j, e, event);
    CarryIsTracked(j.core.s.book, j.core.s.running.Keys, e, carried, true);
  }

  /** Whoever mutated for the event before was this execution. */
  lemma SpentByItself(j: Journaled, e: Id, event: nat, m: Mutation)
    requires JInvariant(j) && e in j.core.s.running
    requires j.core.s.book.executions[e].task == REMOVAL && j.core.s.book.executions[e].key == OperationKey(event)
    requires MutationSpent(j.core, j.events, m) && m.event == event
    ensures m.carry.execution == e
  {
    var carried := OnlyRecord(j, e, event);
    assert TrackedIn(j.core, carried, m.carry, true);
    assert TrackedExecution(e, j.core.s.book.executions[e], carried, m.carry, true);
  }

  lemma MutateKeeps(wdefs: WorkflowDefinitions, j: Journaled, step: JStep)
    requires JInvariant(j) && step.Mutate? && JEnabled(wdefs, j, step)
    ensures JInvariant(JApply(wdefs, j, step))
  {
    var e := step.execution;
    assert RunnerFits(j.core, j.events, e, j.runners[e]);
    MutationKeeps(j, e, j.runners[e].event, JApply(wdefs, j, step));
  }

  lemma MutationKeeps(j: Journaled, e: Id, event: nat, j': Journaled)
    requires JInvariant(j) && e in j.core.s.running && event in j.events && !j.events[event].status.EvQueued?
    requires j.core.s.book.executions[e].task == REMOVAL && j.core.s.book.executions[e].key == OperationKey(event)
    requires j' == j.(mutated := j.mutated + [Mutation(event, CarryOf(j.core.s.book, e))])
    ensures JInvariant(j')
  {
    NewlySpent(j, e, event);
    forall i | 0 <= i < |j'.mutated|
      ensures MutationSpent(j.core, j.events, j'.mutated[i])
      ensures j'.mutated[i].event == event ==> j'.mutated[i].carry.execution == e
    {
      if i < |j.mutated| {
        assert MutationSpent(j.core, j.events, j.mutated[i]);
        if j.mutated[i].event == event { SpentByItself(j, e, event, j.mutated[i]); }
      }
    }
  }

  lemma AcceptKeeps(wdefs: WorkflowDefinitions, j: Journaled, step: JStep)
    requires JInvariant(j) && step.Accept? && JEnabled(wdefs, j, step)
    ensures JInvariant(JApply(wdefs, j, step))
  {
    var b := j.core.s.book;
    forall t | t in b.triggers
      ensures !RecordOf(b.triggers[t], step.id)
    {
      assert KnownRecord(j.events, b.triggers[t]);
      if RecordOf(b.triggers[t], step.id) {
        var id :| id in j.events && RecordOf(b.triggers[t], id);
        OperationKeyInjective(id, step.id);
      }
    }
    JournalKeeps(j, JApply(wdefs, j, step));
  }

  /** An event that a runner works on is not being admitted any more. */
  lemma RunningIsAdmitted(j: Journaled, e: Id, event: nat)
    requires JInvariant(j) && e in j.core.s.running
    requires j.core.s.book.executions[e].task == REMOVAL && j.core.s.book.executions[e].key == OperationKey(event)
    ensures event !in j.admitting
  {
    var b := j.core.s.book;
    forall t | t in b.triggers ensures NoNul(b.triggers[t].task) { assert KnownRecord(j.events, b.triggers[t]); }
    CarriesItsRecord(j.core, e, event);
    assert event in j.admitting ==> NoRecord(b, event);
  }

  lemma MarkKeeps(wdefs: WorkflowDefinitions, j: Journaled, step: JStep)
    requires JInvariant(j) && (step.Mark? || step.Conclusion?) && JEnabled(wdefs, j, step)
    ensures JInvariant(JApply(wdefs, j, step))
  {
    var e, event := step.execution, step.event;
    assert RunnerFits(j.core, j.events, e, j.runners[e]);
    if step.Mark? {
      RunnerMoves(j, e, event, j.events[event].(status := EvStarted, dryRun := step.dryRun), Marked(event), JApply(wdefs, j, step));
    } else {
      RunnerMoves(j, e, event, j.events[event].(status := step.status), Done, JApply(wdefs, j, step));
    }
  }

  /** A runner goes on, and its event is not queued from here on. */
  lemma RunnerMoves(j: Journaled, e: Id, event: nat, entry: Entry, r: Runner, j': Journaled)
    requires JInvariant(j) && Runs(j, e, event) && e in j.core.s.running
    requires !entry.status.EvQueued? && (r.Marked? ==> r.event == event)
    requires j' == j.(events := j.events[event := entry], runners := j.runners[e := r])
    ensures JInvariant(j')
  {
    RunningIsAdmitted(j, e, event);
    forall f | f in j'.runners
      ensures RunnerFits(j.core, j'.events, f, j'.runners[f])
    {
      if f != e { assert RunnerFits(j.core, j.events, f, j.runners[f]); }
    }
    JournalKeeps(j, j');
  }

  // ----------------------------------------------------------------- recovery

  /** The scheduler still has this event to do. */
  ghost predicate Live(b: Book, id: nat) { exists t :: t in b.triggers && RecordOf(b.triggers[t], id) && !Terminal(b.triggers[t].state) }

  /** Recovery is done with this event. */
  ghost predicate Reconciled(b: Book, entry: Entry, id: nat) { entry.status.EvQueued? ==> Live(b, id) }

  ghost predicate DistinctEvents(ids: seq<nat>) { forall i, k :: 0 <= i < k < |ids| ==> ids[i] != ids[k] }

  ghost predicate RecoveryInvariant(j: Journaled) {
    j.phase.Recovering? ==>
      && j.core.s.running == map[] && j.admitting == {} && j.runners == map[]
      && DistinctEvents(j.phase.todo)
      && (forall id :: id in j.phase.todo ==> id in j.events && !Final(j.events[id].status))
      && (forall id :: id in j.events && id !in j.phase.todo ==> Reconciled(j.core.s.book, j.events[id], id))
  }

  /** Submitting one event leaves the others to the scheduler as they were. */
  lemma SubmissionStaysLive(core: System, running: seq<Id>, id: nat, now: Time, x: nat)
    requires Consistent(core) && Submit(core.defs, core.s.book, running, RemovalRequest(id), now).Ok?
    ensures var b' := Submit(core.defs, core.s.book, running, RemovalRequest(id), now).value.0;
      Live(b', id) && (Live(core.s.book, x) ==> Live(b', x))
  {
    var b := core.s.book;
    var b' := Submit(core.defs, b, running, RemovalRequest(id), now).value.0;
    SubmissionRecord(core.defs, b, running, id, now);
    assert RecordOf(b'.triggers[b.sequence + 1], id);
    if Live(b, x) {
      var t :| t in b.triggers && RecordOf(b.triggers[t], x) && !Terminal(b.triggers[t].state);
      assert b'.triggers[t] == b.triggers[t];
    }
  }

  ghost predicate Resubmits(j: Journaled, step: JStep)
    requires step.Recover? && j.phase.Recovering? && j.phase.todo != [] && j.phase.todo[0] in j.events
  {
    var entry := j.events[j.phase.todo[0]];
    !entry.status.EvStarted? && step.latest.None? && entry.complete
  }

  lemma RecoverStep(wdefs: WorkflowDefinitions, j: Journaled, step: JStep)
    requires step.Recover? && JEnabled(wdefs, j, step)
    ensures var j', id := JApply(wdefs, j, step), j.phase.todo[0];
      && (Resubmits(j, step) ==>
            && Submit(j.core.defs, j.core.s.book, [], RemovalRequest(id), step.now).Ok?
            && j'.core == Submitted(j.core, Submit(j.core.defs, j.core.s.book, [], RemovalRequest(id), step.now).value.0)
            && j'.events == j.events)
      && (!Resubmits(j, step) ==>
            && j'.core == j.core && NeverQueuedAgain(j.events, j'.events) && j'.events.Keys == j.events.Keys
            && (forall x :: x in j.events && x != id ==> j'.events[x] == j.events[x])
            && Reconciled(j.core.s.book, j'.events[id], id))
  {
    var entry, id, b := j.events[j.phase.todo[0]], j.phase.todo[0], j.core.s.book;
    if !entry.status.EvStarted? && step.latest.Some? && !Terminal(b.triggers[step.latest.value].state) { assert Live(b, id); }
  }

  lemma RecoverKeeps(wdefs: WorkflowDefinitions, j: Journaled, step: JStep)
    requires JInvariant(j) && RecoveryInvariant(j) && step.Recover? && JEnabled(wdefs, j, step) && Proper(wdefs, j, step)
    ensures JInvariant(JApply(wdefs, j, step))
  {
    var j', id := JApply(wdefs, j, step), j.phase.todo[0];
    RecoverStep(wdefs, j, step);
    assert id in j.phase.todo;
    if Resubmits(j, step) {
      SubmissionKeeps(wdefs, j, [], id, step.now, j');
    } else {
      JournalKeeps(j, j');
    }
  }

  lemma RecoveredOne(wdefs: WorkflowDefinitions, j: Journaled, step: JStep, x: nat)
    requires JInvariant(j) && step.Recover? && JEnabled(wdefs, j, step) && x in j.events
    requires x != j.phase.todo[0] ==> Reconciled(j.core.s.book, j.events[x], x)
    ensures var j' := JApply(wdefs, j, step); x in j'.events && Reconciled(j'.core.s.book, j'.events[x], x)
  {
    RecoverStep(wdefs, j, step);
    if Resubmits(j, step) { SubmissionStaysLive(j.core, [], j.phase.todo[0], step.now, x); }
  }

  lemma RecoverReconciles(wdefs: WorkflowDefinitions, j: Journaled, step: JStep)
    requires JInvariant(j) && RecoveryInvariant(j) && step.Recover? && JEnabled(wdefs, j, step)
    ensures RecoveryInvariant(JApply(wdefs, j, step))
  {
    var j', id := JApply(wdefs, j, step), j.phase.todo[0];
    RecoverStep(wdefs, j, step);
    forall x | x in j'.events && x !in j'.phase.todo
      ensures Reconciled(j'.core.s.book, j'.events[x], x)
    {
      RecoveredOne(wdefs, j, step, x);
    }
    RestOfTodo(j.phase.todo);
  }

  lemma RestOfTodo(todo: seq<nat>)
    requires todo != [] && DistinctEvents(todo)
    ensures DistinctEvents(todo[1..]) && forall x :: x in todo[1..] <==> x in todo && x != todo[0]
  {
    assert todo == [todo[0]] + todo[1..];
  }

  // --------------------------------------------------------------------- runs

  lemma JStepKeeps(wdefs: WorkflowDefinitions, j: Journaled, step: JStep)
    requires JInvariant(j) && RecoveryInvariant(j) && JEnabled(wdefs, j, step) && Proper(wdefs, j, step)
    ensures JInvariant(JApply(wdefs, j, step))
  {
    if step.Schedule? || step.Work? || step.Crash? {
      SchedulerStepKeeps(wdefs, j, step);
    } else if step.Accept? {
      AcceptKeeps(wdefs, j, step);
    } else if step.Recover? {
      RecoverKeeps(wdefs, j, step);
    } else {
      RunnerStepKeeps(wdefs, j, step);
    }
  }

  lemma SchedulerStepKeeps(wdefs: WorkflowDefinitions, j: Journaled, step: JStep)
    requires JInvariant(j) && JEnabled(wdefs, j, step) && Proper(wdefs, j, step)
    requires step.Schedule? || step.Work? || step.Crash?
    ensures JInvariant(JApply(wdefs, j, step))
  {
    if step.Schedule? { ScheduleKeeps(wdefs, j, step); } else if step.Work? { WorkKeeps(wdefs, j, step); } else { CrashKeeps(wdefs, j, step); }
  }

  lemma RunnerStepKeeps(wdefs: WorkflowDefinitions, j: Journaled, step: JStep)
    requires JInvariant(j) && JEnabled(wdefs, j, step)
    requires step.Mark? || step.Mutate? || step.Conclusion? || step.Resume?
    ensures JInvariant(JApply(wdefs, j, step))
  {
    if step.Mutate? { MutateKeeps(wdefs, j, step); } else if step.Resume? { JournalKeeps(j, JApply(wdefs, j, step)); } else { MarkKeeps(wdefs, j, step); }
  }

  lemma JStepReconciles(wdefs: WorkflowDefinitions, j: Journaled, step: JStep)
    requires JInvariant(j) && RecoveryInvariant(j) && JEnabled(wdefs, j, step)
    ensures RecoveryInvariant(JApply(wdefs, j, step))
  {
    if step.Recover? {
      RecoverReconciles(wdefs, j, step);
    } else if step.Crash? {
      CrashReconciles(wdefs, j, step);
    } else {
      OthersServe(wdefs, j, step);
    }
  }

  lemma CrashReconciles(wdefs: WorkflowDefinitions, j: Journaled, step: JStep)
    requires step.Crash? && JEnabled(wdefs, j, step)
    ensures RecoveryInvariant(JApply(wdefs, j, step))
  {
  }

  /** Until recovery is over nothing else is done. */
  lemma OthersServe(wdefs: WorkflowDefinitions, j: Journaled, step: JStep)
    requires RecoveryInvariant(j) && JEnabled(wdefs, j, step) && !step.Recover? && !step.Crash?
    ensures JApply(wdefs, j, step).phase.Serving?
  {
  }

  lemma JFreshHolds(defs: Definitions, now: Time)
    ensures JInvariant(JFresh(defs, now)) && RecoveryInvariant(JFresh(defs, now))
  {
    FreshConsistent(defs, now);
  }

  lemma JFollowsKeeps(wdefs: WorkflowDefinitions, j: Journaled, step: JStep, j': Journaled)
    requires JInvariant(j) && RecoveryInvariant(j) && Proper(wdefs, j, step) && JFollows(wdefs, j, step, j')
    ensures JInvariant(j') && RecoveryInvariant(j')
  {
    JStepKeeps(wdefs, j, step);
    JStepReconciles(wdefs, j, step);
  }

  lemma {:induction false} JRunKeeps(wdefs: WorkflowDefinitions, states: seq<Journaled>, steps: seq<JStep>, n: nat)
    requires IsJRun(wdefs, states, steps) && n < |states|
    ensures JInvariant(states[n]) && RecoveryInvariant(states[n])
    decreases n
  {
    if n == 0 {
      var defs, now :| states[0] == JFresh(defs, now);
      JFreshHolds(defs, now);
    } else {
      JRunKeeps(wdefs, states, steps, n - 1);
      JFollowsKeeps(wdefs, states[n - 1], steps[n - 1], states[n]);
    }
  }

  /** In no run, with crashes at any step boundary, do two executions mutate for the
      same journaled removal. */
  lemma RemovalMutatesAtMostOnce(wdefs: WorkflowDefinitions, states: seq<Journaled>, steps: seq<JStep>, n: nat, i: nat, k: nat)
    requires IsJRun(wdefs, states, steps) && n < |states| && i < |states[n].mutated| && k < |states[n].mutated|
    requires states[n].mutated[i].event == states[n].mutated[k].event
    ensures states[n].mutated[i].carry.execution == states[n].mutated[k].carry.execution
  {
    JRunKeeps(wdefs, states, steps, n);
  }

  /** When recovery lets the scheduler go, every journaled removal is either queued
      with a trigger that has not ended, or settled. */
  lemma RecoverySettlesOrQueues(wdefs: WorkflowDefinitions, states: seq<Journaled>, steps: seq<JStep>, n: nat, id: nat)
    requires IsJRun(wdefs, states, steps) && n < |steps| && steps[n].Resume? && id in states[n + 1].events
    ensures var j := states[n + 1];
      Final(j.events[id].status) || (j.events[id].status.EvQueued? && Live(j.core.s.book, id))
  {
    JRunKeeps(wdefs, states, steps, n);
    assert Reconciled(states[n].core.s.book, states[n].events[id], id);
  }
}
