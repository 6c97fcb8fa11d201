/** A run in which two executions of one task and key are running at once. */
module SchedulerOverlap {
  import opened TaskTypes
  import opened SchedulerSpec
  import opened SchedulerInvariants
  import opened SchedulerRound
  import opened SchedulerRuns

  const TASK: string := "torrent-history"
  const INTERVAL: nat := 10

  /** A periodic task without resources, as the history sampling is registered. */
  function Sampling(): Definitions {
    map[TASK := Definition(INTERVAL, [], false, 0, PRIORITY_PERIODIC, RetryPolicy(3, 0, 0), RecoveryRetry, true, (active, kind) => true)]
  }

  function Key(): string { IntentKey(TASK, "") }

  /** Nothing waits, and the next tick of the task is due now. */
  ghost predicate DueNow(s: Scheduler, now: Time) {
    s.book.pending == map[] && s.book.workflows == map[] && s.book.periodicNext == map[TASK := now] && now > 0
  }

  /** No running execution covers the tick. */
  ghost predicate NoneCovers(s: Scheduler, running: seq<Id>, now: Time) {
    forall e :: e in running && e in s.book.executions ==> s.book.executions[e].coverage < now
  }

  function Tick(running: seq<Id>, now: Time): Step { RoundStep([Visit(TASK, running)], [], [Key()], now) }

  lemma {:induction false} NothingToJoin(b: Book, running: seq<Id>, d: Definition, req: Request)
    requires forall e :: e in running && e in b.executions ==> b.executions[e].coverage < req.coverage
    ensures FindAttach(b, running, d, req).None?
  {
    if running != [] { NothingToJoin(b, running[1..], d, req); }
  }

  lemma TickQueues(s: Scheduler, running: seq<Id>, now: Time)
    requires DueNow(s, now) && NoneCovers(s, running, now)
    ensures TickTask(Sampling(), s.book, running, TASK, now)
            == Enqueue(s.book, Key(), PeriodicRequest(TASK, now), now).(periodicNext := map[TASK := now + INTERVAL])
  {
    var req := PeriodicRequest(TASK, now);
    NothingToJoin(s.book, running, Sampling()[TASK], req);
    assert Normalized(Sampling()[TASK], req) == req;
    assert NextDue(now, INTERVAL, now) == now + INTERVAL;
    assert s.book.periodicNext[TASK := now + INTERVAL] == map[TASK := now + INTERVAL];
  }

  lemma NothingYields(b: Book, running: map<Id, seq<Claim>>)
    requires forall k :: k in b.pending ==> b.pending[k].priority < PRIORITY_MUTATION
    ensures Preempt(Sampling(), b, running) == b
  {
    assert Preempt(Sampling(), b, running).executions == b.executions;
  }

  lemma TickPrepares(s: Scheduler, running: seq<Id>, now: Time)
    requires DueNow(s, now) && NoneCovers(s, running, now) && Covers(running, s.running)
    ensures ValidVisits(Sampling(), s, [Visit(TASK, running)], [])
    ensures Prepared(Sampling(), map[], s, [Visit(TASK, running)], [], now)
            == s.(book := Enqueue(s.book, Key(), PeriodicRequest(TASK, now), now).(periodicNext := map[TASK := now + INTERVAL]))
  {
    TickQueues(s, running, now);
    var b := TickTask(Sampling(), s.book, running, TASK, now);
    assert TickTasks(Sampling(), b, [], now) == b;
    assert TickTasks(Sampling(), s.book, [Visit(TASK, running)], now) == b;
    assert TickWorkflows(Sampling(), map[], b, [], now) == b;
    NothingYields(b, s.running);
  }

  /** A lone ready intent without claims is admitted and leaves nothing behind. */
  lemma LoneIntentRuns(p: Scheduler, now: Time)
    requires p.book.pending.Keys == {Key()} && p.book.pending[Key()].task == TASK && p.book.pending[Key()].key == ""
    requires p.book.pending[Key()].notBefore == 0 && p.book.pending[Key()].deadline == 0
    ensures InOrder(Sampling(), p, [Key()], now)
    ensures var last := AdmitMany(Sampling(), p, [Key()], now);
      && (forall k :: !Candidate(Sampling(), last, k, now))
      && var s' := ScanNone(Sampling(), last, now); var e := p.book.sequence + 1;
      && s'.running == p.running[e := []] && e in s'.book.executions
      && s'.book.executions[e].task == TASK && s'.book.executions[e].key == "" && s'.book.executions[e].coverage == p.book.pending[Key()].coverage
      && (forall f :: f in p.book.executions && f != e ==> f in s'.book.executions && s'.book.executions[f] == p.book.executions[f])
      && s'.book.pending == map[] && s'.book.workflows == p.book.workflows && s'.book.periodicNext == p.book.periodicNext
      && s'.book.sequence == e
  {
    var defs, key := Sampling(), Key();
    assert Candidate(defs, p, key, now);
    assert Chosen(defs, p, key, now);
    var last := AdmitChosen(defs, p, key, now);
    assert InOrder(defs, last, [], now);
    assert [key][1..] == [];
    assert last.book.pending == map[];
  }

  /** What one more tick leaves behind: one more execution beside those that are
      running. */
  ghost predicate Ticked(sys: System, now: Time, sys': System) {
    var e := sys.s.book.sequence + 3;
    && sys'.defs == Sampling() && DueNow(sys'.s, now + INTERVAL)
    && sys'.s.running == sys.s.running[e := []] && e in sys'.s.book.executions && sys'.s.book.sequence == e
    && sys'.s.book.executions[e].task == TASK && sys'.s.book.executions[e].key == "" && sys'.s.book.executions[e].coverage == now
    && (forall f :: f in sys.s.book.executions && f != e ==> f in sys'.s.book.executions && sys'.s.book.executions[f] == sys.s.book.executions[f])
  }

  lemma TickRuns(sys: System, running: seq<Id>, now: Time) returns (sys': System)
    requires sys.defs == Sampling() && DueNow(sys.s, now) && NoneCovers(sys.s, running, now) && Covers(running, sys.s.running)
    ensures Follows(map[], sys, Tick(running, now), sys') && Ticked(sys, now, sys')
  {
    TickPrepares(sys.s, running, now);
    var p := Prepared(Sampling(), map[], sys.s, [Visit(TASK, running)], [], now);
    assert p.book.pending.Keys == {Key()};
    LoneIntentRuns(p, now);
    sys' := Apply(map[], sys, Tick(running, now));
  }

  ghost predicate Overlap(s: Scheduler, e: Id, f: Id) {
    && e != f && e in s.running && f in s.running && e in s.book.executions && f in s.book.executions
    && ExecutionKey(s.book.executions[e]) == ExecutionKey(s.book.executions[f])
  }

  lemma FreshIsDue(start: System)
    requires start == Fresh(Sampling(), 1)
    ensures start.defs == Sampling() && DueNow(start.s, 1 + INTERVAL) && start.s.running == map[] && start.s.book.sequence == 0
  {
    assert start.s.book.periodicNext == map[TASK := 1 + INTERVAL];
  }

  lemma FirstTick(start: System, first: System)
    requires start == Fresh(Sampling(), 1) && Ticked(start, 1 + INTERVAL, first)
    ensures DueNow(first.s, 1 + 2 * INTERVAL) && NoneCovers(first.s, [3], 1 + 2 * INTERVAL) && Covers([3], first.s.running)
  {
    FreshIsDue(start);
  }

  lemma SecondTick(start: System, first: System, second: System)
    requires start == Fresh(Sampling(), 1) && Ticked(start, 1 + INTERVAL, first) && Ticked(first, 1 + 2 * INTERVAL, second)
    ensures Overlap(second.s, 3, 6)
  {
    FreshIsDue(start);
  }

  lemma RunTicks(states: seq<System>, steps: seq<Step>, running: seq<Id>, now: Time) returns (sys: System)
    requires IsRun(map[], states, steps) && states[|steps|].defs == Sampling()
    requires var s := states[|steps|].s; DueNow(s, now) && NoneCovers(s, running, now) && Covers(running, s.running)
    ensures IsRun(map[], states + [sys], steps + [Tick(running, now)]) && Ticked(states[|steps|], now, sys)
  {
    sys := TickRuns(states[|steps|], running, now);
    RunGoesOn(map[], states, steps, Tick(running, now), sys);
  }

  /** An execution takes longer than the interval of its task, and the next tick,
      which it does not cover, is admitted beside it. */
  lemma OverlapIsReachable() returns (states: seq<System>, steps: seq<Step>)
    ensures IsRun(map[], states, steps) && |steps| == 2 && Overlap(states[2].s, 3, 6)
  {
    var start := Fresh(Sampling(), 1);
    FreshIsDue(start);
    RunStarts(map[], Sampling(), 1);
    var first := RunTicks([start], [], [], 1 + INTERVAL);
    FirstTick(start, first);
    states, steps := [start] + [first], [] + [Tick([], 1 + INTERVAL)];
    assert states[|steps|] == first;
    var second := RunTicks(states, steps, [3], 1 + 2 * INTERVAL);
    SecondTick(start, first, second);
    states, steps := states + [second], steps + [Tick([3], 1 + 2 * INTERVAL)];
  }
}
