/** Why a workflow is where it is: the chain of successful executions that
    carried it through its steps since it was last advanced. */
module WorkflowChains {
  import opened TaskTypes
  import opened SchedulerSpec
  import opened SchedulerRound
  import opened SchedulerTiming

  /** A successful execution that has finished. */
  datatype Success = Success(execution: Id, task: string, startedAt: Time, finishedAt: Time)

  function Front(steps: seq<string>): seq<string>
    requires steps != []
  {
    steps[..|steps| - 1]
  }

  function Last(steps: seq<string>): string
    requires steps != []
  {
    steps[|steps| - 1]
  }

  /** p ran the given task from no earlier than begin until exactly end. */
  ghost predicate Runs(successes: set<Success>, p: Success, task: string, begin: Time, end: Time) {
    p in successes && p.task == task && begin <= p.startedAt && p.finishedAt == end
  }

  /** The given steps have each been run successfully, one after the other,
      beginning at since and ending at ready. */
  ghost predicate Justified(successes: set<Success>, done: seq<string>, since: Time, ready: Time)
    decreases |done|
  {
    if done == [] then ready == since
    else exists p, r: Time :: Runs(successes, p, Last(done), r, ready) && Justified(successes, Front(done), since, r)
  }

  ghost predicate WorkflowHolds(wdefs: WorkflowDefinitions, w: Workflow, successes: set<Success>, since: Time) {
    w.definition in wdefs ==>
      var steps := wdefs[w.definition];
      && w.step <= |steps|
      && Justified(successes, steps[..w.step], since, w.readyAfter)
      && (w.state.WfSucceeded? ==> w.step == |steps|)
      && (!Idle(w) ==> w.step < |steps|)
  }

  ghost predicate ChainsHold(wdefs: WorkflowDefinitions, b: Book, successes: set<Success>, advanced: map<string, Time>) {
    forall i :: i in b.workflows ==> i in advanced && WorkflowHolds(wdefs, b.workflows[i], successes, advanced[i])
  }

  lemma {:induction false} JustifiedMonotone(more: set<Success>, successes: set<Success>, done: seq<string>, since: Time, ready: Time)
    requires successes <= more && Justified(successes, done, since, ready)
    ensures Justified(more, done, since, ready)
    decreases |done|
  {
    if done != [] {
      var p, r: Time :| Runs(successes, p, Last(done), r, ready) && Justified(successes, Front(done), since, r);
      JustifiedMonotone(more, successes, Front(done), since, r);
      assert Runs(more, p, Last(done), r, ready);
    }
  }

  /** A workflow moves on only through satisfaction or a new advance. */
  ghost predicate SameProgress(w: Workflow, w': Workflow) {
    && w'.definition == w.definition && w'.step == w.step && w'.readyAfter == w.readyAfter
    && (w'.state.WfSucceeded? ==> w.state.WfSucceeded?)
    && (Idle(w) ==> Idle(w'))
  }

  ghost predicate SameProgressAll(b: Book, b': Book) {
    && b'.workflows.Keys == b.workflows.Keys
    && forall i :: i in b.workflows ==> SameProgress(b.workflows[i], b'.workflows[i])
  }

  lemma SameProgressKeeps(wdefs: WorkflowDefinitions, b: Book, b': Book, successes: set<Success>, advanced: map<string, Time>)
    requires ChainsHold(wdefs, b, successes, advanced) && SameProgressAll(b, b')
    ensures ChainsHold(wdefs, b', successes, advanced)
  {
    forall i | i in b'.workflows
      ensures WorkflowHolds(wdefs, b'.workflows[i], successes, advanced[i])
    {
      assert WorkflowHolds(wdefs, b.workflows[i], successes, advanced[i]);
      assert SameProgress(b.workflows[i], b'.workflows[i]);
    }
  }

  lemma MoreSuccessesKeep(wdefs: WorkflowDefinitions, b: Book, successes: set<Success>, more: set<Success>, advanced: map<string, Time>)
    requires ChainsHold(wdefs, b, successes, advanced) && successes <= more
    ensures ChainsHold(wdefs, b, more, advanced)
  {
    forall i | i in b.workflows
      ensures WorkflowHolds(wdefs, b.workflows[i], more, advanced[i])
    {
      var w := b.workflows[i];
      assert WorkflowHolds(wdefs, w, successes, advanced[i]);
      if w.definition in wdefs { JustifiedMonotone(more, successes, wdefs[w.definition][..w.step], advanced[i], w.readyAfter); }
    }
  }

  lemma {:induction false} TickWorkflowsProgress(defs: Definitions, wdefs: WorkflowDefinitions, b: Book, visits: seq<Visit>, now: Time)
    requires forall v :: v in visits ==> v.subject in b.workflows
    ensures SameProgressAll(b, TickWorkflows(defs, wdefs, b, visits, now))
    decreases |visits|
  {
    if visits != [] {
      var v := visits[0];
      TickNeverSucceeds(defs, wdefs, b, v.running, v.subject, now);
      var b1 := TickWorkflow(defs, wdefs, b, v.running, v.subject, now);
      TickWorkflowsProgress(defs, wdefs, b1, visits[1..], now);
      var b2 := TickWorkflows(defs, wdefs, b, visits, now);
      forall i | i in b.workflows
        ensures SameProgress(b.workflows[i], b2.workflows[i])
      {
        assert SameProgress(b.workflows[i], b1.workflows[i]) && SameProgress(b1.workflows[i], b2.workflows[i]);
      }
    }
  }

  lemma TickNeverSucceeds(defs: Definitions, wdefs: WorkflowDefinitions, b: Book, running: seq<Id>, instance: string, now: Time)
    requires instance in b.workflows
    ensures SameProgressAll(b, TickWorkflow(defs, wdefs, b, running, instance, now))
  {
    var b' := TickWorkflow(defs, wdefs, b, running, instance, now);
    TickWorkflowEffect(defs, wdefs, b, running, instance, now);
    forall i | i in b.workflows
      ensures SameProgress(b.workflows[i], b'.workflows[i])
    {
      if i != instance { assert b'.workflows[i] == b.workflows[i]; }
    }
  }

  /** A satisfied workflow has a chain one step longer. */
  lemma SatisfyOneKeeps(wdefs: WorkflowDefinitions, b: Book, instance: string, x: Execution, now: Time, p: Success,
                        successes: set<Success>, advanced: map<string, Time>)
    requires ChainsHold(wdefs, b, successes, advanced) && instance in b.workflows
    requires p in successes && p.task == x.task && p.startedAt == x.startedAt && p.finishedAt == x.finishedAt
    ensures ChainsHold(wdefs, SatisfyOne(wdefs, b, instance, x, now), successes, advanced)
  {
    var b' := SatisfyOne(wdefs, b, instance, x, now);
    var w := b.workflows[instance];
    assert WorkflowHolds(wdefs, w, successes, advanced[instance]);
    if Satisfies(wdefs, w, x) {
      var steps := wdefs[w.definition];
      var done := steps[..w.step + 1];
      assert Front(done) == steps[..w.step] && Last(done) == x.task;
      assert Runs(successes, p, Last(done), w.readyAfter, x.finishedAt);
      assert Justified(successes, done, advanced[instance], x.finishedAt);
      assert WorkflowHolds(wdefs, b'.workflows[instance], successes, advanced[instance]);
    }
    forall i | i in b'.workflows
      ensures WorkflowHolds(wdefs, b'.workflows[i], successes, advanced[i])
    {
      if i != instance { assert WorkflowHolds(wdefs, b.workflows[i], successes, advanced[i]); }
    }
  }

  lemma {:induction false} SatisfyAllChains(wdefs: WorkflowDefinitions, b: Book, order: seq<string>, x: Execution, now: Time, p: Success,
                                            successes: set<Success>, advanced: map<string, Time>)
    requires ChainsHold(wdefs, b, successes, advanced)
    requires p in successes && p.task == x.task && p.startedAt == x.startedAt && p.finishedAt == x.finishedAt
    ensures ChainsHold(wdefs, SatisfyAll(wdefs, b, order, x, now), successes, advanced)
    decreases |order|
  {
    if order != [] {
      if order[0] in b.workflows {
        SatisfyOneKeeps(wdefs, b, order[0], x, now, p, successes, advanced);
        SatisfyAllChains(wdefs, SatisfyOne(wdefs, b, order[0], x, now), order[1..], x, now, p, successes, advanced);
      } else {
        SatisfyAllChains(wdefs, b, order[1..], x, now, p, successes, advanced);
      }
    }
  }

  lemma AdvanceChains(wdefs: WorkflowDefinitions, b: Book, definition: string, key: string, quiet: nat, maximum: nat, now: Time,
                      successes: set<Success>, advanced: map<string, Time>)
    requires ChainsHold(wdefs, b, successes, advanced)
    requires forall d :: d in wdefs ==> wdefs[d] != []
    ensures ChainsHold(wdefs, Advance(b, definition, key, quiet, maximum, now), successes, advanced[definition + ":" + key := now])
  {
    var instance := definition + ":" + key;
    var b' := Advance(b, definition, key, quiet, maximum, now);
    var advanced' := advanced[instance := now];
    forall i | i in b'.workflows
      ensures i in advanced' && WorkflowHolds(wdefs, b'.workflows[i], successes, advanced'[i])
    {
      if i != instance { assert WorkflowHolds(wdefs, b.workflows[i], successes, advanced[i]); }
    }
  }

  // ---------------------------------------------------------------- the chain

  ghost predicate IsChain(chain: seq<Success>, successes: set<Success>, steps: seq<string>, since: Time) {
    && |chain| == |steps|
    && (forall i :: 0 <= i < |chain| ==> chain[i] in successes && chain[i].task == steps[i])
    && (|chain| > 0 ==> chain[0].startedAt >= since)
    && (forall i :: 0 < i < |chain| ==> chain[i].startedAt >= chain[i - 1].finishedAt)
  }

  lemma {:induction false} JustifiedChain(successes: set<Success>, done: seq<string>, since: Time, ready: Time) returns (chain: seq<Success>)
    requires Justified(successes, done, since, ready)
    ensures IsChain(chain, successes, done, since)
    ensures ready == if done == [] then since else chain[|done| - 1].finishedAt
    decreases |done|
  {
    if done == [] {
      chain := [];
    } else {
      var p, r: Time :| Runs(successes, p, Last(done), r, ready) && Justified(successes, Front(done), since, r);
      var front := JustifiedChain(successes, Front(done), since, r);
      chain := front + [p];
    }
  }
}
