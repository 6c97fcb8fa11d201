/** The bytes a plan promises against the bytes its actions free together.  Each
    action was estimated alone.  A file that several actions would each free is
    promised more than once; a file that only the actions together free is not
    promised at all. */
module PlannedBytes {
  import opened SetSums
  import opened FileTopology
  import opened ReclaimEstimate
  import opened Unlinking
  import opened CleanupCandidates
  import opened FairShare
  import opened CleanupPlan

  function AllPaths(sets: seq<set<Path>>): set<Path> {
    if sets == [] then {} else AllPaths(sets[..|sets| - 1]) + sets[|sets| - 1]
  }

  /** Removing these paths alone takes the last link of the file. */
  ghost predicate Takes(files: map<Path, File>, paths: set<Path>, i: Identity) {
    NamesOf(files, paths, i) != {} && |NamesOf(files, paths, i)| >= FactsOf(files, i).links
  }

  ghost function Takers(files: map<Path, File>, sets: seq<set<Path>>, i: Identity): nat {
    if sets == [] then 0
    else Takers(files, sets[..|sets| - 1], i) + if Takes(files, sets[|sets| - 1], i) then 1 else 0
  }

  ghost function Promised(files: map<Path, File>, sets: seq<set<Path>>): int {
    if sets == [] then 0 else Promised(files, sets[..|sets| - 1]) + Reclaimable(files, sets[|sets| - 1])
  }

  /** What the actions promise of one file. */
  ghost function PromisedBy(files: map<Path, File>, sets: seq<set<Path>>): Identity -> int {
    i => Takers(files, sets, i) * FactsOf(files, i).size
  }

  /** Promised by a second action and any further one. */
  ghost function TwiceBy(files: map<Path, File>, sets: seq<set<Path>>): Identity -> int {
    i => if Takers(files, sets, i) > 1 then (Takers(files, sets, i) - 1) * FactsOf(files, i).size else 0
  }

  /** Freed by the actions together and by none of them alone. */
  ghost function TogetherBy(files: map<Path, File>, sets: seq<set<Path>>): Identity -> int {
    i => if Takers(files, sets, i) == 0 then Gain(files, AllPaths(sets), i) else 0
  }

  ghost function Twice(files: map<Path, File>, sets: seq<set<Path>>): int {
    Sum(Touched(files, AllPaths(sets)), TwiceBy(files, sets))
  }

  ghost function Together(files: map<Path, File>, sets: seq<set<Path>>): int {
    Sum(Touched(files, AllPaths(sets)), TogetherBy(files, sets))
  }

  // -------------------------------------------------------------- accounting

  lemma OneMorePromise(files: map<Path, File>, sets: seq<set<Path>>, i: Identity)
    requires sets != []
    ensures var front, last := sets[..|sets| - 1], sets[|sets| - 1];
      PromisedBy(files, sets)(i) == PromisedBy(files, front)(i) + GainBy(files, last)(i)
  {
    var front, last := sets[..|sets| - 1], sets[|sets| - 1];
    var n, size := Takers(files, front, i), FactsOf(files, i).size;
    OneTimeMore(n, size);
  }

  lemma OneTimeMore(n: int, size: int)
    ensures (n + 1) * size == n * size + size
  {
  }

  lemma {:induction false} PromisedOver(files: map<Path, File>, sets: seq<set<Path>>, universe: set<Identity>)
    requires Touched(files, AllPaths(sets)) <= universe
    ensures Promised(files, sets) == Sum(universe, PromisedBy(files, sets))
    decreases |sets|
  {
    if sets == [] {
      assert forall i :: PromisedBy(files, sets)(i) == 0;
      SumNarrow({}, universe, PromisedBy(files, sets));
    } else {
      var front, last := sets[..|sets| - 1], sets[|sets| - 1];
      TouchedMonotone(files, AllPaths(front), AllPaths(sets));
      TouchedMonotone(files, last, AllPaths(sets));
      PromisedOver(files, front, universe);
      ReclaimableOver(files, last, universe);
      forall i | i in universe { OneMorePromise(files, sets, i); }
      SumPlus(universe, PromisedBy(files, front), GainBy(files, last), PromisedBy(files, sets));
    }
  }

  /** What one action takes, all of them take. */
  lemma {:induction false} TakenByAll(files: map<Path, File>, sets: seq<set<Path>>, i: Identity)
    requires Takers(files, sets, i) > 0
    ensures Takes(files, AllPaths(sets), i)
    decreases |sets|
  {
    var front, last := sets[..|sets| - 1], sets[|sets| - 1];
    var part := if Takes(files, last, i) then last else AllPaths(front);
    if !Takes(files, last, i) { TakenByAll(files, front, i); }
    assert NamesOf(files, part, i) <= NamesOf(files, AllPaths(sets), i);
    SubsetSize(NamesOf(files, part, i), NamesOf(files, AllPaths(sets), i));
    var p :| p in NamesOf(files, part, i);
    assert p in NamesOf(files, AllPaths(sets), i);
  }

  lemma FileAccount(files: map<Path, File>, sets: seq<set<Path>>, i: Identity)
    ensures PromisedBy(files, sets)(i) + TogetherBy(files, sets)(i) == GainBy(files, AllPaths(sets))(i) + TwiceBy(files, sets)(i)
  {
    var n, size := Takers(files, sets, i), FactsOf(files, i).size;
    if n > 0 {
      TakenByAll(files, sets, i);
      assert GainBy(files, AllPaths(sets))(i) == size;
      OneTimeMore(n - 1, size);
    }
  }

  /** The promise and what is really freed differ by exactly the bytes promised more
      than once and the bytes only freed together. */
  lemma PromiseAccount(files: map<Path, File>, sets: seq<set<Path>>)
    ensures Promised(files, sets) + Together(files, sets) == Reclaimable(files, AllPaths(sets)) + Twice(files, sets)
  {
    var universe := Touched(files, AllPaths(sets));
    var promised, together := PromisedBy(files, sets), TogetherBy(files, sets);
    var gain, twice := GainBy(files, AllPaths(sets)), TwiceBy(files, sets);
    PromisedOver(files, sets, universe);
    forall i | i in universe { FileAccount(files, sets, i); }
    var both := (i: Identity) => promised(i) + together(i);
    SumPlus(universe, promised, together, both);
    SumPlus(universe, gain, twice, both);
  }

  /** A plan keeps its promise exactly if no more is promised twice than is freed
      only together. */
  lemma PromiseKeptIff(files: map<Path, File>, sets: seq<set<Path>>)
    ensures Promised(files, sets) <= Reclaimable(files, AllPaths(sets)) <==> Twice(files, sets) <= Together(files, sets)
  {
    PromiseAccount(files, sets);
  }

  // ------------------------------------------------------ when nothing is twice

  ghost predicate NothingTwice(files: map<Path, File>, sets: seq<set<Path>>) {
    forall i :: i in Touched(files, AllPaths(sets)) ==> Takers(files, sets, i) <= 1
  }

  lemma {:induction false} SumNotNegative(s: set<Identity>, f: Identity -> int)
    requires forall i :: i in s ==> f(i) >= 0
    ensures Sum(s, f) >= 0
    decreases |s|
  {
    if s != {} {
      var i :| i in s;
      SumRemove(s, f, i);
      SumNotNegative(s - {i}, f);
    }
  }

  lemma NothingTwiceKeepsPromise(files: map<Path, File>, sets: seq<set<Path>>)
    requires NothingTwice(files, sets)
    ensures Promised(files, sets) <= Reclaimable(files, AllPaths(sets))
  {
    var universe := Touched(files, AllPaths(sets));
    PromiseKeptIff(files, sets);
    SumNarrow({}, universe, TwiceBy(files, sets));
    SumNotNegative(universe, TogetherBy(files, sets));
  }

  ghost predicate PathDisjoint(sets: seq<set<Path>>) { forall j, k :: 0 <= j < k < |sets| ==> sets[j] !! sets[k] }

  lemma {:induction false} InSomeSet(sets: seq<set<Path>>, p: Path)
    ensures p in AllPaths(sets) <==> exists k :: 0 <= k < |sets| && p in sets[k]
    decreases |sets|
  {
    if sets != [] { InSomeSet(sets[..|sets| - 1], p); }
  }

  /** Actions without a common path never promise a file twice. */
  lemma {:induction false} DisjointTakenOnce(files: map<Path, File>, sets: seq<set<Path>>, i: Identity)
    requires Consistent(files) && LinksCoverNames(files) && PathDisjoint(sets)
    ensures Takers(files, sets, i) <= 1
    decreases |sets|
  {
    if sets != [] {
      var front, last := sets[..|sets| - 1], sets[|sets| - 1];
      DisjointTakenOnce(files, front, i);
      if Takers(files, front, i) > 0 {
        TakenByAll(files, front, i);
        forall p | p in last ensures p !in AllPaths(front) { InSomeSet(front, p); }
        TakenOnce(files, AllPaths(front), last, i);
      }
    }
  }

  /** Two disjoint sets of paths cannot both hold every link of a file. */
  lemma TakenOnce(files: map<Path, File>, a: set<Path>, b: set<Path>, i: Identity)
    requires Consistent(files) && LinksCoverNames(files) && a !! b && Takes(files, a, i)
    ensures !Takes(files, b, i)
  {
    var p :| p in NamesOf(files, a, i);
    FactsAgree(files, p);
    var inA, inB, all := NamesOf(files, a, i), NamesOf(files, b, i), NamesOf(files, files.Keys, i);
    assert inA !! inB && inA + inB <= all;
    SubsetSize(inA + inB, all);
    assert |inA + inB| == |inA| + |inB|;
  }

  lemma DisjointNothingTwice(files: map<Path, File>, sets: seq<set<Path>>)
    requires Consistent(files) && LinksCoverNames(files) && PathDisjoint(sets)
    ensures NothingTwice(files, sets)
  {
    forall i { DisjointTakenOnce(files, sets, i); }
  }

  // --------------------------------------------------------------- the planner

  /** Each action's bytes are the estimate of the paths it removes. */
  ghost predicate Estimated(files: map<Path, File>, actions: seq<Action>, sets: seq<set<Path>>) {
    |sets| == |actions| && forall k :: 0 <= k < |actions| ==> actions[k].bytes == Reclaimable(files, sets[k])
  }

  lemma {:induction false} BytesArePromised(files: map<Path, File>, actions: seq<Action>, sets: seq<set<Path>>)
    requires Estimated(files, actions, sets)
    ensures Bytes(actions) == Promised(files, sets)
    decreases |actions|
  {
    if actions != [] { BytesArePromised(files, actions[..|actions| - 1], sets[..|sets| - 1]); }
  }

  /** The bytes of the selected actions are freed by unlinking all their paths, in
      any order, if no file is taken by two of them. */
  lemma SelectedBytesAreFreed(files: map<Path, File>, d: Disk, order: seq<Path>, actions: seq<Action>, sets: seq<set<Path>>)
    requires Sane(d) && Describes(files, d) && AllPaths(sets) <= files.Keys && Permutes(order, AllPaths(sets))
    requires Estimated(files, actions, sets) && NothingTwice(files, sets)
    ensures Bytes(actions) <= UnlinkAll(d, order).1
  {
    BytesArePromised(files, actions, sets);
    NothingTwiceKeepsPromise(files, sets);
    ReclaimableIsFreed(files, d, order, AllPaths(sets));
  }

  /** A plan that reaches its need on paper reaches its target on the disk, if no file
      is taken by two of its actions. */
  lemma PlanReachesTarget(plan: Plan, target: real, care: real, mediaTier: seq<Action>, torrentTier: seq<Action>,
                          files: map<Path, File>, d: Disk, order: seq<Path>, sets: seq<set<Path>>)
    requires plan.Plan? && plan.selectedBytes == Bytes(plan.actions)
    requires WithinTarget(plan.usage.stewarrUsed - plan.need, plan.usage.usable, target)
    requires Fulfils(mediaTier, torrentTier, care, plan.need, plan.actions) && plan.need <= Bytes(torrentTier) + Bytes(mediaTier)
    requires Sane(d) && Describes(files, d) && AllPaths(sets) <= files.Keys && Permutes(order, AllPaths(sets))
    requires Estimated(files, plan.actions, sets) && NothingTwice(files, sets)
    ensures plan.need <= plan.selectedBytes <= UnlinkAll(d, order).1
    ensures WithinTarget(plan.usage.stewarrUsed - UnlinkAll(d, order).1, plan.usage.usable, target)
  {
    SelectedBytesAreFreed(files, d, order, plan.actions, sets);
    assert (plan.usage.stewarrUsed - UnlinkAll(d, order).1) as real * 100.0 <= (plan.usage.stewarrUsed - plan.need) as real * 100.0;
  }

  // ------------------------------------------------------------- for every size

  /** The same files with other sizes. */
  function Resized(files: map<Path, File>, size: Identity -> nat): map<Path, File> {
    map p | p in files :: files[p].(size := size(files[p].identity))
  }

  ghost predicate KeepsPromise(files: map<Path, File>, sets: seq<set<Path>>) {
    Promised(files, sets) <= Reclaimable(files, AllPaths(sets))
  }

  lemma ResizedNames(files: map<Path, File>, size: Identity -> nat, paths: set<Path>, i: Identity)
    ensures NamesOf(Resized(files, size), paths, i) == NamesOf(files, paths, i)
    ensures Touched(Resized(files, size), paths) == Touched(files, paths)
  {
    assert forall p :: Countable(Resized(files, size), p) <==> Countable(files, p);
    assert forall p :: Countable(files, p) ==> Resized(files, size)[p].identity == files[p].identity;
  }

  lemma ResizedFacts(files: map<Path, File>, size: Identity -> nat, p: Path)
    requires Consistent(files) && Countable(files, p)
    ensures var i := files[p].identity;
      FactsOf(Resized(files, size), i).links == FactsOf(files, i).links && FactsOf(Resized(files, size), i).size == size(i)
  {
    assert Consistent(Resized(files, size));
    FactsAgree(files, p);
    FactsAgree(Resized(files, size), p);
  }

  lemma ResizedTakes(files: map<Path, File>, size: Identity -> nat, paths: set<Path>, i: Identity)
    requires Consistent(files)
    ensures Takes(Resized(files, size), paths, i) <==> Takes(files, paths, i)
  {
    ResizedNames(files, size, paths, i);
    if NamesOf(files, paths, i) != {} {
      var p :| p in NamesOf(files, paths, i);
      ResizedFacts(files, size, p);
    }
  }

  lemma {:induction false} ResizedTakers(files: map<Path, File>, size: Identity -> nat, sets: seq<set<Path>>, i: Identity)
    requires Consistent(files)
    ensures Takers(Resized(files, size), sets, i) == Takers(files, sets, i)
    decreases |sets|
  {
    if sets != [] {
      ResizedTakers(files, size, sets[..|sets| - 1], i);
      ResizedTakes(files, size, sets[|sets| - 1], i);
    }
  }

  lemma OneOnly(s: set<Identity>, f: Identity -> int, i: Identity)
    requires i in s && forall j :: j in s && j != i ==> f(j) == 0
    ensures Sum(s, f) == f(i)
  {
    SumNarrow({i}, s, f);
    SumRemove({i}, f, i);
    assert {i} - {i} == {};
  }

  function OnlyThis(i: Identity): Identity -> nat { (j: Identity) => if j == i then 1 else 0 }

  lemma OnlyThisFacts(files: map<Path, File>, paths: set<Path>, i: Identity, j: Identity)
    requires Consistent(files) && j in Touched(files, paths)
    ensures FactsOf(Resized(files, OnlyThis(i)), j).size == if j == i then 1 else 0
  {
    var p :| p in paths && Countable(files, p) && files[p].identity == j;
    ResizedFacts(files, OnlyThis(i), p);
  }

  /** If a file is taken twice, give it all the bytes. */
  lemma TwiceBreaksPromise(files: map<Path, File>, sets: seq<set<Path>>, i: Identity)
    requires Consistent(files) && i in Touched(files, AllPaths(sets)) && Takers(files, sets, i) > 1
    ensures !KeepsPromise(Resized(files, OnlyThis(i)), sets)
  {
    var resized, all := Resized(files, OnlyThis(i)), AllPaths(sets);
    var universe := Touched(files, all);
    ResizedNames(files, OnlyThis(i), all, i);
    ResizedTakers(files, OnlyThis(i), sets, i);
    forall j | j in universe
      ensures FactsOf(resized, j).size == if j == i then 1 else 0
    {
      OnlyThisFacts(files, all, i, j);
    }
    PromisedOver(resized, sets, universe);
    OneOnly(universe, PromisedBy(resized, sets), i);
    OneOnly(universe, GainBy(resized, all), i);
  }

  /** A plan keeps its promise whatever the files weigh, exactly if no file is taken
      by two of its actions. */
  lemma PromiseKeptForAllSizesIff(files: map<Path, File>, sets: seq<set<Path>>)
    requires Consistent(files)
    ensures (forall size: Identity -> nat :: KeepsPromise(Resized(files, size), sets)) <==> NothingTwice(files, sets)
  {
    if NothingTwice(files, sets) {
      forall size: Identity -> nat
        ensures KeepsPromise(Resized(files, size), sets)
      {
        forall i | i in Touched(files, AllPaths(sets)) { ResizedTakers(files, size, sets, i); }
        ResizedNames(files, size, AllPaths(sets), Identity(0, 0));
        NothingTwiceKeepsPromise(Resized(files, size), sets);
      }
    } else {
      var i :| i in Touched(files, AllPaths(sets)) && Takers(files, sets, i) > 1;
      TwiceBreaksPromise(files, sets, i);
      assert !KeepsPromise(Resized(files, OnlyThis(i)), sets);
    }
  }
}
