/** What removing a set of paths would free, by counting links per physical file. */
module ReclaimEstimate {
  import opened SetSums
  import opened FileTopology

  /** Names of one file agree on its size and link count. */
  predicate Consistent(files: map<Path, File>) {
    forall p, q :: p in files && q in files && SameFile(files, p, q) ==>
      files[p].size == files[q].size && files[p].links == files[q].links
  }

  /** ... and there are at least as many links as names that are known. */
  ghost predicate LinksCoverNames(files: map<Path, File>) {
    forall p :: p in files && Countable(files, p) ==> |NamesOf(files, files.Keys, files[p].identity)| <= files[p].links
  }

  function NamesOf(files: map<Path, File>, paths: set<Path>, i: Identity): set<Path> {
    set p | p in paths && Countable(files, p) && files[p].identity == i
  }

  function Touched(files: map<Path, File>, paths: set<Path>): set<Identity> {
    set p | p in paths && Countable(files, p) :: files[p].identity
  }

  /** Size and link count of a physical file, read off any of its names. */
  ghost function FactsOf(files: map<Path, File>, i: Identity): File {
    if exists p :: p in files && Countable(files, p) && files[p].identity == i
    then var p :| p in files && Countable(files, p) && files[p].identity == i; files[p]
    else File("", 0, false, false, i, 1)
  }

  lemma FactsAgree(files: map<Path, File>, p: Path)
    requires Consistent(files) && Countable(files, p)
    ensures FactsOf(files, files[p].identity).size == files[p].size && FactsOf(files, files[p].identity).links == files[p].links
  {
  }

  /** What removing these paths gains from one physical file: all of it or nothing. */
  ghost function Gain(files: map<Path, File>, paths: set<Path>, i: Identity): int {
    var names := NamesOf(files, paths, i);
    if names != {} && |names| >= FactsOf(files, i).links then FactsOf(files, i).size else 0
  }

  ghost function Kept(files: map<Path, File>, paths: set<Path>, i: Identity): int {
    var names := NamesOf(files, paths, i);
    if names != {} && |names| < FactsOf(files, i).links then FactsOf(files, i).size else 0
  }

  ghost function GainBy(files: map<Path, File>, paths: set<Path>): Identity -> int { i => Gain(files, paths, i) }

  ghost function KeptBy(files: map<Path, File>, paths: set<Path>): Identity -> int { i => Kept(files, paths, i) }

  ghost function SizeBy(files: map<Path, File>): Identity -> int { i => FactsOf(files, i).size }

  ghost function Reclaimable(files: map<Path, File>, paths: set<Path>): int {
    Sum(Touched(files, paths), GainBy(files, paths))
  }

  ghost function SharedBytes(files: map<Path, File>, paths: set<Path>): int {
    Sum(Touched(files, paths), KeptBy(files, paths))
  }

  ghost function TotalBytes(files: map<Path, File>, paths: set<Path>): int {
    Sum(Touched(files, paths), SizeBy(files))
  }

  lemma TouchedIff(files: map<Path, File>, paths: set<Path>, i: Identity)
    ensures i in Touched(files, paths) <==> NamesOf(files, paths, i) != {}
  {
    if i in Touched(files, paths) {
      var p :| p in paths && Countable(files, p) && files[p].identity == i;
      assert p in NamesOf(files, paths, i);
    }
    if NamesOf(files, paths, i) != {} {
      var p :| p in NamesOf(files, paths, i);
    }
  }

  // ---------------------------------------------------------------- estimate

  datatype Estimate = Estimate(known: bool, reclaimable: int, shared: int, total: int, files: nat, sharedFiles: int, unknown: nat)

  datatype Usage = Usage(size: nat, links: nat, selected: nat)

  /** How often each physical file among these paths is named. */
  ghost predicate Counted(files: map<Path, File>, uses: map<Identity, Usage>, paths: set<Path>) {
    && uses.Keys == Touched(files, paths)
    && forall i :: i in uses ==> uses[i] == Usage(FactsOf(files, i).size, FactsOf(files, i).links, |NamesOf(files, paths, i)|)
  }

  ghost function Countables(files: map<Path, File>, paths: set<Path>): set<Path> { set p | p in paths && Countable(files, p) }

  ghost function Unknowns(files: map<Path, File>, paths: set<Path>): set<Path> { set p | p in paths && !Countable(files, p) }

  /** One pass over the selected paths counts, per physical file, how many of its
      links are selected. */
  method CountLinks(files: map<Path, File>, selected: set<Path>) returns (uses: map<Identity, Usage>, countable: nat, unknown: nat)
    requires Consistent(files)
    ensures Counted(files, uses, selected)
    ensures unknown == |Unknowns(files, selected)| && countable == |Countables(files, selected)|
  {
    uses, countable, unknown := map[], 0, 0;
    var todo := selected;
    ghost var done: set<Path> := {};
    while todo != {}
      invariant done !! todo && done + todo == selected
      invariant Counted(files, uses, done)
      invariant unknown == |Unknowns(files, done)| && countable == |Countables(files, done)|
      decreases |todo|
    {
      var p :| p in todo;
      todo := todo - {p};
      TallyStep(files, done, p);
      if p !in files || !files[p].present || !files[p].known || files[p].links == 0 {
        unknown := unknown + 1;
        CountedSkip(files, uses, done, p);
      } else {
        var f := files[p];
        countable := countable + 1;
        CountedStep(files, uses, done, p);
        var use := if f.identity in uses then uses[f.identity] else Usage(f.size, f.links, 0);
        uses := uses[f.identity := use.(selected := use.selected + 1)];
      }
      done := done + {p};
    }
    assert done == selected;
  }

  lemma TallyStep(files: map<Path, File>, done: set<Path>, p: Path)
    requires p !in done
    ensures |Unknowns(files, done + {p})| == |Unknowns(files, done)| + (if Countable(files, p) then 0 else 1)
    ensures |Countables(files, done + {p})| == |Countables(files, done)| + (if Countable(files, p) then 1 else 0)
  {
    CountStep(files, done, p);
  }

  lemma CountedSkip(files: map<Path, File>, uses: map<Identity, Usage>, done: set<Path>, p: Path)
    requires p !in done && Counted(files, uses, done) && !Countable(files, p)
    ensures Counted(files, uses, done + {p})
  {
    CountStep(files, done, p);
  }

  function OneMore(uses: map<Identity, Usage>, f: File): Usage {
    var use := if f.identity in uses then uses[f.identity] else Usage(f.size, f.links, 0);
    use.(selected := use.selected + 1)
  }

  lemma CountedStep(files: map<Path, File>, uses: map<Identity, Usage>, done: set<Path>, p: Path)
    requires Consistent(files) && p !in done && Counted(files, uses, done) && Countable(files, p)
    ensures Counted(files, uses[files[p].identity := OneMore(uses, files[p])], done + {p})
  {
    var f := files[p];
    var after := uses[f.identity := OneMore(uses, f)];
    CountedKeys(files, done, p);
    assert after.Keys == uses.Keys + {f.identity};
    CountedOne(files, uses, done, p);
    forall i | i in after && i != f.identity
      ensures after[i] == Usage(FactsOf(files, i).size, FactsOf(files, i).links, |NamesOf(files, done + {p}, i)|)
    {
      NamesElsewhere(files, done, p, i);
    }
  }

  lemma CountedKeys(files: map<Path, File>, done: set<Path>, p: Path)
    requires p !in done && Countable(files, p)
    ensures Touched(files, done + {p}) == Touched(files, done) + {files[p].identity}
  {
    CountStep(files, done, p);
  }

  lemma NamesElsewhere(files: map<Path, File>, done: set<Path>, p: Path, i: Identity)
    requires p !in done && Countable(files, p) && i != files[p].identity
    ensures NamesOf(files, done + {p}, i) == NamesOf(files, done, i)
  {
  }

  /** The count of the file named by p. */
  lemma CountedOne(files: map<Path, File>, uses: map<Identity, Usage>, done: set<Path>, p: Path)
    requires Consistent(files) && p !in done && Counted(files, uses, done) && Countable(files, p)
    ensures var i := files[p].identity;
      OneMore(uses, files[p]) == Usage(FactsOf(files, i).size, FactsOf(files, i).links, |NamesOf(files, done + {p}, i)|)
  {
    var i := files[p].identity;
    CountStep(files, done, p);
    FactsAgree(files, p);
    TouchedIff(files, done, i);
    assert |NamesOf(files, done + {p}, i)| == |NamesOf(files, done, i)| + 1;
  }

  lemma CountStep(files: map<Path, File>, done: set<Path>, p: Path)
    requires p !in done
    ensures !Countable(files, p) ==>
      && Touched(files, done + {p}) == Touched(files, done)
      && (forall i :: NamesOf(files, done + {p}, i) == NamesOf(files, done, i))
    ensures Countable(files, p) ==>
      && Touched(files, done + {p}) == Touched(files, done) + {files[p].identity}
      && NamesOf(files, done + {p}, files[p].identity) == NamesOf(files, done, files[p].identity) + {p}
      && p !in NamesOf(files, done, files[p].identity)
      && (forall i :: i != files[p].identity ==> NamesOf(files, done + {p}, i) == NamesOf(files, done, i))
    ensures Unknowns(files, done + {p}) == Unknowns(files, done) + (if Countable(files, p) then {} else {p})
    ensures Countables(files, done + {p}) == Countables(files, done) + (if Countable(files, p) then {p} else {})
  {
    if Countable(files, p) {
      forall i | i in Touched(files, done) + {files[p].identity}
        ensures i in Touched(files, done + {p})
      {
        if i in Touched(files, done) {
          var q :| q in done && Countable(files, q) && files[q].identity == i;
          assert q in done + {p};
        } else {
          assert p in done + {p};
        }
      }
    }
  }

  /** The estimate of a set of paths: bytes per physical file, once each. */
  method EstimateOf(files: map<Path, File>, paths: seq<Path>) returns (e: Estimate)
    requires Consistent(files)
    ensures var selected := set p | p in paths;
      && e.known == (selected != {} && Unknowns(files, selected) == {})
      && e.reclaimable == Reclaimable(files, selected)
      && e.shared == SharedBytes(files, selected)
      && e.total == TotalBytes(files, selected)
      && e.files == |Countables(files, selected)| && e.unknown == |Unknowns(files, selected)|
      && e.sharedFiles == |KeptPaths(files, selected)|
  {
    var selected := set p | p in paths;
    var uses, countable, unknown := CountLinks(files, selected);
    forall i | i in uses
      ensures GainBy(files, selected)(i) == if uses[i].selected >= uses[i].links then uses[i].size else 0
      ensures KeptBy(files, selected)(i) == if uses[i].selected >= uses[i].links then 0 else uses[i].size
      ensures SizeBy(files)(i) == uses[i].size
      ensures KeptNamesBy(files, selected)(i) == if uses[i].selected >= uses[i].links then 0 else uses[i].selected
    {
      CountedGains(files, uses, selected, i);
    }
    var reclaimable, shared, total, sharedFiles := AddUp(uses, GainBy(files, selected), KeptBy(files, selected), SizeBy(files), KeptNamesBy(files, selected));
    KeptPathsSum(files, selected, uses.Keys);
    assert KeptPathsOf(files, selected, uses.Keys) == KeptPaths(files, selected);
    return Estimate(selected != {} && unknown == 0, reclaimable, shared, total, countable, sharedFiles, unknown);
  }

  /** Whether the links of a counted file are all selected decides where its
      bytes go. */
  method AddUp(uses: map<Identity, Usage>, ghost gain: Identity -> int, ghost kept: Identity -> int, ghost size: Identity -> int, ghost names: Identity -> int)
    returns (reclaimable: int, shared: int, total: int, sharedFiles: int)
    requires forall i :: i in uses ==> gain(i) == if uses[i].selected >= uses[i].links then uses[i].size else 0
    requires forall i :: i in uses ==> kept(i) == if uses[i].selected >= uses[i].links then 0 else uses[i].size
    requires forall i :: i in uses ==> size(i) == uses[i].size
    requires forall i :: i in uses ==> names(i) == if uses[i].selected >= uses[i].links then 0 else uses[i].selected
    ensures reclaimable == Sum(uses.Keys, gain) && shared == Sum(uses.Keys, kept) && total == Sum(uses.Keys, size)
    ensures sharedFiles == Sum(uses.Keys, names)
  {
    reclaimable, shared, total, sharedFiles := 0, 0, 0, 0;
    var todo := uses.Keys;
    while todo != {}
      invariant todo <= uses.Keys
      invariant reclaimable == Sum(uses.Keys - todo, gain)
      invariant shared == Sum(uses.Keys - todo, kept)
      invariant total == Sum(uses.Keys - todo, size)
      invariant sharedFiles == Sum(uses.Keys - todo, names)
      decreases |todo|
    {
      var i :| i in todo;
      SumOneMore(uses.Keys, todo, gain, i);
      SumOneMore(uses.Keys, todo, kept, i);
      SumOneMore(uses.Keys, todo, size, i);
      SumOneMore(uses.Keys, todo, names, i);
      todo := todo - {i};
      var use := uses[i];
      total := total + use.size;
      if use.selected >= use.links {
        reclaimable := reclaimable + use.size;
      } else {
        shared := shared + use.size;
        sharedFiles := sharedFiles + use.selected;
      }
    }
    assert uses.Keys - todo == uses.Keys;
  }

  /** The selected names of files that would stay. */
  function KeptPaths(files: map<Path, File>, paths: set<Path>): set<Path> {
    set p | p in paths && Countable(files, p) && |NamesOf(files, paths, files[p].identity)| < files[p].links
  }

  ghost function KeptPathsOf(files: map<Path, File>, paths: set<Path>, among: set<Identity>): set<Path> {
    set p | p in KeptPaths(files, paths) && files[p].identity in among
  }

  ghost function KeptNamesBy(files: map<Path, File>, paths: set<Path>): Identity -> int {
    i => if |NamesOf(files, paths, i)| >= FactsOf(files, i).links then 0 else |NamesOf(files, paths, i)|
  }

  lemma NoneKept(files: map<Path, File>, paths: set<Path>)
    ensures |KeptPathsOf(files, paths, {})| == 0
  {
  }

  /** Counting file by file counts every such name once. */
  lemma {:induction false} KeptPathsSum(files: map<Path, File>, paths: set<Path>, among: set<Identity>)
    requires Consistent(files)
    ensures |KeptPathsOf(files, paths, among)| == Sum(among, KeptNamesBy(files, paths))
    decreases |among|
  {
    if among == {} {
      NoneKept(files, paths);
    } else {
      var i :| i in among;
      SumRemove(among, KeptNamesBy(files, paths), i);
      KeptPathsSum(files, paths, among - {i});
      KeptPathsSplit(files, paths, among, i);
    }
  }

  ghost function KeptNamesOf(files: map<Path, File>, paths: set<Path>, i: Identity): set<Path> {
    if |NamesOf(files, paths, i)| >= FactsOf(files, i).links then {} else NamesOf(files, paths, i)
  }

  lemma KeptPathsSplit(files: map<Path, File>, paths: set<Path>, among: set<Identity>, i: Identity)
    requires Consistent(files) && i in among
    ensures |KeptPathsOf(files, paths, among)| == |KeptPathsOf(files, paths, among - {i})| + KeptNamesBy(files, paths)(i)
  {
    var rest, own := KeptPathsOf(files, paths, among - {i}), KeptNamesOf(files, paths, i);
    KeptPathsApart(files, paths, among, i);
    assert |rest + own| == |rest| + |own|;
  }

  lemma KeptPathsApart(files: map<Path, File>, paths: set<Path>, among: set<Identity>, i: Identity)
    requires Consistent(files) && i in among
    ensures KeptPathsOf(files, paths, among) == KeptPathsOf(files, paths, among - {i}) + KeptNamesOf(files, paths, i)
    ensures KeptPathsOf(files, paths, among - {i}) !! KeptNamesOf(files, paths, i)
  {
    KeptNames(files, paths, i);
    forall p | p in KeptNamesOf(files, paths, i)
      ensures p in KeptPathsOf(files, paths, among) && p !in KeptPathsOf(files, paths, among - {i})
    {
      assert p in NamesOf(files, paths, i);
    }
  }

  /** A selected name is kept or not together with all names of its file. */
  lemma KeptNames(files: map<Path, File>, paths: set<Path>, i: Identity)
    requires Consistent(files)
    ensures forall p :: p in NamesOf(files, paths, i) ==> (p in KeptPaths(files, paths) <==> |NamesOf(files, paths, i)| < FactsOf(files, i).links)
    ensures forall p :: p in KeptPaths(files, paths) && files[p].identity == i ==> p in NamesOf(files, paths, i)
  {
    forall p | p in NamesOf(files, paths, i)
      ensures files[p].links == FactsOf(files, i).links
    {
      FactsAgree(files, p);
    }
  }

  lemma CountedGains(files: map<Path, File>, uses: map<Identity, Usage>, selected: set<Path>, i: Identity)
    requires Counted(files, uses, selected) && i in uses
    ensures GainBy(files, selected)(i) == if uses[i].selected >= uses[i].links then uses[i].size else 0
    ensures KeptBy(files, selected)(i) == if uses[i].selected >= uses[i].links then 0 else uses[i].size
    ensures SizeBy(files)(i) == uses[i].size
  {
    TouchedIff(files, selected, i);
  }

  // -------------------------------------------------------------------- laws

  /** No byte is counted twice or dropped. */
  lemma EstimateConserves(files: map<Path, File>, paths: set<Path>)
    ensures TotalBytes(files, paths) == Reclaimable(files, paths) + SharedBytes(files, paths)
  {
    var gain, kept, size := GainBy(files, paths), KeptBy(files, paths),
                            SizeBy(files);
    forall i | i in Touched(files, paths)
      ensures size(i) == gain(i) + kept(i)
    {
      TouchedIff(files, paths, i);
    }
    SumPlus(Touched(files, paths), gain, kept, size);
  }

  /** The sum may be taken over any larger set of physical files. */
  lemma ReclaimableOver(files: map<Path, File>, paths: set<Path>, universe: set<Identity>)
    requires Touched(files, paths) <= universe
    ensures Reclaimable(files, paths) == Sum(universe, GainBy(files, paths))
  {
    var gain := GainBy(files, paths);
    forall i | i in universe && i !in Touched(files, paths)
      ensures gain(i) == 0
    {
      TouchedIff(files, paths, i);
    }
    SumNarrow(Touched(files, paths), universe, gain);
  }

  lemma TouchedMonotone(files: map<Path, File>, a: set<Path>, b: set<Path>)
    requires a <= b
    ensures Touched(files, a) <= Touched(files, b)
  {
    forall i | i in Touched(files, a)
      ensures i in Touched(files, b)
    {
      var p :| p in a && Countable(files, p) && files[p].identity == i;
      assert p in b;
    }
  }

  /** Removing more paths never frees less. */
  lemma ReclaimableMonotone(files: map<Path, File>, a: set<Path>, b: set<Path>)
    requires a <= b
    ensures Reclaimable(files, a) <= Reclaimable(files, b)
  {
    TouchedMonotone(files, a, b);
    ReclaimableOver(files, a, Touched(files, b));
    var f, g := GainBy(files, a), GainBy(files, b);
    forall i | i in Touched(files, b)
      ensures f(i) <= g(i)
    {
      assert NamesOf(files, a, i) <= NamesOf(files, b, i);
      SubsetSize(NamesOf(files, a, i), NamesOf(files, b, i));
    }
    SumAtMost(Touched(files, b), f, g);
  }

  /** The parts of a path-disjoint split never claim more than the whole frees, so
      per-action figures may be added up without overstating a plan. */
  lemma ReclaimableSuperadditive(files: map<Path, File>, a: set<Path>, b: set<Path>)
    requires Consistent(files) && LinksCoverNames(files) && a !! b
    ensures Reclaimable(files, a) + Reclaimable(files, b) <= Reclaimable(files, a + b)
  {
    var u := Touched(files, a + b);
    TouchedMonotone(files, a, a + b);
    TouchedMonotone(files, b, a + b);
    ReclaimableOver(files, a, u);
    ReclaimableOver(files, b, u);
    var f, g, h := GainBy(files, a), GainBy(files, b),
                   (i: Identity) => Gain(files, a, i) + Gain(files, b, i);
    SumPlus(u, f, g, h);
    var whole := GainBy(files, a + b);
    forall i | i in u
      ensures h(i) <= whole(i)
    {
      GainSuperadditive(files, a, b, i);
    }
    SumAtMost(u, h, whole);
  }

  lemma GainSuperadditive(files: map<Path, File>, a: set<Path>, b: set<Path>, i: Identity)
    requires Consistent(files) && LinksCoverNames(files) && a !! b
    ensures Gain(files, a, i) + Gain(files, b, i) <= Gain(files, a + b, i)
  {
    var na, nb, n := NamesOf(files, a, i), NamesOf(files, b, i), NamesOf(files, a + b, i);
    assert n == na + nb && na !! nb;
    if n != {} {
      var p :| p in n;
      FactsAgree(files, p);
      assert n <= NamesOf(files, files.Keys, i);
      SubsetSize(n, NamesOf(files, files.Keys, i));
      assert |na| + |nb| == |n|;
    }
  }
}
