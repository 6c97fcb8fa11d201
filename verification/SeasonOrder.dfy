/** Within one show an earlier season goes before a later one.  Each show's season
    actions are put back, by ascending number, into the positions the show already
    holds in the ranked list. */
module SeasonOrder {
  import opened FileTopology
  import opened Sorting
  import opened CleanupCandidates

  datatype Show = Show(kind: MediaKind, service: string, id: int)

  function ShowOf(a: Action): Option<Show> {
    if a.season.None? || a.media.None? then None else Some(Show(a.media.value.kind, a.media.value.service, a.media.value.id))
  }

  function Of(show: Show): Action -> bool { (a: Action) => ShowOf(a) == Some(show) }

  function NumberOf(a: Action): int { if a.season.Some? then a.season.value.number else 0 }

  predicate EarlierSeason(a: Action, b: Action) { NumberOf(a) <= NumberOf(b) }

  function Positions(show: Show, xs: seq<Action>): seq<nat> {
    if xs == [] then []
    else Positions(show, xs[..|xs| - 1]) + if ShowOf(xs[|xs| - 1]) == Some(show) then [|xs| - 1] else []
  }

  /** The positions of a show are ascending and list exactly its actions. */
  lemma {:induction false} PositionsList(show: Show, xs: seq<Action>)
    ensures var ps := Positions(show, xs); var mine := Filter(Of(show), xs);
      && |ps| == |mine|
      && (forall i :: 0 <= i < |ps| ==> ps[i] < |xs| && xs[ps[i]] == mine[i] && ShowOf(mine[i]) == Some(show))
      && (forall i, j :: 0 <= i < j < |ps| ==> ps[i] < ps[j])
      && (forall n: nat :: n < |xs| ==> (n in ps <==> ShowOf(xs[n]) == Some(show)))
    decreases |xs|
  {
    if xs != [] {
      var front, last := xs[..|xs| - 1], xs[|xs| - 1];
      PositionsList(show, front);
      FilterAppend(Of(show), front, [last]);
      assert xs == front + [last];
    }
  }

  /** Positions depend only on which show stands where. */
  lemma {:induction false} PositionsSame(show: Show, xs: seq<Action>, ys: seq<Action>)
    requires |xs| == |ys| && forall i :: 0 <= i < |xs| ==> ShowOf(xs[i]) == ShowOf(ys[i])
    ensures Positions(show, xs) == Positions(show, ys)
    decreases |xs|
  {
    if xs != [] { PositionsSame(show, xs[..|xs| - 1], ys[..|ys| - 1]); }
  }

  /** Every show keeps its positions, and its actions are those it had, in stable
      order of season number if the show was visited. */
  ghost predicate Reordered(xs: seq<Action>, ys: seq<Action>, visited: set<Show>) {
    && |xs| == |ys|
    && (forall i :: 0 <= i < |xs| ==> ShowOf(ys[i]) == ShowOf(xs[i]))
    && (forall i :: 0 <= i < |xs| && ShowOf(xs[i]).None? ==> ys[i] == xs[i])
    && (forall show :: Filter(Of(show), ys) == if show in visited then Sort(EarlierSeason, Filter(Of(show), xs)) else Filter(Of(show), xs))
  }

  /** zs is ys with the show's actions written back in order of their seasons. */
  ghost predicate WrittenBack(ys: seq<Action>, zs: seq<Action>, show: Show) {
    var ps, sorted := Positions(show, ys), Sort(EarlierSeason, Filter(Of(show), ys));
    && |zs| == |ys| && |ps| == |sorted|
    && (forall i :: 0 <= i < |ps| && ps[i] < |zs| ==> zs[ps[i]] == sorted[i])
    && (forall n: nat :: n < |ys| && n !in ps ==> zs[n] == ys[n])
  }

  lemma ShowsKept(ys: seq<Action>, zs: seq<Action>, show: Show, n: nat)
    requires WrittenBack(ys, zs, show) && n < |ys|
    ensures ShowOf(zs[n]) == ShowOf(ys[n])
    ensures ShowOf(ys[n]) != Some(show) ==> zs[n] == ys[n]
  {
    var ps, mine := Positions(show, ys), Filter(Of(show), ys);
    PositionsList(show, ys);
    if n in ps {
      var i :| 0 <= i < |ps| && ps[i] == n;
      SortContents(EarlierSeason, mine);
      FilterContents(Of(show), ys);
      assert zs[n] == Sort(EarlierSeason, mine)[i];
      assert Sort(EarlierSeason, mine)[i] in Sort(EarlierSeason, mine);
    }
  }

  lemma OwnSorted(ys: seq<Action>, zs: seq<Action>, show: Show)
    requires WrittenBack(ys, zs, show)
    ensures Filter(Of(show), zs) == Sort(EarlierSeason, Filter(Of(show), ys))
  {
    forall n: nat | n < |ys| { ShowsKept(ys, zs, show, n); }
    PositionsSame(show, ys, zs);
    PositionsList(show, ys);
    PositionsList(show, zs);
  }

  lemma OthersKept(ys: seq<Action>, zs: seq<Action>, show: Show, other: Show)
    requires WrittenBack(ys, zs, show) && other != show
    ensures Filter(Of(other), zs) == Filter(Of(other), ys)
  {
    forall n: nat | n < |ys| { ShowsKept(ys, zs, show, n); }
    PositionsSame(other, ys, zs);
    PositionsList(other, ys);
    PositionsList(other, zs);
  }

  lemma PutBack(xs: seq<Action>, ys: seq<Action>, zs: seq<Action>, visited: set<Show>, show: Show)
    requires Reordered(xs, ys, visited) && show !in visited && WrittenBack(ys, zs, show)
    ensures Reordered(xs, zs, visited + {show})
  {
    forall n: nat | n < |ys| { ShowsKept(ys, zs, show, n); }
    OwnSorted(ys, zs, show);
    forall other | other != show { OthersKept(ys, zs, show, other); }
  }

  // ----------------------------------------------------------------- in place

  ghost predicate HasShow(xs: seq<Action>, show: Show) { exists a :: a in xs && ShowOf(a) == Some(show) }

  method CollectPositions(xs: seq<Action>) returns (positions: map<Show, seq<nat>>)
    ensures forall show :: show in positions <==> HasShow(xs, show)
    ensures forall show :: At(positions, show) == Positions(show, xs)
  {
    positions := map[];
    for n := 0 to |xs|
      invariant forall show :: show in positions <==> HasShow(xs[..n], show)
      invariant forall show :: At(positions, show) == Positions(show, xs[..n])
    {
      var a := xs[n];
      MemberStep(xs, n);
      assert xs[..n + 1][..n] == xs[..n];
      if ShowOf(a).Some? {
        var show := ShowOf(a).value;
        positions := positions[show := At(positions, show) + [n]];
      }
    }
    assert xs[..|xs|] == xs;
  }

  method Gather(a: array<Action>, positions: seq<nat>) returns (actions: seq<Action>)
    requires forall i :: 0 <= i < |positions| ==> positions[i] < a.Length
    ensures |actions| == |positions| && forall i :: 0 <= i < |positions| ==> actions[i] == a[positions[i]]
  {
    actions := [];
    for i := 0 to |positions|
      invariant |actions| == i && forall k :: 0 <= k < i ==> actions[k] == a[positions[k]]
    {
      actions := actions + [a[positions[i]]];
    }
  }

  method WriteBack(a: array<Action>, positions: seq<nat>, seasons: seq<Action>)
    requires |positions| == |seasons| && (forall i :: 0 <= i < |positions| ==> positions[i] < a.Length)
    requires forall i, j :: 0 <= i < j < |positions| ==> positions[i] < positions[j]
    modifies a
    ensures forall i :: 0 <= i < |positions| ==> a[positions[i]] == seasons[i]
    ensures forall n :: 0 <= n < a.Length && n !in positions ==> a[n] == old(a[n])
  {
    for i := 0 to |positions|
      invariant forall k :: 0 <= k < i ==> a[positions[k]] == seasons[k]
      invariant forall n :: 0 <= n < a.Length && n !in positions ==> a[n] == old(a[n])
    {
      a[positions[i]] := seasons[i];
    }
  }

  method OrderShow(a: array<Action>, positions: seq<nat>, ghost xs: seq<Action>, ghost visited: set<Show>, ghost show: Show)
    requires Reordered(xs, a[..], visited) && show !in visited && positions == Positions(show, xs)
    modifies a
    ensures Reordered(xs, a[..], visited + {show})
  {
    PositionsSame(show, xs, a[..]);
    RewriteShow(a, positions, show);
    PutBack(xs, old(a[..]), a[..], visited, show);
  }

  method RewriteShow(a: array<Action>, positions: seq<nat>, ghost show: Show)
    requires positions == Positions(show, a[..])
    modifies a
    ensures WrittenBack(old(a[..]), a[..], show)
  {
    ghost var ys := a[..];
    PositionsList(show, ys);
    if |positions| < 2 {
      SortIdentity(EarlierSeason, Filter(Of(show), ys));
      return;
    }
    var seasons := Gather(a, positions);
    assert seasons == Filter(Of(show), ys);
    seasons := Sort(EarlierSeason, seasons);
    WriteBack(a, positions, seasons);
  }

  ghost function Shows(xs: seq<Action>): set<Show> { set a | a in xs && ShowOf(a).Some? :: ShowOf(a).value }

  method OrderNext(a: array<Action>, positions: map<Show, seq<nat>>, ghost xs: seq<Action>, todo: set<Show>) returns (rest: set<Show>)
    requires {} != todo <= positions.Keys && Reordered(xs, a[..], positions.Keys - todo)
    requires forall show :: show in todo ==> positions[show] == Positions(show, xs)
    modifies a
    ensures rest < todo && Reordered(xs, a[..], positions.Keys - rest)
  {
    var show :| show in todo;
    rest := todo - {show};
    OrderShow(a, positions[show], xs, positions.Keys - todo, show);
    assert positions.Keys - rest == positions.Keys - todo + {show};
  }

  method OrderShows(a: array<Action>, positions: map<Show, seq<nat>>)
    requires forall show :: show in positions ==> positions[show] == Positions(show, a[..])
    modifies a
    ensures Reordered(old(a[..]), a[..], positions.Keys)
  {
    ghost var xs := a[..];
    var todo := positions.Keys;
    while todo != {}
      invariant todo <= positions.Keys
      invariant Reordered(xs, a[..], positions.Keys - todo)
      decreases todo
    {
      todo := OrderNext(a, positions, xs, todo);
    }
    assert positions.Keys - todo == positions.Keys;
  }

  /** In place, in any order of the shows. */
  method EnforceSeasonOrder(a: array<Action>)
    modifies a
    ensures Reordered(old(a[..]), a[..], Shows(old(a[..])))
  {
    var positions := CollectPositions(a[..]);
    assert positions.Keys == Shows(a[..]);
    OrderShows(a, positions);
  }

  // ------------------------------------------------------------------ meaning

  predicate InOrder(xs: seq<Action>) {
    forall i, j :: 0 <= i < j < |xs| && ShowOf(xs[i]).Some? && ShowOf(xs[i]) == ShowOf(xs[j]) ==> NumberOf(xs[i]) <= NumberOf(xs[j])
  }

  predicate SameShow(a: Action, b: Action) {
    && a.media.Some? && b.media.Some?
    && a.media.value.kind == b.media.value.kind && a.media.value.service == b.media.value.service && a.media.value.id == b.media.value.id
  }

  /** Of one show no later season comes before an earlier one. */
  predicate SeasonsAscend(xs: seq<Action>) {
    forall i, j :: 0 <= i < j < |xs| && xs[i].season.Some? && xs[j].season.Some? && SameShow(xs[i], xs[j]) ==>
      xs[i].season.value.number <= xs[j].season.value.number
  }

  lemma InOrderMeans(xs: seq<Action>)
    ensures InOrder(xs) <==> SeasonsAscend(xs)
  {
    if SeasonsAscend(xs) {
      forall i, j | 0 <= i < j < |xs| && ShowOf(xs[i]).Some? && ShowOf(xs[i]) == ShowOf(xs[j])
        ensures NumberOf(xs[i]) <= NumberOf(xs[j])
      {
        assert SameShow(xs[i], xs[j]);
      }
    }
    if InOrder(xs) {
      forall i, j | 0 <= i < j < |xs| && xs[i].season.Some? && xs[j].season.Some? && SameShow(xs[i], xs[j])
        ensures xs[i].season.value.number <= xs[j].season.value.number
      {
        assert ShowOf(xs[i]) == ShowOf(xs[j]) && NumberOf(xs[i]) <= NumberOf(xs[j]);
      }
    }
  }

  /** Two actions of one show stand in the order of the show's own list. */
  lemma InShowOrder(show: Show, ys: seq<Action>, i: nat, j: nat)
    requires i < j < |ys| && ShowOf(ys[i]) == Some(show) && ShowOf(ys[j]) == Some(show)
    requires SortedBy(EarlierSeason, Filter(Of(show), ys))
    ensures NumberOf(ys[i]) <= NumberOf(ys[j])
  {
    var mine, ps := Filter(Of(show), ys), Positions(show, ys);
    PositionsList(show, ys);
    assert i in ps && j in ps;
    var m :| 0 <= m < |ps| && ps[m] == i;
    var n :| 0 <= n < |ps| && ps[n] == j;
    assert m < n && EarlierSeason(mine[m], mine[n]);
  }

  /** No show loses a later season before an earlier one. */
  lemma ReorderedInOrder(xs: seq<Action>, ys: seq<Action>)
    requires Reordered(xs, ys, Shows(xs))
    ensures InOrder(ys)
  {
    forall i, j | 0 <= i < j < |ys| && ShowOf(ys[i]).Some? && ShowOf(ys[i]) == ShowOf(ys[j])
      ensures NumberOf(ys[i]) <= NumberOf(ys[j])
    {
      var show := ShowOf(ys[i]).value;
      assert xs[i] in xs && ShowOf(xs[i]) == Some(show);
      SortSorted(EarlierSeason, Filter(Of(show), xs));
      InShowOrder(show, ys, i, j);
    }
  }

  lemma {:induction false} CountIn(show: Show, xs: seq<Action>, x: Action)
    requires ShowOf(x) == Some(show)
    ensures multiset(Filter(Of(show), xs))[x] == multiset(xs)[x]
  {
    if xs != [] {
      CountIn(show, xs[1..], x);
      assert xs == [xs[0]] + xs[1..];
    }
  }

  lemma {:induction false} CountElsewhere(xs: seq<Action>, ys: seq<Action>, x: Action)
    requires |xs| == |ys| && ShowOf(x).None?
    requires forall i :: 0 <= i < |xs| ==> ShowOf(ys[i]) == ShowOf(xs[i])
    requires forall i :: 0 <= i < |xs| && ShowOf(xs[i]).None? ==> ys[i] == xs[i]
    ensures multiset(xs)[x] == multiset(ys)[x]
  {
    if xs != [] {
      CountElsewhere(xs[1..], ys[1..], x);
      assert xs == [xs[0]] + xs[1..] && ys == [ys[0]] + ys[1..];
    }
  }

  /** No action is lost or doubled. */
  lemma ReorderedPermutes(xs: seq<Action>, ys: seq<Action>)
    requires Reordered(xs, ys, Shows(xs))
    ensures multiset(ys) == multiset(xs)
  {
    forall x: Action
      ensures multiset(ys)[x] == multiset(xs)[x]
    {
      if ShowOf(x).None? {
        CountElsewhere(xs, ys, x);
      } else {
        var show := ShowOf(x).value;
        CountIn(show, xs, x);
        CountIn(show, ys, x);
        SortContents(EarlierSeason, Filter(Of(show), xs));
      }
    }
  }
}
