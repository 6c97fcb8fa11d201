/** How much of the overage each media service sheds: its share of the target in
    proportion to its footprint, taken from its own lowest-value candidates, then
    whatever is still missing from the lowest-value candidates left over. */
module FairShare {
  import opened SetSums
  import opened Sorting
  import opened FileTopology
  import opened CleanupCandidates

  predicate CheaperFirst(a: Action, b: Action) { a.value <= b.value }

  function ServiceOf(a: Action): string { if a.media.Some? then a.media.value.serviceName else "" }

  function From(service: string): Action -> bool { (a: Action) => ServiceOf(a) == service }

  function OfService(xs: seq<Action>, service: string): seq<Action> { Filter(From(service), xs) }

  /** A service's candidates, lowest value first. */
  function Ranked(tier: seq<Action>, service: string): seq<Action> { Sort(CheaperFirst, OfService(tier, service)) }

  function Bytes(xs: seq<Action>): int { if xs == [] then 0 else Bytes(xs[..|xs| - 1]) + xs[|xs| - 1].bytes }

  ghost function Services(tier: seq<Action>): set<string> { set a | a in tier :: ServiceOf(a) }

  // ------------------------------------------------------------ bytes of lists

  lemma {:induction false} BytesAppend(a: seq<Action>, b: seq<Action>)
    ensures Bytes(a + b) == Bytes(a) + Bytes(b)
    decreases |b|
  {
    if b == [] {
      assert a + b == a;
    } else {
      assert (a + b)[..|a + b| - 1] == a + b[..|b| - 1];
      BytesAppend(a, b[..|b| - 1]);
    }
  }

  lemma {:induction false} BytesPermuted(a: seq<Action>, b: seq<Action>)
    requires multiset(a) == multiset(b)
    ensures Bytes(a) == Bytes(b)
    decreases |a|
  {
    if a == [] {
      assert |multiset(b)| == 0;
    } else {
      var x := a[|a| - 1];
      assert x in multiset(b);
      var i :| 0 <= i < |b| && b[i] == x;
      var front := a[..|a| - 1];
      var rest := b[..i] + b[i + 1..];
      assert a == front + [x];
      assert b == b[..i] + [x] + b[i + 1..];
      assert multiset(front + [x]) == multiset(front) + multiset{x};
      assert multiset(b[..i] + [x] + b[i + 1..]) == multiset(b[..i]) + multiset{x} + multiset(b[i + 1..]);
      assert multiset(front) == multiset(a) - multiset{x};
      assert multiset(rest) == multiset(b) - multiset{x};
      BytesPermuted(front, rest);
      BytesAppend(b[..i] + [x], b[i + 1..]);
      BytesAppend(b[..i], [x]);
      BytesAppend(b[..i], b[i + 1..]);
      assert Bytes([x]) == x.bytes;
    }
  }

  ghost predicate AllPositive(xs: seq<Action>) { forall a :: a in xs ==> a.bytes > 0 }

  lemma {:induction false} BytesNonNegative(xs: seq<Action>)
    requires AllPositive(xs)
    ensures Bytes(xs) >= 0
    decreases |xs|
  {
    if xs != [] {
      assert xs[|xs| - 1] in xs;
      BytesNonNegative(xs[..|xs| - 1]);
    }
  }

  lemma {:induction false} CountOfService(xs: seq<Action>, x: Action)
    ensures multiset(OfService(xs, ServiceOf(x)))[x] == multiset(xs)[x]
  {
    if xs != [] {
      CountOfService(xs[1..], x);
      assert xs == [xs[0]] + xs[1..];
    }
  }

  // --------------------------------------------------------------- what is fair

  predicate IsPrefix(a: seq<Action>, b: seq<Action>) { |a| <= |b| && a == b[..|a|] }

  /** From every service the cheapest of its candidates, in order. */
  ghost predicate CheapestOfEach(tier: seq<Action>, selected: seq<Action>) {
    forall s :: IsPrefix(OfService(selected, s), Ranked(tier, s))
  }

  ghost predicate Everything(tier: seq<Action>, selected: seq<Action>) {
    forall s :: OfService(selected, s) == Ranked(tier, s)
  }

  /** No candidate is taken twice. */
  lemma CheapestOfEachOnce(tier: seq<Action>, selected: seq<Action>)
    requires CheapestOfEach(tier, selected)
    ensures multiset(selected) <= multiset(tier)
  {
    forall x: Action
      ensures multiset(selected)[x] <= multiset(tier)[x]
    {
      var s := ServiceOf(x);
      CountOfService(tier, x);
      CountOfService(selected, x);
      SortContents(CheaperFirst, OfService(tier, s));
      PrefixCount(OfService(selected, s), Ranked(tier, s), x);
    }
  }

  lemma PrefixCount(a: seq<Action>, b: seq<Action>, x: Action)
    requires IsPrefix(a, b)
    ensures multiset(a)[x] <= multiset(b)[x]
  {
    assert b == a + b[|a|..];
    assert multiset(a + b[|a|..]) == multiset(a) + multiset(b[|a|..]);
  }

  /** Of one service, what stays is worth no less than what goes. */
  lemma CheapestMeans(tier: seq<Action>, selected: seq<Action>, a: Action, b: Action)
    requires CheapestOfEach(tier, selected) && a in selected && multiset(selected)[b] < multiset(tier)[b]
    requires a.media.Some? && b.media.Some? && a.media.value.serviceName == b.media.value.serviceName
    ensures a.value <= b.value
  {
    var s := ServiceOf(b);
    var mine, rest := OfService(selected, s), Ranked(tier, s)[|OfService(selected, s)|..];
    FilterContents(From(s), selected);
    assert a in mine;
    SomeIsLeft(tier, selected, b);
    var i :| 0 <= i < |mine| && mine[i] == a;
    var j :| 0 <= j < |rest| && rest[j] == b;
    RankedByValue(tier, s, i, |mine| + j);
  }

  lemma SomeIsLeft(tier: seq<Action>, selected: seq<Action>, b: Action)
    requires CheapestOfEach(tier, selected) && multiset(selected)[b] < multiset(tier)[b]
    ensures var mine, ranked := OfService(selected, ServiceOf(b)), Ranked(tier, ServiceOf(b));
      IsPrefix(mine, ranked) && b in ranked[|mine|..]
  {
    var mine, ranked := OfService(selected, ServiceOf(b)), Ranked(tier, ServiceOf(b));
    CountOfService(tier, b);
    CountOfService(selected, b);
    SortContents(CheaperFirst, OfService(tier, ServiceOf(b)));
    assert ranked == mine + ranked[|mine|..];
    assert multiset(mine + ranked[|mine|..]) == multiset(mine) + multiset(ranked[|mine|..]);
    assert b in multiset(ranked[|mine|..]);
  }

  lemma RankedByValue(tier: seq<Action>, s: string, i: nat, j: nat)
    requires i < j < |Ranked(tier, s)|
    ensures Ranked(tier, s)[i].value <= Ranked(tier, s)[j].value
  {
    CheaperFirstIsOrder();
    SortSorted(CheaperFirst, OfService(tier, s));
    assert CheaperFirst(Ranked(tier, s)[i], Ranked(tier, s)[j]);
  }

  lemma EverythingTaken(tier: seq<Action>, selected: seq<Action>)
    requires Everything(tier, selected)
    ensures multiset(selected) == multiset(tier) && Bytes(selected) == Bytes(tier)
  {
    forall x: Action
      ensures multiset(selected)[x] == multiset(tier)[x]
    {
      CountOfService(tier, x);
      CountOfService(selected, x);
      SortContents(CheaperFirst, OfService(tier, ServiceOf(x)));
    }
    BytesPermuted(selected, tier);
  }

  // ------------------------------------------------------- taking from a list

  /** The least number of actions that reach the bound, or all of them. */
  ghost predicate LeastReaching(xs: seq<Action>, start: int, bound: int, n: nat) {
    && n <= |xs|
    && (n == |xs| || start + Bytes(xs[..n]) >= bound)
    && (n > 0 ==> start + Bytes(xs[..n - 1]) < bound)
  }

  method TakeUntil(xs: seq<Action>, start: int, bound: int) returns (n: nat, total: int)
    ensures LeastReaching(xs, start, bound, n) && total == start + Bytes(xs[..n])
  {
    n, total := 0, start;
    while n < |xs| && total < bound
      invariant n <= |xs| && total == start + Bytes(xs[..n])
      invariant n > 0 ==> start + Bytes(xs[..n - 1]) < bound
    {
      assert xs[..n + 1][..n] == xs[..n];
      total := total + xs[n].bytes;
      n := n + 1;
    }
  }

  ghost predicate GroupedBy(tier: seq<Action>, groups: map<string, seq<Action>>) {
    groups.Keys == Services(tier) && forall s :: At(groups, s) == OfService(tier, s)
  }

  lemma GroupStep(tier: seq<Action>, n: nat, groups: map<string, seq<Action>>)
    requires n < |tier| && GroupedBy(tier[..n], groups)
    ensures GroupedBy(tier[..n + 1], groups[ServiceOf(tier[n]) := At(groups, ServiceOf(tier[n])) + [tier[n]]])
  {
    MemberStep(tier, n);
    assert tier[..n + 1] == tier[..n] + [tier[n]];
    var service := ServiceOf(tier[n]);
    var after := groups[service := At(groups, service) + [tier[n]]];
    forall s
      ensures At(after, s) == OfService(tier[..n + 1], s)
    {
      FilterAppend(From(s), tier[..n], [tier[n]]);
      assert Filter(From(s), [tier[n]]) == if s == service then [tier[n]] else [];
      assert At(groups, s) == OfService(tier[..n], s);
    }
  }

  method GroupByService(tier: seq<Action>) returns (groups: map<string, seq<Action>>)
    ensures GroupedBy(tier, groups)
  {
    groups := map[];
    for n := 0 to |tier|
      invariant GroupedBy(tier[..n], groups)
    {
      GroupStep(tier, n, groups);
      groups := groups[ServiceOf(tier[n]) := At(groups, ServiceOf(tier[n])) + [tier[n]]];
    }
    assert tier[..|tier|] == tier;
  }

  function ClaimOf(claimed: map<string, nat>, s: string): nat { if s in claimed then claimed[s] else 0 }

  ghost function Claims(claimed: map<string, nat>): string -> int { s => ClaimOf(claimed, s) }

  method TotalClaimed(services: set<string>, claimed: map<string, nat>) returns (total: nat)
    ensures total == Sum(services, Claims(claimed))
  {
    var sum := 0;
    var todo := services;
    while todo != {}
      invariant todo <= services && sum >= 0 && sum == Sum(services - todo, Claims(claimed))
      decreases |todo|
    {
      var s :| s in todo;
      SumOneMore(services, todo, Claims(claimed), s);
      sum := sum + ClaimOf(claimed, s);
      todo := todo - {s};
    }
    assert services - todo == services;
    total := sum;
  }

  // --------------------------------------------------------------- share phase

  /** The share of each service: the target in proportion to its claim, rounded. */
  function Shares(round: (int, nat, nat) -> int, target: int, claimed: map<string, nat>, total: nat): string -> int {
    (s: string) => round(target, ClaimOf(claimed, s), total)
  }

  /** A service gave its n cheapest candidates: the least that reach its share.
      The rest is left over. */
  ghost predicate CutAt(ranked: seq<Action>, share: int, mine: seq<Action>, left: seq<Action>, n: nat) {
    LeastReaching(ranked, 0, share, n) && mine == ranked[..n] && left == ranked[n..]
  }

  ghost predicate Cut(ranked: seq<Action>, share: int, mine: seq<Action>, left: seq<Action>) {
    exists n: nat :: CutAt(ranked, share, mine, left, n)
  }

  ghost predicate SharedOut(tier: seq<Action>, shares: string -> int, visited: set<string>, selected: seq<Action>, leftover: seq<Action>) {
    forall s ::
      if s in visited then Cut(Ranked(tier, s), shares(s), OfService(selected, s), OfService(leftover, s))
      else OfService(selected, s) == [] && OfService(leftover, s) == []
  }

  ghost function LargestOf(xs: seq<Action>): int {
    if xs == [] then 0
    else
      var rest := LargestOf(xs[..|xs| - 1]);
      if xs[|xs| - 1].bytes > rest then xs[|xs| - 1].bytes else rest
  }

  lemma {:induction false} LargestIsLargest(xs: seq<Action>)
    ensures LargestOf(xs) >= 0 && forall a :: a in xs ==> a.bytes <= LargestOf(xs)
    decreases |xs|
  {
    if xs != [] {
      LargestIsLargest(xs[..|xs| - 1]);
      assert xs == xs[..|xs| - 1] + [xs[|xs| - 1]];
    }
  }

  ghost function Largest(tier: seq<Action>): string -> int { s => LargestOf(OfService(tier, s)) }

  /** The most that whole candidates can exceed the shares by. */
  ghost function Excess(tier: seq<Action>, shares: string -> int): string -> int { s => shares(s) + Largest(tier)(s) }

  lemma RankedMembers(tier: seq<Action>, s: string)
    ensures forall a :: a in Ranked(tier, s) <==> a in tier && ServiceOf(a) == s
    ensures forall a :: a in Ranked(tier, s) ==> a.bytes <= Largest(tier)(s)
  {
    SortContents(CheaperFirst, OfService(tier, s));
    FilterContents(From(s), tier);
    LargestIsLargest(OfService(tier, s));
  }

  lemma {:induction false} AllOfOneService(xs: seq<Action>, s: string, t: string)
    requires forall a :: a in xs ==> ServiceOf(a) == s
    ensures OfService(xs, t) == if t == s then xs else []
  {
    if xs != [] { AllOfOneService(xs[1..], s, t); }
  }

  lemma {:induction false} NoneOfService(xs: seq<Action>, s: string)
    requires s !in Services(xs)
    ensures OfService(xs, s) == []
  {
    if xs != [] {
      assert xs[0] in xs;
      assert forall a :: a in xs[1..] ==> a in xs;
      NoneOfService(xs[1..], s);
    }
  }

  /** One service more. */
  lemma ShareStep(tier: seq<Action>, shares: string -> int, visited: set<string>, selected: seq<Action>, leftover: seq<Action>, s: string, n: nat)
    requires SharedOut(tier, shares, visited, selected, leftover) && s !in visited
    requires LeastReaching(Ranked(tier, s), 0, shares(s), n)
    ensures SharedOut(tier, shares, visited + {s}, selected + Ranked(tier, s)[..n], leftover + Ranked(tier, s)[n..])
  {
    var ranked := Ranked(tier, s);
    RankedMembers(tier, s);
    forall t
      ensures OfService(selected + ranked[..n], t) == OfService(selected, t) + if t == s then ranked[..n] else []
      ensures OfService(leftover + ranked[n..], t) == OfService(leftover, t) + if t == s then ranked[n..] else []
    {
      FilterAppend(From(t), selected, ranked[..n]);
      FilterAppend(From(t), leftover, ranked[n..]);
      AllOfOneService(ranked[..n], s, t);
      AllOfOneService(ranked[n..], s, t);
    }
    assert CutAt(ranked, shares(s), ranked[..n], ranked[n..], n);
    var after, left := selected + ranked[..n], leftover + ranked[n..];
    assert OfService(after, s) == ranked[..n] && OfService(left, s) == ranked[n..];
    forall t | t in visited
      ensures Cut(Ranked(tier, t), shares(t), OfService(after, t), OfService(left, t))
    {
      assert Cut(Ranked(tier, t), shares(t), OfService(selected, t), OfService(leftover, t));
      assert OfService(after, t) == OfService(selected, t) && OfService(left, t) == OfService(leftover, t);
    }
  }

  /** The least prefix exceeds the share by less than one candidate. */
  lemma CutBound(tier: seq<Action>, shares: string -> int, s: string, n: nat)
    requires AllPositive(tier) && s in Services(tier) && shares(s) >= 0
    requires LeastReaching(Ranked(tier, s), 0, shares(s), n)
    ensures 0 <= Bytes(Ranked(tier, s)[..n]) < Excess(tier, shares)(s)
  {
    var ranked := Ranked(tier, s);
    RankedMembers(tier, s);
    BytesNonNegative(ranked[..n]);
    if n > 0 {
      assert ranked[..n][..n - 1] == ranked[..n - 1];
      assert ranked[n - 1] in ranked;
    } else {
      var a :| a in tier && ServiceOf(a) == s;
      assert a in ranked;
    }
  }

  ghost predicate WithinExcess(total: int, visited: set<string>, tier: seq<Action>, shares: string -> int) {
    total <= Sum(visited, Excess(tier, shares)) && (visited != {} ==> total < Sum(visited, Excess(tier, shares)))
  }

  lemma ExcessStep(total: int, used: int, visited: set<string>, tier: seq<Action>, shares: string -> int, s: string)
    requires WithinExcess(total, visited, tier, shares) && s !in visited && used < Excess(tier, shares)(s)
    ensures WithinExcess(total + used, visited + {s}, tier, shares)
  {
    SumInsert(visited, Excess(tier, shares), s);
  }

  /** The state of the share phase after some of the services. */
  ghost predicate Sharing(tier: seq<Action>, shares: string -> int, visited: set<string>, selected: seq<Action>, leftover: seq<Action>, selectedBytes: int) {
    && SharedOut(tier, shares, visited, selected, leftover)
    && selectedBytes == Bytes(selected)
    && ((forall s :: s in Services(tier) ==> shares(s) >= 0) ==> WithinExcess(selectedBytes, visited, tier, shares))
  }

  lemma SharingStep(tier: seq<Action>, shares: string -> int, visited: set<string>, selected: seq<Action>, leftover: seq<Action>, selectedBytes: int, s: string, n: nat)
    requires Sharing(tier, shares, visited, selected, leftover, selectedBytes)
    requires AllPositive(tier) && s in Services(tier) && s !in visited && LeastReaching(Ranked(tier, s), 0, shares(s), n)
    ensures var actions := Ranked(tier, s);
      Sharing(tier, shares, visited + {s}, selected + actions[..n], leftover + actions[n..], selectedBytes + Bytes(actions[..n]))
  {
    var actions := Ranked(tier, s);
    ShareStep(tier, shares, visited, selected, leftover, s, n);
    BytesAppend(selected, actions[..n]);
    if forall t :: t in Services(tier) ==> shares(t) >= 0 {
      CutBound(tier, shares, s, n);
      ExcessStep(selectedBytes, Bytes(actions[..n]), visited, tier, shares, s);
    }
  }

  lemma SharingNone(tier: seq<Action>, shares: string -> int)
    ensures Sharing(tier, shares, {}, [], [], 0)
  {
  }

  datatype ShareState = ShareState(selected: seq<Action>, leftover: seq<Action>, bytes: int)

  ghost predicate SharingAt(tier: seq<Action>, shares: string -> int, visited: set<string>, st: ShareState) {
    Sharing(tier, shares, visited, st.selected, st.leftover, st.bytes)
  }

  method ShareNext(tier: seq<Action>, groups: map<string, seq<Action>>, share: string -> int, st: ShareState, todo: set<string>)
    returns (rest: set<string>, next: ShareState)
    requires {} != todo <= groups.Keys == Services(tier) && forall s :: s in todo ==> groups[s] == Ranked(tier, s)
    requires AllPositive(tier) && SharingAt(tier, share, groups.Keys - todo, st)
    ensures rest < todo && SharingAt(tier, share, groups.Keys - rest, next)
  {
    var s :| s in todo;
    rest := todo - {s};
    var actions := groups[s];
    var n, used := TakeUntil(actions, 0, share(s));
    SharingStep(tier, share, groups.Keys - todo, st.selected, st.leftover, st.bytes, s, n);
    next := ShareState(st.selected + actions[..n], st.leftover + actions[n..], st.bytes + used);
    assert groups.Keys - rest == groups.Keys - todo + {s};
  }

  /** The services are visited in any order. */
  method ShareOut(tier: seq<Action>, groups: map<string, seq<Action>>, share: string -> int) returns (st: ShareState)
    requires groups.Keys == Services(tier) && forall s :: s in groups ==> groups[s] == Ranked(tier, s)
    requires AllPositive(tier)
    ensures SharingAt(tier, share, Services(tier), st)
  {
    st := ShareState([], [], 0);
    var todo := groups.Keys;
    SharingNone(tier, share);
    assert groups.Keys - todo == {};
    while todo != {}
      invariant todo <= groups.Keys && SharingAt(tier, share, groups.Keys - todo, st)
      decreases todo
    {
      todo, st := ShareNext(tier, groups, share, st, todo);
    }
    assert groups.Keys - todo == Services(tier);
  }

  // ---------------------------------------------------------------- backfill

  lemma {:induction false} FilterPrefix(p: Action -> bool, xs: seq<Action>, n: nat)
    requires n <= |xs|
    ensures IsPrefix(Filter(p, xs[..n]), Filter(p, xs))
  {
    FilterAppend(p, xs[..n], xs[n..]);
    assert xs[..n] + xs[n..] == xs;
  }

  lemma CheaperFirstIsOrder()
    ensures TotalPreorder(CheaperFirst)
  {
  }

  lemma SuffixStaysRanked(tier: seq<Action>, s: string, n: nat)
    requires n <= |Ranked(tier, s)|
    ensures Sort(CheaperFirst, Ranked(tier, s)[n..]) == Ranked(tier, s)[n..]
  {
    CheaperFirstIsOrder();
    SortSorted(CheaperFirst, OfService(tier, s));
    SortIdentity(CheaperFirst, Ranked(tier, s)[n..]);
  }

  /** What the sorted leftovers hold of one service continues its cut. */
  lemma LeftoverOf(tier: seq<Action>, shares: string -> int, selected: seq<Action>, leftover: seq<Action>, s: string)
    requires SharedOut(tier, shares, Services(tier), selected, leftover)
    ensures OfService(selected, s) + OfService(Sort(CheaperFirst, leftover), s) == Ranked(tier, s)
  {
    CheaperFirstIsOrder();
    FilterSort(CheaperFirst, From(s), leftover);
    if s in Services(tier) {
      assert Cut(Ranked(tier, s), shares(s), OfService(selected, s), OfService(leftover, s));
      var n: nat :| CutAt(Ranked(tier, s), shares(s), OfService(selected, s), OfService(leftover, s), n);
      SuffixStaysRanked(tier, s, n);
    } else {
      NoneOfService(tier, s);
    }
  }

  /** Whatever prefix of the sorted leftovers is added, every service still gives
      its cheapest candidates, and at least what the share phase took. */
  lemma BackfillOf(tier: seq<Action>, shares: string -> int, selected: seq<Action>, leftover: seq<Action>, k: nat, s: string)
    requires SharedOut(tier, shares, Services(tier), selected, leftover)
    requires k <= |Sort(CheaperFirst, leftover)|
    ensures var rest := Sort(CheaperFirst, leftover); var all := selected + rest[..k];
      && IsPrefix(OfService(all, s), Ranked(tier, s))
      && IsPrefix(OfService(selected, s), OfService(all, s))
      && (k == |rest| ==> OfService(all, s) == Ranked(tier, s))
  {
    var rest := Sort(CheaperFirst, leftover);
    LeftoverOf(tier, shares, selected, leftover, s);
    FilterAppend(From(s), selected, rest[..k]);
    FilterPrefix(From(s), rest, k);
    if k == |rest| { assert rest[..k] == rest; }
  }

  /** In the order of value across all services. */
  lemma LowestFirstOf(tier: seq<Action>, k: nat, s: string)
    requires k <= |Sort(CheaperFirst, tier)|
    ensures var all := Sort(CheaperFirst, tier);
      IsPrefix(OfService(all[..k], s), Ranked(tier, s)) && (k == |all| ==> OfService(all[..k], s) == Ranked(tier, s))
  {
    var all := Sort(CheaperFirst, tier);
    CheaperFirstIsOrder();
    FilterSort(CheaperFirst, From(s), tier);
    FilterPrefix(From(s), all, k);
    if k == |all| { assert all[..k] == all; }
  }

  // ------------------------------------------------------------------- method

  /** Selected bytes exceed the target by less than the largest candidates of the
      services together. */
  ghost predicate LittleTooMuch(tier: seq<Action>, selected: seq<Action>, target: int) {
    Bytes(selected) < target + Sum(Services(tier), Largest(tier))
  }

  ghost predicate GetsShare(tier: seq<Action>, selected: seq<Action>, s: string, share: int) {
    Bytes(OfService(selected, s)) >= share || OfService(selected, s) == Ranked(tier, s)
  }

  ghost predicate EachGetsShare(tier: seq<Action>, selected: seq<Action>, shares: string -> int) {
    forall s :: s in Services(tier) ==> GetsShare(tier, selected, s, shares(s))
  }

  function Max(a: int, b: int): int { if a >= b then a else b }

  ghost predicate NonNegative(services: set<string>, shares: string -> int) { forall s :: s in services ==> shares(s) >= 0 }

  /** Shares that a proportional rounding down gives. */
  ghost predicate Proportional(services: set<string>, shares: string -> int, target: int) {
    NonNegative(services, shares) && Sum(services, shares) <= target
  }

  /** The least prefix exceeds the target by less than the largest of all. */
  lemma PrefixBound(tier: seq<Action>, list: seq<Action>, start: int, target: int, k: nat)
    requires AllPositive(tier) && tier != [] && (forall a :: a in list ==> a in tier) && LeastReaching(list, start, target, k)
    requires k > 0
    ensures start + Bytes(list[..k]) < target + Sum(Services(tier), Largest(tier))
  {
    var last := list[k - 1];
    assert list[..k][..k - 1] == list[..k - 1];
    assert last in list;
    OneOfLargest(tier, last);
  }

  lemma OneOfLargest(tier: seq<Action>, a: Action)
    requires a in tier
    ensures a.bytes <= Sum(Services(tier), Largest(tier))
  {
    var s := ServiceOf(a);
    SumRemove(Services(tier), Largest(tier), s);
    FilterContents(From(s), tier);
    LargestIsLargest(OfService(tier, s));
    LargestSum(tier, Services(tier) - {s});
  }

  lemma {:induction false} LargestSum(tier: seq<Action>, services: set<string>)
    ensures Sum(services, Largest(tier)) >= 0
    decreases |services|
  {
    if services != {} {
      var s :| s in services;
      SumRemove(services, Largest(tier), s);
      LargestIsLargest(OfService(tier, s));
      LargestSum(tier, services - {s});
    }
  }

  lemma {:induction false} PrefixBytes(xs: seq<Action>, n: nat)
    requires AllPositive(xs) && n <= |xs|
    ensures Bytes(xs[..n]) <= Bytes(xs)
  {
    BytesAppend(xs[..n], xs[n..]);
    BytesNonNegative(xs[n..]);
    assert xs[..n] + xs[n..] == xs;
  }

  /** What the share phase gave stays given. */
  lemma ShareKept(tier: seq<Action>, shares: string -> int, st: ShareState, selected: seq<Action>, s: string)
    requires SharingAt(tier, shares, Services(tier), st) && AllPositive(tier) && s in Services(tier)
    requires IsPrefix(OfService(st.selected, s), OfService(selected, s)) && IsPrefix(OfService(selected, s), Ranked(tier, s))
    ensures GetsShare(tier, selected, s, shares(s))
  {
    assert Cut(Ranked(tier, s), shares(s), OfService(st.selected, s), OfService(st.leftover, s));
    var mine, all := OfService(st.selected, s), OfService(selected, s);
    RankedMembers(tier, s);
    assert forall a :: a in all ==> a in Ranked(tier, s);
    PrefixBytes(all, |mine|);
  }

  /** Without footprints: the lowest values across all services. */
  method LowestFirst(tier: seq<Action>, target: int) returns (selected: seq<Action>)
    requires AllPositive(tier) && target > 0 && tier != []
    ensures CheapestOfEach(tier, selected)
    ensures Bytes(selected) >= target || Everything(tier, selected)
    ensures LittleTooMuch(tier, selected, target)
  {
    var ordered := Sort(CheaperFirst, tier);
    SortContents(CheaperFirst, tier);
    var k, _ := TakeUntil(ordered, 0, target);
    assert k > 0;
    forall s { LowestFirstOf(tier, k, s); }
    PrefixBound(tier, ordered, 0, target, k);
    selected := ordered[..k];
  }

  lemma BackfillProperties(tier: seq<Action>, shares: string -> int, st: ShareState, k: nat)
    requires AllPositive(tier) && SharingAt(tier, shares, Services(tier), st) && k <= |Sort(CheaperFirst, st.leftover)|
    ensures var rest := Sort(CheaperFirst, st.leftover); var selected := st.selected + rest[..k];
      && CheapestOfEach(tier, selected)
      && EachGetsShare(tier, selected, shares)
      && (k == |rest| ==> Everything(tier, selected))
      && Bytes(selected) == st.bytes + Bytes(rest[..k])
  {
    var rest := Sort(CheaperFirst, st.leftover);
    var selected := st.selected + rest[..k];
    forall s
      ensures IsPrefix(OfService(selected, s), Ranked(tier, s)) && (k == |rest| ==> OfService(selected, s) == Ranked(tier, s))
      ensures s in Services(tier) ==> GetsShare(tier, selected, s, shares(s))
    {
      BackfillOf(tier, shares, st.selected, st.leftover, k, s);
      if s in Services(tier) { ShareKept(tier, shares, st, selected, s); }
    }
    BytesAppend(st.selected, rest[..k]);
  }

  lemma LeftoverMembers(tier: seq<Action>, shares: string -> int, st: ShareState, a: Action)
    requires SharingAt(tier, shares, Services(tier), st) && a in Sort(CheaperFirst, st.leftover)
    ensures a in tier
  {
    var s := ServiceOf(a);
    SortContents(CheaperFirst, st.leftover);
    FilterContents(From(s), st.leftover);
    RankedMembers(tier, s);
    assert a in OfService(st.leftover, s);
    if s in Services(tier) {
      assert Cut(Ranked(tier, s), shares(s), OfService(st.selected, s), OfService(st.leftover, s));
    }
  }

  lemma WithinExcessBound(total: int, tier: seq<Action>, shares: string -> int)
    requires WithinExcess(total, Services(tier), tier, shares) && tier != []
    ensures total < Sum(Services(tier), shares) + Sum(Services(tier), Largest(tier))
  {
    assert ServiceOf(tier[0]) in Services(tier);
    SumPlus(Services(tier), shares, Largest(tier), Excess(tier, shares));
  }

  method Backfill(tier: seq<Action>, ghost shares: string -> int, st: ShareState, target: int) returns (selected: seq<Action>)
    requires AllPositive(tier) && tier != [] && SharingAt(tier, shares, Services(tier), st)
    ensures CheapestOfEach(tier, selected) && FairlyShared(tier, selected, target, shares)
    ensures Bytes(selected) >= target || Everything(tier, selected)
  {
    var rest := Sort(CheaperFirst, st.leftover);
    forall a | a in rest { LeftoverMembers(tier, shares, st, a); }
    var k: nat := 0;
    if st.bytes < target {
      var n, _ := TakeUntil(rest, st.bytes, target);
      k := n;
    }
    BackfillProperties(tier, shares, st, k);
    if k > 0 {
      PrefixBound(tier, rest, st.bytes, target, k);
    } else if NonNegative(Services(tier), shares) {
      WithinExcessBound(st.bytes, tier, shares);
    }
    selected := st.selected + rest[..k];
  }

  method RankByService(tier: seq<Action>) returns (groups: map<string, seq<Action>>)
    ensures groups.Keys == Services(tier) && forall s :: s in groups ==> groups[s] == Ranked(tier, s)
  {
    var unsorted := GroupByService(tier);
    groups := map s | s in unsorted :: Sort(CheaperFirst, unsorted[s]);
    assert forall s :: s in unsorted ==> At(unsorted, s) == OfService(tier, s);
  }

  method FairMediaShare(tier: seq<Action>, claimed: map<string, nat>, target: int, round: (int, nat, nat) -> int) returns (selected: seq<Action>)
    requires AllPositive(tier)
    ensures target <= 0 ==> selected == []
    ensures CheapestOfEach(tier, selected)
    ensures Bytes(selected) >= target || Everything(tier, selected)
    ensures target > 0 && tier != [] && Sum(Services(tier), Claims(claimed)) == 0 ==> LittleTooMuch(tier, selected, target)
    ensures var total := Sum(Services(tier), Claims(claimed));
      target > 0 && tier != [] && total > 0 ==> FairlyShared(tier, selected, target, Shares(round, target, claimed, total))
    ensures var total := Sum(Services(tier), Claims(claimed));
      target > 0 && total > 0 ==>
        forall s :: s in Services(tier) ==> GetsShare(tier, selected, s, round(target, if s in claimed then claimed[s] else 0, total))
  {
    NothingSelected(tier);
    if target <= 0 || |tier| == 0 {
      return [];
    }
    var groups := RankByService(tier);
    var total := TotalClaimed(groups.Keys, claimed);
    if total == 0 {
      selected := LowestFirst(tier, target);
      return;
    }
    selected := ShareAndFill(tier, groups, Shares(round, target, claimed, total), target);
  }

  /** Every service gives its share, and with shares that are not negative the whole
      exceeds the target, or the sum of the shares if that is more, by less than the
      largest candidates of the services together. */
  ghost predicate FairlyShared(tier: seq<Action>, selected: seq<Action>, target: int, shares: string -> int) {
    && EachGetsShare(tier, selected, shares)
    && (NonNegative(Services(tier), shares) ==> LittleTooMuch(tier, selected, Max(target, Sum(Services(tier), shares))))
  }

  method ShareAndFill(tier: seq<Action>, groups: map<string, seq<Action>>, shares: string -> int, target: int) returns (selected: seq<Action>)
    requires groups.Keys == Services(tier) && forall s :: s in groups ==> groups[s] == Ranked(tier, s)
    requires AllPositive(tier) && tier != []
    ensures CheapestOfEach(tier, selected) && FairlyShared(tier, selected, target, shares)
    ensures Bytes(selected) >= target || Everything(tier, selected)
  {
    var st := ShareOut(tier, groups, shares);
    selected := Backfill(tier, shares, st, target);
  }

  lemma NothingSelected(tier: seq<Action>)
    ensures CheapestOfEach(tier, [])
    ensures tier == [] ==> Everything(tier, [])
    ensures Services([]) == {}
  {
  }

  // ------------------------------------------------------------- exact shares

  function Floor(target: int, claim: nat, total: nat): int { if total == 0 then 0 else target * claim / total }

  lemma FloorBound(a: int, b: nat, total: nat)
    requires total > 0 && a >= 0
    ensures 0 <= Floor(a, b, total) && Floor(a, b, total) * total <= a * b
  {
  }

  /** The whole number of bytes next below the exact share. */
  lemma FloorIsNext(target: int, claim: nat, total: nat)
    requires total > 0 && target >= 0
    ensures Floor(target, claim, total) * total <= target * claim < (Floor(target, claim, total) + 1) * total
  {
    var x := target * claim;
    assert x == x / total * total + x % total;
    assert (x / total + 1) * total == x / total * total + total;
  }

  lemma AddBounds(x: int, y: int, total: int, target: int, c: int, d: int)
    requires x * total <= target * c && y * total <= target * d
    ensures (x + y) * total <= target * (c + d)
  {
  }

  lemma CancelTotal(x: int, target: int, total: int)
    requires total > 0 && x * total <= target * total
    ensures x <= target
  {
  }

  lemma {:induction false} SharesSum(services: set<string>, shares: string -> int, claims: string -> int, target: int, total: int)
    requires forall s :: s in services ==> shares(s) * total <= target * claims(s)
    ensures Sum(services, shares) * total <= target * Sum(services, claims)
    decreases |services|
  {
    if services != {} {
      var s :| s in services;
      SumRemove(services, shares, s);
      SumRemove(services, claims, s);
      SharesSum(services - {s}, shares, claims, target, total);
      AddBounds(shares(s), Sum(services - {s}, shares), total, target, claims(s), Sum(services - {s}, claims));
    }
  }

  /** Rounded down exactly, the shares never exceed the target together. */
  lemma FloorIsProportional(services: set<string>, target: int, claimed: map<string, nat>, total: nat)
    requires total > 0 && target >= 0 && total == Sum(services, Claims(claimed))
    ensures Proportional(services, Shares(Floor, target, claimed, total), target)
  {
    var shares := Shares(Floor, target, claimed, total);
    forall s | s in services
      ensures shares(s) >= 0 && shares(s) * total <= target * Claims(claimed)(s)
    {
      FloorBound(target, ClaimOf(claimed, s), total);
    }
    SharesSum(services, shares, Claims(claimed), target, total);
    CancelTotal(Sum(services, shares), target, total);
  }
}
