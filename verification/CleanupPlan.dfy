/** The plan for one device: how much to free to get back to the target, and which
    candidates to remove for it. */
module CleanupPlan {
  import opened Sorting
  import opened FileTopology
  import opened CleanupCandidates
  import opened FairShare
  import opened SeasonOrder

  datatype ActionKey = TorrentKey(hash: string, service: string) | MediaItemKey(kind: MediaKind, service: string, id: int, season: Option<int>) | NoKey

  function KeyOf(a: Action): ActionKey {
    if a.kind == StandaloneTorrent then
      if a.torrents == [] then NoKey else TorrentKey(a.torrents[0].hash, a.torrents[0].service)
    else if a.media.None? then NoKey
    else
      var number := if a.season.Some? then Some(a.season.value.number) else None;
      MediaItemKey(a.media.value.kind, a.media.value.service, a.media.value.id, number)
  }

  /** The key names this action: a torrent by hash and service, a media item by kind,
      service and id, and a season by its number as well. */
  predicate Names(k: ActionKey, a: Action) {
    match k
    case TorrentKey(hash, service) => a.kind == StandaloneTorrent && a.torrents != [] && a.torrents[0].hash == hash && a.torrents[0].service == service
    case MediaItemKey(kind, service, id, season) =>
      && a.kind != StandaloneTorrent && a.media.Some?
      && a.media.value.kind == kind && a.media.value.service == service && a.media.value.id == id
      && (season.Some? <==> a.season.Some?) && (season.Some? ==> a.season.value.number == season.value)
    case NoKey => (if a.kind == StandaloneTorrent then a.torrents == [] else a.media.None?)
  }

  lemma KeyNamesIff(k: ActionKey, a: Action)
    ensures KeyOf(a) == k <==> Names(k, a)
  {
  }

  function Allowed(excluded: set<ActionKey>): Action -> bool { (a: Action) => KeyOf(a) !in excluded }

  method FilterExcluded(tier: seq<Action>, excluded: set<ActionKey>) returns (out: seq<Action>)
    ensures out == Filter(Allowed(excluded), tier)
    ensures forall a :: a in out <==> a in tier && forall k :: k in excluded ==> !Names(k, a)
  {
    FilterContents(Allowed(excluded), tier);
    forall a, k { KeyNamesIff(k, a); }
    out := [];
    for n := 0 to |tier|
      invariant out == Filter(Allowed(excluded), tier[..n])
    {
      assert tier[..n + 1] == tier[..n] + [tier[n]];
      FilterAppend(Allowed(excluded), tier[..n], [tier[n]]);
      if KeyOf(tier[n]) in excluded {
        continue;
      }
      out := out + [tier[n]];
    }
    assert tier[..|tier|] == tier;
  }

  // --------------------------------------------------------------------- rank

  predicate LowerComparable(a: Action, b: Action) { a.comparable <= b.comparable }

  predicate IsTorrent(a: Action) { a.kind == StandaloneTorrent }

  predicate IsMedia(a: Action) { !IsTorrent(a) }

  function Comparable(a: Action, scale: real): Action { a.(comparable := a.value * scale) }

  /** Torrent values on the scale of media values; 50 compares them directly. */
  function Scaled(torrentTier: seq<Action>, scale: real): seq<Action> {
    if torrentTier == [] then []
    else
      var a := torrentTier[|torrentTier| - 1];
      Scaled(torrentTier[..|torrentTier| - 1], scale) + [Comparable(a, scale)]
  }

  function AllRanked(mediaTier: seq<Action>, torrentTier: seq<Action>, care: real): seq<Action> {
    Sort(LowerComparable, Scaled(torrentTier, care / 50.0) + mediaTier)
  }

  method Rank(mediaTier: seq<Action>, torrentTier: seq<Action>, care: real) returns (merged: seq<Action>)
    ensures merged == AllRanked(mediaTier, torrentTier, care)
  {
    var scale := care / 50.0;
    merged := [];
    for n := 0 to |torrentTier|
      invariant merged == Scaled(torrentTier[..n], scale)
    {
      assert torrentTier[..n + 1][..n] == torrentTier[..n];
      var a := torrentTier[n];
      merged := merged + [Comparable(a, scale)];
    }
    assert torrentTier[..|torrentTier|] == torrentTier;
    merged := Sort(LowerComparable, merged + mediaTier);
  }

  // ----------------------------------------------------------------- baseline

  /** How many actions it takes from position n on to reach the need, or all. */
  function ReachFrom(xs: seq<Action>, need: int, n: nat): (k: nat)
    requires n <= |xs|
    ensures n <= k <= |xs|
    decreases |xs| - n
  {
    if n == |xs| || Bytes(xs[..n]) >= need then n else ReachFrom(xs, need, n + 1)
  }

  function Reach(xs: seq<Action>, need: int): (k: nat)
    ensures k <= |xs|
  {
    ReachFrom(xs, need, 0)
  }

  lemma {:induction false} ReachFromIsLeast(xs: seq<Action>, need: int, n: nat)
    requires n <= |xs| && (n > 0 ==> Bytes(xs[..n - 1]) < need)
    ensures LeastReaching(xs, 0, need, ReachFrom(xs, need, n))
    decreases |xs| - n
  {
    if n < |xs| && Bytes(xs[..n]) < need { ReachFromIsLeast(xs, need, n + 1); }
  }

  /** The shortest prefix that reaches the need. */
  lemma ReachIsLeast(xs: seq<Action>, need: int)
    ensures LeastReaching(xs, 0, need, Reach(xs, need))
  {
    ReachFromIsLeast(xs, need, 0);
  }

  /** The cheapest actions of both domains that reach the need: the torrents among
      them are final, of the media only the bytes count. */
  method Baseline(ranked: seq<Action>, need: int) returns (torrents: seq<Action>, mediaBytes: int)
    ensures torrents == Filter(IsTorrent, ranked[..Reach(ranked, need)])
    ensures mediaBytes == Bytes(Filter(IsMedia, ranked[..Reach(ranked, need)]))
  {
    torrents, mediaBytes := [], 0;
    var n, bytes := 0, 0;
    while n < |ranked| && bytes < need
      invariant n <= |ranked| && bytes == Bytes(ranked[..n])
      invariant Reach(ranked, need) == ReachFrom(ranked, need, n)
      invariant torrents == Filter(IsTorrent, ranked[..n]) && mediaBytes == Bytes(Filter(IsMedia, ranked[..n]))
    {
      var a := ranked[n];
      BaselineStep(ranked, n);
      if a.kind == StandaloneTorrent {
        torrents := torrents + [a];
      } else {
        mediaBytes := mediaBytes + a.bytes;
      }
      bytes := bytes + a.bytes;
      n := n + 1;
    }
  }

  lemma BaselineStep(ranked: seq<Action>, n: nat)
    requires n < |ranked|
    ensures var a := ranked[n];
      && Bytes(ranked[..n + 1]) == Bytes(ranked[..n]) + a.bytes
      && Filter(IsTorrent, ranked[..n + 1]) == Filter(IsTorrent, ranked[..n]) + (if IsTorrent(a) then [a] else [])
      && Bytes(Filter(IsMedia, ranked[..n + 1])) == Bytes(Filter(IsMedia, ranked[..n])) + (if IsTorrent(a) then 0 else a.bytes)
  {
    var a := ranked[n];
    assert ranked[..n + 1] == ranked[..n] + [a];
    FilterAppend(IsTorrent, ranked[..n], [a]);
    FilterAppend(IsMedia, ranked[..n], [a]);
    BytesAppend(Filter(IsMedia, ranked[..n]), Filter(IsMedia, [a]));
  }

  lemma {:induction false} BytesByKind(xs: seq<Action>)
    ensures Bytes(xs) == Bytes(Filter(IsTorrent, xs)) + Bytes(Filter(IsMedia, xs))
    decreases |xs|
  {
    if xs != [] {
      var front, a := xs[..|xs| - 1], xs[|xs| - 1];
      BytesByKind(front);
      assert xs == front + [a];
      FilterAppend(IsTorrent, front, [a]);
      FilterAppend(IsMedia, front, [a]);
      BytesAppend(Filter(IsTorrent, front), Filter(IsTorrent, [a]));
      BytesAppend(Filter(IsMedia, front), Filter(IsMedia, [a]));
    }
  }

  lemma {:induction false} ScaledBytes(tier: seq<Action>, scale: real)
    ensures Bytes(Scaled(tier, scale)) == Bytes(tier)
    decreases |tier|
  {
    if tier != [] { ScaledBytes(tier[..|tier| - 1], scale); }
  }

  lemma {:induction false} ScaledTorrents(tier: seq<Action>, scale: real)
    requires forall a :: a in tier ==> IsTorrent(a)
    ensures forall a :: a in Scaled(tier, scale) ==> IsTorrent(a)
    decreases |tier|
  {
    if tier != [] {
      assert tier[|tier| - 1] in tier;
      ScaledTorrents(tier[..|tier| - 1], scale);
    }
  }

  lemma RankedBytes(mediaTier: seq<Action>, torrentTier: seq<Action>, care: real)
    ensures Bytes(AllRanked(mediaTier, torrentTier, care)) == Bytes(torrentTier) + Bytes(mediaTier)
  {
    var merged := Scaled(torrentTier, care / 50.0) + mediaTier;
    SortContents(LowerComparable, merged);
    BytesPermuted(AllRanked(mediaTier, torrentTier, care), merged);
    BytesAppend(Scaled(torrentTier, care / 50.0), mediaTier);
    ScaledBytes(torrentTier, care / 50.0);
  }

  ghost predicate Tiers(mediaTier: seq<Action>, torrentTier: seq<Action>) {
    && AllPositive(mediaTier) && AllPositive(torrentTier)
    && (forall a :: a in mediaTier ==> IsMedia(a)) && (forall a :: a in torrentTier ==> IsTorrent(a))
  }

  lemma {:induction false} FilterNone(p: Action -> bool, xs: seq<Action>)
    requires forall a :: a in xs ==> !p(a)
    ensures Filter(p, xs) == []
  {
    if xs != [] { FilterNone(p, xs[1..]); }
  }

  lemma {:induction false} FilterEvery(p: Action -> bool, xs: seq<Action>)
    requires forall a :: a in xs ==> p(a)
    ensures Filter(p, xs) == xs
  {
    if xs != [] { FilterEvery(p, xs[1..]); }
  }

  lemma LowerComparableIsOrder()
    ensures TotalPreorder(LowerComparable)
  {
  }

  /** Splitting the ranked list gives back the two tiers. */
  lemma RankedSplits(mediaTier: seq<Action>, torrentTier: seq<Action>, care: real)
    requires Tiers(mediaTier, torrentTier)
    ensures Filter(IsMedia, AllRanked(mediaTier, torrentTier, care)) == Sort(LowerComparable, mediaTier)
    ensures Filter(IsTorrent, AllRanked(mediaTier, torrentTier, care)) == Sort(LowerComparable, Scaled(torrentTier, care / 50.0))
  {
    var scaled := Scaled(torrentTier, care / 50.0);
    ScaledTorrents(torrentTier, care / 50.0);
    LowerComparableIsOrder();
    FilterSort(LowerComparable, IsMedia, scaled + mediaTier);
    FilterSort(LowerComparable, IsTorrent, scaled + mediaTier);
    FilterAppend(IsMedia, scaled, mediaTier);
    FilterAppend(IsTorrent, scaled, mediaTier);
    FilterNone(IsMedia, scaled);
    FilterEvery(IsMedia, mediaTier);
    FilterNone(IsTorrent, mediaTier);
    FilterEvery(IsTorrent, scaled);
    assert [] + mediaTier == mediaTier && scaled + [] == scaled;
  }

  /** What a candidate is worth in the ranking: a torrent its value on the scale that
      the setting gives it, where 50 is the scale of media, and media its own value. */
  function Worth(a: Action, care: real): real { if a.kind == StandaloneTorrent then a.value * (care / 50.0) else a.value }

  lemma {:induction false} ScaledWorth(tier: seq<Action>, care: real)
    requires forall a :: a in tier ==> IsTorrent(a)
    ensures forall a :: a in Scaled(tier, care / 50.0) ==> a.comparable == Worth(a, care)
    decreases |tier|
  {
    if tier != [] {
      assert tier[|tier| - 1] in tier;
      ScaledWorth(tier[..|tier| - 1], care);
    }
  }

  /** The ranking goes by worth, least first, so whatever prefix is taken, nothing left
      is worth less than anything taken. */
  lemma RankedByWorth(media: seq<Media>, torrents: seq<Torrent>, excluded: set<ActionKey>, care: real, i: nat, j: nat)
    requires i < j < |AllRanked(EligibleMedia(media, excluded), EligibleTorrents(torrents, media, excluded), care)|
    ensures var ranked := AllRanked(EligibleMedia(media, excluded), EligibleTorrents(torrents, media, excluded), care);
      Worth(ranked[i], care) <= Worth(ranked[j], care)
  {
    var mediaTier, torrentTier := EligibleMedia(media, excluded), EligibleTorrents(torrents, media, excluded);
    var ranked, merged := AllRanked(mediaTier, torrentTier, care), Scaled(torrentTier, care / 50.0) + mediaTier;
    EligibleTiers(media, torrents, excluded);
    ScaledWorth(torrentTier, care);
    FilterContents(Allowed(excluded), MediaTier(media));
    forall a | a in mediaTier { MediaTierSafe(media, media, a); }
    LowerComparableIsOrder();
    SortSorted(LowerComparable, merged);
    SortContents(LowerComparable, merged);
    assert ranked[i] in ranked && ranked[j] in ranked;
    assert LowerComparable(ranked[i], ranked[j]);
  }

  // ---------------------------------------------------------------- selection

  function Min(a: int, b: int): int { if a <= b then a else b }

  ghost predicate Selected(mediaTier: seq<Action>, torrentTier: seq<Action>, care: real, need: int, torrents: seq<Action>, media: seq<Action>) {
    var ranked := AllRanked(mediaTier, torrentTier, care);
    var k := Reach(ranked, need);
    && torrents == Filter(IsTorrent, ranked[..k])
    && CheapestOfEach(mediaTier, media)
    && (Bytes(media) >= Bytes(Filter(IsMedia, ranked[..k])) || Everything(mediaTier, media))
  }

  /** Whatever shares were computed, the selection reaches the need if all the
      candidates together can. */
  lemma SelectionReaches(mediaTier: seq<Action>, torrentTier: seq<Action>, care: real, need: int, torrents: seq<Action>, media: seq<Action>)
    requires Tiers(mediaTier, torrentTier) && Selected(mediaTier, torrentTier, care, need, torrents, media)
    ensures Bytes(torrents) + Bytes(media) >= Min(need, Bytes(torrentTier) + Bytes(mediaTier))
  {
    var ranked := AllRanked(mediaTier, torrentTier, care);
    var k := Reach(ranked, need);
    ReachIsLeast(ranked, need);
    BaselineReaches(mediaTier, torrentTier, care, need, k);
    MediaPrefix(mediaTier, torrentTier, care, k);
    if Everything(mediaTier, media) { EverythingTaken(mediaTier, media); }
    assert Bytes(media) >= Bytes(Filter(IsMedia, ranked[..k]));
  }

  lemma BaselineReaches(mediaTier: seq<Action>, torrentTier: seq<Action>, care: real, need: int, k: nat)
    requires LeastReaching(AllRanked(mediaTier, torrentTier, care), 0, need, k)
    ensures var prefix := AllRanked(mediaTier, torrentTier, care)[..k];
      Bytes(Filter(IsTorrent, prefix)) + Bytes(Filter(IsMedia, prefix)) >= Min(need, Bytes(torrentTier) + Bytes(mediaTier))
  {
    var ranked := AllRanked(mediaTier, torrentTier, care);
    RankedBytes(mediaTier, torrentTier, care);
    BytesByKind(ranked[..k]);
    if k == |ranked| { assert ranked[..k] == ranked; }
  }

  /** The media part of any prefix is no more than all media. */
  lemma MediaPrefix(mediaTier: seq<Action>, torrentTier: seq<Action>, care: real, k: nat)
    requires Tiers(mediaTier, torrentTier) && k <= |AllRanked(mediaTier, torrentTier, care)|
    ensures Bytes(Filter(IsMedia, AllRanked(mediaTier, torrentTier, care)[..k])) <= Bytes(mediaTier)
  {
    var ranked := AllRanked(mediaTier, torrentTier, care);
    RankedSplits(mediaTier, torrentTier, care);
    FilterPrefix(IsMedia, ranked, k);
    SortContents(LowerComparable, mediaTier);
    BytesPermuted(Sort(LowerComparable, mediaTier), mediaTier);
    PrefixBytes(Filter(IsMedia, ranked), |Filter(IsMedia, ranked[..k])|);
  }

  /** Each candidate is selected at most once. */
  lemma SelectionOnce(mediaTier: seq<Action>, torrentTier: seq<Action>, care: real, need: int, torrents: seq<Action>, media: seq<Action>)
    requires Tiers(mediaTier, torrentTier) && Selected(mediaTier, torrentTier, care, need, torrents, media)
    ensures multiset(torrents + media) <= multiset(Scaled(torrentTier, care / 50.0) + mediaTier)
  {
    var ranked, scaled := AllRanked(mediaTier, torrentTier, care), Scaled(torrentTier, care / 50.0);
    RankedSplits(mediaTier, torrentTier, care);
    FilterPrefix(IsTorrent, ranked, Reach(ranked, need));
    SortContents(LowerComparable, scaled);
    var all := Filter(IsTorrent, ranked);
    assert all == torrents + all[|torrents|..];
    assert multiset(all) == multiset(torrents) + multiset(all[|torrents|..]);
    CheapestOfEachOnce(mediaTier, media);
  }

  method Select(mediaTier: seq<Action>, torrentTier: seq<Action>, care: real, need: nat, claimed: map<string, nat>, round: (int, nat, nat) -> int)
    returns (torrents: seq<Action>, media: seq<Action>)
    requires Tiers(mediaTier, torrentTier)
    ensures Selected(mediaTier, torrentTier, care, need, torrents, media)
  {
    var ranked := Rank(mediaTier, torrentTier, care);
    var mediaBytes;
    torrents, mediaBytes := Baseline(ranked, need);
    media := FairMediaShare(mediaTier, claimed, mediaBytes, round);
  }

  /** Cheapest first, but no show loses a later season before an earlier one. */
  method Arrange(torrents: seq<Action>, media: seq<Action>) returns (actions: seq<Action>)
    ensures var sorted := Sort(LowerComparable, torrents + media); Reordered(sorted, actions, Shows(sorted))
  {
    var sorted := Sort(LowerComparable, torrents + media);
    var a := new Action[|sorted|](i requires 0 <= i < |sorted| => sorted[i]);
    assert a[..] == sorted;
    EnforceSeasonOrder(a);
    actions := a[..];
  }

  method AddBytes(actions: seq<Action>) returns (bytes: int)
    ensures bytes == Bytes(actions)
  {
    bytes := 0;
    for n := 0 to |actions|
      invariant bytes == Bytes(actions[..n])
    {
      assert actions[..n + 1][..n] == actions[..n];
      bytes := bytes + actions[n].bytes;
    }
    assert actions[..|actions|] == actions;
  }

  // --------------------------------------------------------------------- need

  datatype Space = Space(total: nat, free: nat)

  datatype Usage = Usage(total: nat, used: nat, other: nat, usable: nat, stewarrUsed: nat)

  /** Space others use on the device is set aside on both sides. */
  function UsageOf(space: Space, otherBytes: nat): Usage
    requires space.free <= space.total
  {
    var used := space.total - space.free;
    var other := if otherBytes > space.total then space.total else otherBytes;
    Usage(space.total, used, other, space.total - other, if other > used then 0 else used - other)
  }

  /** What is free stays free to use, what others hold is neither used nor usable, and
      nothing is used if others hold all of the used space. */
  predicate SetsAside(space: Space, otherBytes: nat, u: Usage) {
    && u.total == space.total && u.used + space.free == space.total
    && u.other == (if otherBytes <= space.total then otherBytes else space.total) && u.usable + u.other == space.total
    && (otherBytes <= u.used ==> u.usable - u.stewarrUsed == space.free)
    && (otherBytes > u.used ==> u.stewarrUsed == 0)
  }

  lemma UsageSetsAside(space: Space, otherBytes: nat)
    requires space.free <= space.total
    ensures var u := UsageOf(space, otherBytes); SetsAside(space, otherBytes, u) && u.stewarrUsed <= u.usable
  {
  }

  /** The percentage is that of the usable bytes. */
  predicate PercentOf(u: Usage, percent: real) {
    if u.usable == 0 then percent == 0.0 else percent * u.usable as real == u.stewarrUsed as real * 100.0
  }

  lemma PercentIsShare(u: Usage)
    ensures PercentOf(u, Percent(u))
  {
    if u.usable > 0 {
      var n, d := u.stewarrUsed as real, u.usable as real;
      var q := n / d;
      assert q * d == n;
      assert q * 100.0 * d == q * d * 100.0;
    }
  }

  function Percent(u: Usage): real { if u.usable > 0 then u.stewarrUsed as real / u.usable as real * 100.0 else 0.0 }

  /** Used bytes stay within the target percentage of the usable bytes. */
  predicate WithinTarget(used: int, usable: nat, target: real) { used as real * 100.0 <= usable as real * target }

  lemma PercentIffWithin(u: Usage, target: real)
    requires target >= 0.0 && u.stewarrUsed <= u.usable
    ensures Percent(u) <= target <==> WithinTarget(u.stewarrUsed, u.usable, target)
  {
    if u.usable > 0 {
      var n, d := u.stewarrUsed as real, u.usable as real;
      var q := n / d;
      assert q * d == n;
      Ratio(q, d, target);
    }
  }

  lemma Ratio(q: real, d: real, target: real)
    requires d > 0.0
    ensures q * 100.0 <= target <==> q * d * 100.0 <= d * target
  {
    var x := q * 100.0;
    assert q * d * 100.0 == x * d;
    assert (target - x) * d == d * target - x * d;
    if x <= target { assert (target - x) * d >= 0.0; } else { assert (target - x) * d < 0.0; }
  }

  /** Freeing these bytes is not enough. */
  predicate TooLittle(u: Usage, freed: int, target: real) { !WithinTarget(u.stewarrUsed - freed, u.usable, target) }

  function NeedOf(u: Usage, target: real): int {
    var targetUsed := (u.usable as real * target / 100.0).Floor;
    if u.stewarrUsed > targetUsed then u.stewarrUsed - targetUsed else 0
  }

  /** The need is the least number of bytes whose removal meets the target. */
  lemma NeedIsLeast(u: Usage, target: real)
    requires target >= 0.0 && !WithinTarget(u.stewarrUsed, u.usable, target)
    ensures 0 < NeedOf(u, target) <= u.stewarrUsed
    ensures WithinTarget(u.stewarrUsed - NeedOf(u, target), u.usable, target)
    ensures forall less :: less < NeedOf(u, target) ==> TooLittle(u, less, target)
  {
    var bound := u.usable as real * target / 100.0;
    assert bound >= 0.0;
    forall x: int
      ensures WithinTarget(x, u.usable, target) <==> x <= bound.Floor
    {
      assert WithinTarget(x, u.usable, target) <==> x as real <= bound;
    }
  }

  // -------------------------------------------------------------------- build

  datatype Plan = Unavailable | Plan(reliable: bool, usage: Usage, percent: real, need: nat, actions: seq<Action>, selectedBytes: int)

  ghost function EligibleMedia(media: seq<Media>, excluded: set<ActionKey>): seq<Action> { Filter(Allowed(excluded), MediaTier(media)) }

  ghost function EligibleTorrents(torrents: seq<Torrent>, media: seq<Media>, excluded: set<ActionKey>): seq<Action> {
    Filter(Allowed(excluded), TorrentTier(torrents, BundledHashes(media)))
  }

  lemma EligibleTiers(media: seq<Media>, torrents: seq<Torrent>, excluded: set<ActionKey>)
    ensures Tiers(EligibleMedia(media, excluded), EligibleTorrents(torrents, media, excluded))
  {
    FilterContents(Allowed(excluded), MediaTier(media));
    FilterContents(Allowed(excluded), TorrentTier(torrents, BundledHashes(media)));
    TorrentTierMembers(torrents, BundledHashes(media));
    forall a | a in MediaTier(media)
      ensures a.bytes > 0 && IsMedia(a)
    {
      MediaTierSafe(media, media, a);
      MediaTierKind(media, a);
    }
  }

  lemma {:induction false} MediaTierKind(media: seq<Media>, a: Action)
    requires a in MediaTier(media)
    ensures IsMedia(a)
    decreases |media|
  {
    var front, m := media[..|media| - 1], media[|media| - 1];
    if a in MediaTier(front) {
      MediaTierKind(front, a);
    } else if PerSeason(m) {
      SeasonActionsKind(m, m.seasons, a);
    }
  }

  lemma {:induction false} SeasonActionsKind(m: Media, seasons: seq<Season>, a: Action)
    requires a in SeasonActions(m, seasons)
    ensures IsMedia(a)
    decreases |seasons|
  {
    if a in SeasonActions(m, seasons[..|seasons| - 1]) { SeasonActionsKind(m, seasons[..|seasons| - 1], a); }
  }

  /** What the listed actions are: a selection, arranged. */
  ghost predicate Fulfils(mediaTier: seq<Action>, torrentTier: seq<Action>, care: real, need: nat, actions: seq<Action>) {
    && multiset(actions) <= multiset(Scaled(torrentTier, care / 50.0) + mediaTier)
    && Bytes(actions) >= Min(need, Bytes(torrentTier) + Bytes(mediaTier))
    && InOrder(actions)
    && exists torrents, media :: Arranged(mediaTier, torrentTier, care, need, actions, torrents, media)
  }

  ghost predicate Arranged(mediaTier: seq<Action>, torrentTier: seq<Action>, care: real, need: nat, actions: seq<Action>, torrents: seq<Action>, media: seq<Action>) {
    && Selected(mediaTier, torrentTier, care, need, torrents, media)
    && var sorted := Sort(LowerComparable, torrents + media); Reordered(sorted, actions, Shows(sorted))
  }

  lemma ArrangedFulfils(mediaTier: seq<Action>, torrentTier: seq<Action>, care: real, need: nat, actions: seq<Action>, torrents: seq<Action>, media: seq<Action>)
    requires Tiers(mediaTier, torrentTier) && Arranged(mediaTier, torrentTier, care, need, actions, torrents, media)
    ensures Fulfils(mediaTier, torrentTier, care, need, actions)
  {
    var sorted := Sort(LowerComparable, torrents + media);
    SortContents(LowerComparable, torrents + media);
    ReorderedPermutes(sorted, actions);
    ReorderedInOrder(sorted, actions);
    BytesPermuted(actions, torrents + media);
    BytesAppend(torrents, media);
    SelectionReaches(mediaTier, torrentTier, care, need, torrents, media);
    SelectionOnce(mediaTier, torrentTier, care, need, torrents, media);
  }

  lemma {:induction false} ScaledNames(tier: seq<Action>, scale: real, excluded: set<ActionKey>)
    requires forall a, k :: a in tier && k in excluded ==> !Names(k, a)
    ensures forall a, k :: a in Scaled(tier, scale) && k in excluded ==> !Names(k, a)
    decreases |tier|
  {
    if tier != [] {
      var front, last := tier[..|tier| - 1], tier[|tier| - 1];
      assert tier == front + [last];
      ScaledNames(front, scale, excluded);
      forall k | k in excluded
        ensures !Names(k, Comparable(last, scale))
      {
        assert !Names(k, last);
      }
    }
  }

  lemma NoneExcluded(mediaTier: seq<Action>, torrentTier: seq<Action>, care: real, excluded: set<ActionKey>, actions: seq<Action>)
    requires multiset(actions) <= multiset(Scaled(torrentTier, care / 50.0) + mediaTier)
    requires forall a, k :: (a in mediaTier || a in torrentTier) && k in excluded ==> !Names(k, a)
    ensures forall a, k :: a in actions && k in excluded ==> !Names(k, a)
  {
    ScaledNames(torrentTier, care / 50.0, excluded);
    forall a | a in actions
      ensures a in Scaled(torrentTier, care / 50.0) || a in mediaTier
    {
      assert a in multiset(actions);
      assert a in multiset(Scaled(torrentTier, care / 50.0) + mediaTier);
    }
  }

  method Actions(media: seq<Media>, torrents: seq<Torrent>, excluded: set<ActionKey>, care: real, need: nat, claimed: map<string, nat>, round: (int, nat, nat) -> int)
    returns (actions: seq<Action>)
    ensures (forall a, k :: a in actions && k in excluded ==> !Names(k, a)) && SeasonsAscend(actions)
    ensures Fulfils(EligibleMedia(media, excluded), EligibleTorrents(torrents, media, excluded), care, need, actions)
  {
    var mediaTier, torrentTier;
    mediaTier, torrentTier := Classify(media, torrents);
    mediaTier := FilterExcluded(mediaTier, excluded);
    torrentTier := FilterExcluded(torrentTier, excluded);
    EligibleTiers(media, torrents, excluded);
    var chosen, shared := Select(mediaTier, torrentTier, care, need, claimed, round);
    actions := Arrange(chosen, shared);
    ArrangedFulfils(mediaTier, torrentTier, care, need, actions, chosen, shared);
    NoneExcluded(mediaTier, torrentTier, care, excluded, actions);
    InOrderMeans(actions);
  }

  /** A reliable plan over the target reaches its need whenever its candidates can;
      the need is exactly what brings usage back to the target. */
  method Build(space: Option<Space>, otherBytes: nat, claimed: map<string, nat>, target: real, care: real, media: seq<Media>, torrents: seq<Torrent>,
               reliable: bool, excluded: set<ActionKey>, round: (int, nat, nat) -> int) returns (plan: Plan)
    requires target >= 0.0 && (space.Some? ==> space.value.free <= space.value.total)
    ensures plan.Unavailable? <==> space.None? || space.value.total == 0
    ensures plan.Plan? ==> SetsAside(space.value, otherBytes, plan.usage) && PercentOf(plan.usage, plan.percent)
    ensures plan.Plan? ==> (plan.need > 0 <==> plan.percent > target)
    ensures plan.Plan? ==> (plan.usage.stewarrUsed - plan.need) as real * 100.0 <= plan.usage.usable as real * target
    ensures plan.Plan? && plan.need > 0 ==> (plan.usage.stewarrUsed - plan.need + 1) as real * 100.0 > plan.usage.usable as real * target
    ensures plan.Plan? && space.value.total <= space.value.free + otherBytes ==> plan.actions == []
    ensures plan.Plan? && WithinTarget(plan.usage.stewarrUsed, plan.usage.usable, target) ==> plan.need == 0 && plan.actions == []
    ensures plan.Plan? && !WithinTarget(plan.usage.stewarrUsed, plan.usage.usable, target) ==>
      && WithinTarget(plan.usage.stewarrUsed - plan.need, plan.usage.usable, target)
      && forall less :: less < plan.need ==> TooLittle(plan.usage, less, target)
    ensures plan.Plan? && !reliable ==> plan.actions == []
    ensures plan.Plan? ==> (forall a, k :: a in plan.actions && k in excluded ==> !Names(k, a)) && SeasonsAscend(plan.actions)
    ensures plan.Plan? ==> plan.selectedBytes == Bytes(plan.actions)
    ensures plan.Plan? && reliable && plan.need > 0 ==>
      Fulfils(EligibleMedia(media, excluded), EligibleTorrents(torrents, media, excluded), care, plan.need, plan.actions)
  {
    if space.None? || space.value.total == 0 {
      return Unavailable;
    }
    var usage := UsageOf(space.value, otherBytes);
    var percent := Percent(usage);
    UsageSetsAside(space.value, otherBytes);
    PercentIsShare(usage);
    PercentIffWithin(usage, target);
    if percent <= target {
      return Plan(reliable, usage, percent, 0, [], 0);
    }
    NeedIsLeast(usage, target);
    var need := NeedOf(usage, target);
    if !reliable {
      return Plan(reliable, usage, percent, need, [], 0);
    }
    var actions := Actions(media, torrents, excluded, care, need, claimed, round);
    var selected := AddBytes(actions);
    return Plan(reliable, usage, percent, need, actions, selected);
  }
}
