/** What may be removed to make room: media and torrents split into indivisible
    actions.  Media and the current torrents hardlinked to it go together or not at
    all, since removing only one side frees nothing. */
module CleanupCandidates {
  import opened FileTopology
  import opened Sorting

  datatype TorrentStatus = Current | Superseded | Orphaned | Unassociated

  datatype Torrent = Torrent(hash: string, service: string, status: TorrentStatus, linkKnown: bool, linked: bool, seasons: seq<int>,
                             shielded: bool, restricted: bool, known: bool, bytes: int, value: real)

  datatype Season = Season(number: int, shielded: bool, restricted: bool, known: bool, bytes: int, bundleKnown: bool, bundleBytes: int, value: real)

  datatype Media = Media(kind: MediaKind, service: string, serviceName: string, id: int, seasons: seq<Season>, torrents: seq<Torrent>,
                         shielded: bool, restricted: bool, known: bool, bytes: int, bundleKnown: bool, bundleBytes: int, value: real)

  datatype ActionKind = StandaloneMedia | StandaloneTorrent | HardlinkedBundle | StandaloneSeason

  datatype Action = Action(kind: ActionKind, media: Option<Media>, season: Option<Season>, torrents: seq<Torrent>, value: real, comparable: real, bytes: int)

  // ---------------------------------------------------------------- hardlinks

  /** Proven to be current and hardlinked. */
  predicate Bound(t: Torrent) { t.status == Current && t.linkKnown && t.linked }

  function BoundTo(season: int): Torrent -> bool { (t: Torrent) => Bound(t) && season in t.seasons }

  function BoundTorrents(m: Media): seq<Torrent> { Filter(Bound, m.torrents) }

  function BoundToSeason(m: Media, season: int): seq<Torrent> { Filter(BoundTo(season), m.torrents) }

  predicate Vetoed(torrents: seq<Torrent>) { exists t :: t in torrents && (t.shielded || t.restricted) }

  function TorrentValues(torrents: seq<Torrent>): real {
    if torrents == [] then 0.0 else TorrentValues(torrents[..|torrents| - 1]) + torrents[|torrents| - 1].value
  }

  /** The values of the torrents, added up. */
  lemma {:induction false} TorrentValuesAdd(a: seq<Torrent>, b: seq<Torrent>)
    ensures TorrentValues(a + b) == TorrentValues(a) + TorrentValues(b)
    ensures forall t: Torrent :: TorrentValues([t]) == t.value
    decreases |b|
  {
    assert forall t: Torrent :: [t][..0] == [];
    if b == [] {
      assert a + b == a;
    } else {
      assert (a + b)[..|a + b| - 1] == a + b[..|b| - 1];
      TorrentValuesAdd(a, b[..|b| - 1]);
    }
  }

  predicate PerSeason(m: Media) { m.kind == Series && m.seasons != [] }

  // -------------------------------------------------------------- eligibility

  /** The action a season stands for, if it may be removed. */
  function SeasonAction(m: Media, s: Season): Option<Action> {
    var bound := BoundToSeason(m, s.number);
    if bound != [] then
      if s.shielded || s.restricted || Vetoed(bound) || !s.bundleKnown || s.bundleBytes <= 0 then None
      else
        var value := s.value + TorrentValues(bound);
        Some(Action(HardlinkedBundle, Some(m), Some(s), bound, value, value, s.bundleBytes))
    else if s.shielded || s.restricted || !s.known || s.bytes <= 0 then None
    else Some(Action(StandaloneSeason, Some(m), Some(s), [], s.value, s.value, s.bytes))
  }

  /** The action a movie, or a series without known seasons, stands for. */
  function WholeAction(m: Media): Option<Action> {
    var bound := BoundTorrents(m);
    if bound != [] then
      if m.shielded || m.restricted || Vetoed(bound) || !m.bundleKnown || m.bundleBytes <= 0 then None
      else
        var value := m.value + TorrentValues(bound);
        Some(Action(HardlinkedBundle, Some(m), None, bound, value, value, m.bundleBytes))
    else if m.shielded || m.restricted || !m.known || m.bytes <= 0 then None
    else Some(Action(StandaloneMedia, Some(m), None, [], m.value, m.value, m.bytes))
  }

  function Listed(a: Option<Action>): seq<Action> { if a.Some? then [a.value] else [] }

  function SeasonActions(m: Media, seasons: seq<Season>): seq<Action> {
    if seasons == [] then []
    else SeasonActions(m, seasons[..|seasons| - 1]) + Listed(SeasonAction(m, seasons[|seasons| - 1]))
  }

  function MediaTier(media: seq<Media>): seq<Action> {
    if media == [] then []
    else
      var m := media[|media| - 1];
      MediaTier(media[..|media| - 1]) + if PerSeason(m) then SeasonActions(m, m.seasons) else Listed(WholeAction(m))
  }

  /** The torrent is bound to some listed media, or to one of its seasons. */
  ghost predicate BundledWith(m: Media, hash: string) {
    if PerSeason(m) then exists s, t :: s in m.seasons && t in BoundToSeason(m, s.number) && t.hash == hash
    else exists t :: t in BoundTorrents(m) && t.hash == hash
  }

  ghost predicate Bundled(media: seq<Media>, hash: string) { exists m :: m in media && BundledWith(m, hash) }

  function BundledHashesOf(m: Media): set<string> {
    if PerSeason(m) then set s, t | s in m.seasons && t in BoundToSeason(m, s.number) :: t.hash
    else set t | t in BoundTorrents(m) :: t.hash
  }

  function BundledHashes(media: seq<Media>): set<string> { set m, h | m in media && h in BundledHashesOf(m) :: h }

  lemma BundledIff(media: seq<Media>, h: string)
    ensures h in BundledHashes(media) <==> Bundled(media, h)
  {
    if Bundled(media, h) {
      var m :| m in media && BundledWith(m, h);
      assert h in BundledHashesOf(m);
    }
    if h in BundledHashes(media) {
      var m :| m in media && h in BundledHashesOf(m);
      assert BundledWith(m, h);
    }
  }

  /** A torrent may be removed alone only if that cannot take a file a current
      media item still uses: it is not current, or proven not hardlinked. */
  predicate Eligible(t: Torrent, bundled: set<string>) {
    && !t.shielded && !t.restricted
    && (t.status == Current ==> t.hash !in bundled && t.linkKnown && !t.linked)
    && t.known && t.bytes > 0
  }

  function TorrentAction(t: Torrent): Action { Action(StandaloneTorrent, None, None, [t], t.value, 0.0, t.bytes) }

  function TorrentTier(torrents: seq<Torrent>, bundled: set<string>): seq<Action> {
    if torrents == [] then []
    else
      var t := torrents[|torrents| - 1];
      TorrentTier(torrents[..|torrents| - 1], bundled) + if Eligible(t, bundled) then [TorrentAction(t)] else []
  }

  // ----------------------------------------------------------------- classify

  method Hashes(torrents: seq<Torrent>, bundled: set<string>) returns (after: set<string>)
    ensures forall h :: h in after <==> h in bundled || exists t :: t in torrents && t.hash == h
  {
    after := bundled;
    for n := 0 to |torrents|
      invariant forall h :: h in after <==> h in bundled || exists t :: t in torrents[..n] && t.hash == h
    {
      MemberStep(torrents, n);
      after := after + {torrents[n].hash};
    }
    assert torrents[..|torrents|] == torrents;
  }

  method Restricted(torrents: seq<Torrent>) returns (vetoed: bool)
    ensures vetoed <==> Vetoed(torrents)
  {
    for n := 0 to |torrents|
      invariant !Vetoed(torrents[..n])
    {
      MemberStep(torrents, n);
      if torrents[n].shielded || torrents[n].restricted {
        return true;
      }
    }
    assert torrents[..|torrents|] == torrents;
    return false;
  }

  method AddValues(start: real, torrents: seq<Torrent>) returns (value: real)
    ensures value == start + TorrentValues(torrents)
  {
    value := start;
    for n := 0 to |torrents|
      invariant value == start + TorrentValues(torrents[..n])
    {
      assert torrents[..n + 1][..n] == torrents[..n];
      value := value + torrents[n].value;
    }
    assert torrents[..|torrents|] == torrents;
  }

  method ClassifySeason(m: Media, s: Season, tier: seq<Action>, bundled: set<string>) returns (tierAfter: seq<Action>, bundledAfter: set<string>)
    ensures tierAfter == tier + Listed(SeasonAction(m, s))
    ensures forall h :: h in bundledAfter <==> h in bundled || exists t :: t in BoundToSeason(m, s.number) && t.hash == h
  {
    tierAfter, bundledAfter := tier, bundled;
    var bound := BoundToSeason(m, s.number);
    if |bound| > 0 {
      bundledAfter := Hashes(bound, bundled);
      var vetoed := Restricted(bound);
      if s.shielded || s.restricted || vetoed || !s.bundleKnown || s.bundleBytes <= 0 {
        return;
      }
      var value := AddValues(s.value, bound);
      tierAfter := tier + [Action(HardlinkedBundle, Some(m), Some(s), bound, value, value, s.bundleBytes)];
      return;
    }
    if s.shielded || s.restricted || !s.known || s.bytes <= 0 {
      return;
    }
    tierAfter := tier + [Action(StandaloneSeason, Some(m), Some(s), [], s.value, s.value, s.bytes)];
  }

  method ClassifyWhole(m: Media, tier: seq<Action>, bundled: set<string>) returns (tierAfter: seq<Action>, bundledAfter: set<string>)
    ensures tierAfter == tier + Listed(WholeAction(m))
    ensures forall h :: h in bundledAfter <==> h in bundled || exists t :: t in BoundTorrents(m) && t.hash == h
  {
    tierAfter, bundledAfter := tier, bundled;
    var bound := BoundTorrents(m);
    if |bound| > 0 {
      bundledAfter := Hashes(bound, bundled);
      var vetoed := Restricted(bound);
      if m.shielded || m.restricted || vetoed || !m.bundleKnown || m.bundleBytes <= 0 {
        return;
      }
      var value := AddValues(m.value, bound);
      tierAfter := tier + [Action(HardlinkedBundle, Some(m), None, bound, value, value, m.bundleBytes)];
      return;
    }
    if m.shielded || m.restricted || !m.known || m.bytes <= 0 {
      return;
    }
    tierAfter := tier + [Action(StandaloneMedia, Some(m), None, [], m.value, m.value, m.bytes)];
  }

  method ClassifyMedia(m: Media, tier: seq<Action>, bundled: set<string>) returns (tierAfter: seq<Action>, bundledAfter: set<string>)
    ensures tierAfter == tier + if PerSeason(m) then SeasonActions(m, m.seasons) else Listed(WholeAction(m))
    ensures forall h :: h in bundledAfter <==> h in bundled || BundledWith(m, h)
  {
    if m.kind == Series && |m.seasons| > 0 {
      tierAfter, bundledAfter := ClassifySeasons(m, tier, bundled);
    } else {
      tierAfter, bundledAfter := ClassifyWhole(m, tier, bundled);
    }
  }

  method ClassifySeasons(m: Media, tier: seq<Action>, bundled: set<string>) returns (tierAfter: seq<Action>, bundledAfter: set<string>)
    ensures tierAfter == tier + SeasonActions(m, m.seasons)
    ensures forall h :: h in bundledAfter <==> h in bundled || exists s, t :: s in m.seasons && t in BoundToSeason(m, s.number) && t.hash == h
  {
    tierAfter, bundledAfter := tier, bundled;
    for n := 0 to |m.seasons|
      invariant tierAfter == tier + SeasonActions(m, m.seasons[..n])
      invariant forall h :: h in bundledAfter <==> h in bundled || exists s, t :: s in m.seasons[..n] && t in BoundToSeason(m, s.number) && t.hash == h
    {
      MemberStep(m.seasons, n);
      assert m.seasons[..n + 1][..n] == m.seasons[..n];
      tierAfter, bundledAfter := ClassifySeason(m, m.seasons[n], tierAfter, bundledAfter);
    }
    assert m.seasons[..|m.seasons|] == m.seasons;
  }

  method Classify(media: seq<Media>, torrents: seq<Torrent>) returns (mediaTier: seq<Action>, torrentTier: seq<Action>)
    ensures mediaTier == MediaTier(media) && torrentTier == TorrentTier(torrents, BundledHashes(media))
  {
    mediaTier, torrentTier := [], [];
    var hashes: set<string> := {};
    for n := 0 to |media|
      invariant mediaTier == MediaTier(media[..n])
      invariant forall h :: h in hashes <==> Bundled(media[..n], h)
    {
      MemberStep(media, n);
      assert media[..n + 1][..n] == media[..n];
      mediaTier, hashes := ClassifyMedia(media[n], mediaTier, hashes);
    }
    assert media[..|media|] == media;
    forall h { BundledIff(media, h); }
    assert hashes == BundledHashes(media);
    for n := 0 to |torrents|
      invariant torrentTier == TorrentTier(torrents[..n], hashes)
    {
      assert torrents[..n + 1][..n] == torrents[..n];
      var t := torrents[n];
      if t.shielded || t.restricted {
        continue;
      }
      if t.status == Current && (t.hash in hashes || !t.linkKnown || t.linked) {
        continue;
      }
      if !t.known || t.bytes <= 0 {
        continue;
      }
      torrentTier := torrentTier + [TorrentAction(t)];
    }
    assert torrents[..|torrents|] == torrents;
  }

  // ------------------------------------------------------------------ meaning

  /** The torrent is current and proven to be hardlinked to the item, or to the given
      season of it. */
  predicate Binds(m: Media, season: Option<int>, t: Torrent) {
    && t in m.torrents && t.status == Current && t.linkKnown && t.linked
    && (season.Some? ==> season.value in t.seasons)
  }

  ghost predicate AnyBinds(m: Media, season: Option<int>) { exists t :: Binds(m, season, t) }

  /** A movie, or a series as a whole, may go: it is not protected, nor is any torrent
      bound to it, and what it would free is known and not nothing. */
  ghost predicate MayGo(m: Media) {
    && !m.shielded && !m.restricted && (forall t :: Binds(m, None, t) ==> !t.shielded && !t.restricted)
    && if AnyBinds(m, None) then m.bundleKnown && m.bundleBytes > 0 else m.known && m.bytes > 0
  }

  /** ... and so a season. */
  ghost predicate SeasonMayGo(m: Media, s: Season) {
    && !s.shielded && !s.restricted && (forall t :: Binds(m, Some(s.number), t) ==> !t.shielded && !t.restricted)
    && if AnyBinds(m, Some(s.number)) then s.bundleKnown && s.bundleBytes > 0 else s.known && s.bytes > 0
  }

  function BoundOf(m: Media, season: Option<int>): seq<Torrent> {
    if season.None? then BoundTorrents(m) else BoundToSeason(m, season.value)
  }

  lemma BoundIff(m: Media, season: Option<int>)
    ensures forall t :: t in BoundOf(m, season) <==> Binds(m, season, t)
    ensures BoundOf(m, season) != [] <==> AnyBinds(m, season)
    ensures Vetoed(BoundOf(m, season)) <==> exists t :: Binds(m, season, t) && (t.shielded || t.restricted)
  {
    var bound := BoundOf(m, season);
    FilterContents(Bound, m.torrents);
    if season.Some? { FilterContents(BoundTo(season.value), m.torrents); }
    assert forall t :: t in bound <==> Binds(m, season, t);
    if bound != [] { assert bound[0] in bound; }
  }

  /** The whole item is offered exactly if it may go, with all torrents bound to it, for
      what it and they free together. */
  lemma WholeActionIff(m: Media)
    ensures WholeAction(m).Some? <==> MayGo(m)
    ensures WholeAction(m).Some? ==> IsOffer(WholeAction(m).value, m, None)
  {
    BoundIff(m, None);
  }

  lemma SeasonActionIff(m: Media, s: Season)
    ensures SeasonAction(m, s).Some? <==> SeasonMayGo(m, s)
    ensures SeasonAction(m, s).Some? ==> IsOffer(SeasonAction(m, s).value, m, Some(s))
  {
    BoundIff(m, Some(s.number));
  }

  /** The action stands for the item, or for one season of it, together with exactly the
      torrents bound to it. */
  ghost predicate IsOffer(a: Action, m: Media, season: Option<Season>) {
    var number := if season.Some? then Some(season.value.number) else None;
    && a.media == Some(m) && a.season == season
    && (forall t :: t in a.torrents <==> Binds(m, number, t))
    && a.value == (if season.Some? then season.value.value else m.value) + TorrentValues(a.torrents) && a.comparable == a.value
    && a.bytes == (match season
                   case Some(s) => if a.torrents != [] then s.bundleBytes else s.bytes
                   case None => if a.torrents != [] then m.bundleBytes else m.bytes)
    && a.kind == (if a.torrents != [] then HardlinkedBundle else if season.Some? then StandaloneSeason else StandaloneMedia)
  }

  /** What is offered for a media item: it and all current torrents hardlinked to
      it, none of them protected, and something to gain. */
  ghost predicate SafeMediaAction(media: seq<Media>, a: Action) {
    && a.media.Some? && a.media.value in media && a.bytes > 0
    && IsOffer(a, a.media.value, a.season)
    && (match a.season
        case Some(s) => PerSeason(a.media.value) && s in a.media.value.seasons && SeasonMayGo(a.media.value, s)
                        && a.torrents == BoundToSeason(a.media.value, s.number)
        case None => !PerSeason(a.media.value) && MayGo(a.media.value) && a.torrents == BoundTorrents(a.media.value))
  }

  lemma {:induction false} SeasonActionsSafe(media: seq<Media>, m: Media, seasons: seq<Season>, a: Action)
    requires m in media && PerSeason(m) && (forall s :: s in seasons ==> s in m.seasons) && a in SeasonActions(m, seasons)
    ensures SafeMediaAction(media, a)
    decreases |seasons|
  {
    var front, s := seasons[..|seasons| - 1], seasons[|seasons| - 1];
    if a in SeasonActions(m, front) {
      SeasonActionsSafe(media, m, front, a);
    } else {
      assert SeasonAction(m, s) == Some(a);
      SeasonActionIff(m, s);
    }
  }

  lemma {:induction false} MediaTierSafe(media: seq<Media>, all: seq<Media>, a: Action)
    requires a in MediaTier(media) && forall m :: m in media ==> m in all
    ensures SafeMediaAction(all, a)
    decreases |media|
  {
    var front, m := media[..|media| - 1], media[|media| - 1];
    assert m in media;
    if a in MediaTier(front) {
      MediaTierSafe(front, all, a);
    } else if PerSeason(m) {
      SeasonActionsSafe(all, m, m.seasons, a);
    } else {
      WholeActionIff(m);
    }
  }

  lemma {:induction false} SeasonOffered(m: Media, seasons: seq<Season>, s: Season)
    requires s in seasons && SeasonAction(m, s).Some?
    ensures SeasonAction(m, s).value in SeasonActions(m, seasons)
    decreases |seasons|
  {
    if s != seasons[|seasons| - 1] {
      assert seasons == seasons[..|seasons| - 1] + [seasons[|seasons| - 1]];
      SeasonOffered(m, seasons[..|seasons| - 1], s);
    }
  }

  lemma {:induction false} ActionsListed(media: seq<Media>, m: Media)
    requires m in media
    ensures !PerSeason(m) && WholeAction(m).Some? ==> WholeAction(m).value in MediaTier(media)
    ensures PerSeason(m) ==> forall s :: s in m.seasons && SeasonAction(m, s).Some? ==> SeasonAction(m, s).value in MediaTier(media)
    decreases |media|
  {
    if m != media[|media| - 1] {
      assert media == media[..|media| - 1] + [media[|media| - 1]];
      ActionsListed(media[..|media| - 1], m);
    } else if PerSeason(m) {
      forall s | s in m.seasons && SeasonAction(m, s).Some?
        ensures SeasonAction(m, s).value in MediaTier(media)
      {
        SeasonOffered(m, m.seasons, s);
      }
    }
  }

  /** Nothing eligible is left out: whatever may go is offered. */
  lemma MediaOffered(media: seq<Media>, m: Media)
    requires m in media
    ensures !PerSeason(m) && MayGo(m) ==> exists a :: a in MediaTier(media) && IsOffer(a, m, None)
    ensures PerSeason(m) ==> forall s :: s in m.seasons && SeasonMayGo(m, s) ==> exists a :: a in MediaTier(media) && IsOffer(a, m, Some(s))
  {
    ActionsListed(media, m);
    WholeActionIff(m);
    forall s { SeasonActionIff(m, s); }
  }

  lemma {:induction false} TorrentTierMembers(torrents: seq<Torrent>, bundled: set<string>)
    ensures forall a :: a in TorrentTier(torrents, bundled) <==> exists t :: t in torrents && Eligible(t, bundled) && a == TorrentAction(t)
    decreases |torrents|
  {
    if torrents != [] {
      var front, t := torrents[..|torrents| - 1], torrents[|torrents| - 1];
      TorrentTierMembers(front, bundled);
      assert torrents == front + [t];
      forall a
        ensures a in TorrentTier(torrents, bundled) <==> exists x :: x in torrents && Eligible(x, bundled) && a == TorrentAction(x)
      {
        if a in TorrentTier(torrents, bundled) && a !in TorrentTier(front, bundled) { assert t in torrents && a == TorrentAction(t); }
      }
    }
  }

  /** A torrent is offered alone exactly if it is not protected, its bytes are known and
      not nothing, and, while it is current, it is proven not hardlinked and bound to no
      listed media. */
  lemma TorrentOfferedIff(media: seq<Media>, torrents: seq<Torrent>, t: Torrent)
    requires t in torrents
    ensures Action(StandaloneTorrent, None, None, [t], t.value, 0.0, t.bytes) in TorrentTier(torrents, BundledHashes(media)) <==>
      && !t.shielded && !t.restricted && t.known && t.bytes > 0
      && (t.status == Current ==> t.linkKnown && !t.linked && !Bundled(media, t.hash))
  {
    TorrentTierMembers(torrents, BundledHashes(media));
    BundledIff(media, t.hash);
    var a := Action(StandaloneTorrent, None, None, [t], t.value, 0.0, t.bytes);
    assert a == TorrentAction(t);
    if a in TorrentTier(torrents, BundledHashes(media)) {
      var u :| u in torrents && Eligible(u, BundledHashes(media)) && a == TorrentAction(u);
      assert a.torrents[0] == u;
    }
  }

  /** A current torrent is offered alone only if no media action, offered or
      vetoed, stands on the same files. */
  lemma NeverSplitsABundle(media: seq<Media>, torrents: seq<Torrent>, a: Action)
    requires a in TorrentTier(torrents, BundledHashes(media))
    ensures a.kind == StandaloneTorrent && |a.torrents| == 1 && a.torrents[0] in torrents && a.bytes > 0
    ensures var t := a.torrents[0]; !t.shielded && !t.restricted && (t.status == Current ==> t.linkKnown && !t.linked && !Bundled(media, t.hash))
    ensures forall b :: b in MediaTier(media) && a.torrents[0].status == Current ==> forall t :: t in b.torrents ==> t.hash != a.torrents[0].hash
  {
    var bundled := BundledHashes(media);
    TorrentTierMembers(torrents, bundled);
    BundledIff(media, a.torrents[0].hash);
    forall b, t | b in MediaTier(media) && t in b.torrents
      ensures t.hash in bundled
    {
      OfferedIsBundled(media, b, t);
      BundledIff(media, t.hash);
    }
  }

  lemma OfferedIsBundled(media: seq<Media>, b: Action, t: Torrent)
    requires b in MediaTier(media) && t in b.torrents
    ensures Bundled(media, t.hash)
  {
    MediaTierSafe(media, media, b);
    assert BundledWith(b.media.value, t.hash);
  }
}
