/** A plan that promises more than it frees.  Two seasons were downloaded as one
    pack: each season's file is hardlinked to its file in the pack, and the pack
    holds one more file that belongs to no season.  Each season is offered together
    with the whole pack, so each promises the extra file. */
module PackPlan {
  import opened SetSums
  import opened Sorting
  import opened FileTopology
  import opened ReclaimEstimate
  import opened Unlinking
  import opened CleanupCandidates
  import opened FairShare
  import opened CleanupPlan
  import opened PlannedBytes

  const S1: Path := "/tv/s1"
  const P1: Path := "/pack/s1"
  const S2: Path := "/tv/s2"
  const P2: Path := "/pack/s2"
  const EXTRA: Path := "/pack/extra"

  const I1: Identity := Identity(1, 1)
  const I2: Identity := Identity(1, 2)
  const I3: Identity := Identity(1, 3)

  lemma PathsDiffer()
    ensures S1 != P1 && S1 != S2 && S1 != P2 && S1 != EXTRA && P1 != S2 && P1 != P2 && P1 != EXTRA && S2 != P2 && S2 != EXTRA && P2 != EXTRA
  {
    assert S1[1] != P1[1] && S1[5] != S2[5] && S1[1] != P2[1] && S1[1] != EXTRA[1] && P1[1] != S2[1];
    assert P1[7] != P2[7] && P1[6] != EXTRA[6] && S2[1] != P2[1] && S2[1] != EXTRA[1] && P2[6] != EXTRA[6];
  }

  function Walked(z1: nat, z2: nat, z3: nat): map<Path, File> {
    map[S1 := File(S1, z1, true, true, I1, 2), P1 := File(P1, z1, true, true, I1, 2),
        S2 := File(S2, z2, true, true, I2, 2), P2 := File(P2, z2, true, true, I2, 2),
        EXTRA := File(EXTRA, z3, true, true, I3, 1)]
  }

  function PackDisk(z1: nat, z2: nat, z3: nat): Disk {
    Disk(map[S1 := I1, P1 := I1, S2 := I2, P2 := I2, EXTRA := I3], map[I1 := Inode(z1, 2), I2 := Inode(z2, 2), I3 := Inode(z3, 1)])
  }

  /** A season with all paths of the pack. */
  function BundlePaths(own: Path): set<Path> { {own, P1, P2, EXTRA} }

  function Bundles(): seq<set<Path>> { [BundlePaths(S1), BundlePaths(S2)] }

  // --------------------------------------------------------------- physical files

  lemma NamesAre(z1: nat, z2: nat, z3: nat, paths: set<Path>)
    ensures var files := Walked(z1, z2, z3);
      NamesOf(files, paths, I1) == paths * {S1, P1} && NamesOf(files, paths, I2) == paths * {S2, P2} && NamesOf(files, paths, I3) == paths * {EXTRA}
  {
    PathsDiffer();
  }

  lemma WalkedFacts(z1: nat, z2: nat, z3: nat)
    ensures var files := Walked(z1, z2, z3);
      && Consistent(files)
      && FactsOf(files, I1).size == z1 && FactsOf(files, I1).links == 2
      && FactsOf(files, I2).size == z2 && FactsOf(files, I2).links == 2
      && FactsOf(files, I3).size == z3 && FactsOf(files, I3).links == 1
  {
    var files := Walked(z1, z2, z3);
    PathsDiffer();
    FactsAgree(files, S1);
    FactsAgree(files, S2);
    FactsAgree(files, EXTRA);
  }

  lemma SumOfThree(f: Identity -> int)
    ensures Sum({I1, I2, I3}, f) == f(I1) + f(I2) + f(I3)
  {
    SumRemove({I1, I2, I3}, f, I1);
    assert {I1, I2, I3} - {I1} == {I2, I3};
    SumRemove({I2, I3}, f, I2);
    assert {I2, I3} - {I2} == {I3};
    SumRemove({I3}, f, I3);
    assert {I3} - {I3} == {};
  }

  lemma FreedOf(z1: nat, z2: nat, z3: nat, paths: set<Path>)
    ensures var files := Walked(z1, z2, z3);
      Reclaimable(files, paths) == Gain(files, paths, I1) + Gain(files, paths, I2) + Gain(files, paths, I3)
  {
    var files := Walked(z1, z2, z3);
    assert Touched(files, paths) <= {I1, I2, I3};
    ReclaimableOver(files, paths, {I1, I2, I3});
    SumOfThree(GainBy(files, paths));
  }

  /** A bundle takes its season's file and the extra one, not the other season's. */
  lemma FirstBundleFrees(z1: nat, z2: nat, z3: nat)
    ensures Reclaimable(Walked(z1, z2, z3), BundlePaths(S1)) == z1 + z3
  {
    var paths := BundlePaths(S1);
    PathsDiffer();
    WalkedFacts(z1, z2, z3);
    FreedOf(z1, z2, z3, paths);
    NamesAre(z1, z2, z3, paths);
    assert paths * {S1, P1} == {S1, P1} && paths * {S2, P2} == {P2} && paths * {EXTRA} == {EXTRA};
  }

  lemma SecondBundleFrees(z1: nat, z2: nat, z3: nat)
    ensures Reclaimable(Walked(z1, z2, z3), BundlePaths(S2)) == z2 + z3
  {
    var paths := BundlePaths(S2);
    PathsDiffer();
    WalkedFacts(z1, z2, z3);
    FreedOf(z1, z2, z3, paths);
    NamesAre(z1, z2, z3, paths);
    assert paths * {S1, P1} == {P1} && paths * {S2, P2} == {S2, P2} && paths * {EXTRA} == {EXTRA};
  }

  lemma BothPaths()
    ensures AllPaths(Bundles()) == {S1, P1, S2, P2, EXTRA}
  {
    var sets := Bundles();
    assert sets[..1] == [BundlePaths(S1)] && sets[..1][..0] == [];
    assert AllPaths(sets[..1]) == {} + BundlePaths(S1);
  }

  lemma BothFree(z1: nat, z2: nat, z3: nat)
    ensures Reclaimable(Walked(z1, z2, z3), AllPaths(Bundles())) == z1 + z2 + z3
  {
    var paths := AllPaths(Bundles());
    BothPaths();
    PathsDiffer();
    WalkedFacts(z1, z2, z3);
    FreedOf(z1, z2, z3, paths);
    NamesAre(z1, z2, z3, paths);
    assert paths * {S1, P1} == {S1, P1} && paths * {S2, P2} == {S2, P2} && paths * {EXTRA} == {EXTRA};
  }

  lemma EntriesAre(z1: nat, z2: nat, z3: nat)
    ensures var d := PackDisk(z1, z2, z3); var all := d.entries.Keys;
      EntriesOf(d, all, I1) == {S1, P1} && EntriesOf(d, all, I2) == {S2, P2} && EntriesOf(d, all, I3) == {EXTRA}
  {
    PathsDiffer();
  }

  lemma DiskIsWalked(z1: nat, z2: nat, z3: nat)
    ensures Sane(PackDisk(z1, z2, z3)) && Describes(Walked(z1, z2, z3), PackDisk(z1, z2, z3))
  {
    PathsDiffer();
    EntriesAre(z1, z2, z3);
  }

  lemma AllFreed(z1: nat, z2: nat, z3: nat, order: seq<Path>)
    requires Permutes(order, AllPaths(Bundles()))
    ensures UnlinkAll(PackDisk(z1, z2, z3), order).1 == z1 + z2 + z3
  {
    DiskIsWalked(z1, z2, z3);
    BothPaths();
    BothFree(z1, z2, z3);
    ReclaimableIsFreed(Walked(z1, z2, z3), PackDisk(z1, z2, z3), order, AllPaths(Bundles()));
  }

  // -------------------------------------------------------------------- the offer

  function Pack(): Torrent { Torrent("pack", "qb", Current, true, true, [1, 2], false, false, true, 0, 0.0) }

  function SeasonOf(number: int, bundleBytes: int): Season { Season(number, false, false, true, 0, true, bundleBytes, 1.0) }

  function TheShow(z1: nat, z2: nat, z3: nat): Media {
    Media(Series, "sonarr", "Sonarr", 7, [SeasonOf(1, z1 + z3), SeasonOf(2, z2 + z3)], [Pack()], false, false, true, 0, true, 0, 1.0)
  }

  function BundleOf(show: Media, season: Season): Action {
    Action(HardlinkedBundle, Some(show), Some(season), [Pack()], season.value + TorrentValues([Pack()]), season.value + TorrentValues([Pack()]), season.bundleBytes)
  }

  function Offered(z1: nat, z2: nat, z3: nat): seq<Action> {
    [BundleOf(TheShow(z1, z2, z3), SeasonOf(1, z1 + z3)), BundleOf(TheShow(z1, z2, z3), SeasonOf(2, z2 + z3))]
  }

  lemma PackIsBound(show: Media, number: int)
    requires show.torrents == [Pack()] && (number == 1 || number == 2)
    ensures BoundToSeason(show, number) == [Pack()] && !Vetoed([Pack()])
  {
    assert number in [1, 2];
    assert [Pack()][1..] == [];
  }

  lemma SeasonIsOffered(show: Media, season: Season)
    requires show.torrents == [Pack()] && (season.number == 1 || season.number == 2)
    requires !season.shielded && !season.restricted && season.bundleKnown && season.bundleBytes > 0
    ensures SeasonAction(show, season) == Some(BundleOf(show, season))
  {
    PackIsBound(show, season.number);
  }

  /** Both bundles are offered, at the estimates of their paths. */
  lemma BothOffered(z1: nat, z2: nat, z3: nat)
    requires z3 > 0
    ensures MediaTier([TheShow(z1, z2, z3)]) == Offered(z1, z2, z3)
    ensures Estimated(Walked(z1, z2, z3), Offered(z1, z2, z3), Bundles())
  {
    var show, first, second := TheShow(z1, z2, z3), SeasonOf(1, z1 + z3), SeasonOf(2, z2 + z3);
    SeasonIsOffered(show, first);
    SeasonIsOffered(show, second);
    assert show.seasons[..1] == [first] && [first][..0] == [] && [show][..0] == [];
    assert SeasonActions(show, [first]) == [BundleOf(show, first)];
    assert SeasonActions(show, show.seasons) == [BundleOf(show, first)] + [BundleOf(show, second)];
    FirstBundleFrees(z1, z2, z3);
    SecondBundleFrees(z1, z2, z3);
  }

  lemma OfferedBytes(z1: nat, z2: nat, z3: nat)
    ensures Bytes(Offered(z1, z2, z3)) == z1 + z2 + 2 * z3
  {
    var all := Offered(z1, z2, z3);
    assert all[..1][..0] == [] && Bytes(all[..1]) == z1 + z3;
  }

  /** The two bundles promise the extra file twice. */
  lemma PackIsPromisedTwice(z1: nat, z2: nat, z3: nat, order: seq<Path>)
    requires z3 > 0 && Permutes(order, AllPaths(Bundles()))
    ensures MediaTier([TheShow(z1, z2, z3)]) == Offered(z1, z2, z3)
    ensures Estimated(Walked(z1, z2, z3), Offered(z1, z2, z3), Bundles())
    ensures Sane(PackDisk(z1, z2, z3)) && Describes(Walked(z1, z2, z3), PackDisk(z1, z2, z3))
    ensures Bytes(Offered(z1, z2, z3)) == UnlinkAll(PackDisk(z1, z2, z3), order).1 + z3
  {
    BothOffered(z1, z2, z3);
    OfferedBytes(z1, z2, z3);
    DiskIsWalked(z1, z2, z3);
    AllFreed(z1, z2, z3, order);
  }

  lemma {:induction false} NothingExcluded(tier: seq<Action>)
    ensures Filter(Allowed({}), tier) == tier
  {
    if tier != [] { NothingExcluded(tier[1..]); }
  }

  /** A plan made for this show that needs more than is there promises it all the
      same: it reaches its need on paper and not on the disk. */
  lemma PackPlanFallsShort(z1: nat, z2: nat, z3: nat, care: real, need: nat, actions: seq<Action>, order: seq<Path>)
    requires z3 > 0 && need == z1 + z2 + z3 + 1 && Permutes(order, AllPaths(Bundles()))
    requires Fulfils(EligibleMedia([TheShow(z1, z2, z3)], {}), EligibleTorrents([Pack()], [TheShow(z1, z2, z3)], {}), care, need, actions)
    ensures Bytes(actions) >= need > UnlinkAll(PackDisk(z1, z2, z3), order).1
  {
    var media, torrents := EligibleMedia([TheShow(z1, z2, z3)], {}), EligibleTorrents([Pack()], [TheShow(z1, z2, z3)], {});
    BothOffered(z1, z2, z3);
    NothingExcluded(MediaTier([TheShow(z1, z2, z3)]));
    OfferedBytes(z1, z2, z3);
    EligibleTiers([TheShow(z1, z2, z3)], [Pack()], {});
    BytesNonNegative(torrents);
    AllFreed(z1, z2, z3, order);
  }
}
