/** The machine behind the estimates: a file system as unlink sees it (POSIX.1-2017,
    System Interfaces, unlink).  A directory entry names an inode, an inode knows
    its size and its true link count, which may include links outside of any
    scanned directory, and its space is freed with its last link. */
module Unlinking {
  import opened SetSums
  import opened FileTopology
  import opened ReclaimEstimate

  datatype Inode = Inode(size: nat, links: nat)

  datatype Disk = Disk(entries: map<Path, Identity>, inodes: map<Identity, Inode>)

  function EntriesOf(d: Disk, paths: set<Path>, i: Identity): set<Path> {
    set p | p in paths && p in d.entries && d.entries[p] == i
  }

  ghost predicate Sane(d: Disk) {
    && (forall p :: p in d.entries ==> d.entries[p] in d.inodes)
    && (forall i :: i in d.inodes ==> d.inodes[i].links >= 1 && |EntriesOf(d, d.entries.Keys, i)| <= d.inodes[i].links)
  }

  /** unlink of one path, and the bytes it frees. */
  function Unlink(d: Disk, p: Path): (Disk, nat) {
    if p !in d.entries || d.entries[p] !in d.inodes then (d, 0)
    else
      var i := d.entries[p];
      var inode := d.inodes[i];
      if inode.links <= 1 then (Disk(d.entries - {p}, d.inodes - {i}), inode.size)
      else (Disk(d.entries - {p}, d.inodes[i := inode.(links := inode.links - 1)]), 0)
  }

  function UnlinkAll(d: Disk, order: seq<Path>): (Disk, nat) {
    if order == [] then (d, 0)
    else
      var front := UnlinkAll(d, order[..|order| - 1]);
      var last := Unlink(front.0, order[|order| - 1]);
      (last.0, front.1 + last.1)
  }

  /** What stat reports for an entry. */
  function Stat(d: Disk, p: Path): File
    requires p in d.entries && d.entries[p] in d.inodes
  {
    File(p, d.inodes[d.entries[p]].size, true, true, d.entries[p], d.inodes[d.entries[p]].links)
  }

  /** Facts about some of the entries, all of them current. */
  ghost predicate Describes(files: map<Path, File>, d: Disk) {
    forall p :: p in files ==> p in d.entries && d.entries[p] in d.inodes && files[p] == Stat(d, p)
  }

  /** Current facts are consistent: the standing assumption of the estimates. */
  lemma DescribedIsConsistent(files: map<Path, File>, d: Disk)
    requires Sane(d) && Describes(files, d)
    ensures Consistent(files) && LinksCoverNames(files)
  {
    forall p | p in files && Countable(files, p)
      ensures |NamesOf(files, files.Keys, files[p].identity)| <= files[p].links
    {
      var i := files[p].identity;
      assert NamesOf(files, files.Keys, i) <= EntriesOf(d, d.entries.Keys, i);
      SubsetSize(NamesOf(files, files.Keys, i), EntriesOf(d, d.entries.Keys, i));
    }
  }

  /** The disk after the paths of a set are gone, whatever the order. */
  ghost function After(d: Disk, gone: set<Path>): Disk {
    Disk(d.entries - gone,
         map i | i in d.inodes && |EntriesOf(d, gone, i)| < d.inodes[i].links ::
           Inode(d.inodes[i].size, d.inodes[i].links - |EntriesOf(d, gone, i)|))
  }

  lemma EntriesOfMore(d: Disk, gone: set<Path>, p: Path, i: Identity)
    requires p in d.entries && p !in gone
    ensures EntriesOf(d, gone + {p}, i) == EntriesOf(d, gone, i) + (if d.entries[p] == i then {p} else {})
    ensures |EntriesOf(d, gone + {p}, i)| == |EntriesOf(d, gone, i)| + (if d.entries[p] == i then 1 else 0)
  {
    assert EntriesOf(d, gone + {p}, i) == EntriesOf(d, gone, i) + (if d.entries[p] == i then {p} else {});
  }

  lemma StillLinked(d: Disk, gone: set<Path>, p: Path)
    requires Sane(d) && p in d.entries && p !in gone
    ensures |EntriesOf(d, gone, d.entries[p])| < d.inodes[d.entries[p]].links
  {
    var i := d.entries[p];
    EntriesOfMore(d, gone, p, i);
    assert EntriesOf(d, gone + {p}, i) <= EntriesOf(d, d.entries.Keys, i);
    SubsetSize(EntriesOf(d, gone + {p}, i), EntriesOf(d, d.entries.Keys, i));
  }

  /** What a further unlink leaves of one inode. */
  lemma UnlinkInode(d: Disk, gone: set<Path>, p: Path, j: Identity)
    requires Sane(d) && p in d.entries && p !in gone
    ensures var r, a := Unlink(After(d, gone), p).0, After(d, gone + {p});
      (j in r.inodes <==> j in a.inodes) && (j in r.inodes ==> r.inodes[j] == a.inodes[j])
  {
    StillLinked(d, gone, p);
    EntriesOfMore(d, gone, p, j);
  }

  /** One more unlink: a link is dropped, or the inode with its last one. */
  lemma UnlinkStep(d: Disk, gone: set<Path>, p: Path)
    requires Sane(d) && p in d.entries && p !in gone
    ensures var i := d.entries[p]; var r := Unlink(After(d, gone), p);
      && r.0 == After(d, gone + {p})
      && r.1 == if |EntriesOf(d, gone + {p}, i)| >= d.inodes[i].links then d.inodes[i].size else 0
  {
    StillLinked(d, gone, p);
    EntriesOfMore(d, gone, p, d.entries[p]);
    var r, a := Unlink(After(d, gone), p).0, After(d, gone + {p});
    assert r.entries == a.entries;
    assert r.inodes == a.inodes by {
      forall j
        ensures j in r.inodes <==> j in a.inodes
        ensures j in r.inodes ==> r.inodes[j] == a.inodes[j]
      {
        UnlinkInode(d, gone, p, j);
      }
      assert r.inodes.Keys == a.inodes.Keys;
    }
  }

  /** Only the file of p can gain from p being gone too. */
  lemma GainElsewhere(files: map<Path, File>, gone: set<Path>, p: Path)
    requires Countable(files, p) && p !in gone
    ensures Reclaimable(files, gone + {p}) - Reclaimable(files, gone)
            == Gain(files, gone + {p}, files[p].identity) - Gain(files, gone, files[p].identity)
  {
    var i := files[p].identity;
    var before, after := GainBy(files, gone), GainBy(files, gone + {p});
    var universe := Touched(files, gone + {p});
    CountStep(files, gone, p);
    TouchedMonotone(files, gone, gone + {p});
    ReclaimableOver(files, gone, universe);
    SumRemove(universe, before, i);
    SumRemove(universe, after, i);
    SumSame(universe - {i}, before, after);
  }

  lemma GainStep(files: map<Path, File>, d: Disk, gone: set<Path>, p: Path)
    requires Sane(d) && Describes(files, d) && gone <= files.Keys && p in files && p !in gone
    ensures var i := d.entries[p];
      Reclaimable(files, gone + {p}) == Reclaimable(files, gone)
        + if |EntriesOf(d, gone + {p}, i)| >= d.inodes[i].links then d.inodes[i].size else 0
  {
    var i := d.entries[p];
    GainElsewhere(files, gone, p);
    DescribedIsConsistent(files, d);
    FactsAgree(files, p);
    StillLinked(d, gone, p);
    assert NamesOf(files, gone, i) == EntriesOf(d, gone, i);
    assert NamesOf(files, gone + {p}, i) == EntriesOf(d, gone + {p}, i);
    assert p in NamesOf(files, gone + {p}, i);
  }

  ghost predicate Permutes(order: seq<Path>, s: set<Path>) {
    && (forall i, j :: 0 <= i < j < |order| ==> order[i] != order[j])
    && (forall p :: p in order <==> p in s)
  }

  lemma PermutesFront(order: seq<Path>, s: set<Path>)
    requires Permutes(order, s) && order != []
    ensures var p := order[|order| - 1]; p in s && Permutes(order[..|order| - 1], s - {p})
  {
    var front, p := order[..|order| - 1], order[|order| - 1];
    assert order == front + [p];
  }

  lemma FreedStep(files: map<Path, File>, d: Disk, rest: set<Path>, p: Path)
    requires Sane(d) && Describes(files, d) && rest <= files.Keys && p in files && p !in rest
    ensures Unlink(After(d, rest), p).0 == After(d, rest + {p})
    ensures Reclaimable(files, rest) + Unlink(After(d, rest), p).1 == Reclaimable(files, rest + {p})
  {
    UnlinkStep(d, rest, p);
    GainStep(files, d, rest, p);
  }

  /** The estimate is exactly what unlinking the paths one at a time frees, in any
      order; and every order leaves the same disk. */
  lemma {:induction false} ReclaimableIsFreed(files: map<Path, File>, d: Disk, order: seq<Path>, s: set<Path>)
    requires Sane(d) && Describes(files, d) && s <= files.Keys && Permutes(order, s)
    ensures UnlinkAll(d, order).0 == After(d, s)
    ensures UnlinkAll(d, order).1 == Reclaimable(files, s)
    decreases |order|
  {
    if order == [] {
      assert s == {};
      assert Touched(files, {}) == {};
      AfterNothing(d);
    } else {
      var p := order[|order| - 1];
      PermutesFront(order, s);
      ReclaimableIsFreed(files, d, order[..|order| - 1], s - {p});
      FreedStep(files, d, s - {p}, p);
      assert s - {p} + {p} == s;
    }
  }

  lemma AfterNothing(d: Disk)
    requires Sane(d)
    ensures After(d, {}) == d
  {
    assert forall i :: EntriesOf(d, {}, i) == {};
    assert After(d, {}).inodes == d.inodes;
  }
}
