/** What the questions about shared files mean on the disk that the walk has seen. */
module PhysicalMatch {
  import opened FileTopology
  import opened Unlinking

  /** Every row that was found names an entry, with the identity and the link count it
      knows; what was not found is not there. */
  ghost predicate TrueOf(files: map<Path, File>, d: Disk) {
    forall p :: p in files ==>
      if files[p].present then
        && p in d.entries && d.entries[p] in d.inodes
        && (files[p].known ==> files[p].identity == d.entries[p])
        && (files[p].known && files[p].links != 0 ==> files[p].links == d.inodes[d.entries[p]].links)
      else p !in d.entries
  }

  /** Two of the paths are entries of one inode. */
  ghost predicate OneInode(d: Disk, a: seq<Path>, b: seq<Path>) {
    exists p, q :: p in a && q in b && p in d.entries && q in d.entries && d.entries[p] == d.entries[q]
  }

  /** Two of the paths are different entries of one inode that has more than one link. */
  ghost predicate TwoLinks(d: Disk, a: seq<Path>, b: seq<Path>) {
    exists p, q :: p in a && q in b && p != q && LinkedTwice(d, p, q)
  }

  ghost predicate LinkedTwice(d: Disk, p: Path, q: Path) {
    && p in d.entries && q in d.entries && d.entries[p] == d.entries[q]
    && d.entries[p] in d.inodes && d.inodes[d.entries[p]].links > 1
  }

  /** A match is one inode on the disk; and where every identity is known, no match
      means that there is none. */
  lemma SharesMeans(files: map<Path, File>, d: Disk, a: seq<Path>, b: seq<Path>)
    requires TrueOf(files, d)
    ensures Shares(files, a, b) ==> OneInode(d, a, b)
    ensures AllIdentified(files, a) && AllIdentified(files, b) ==> (Shares(files, a, b) <==> OneInode(d, a, b))
  {
    if Shares(files, a, b) {
      var p, q :| p in a && q in b && SameFile(files, p, q);
      assert p in d.entries && q in d.entries && d.entries[p] == d.entries[q];
    }
    if AllIdentified(files, a) && AllIdentified(files, b) && OneInode(d, a, b) {
      var p, q :| p in a && q in b && p in d.entries && q in d.entries && d.entries[p] == d.entries[q];
      assert SameFile(files, p, q);
    }
  }

  /** The same for hardlinks, where link counts have to be known as well. */
  lemma HardlinkedMeans(files: map<Path, File>, d: Disk, a: seq<Path>, b: seq<Path>)
    requires TrueOf(files, d)
    ensures Hardlinked(files, a, b) ==> TwoLinks(d, a, b)
    ensures AllCountable(files, a) && AllCountable(files, b) ==> (Hardlinked(files, a, b) <==> TwoLinks(d, a, b))
  {
    if Hardlinked(files, a, b) {
      var p, q :| p in a && q in b && p != q && SameFile(files, p, q) && Countable(files, p) && Countable(files, q) && files[q].links > 1;
      assert LinkedTwice(d, p, q);
    }
    if AllCountable(files, a) && AllCountable(files, b) && TwoLinks(d, a, b) {
      var p, q :| p in a && q in b && p != q && LinkedTwice(d, p, q);
      assert Countable(files, p) && Countable(files, q);
      assert SameFile(files, p, q) && files[q].links > 1;
    }
  }
}
