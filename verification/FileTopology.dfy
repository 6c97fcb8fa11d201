/** The index of paths, physical files and owners, and the questions asked of it:
    which paths are the same file, whether a torrent backs a media item, and what
    removing a set of paths would free.

    Paths are taken as already cleaned and torrent hashes as lower case. */
module FileTopology {
  import opened Sorting
  import opened PathOrder

  type Path = string
  datatype Option<+T> = None | Some(value: T)

  datatype Identity = Identity(device: nat, inode: nat)

  datatype File = File(path: Path, size: nat, present: bool, known: bool, identity: Identity, links: nat)

  datatype MediaKind = Movie | Series
  datatype MediaKey = MediaKey(kind: MediaKind, service: string, id: int)
  datatype MediaRef = MediaRef(owner: MediaKey, path: Path)
  datatype TorrentRef = TorrentRef(hash: string, path: Path)

  datatype Index = Index(
    files: map<Path, File>,
    identityPaths: map<Identity, seq<Path>>,
    mediaPaths: map<MediaKey, seq<Path>>,
    torrentPaths: map<string, seq<Path>>,
    mediaByPath: map<Path, seq<MediaRef>>,
    torrentsByPath: map<Path, seq<TorrentRef>>)

  function At<K, V>(m: map<K, seq<V>>, k: K): seq<V> { if k in m then m[k] else [] }

  function Names(m: map<Identity, set<Path>>, i: Identity): set<Path> { if i in m then m[i] else {} }

  /** Physical identity is an established fact for this path. */
  predicate Identified(files: map<Path, File>, p: Path) {
    p in files && files[p].present && files[p].known
  }

  /** ... and so is its link count. */
  predicate Countable(files: map<Path, File>, p: Path) {
    Identified(files, p) && files[p].links != 0
  }

  predicate SameFile(files: map<Path, File>, p: Path, q: Path) {
    Identified(files, p) && Identified(files, q) && files[p].identity == files[q].identity
  }

  lemma MemberStep<T(!new)>(xs: seq<T>, n: nat)
    requires n < |xs|
    ensures forall x :: x in xs[..n + 1] ==> x in xs[..n] || x == xs[n]
    ensures forall x :: x in xs[..n] ==> x in xs[..n + 1]
    ensures xs[n] in xs[..n + 1]
  {
    assert xs[..n + 1] == xs[..n] + [xs[n]];
  }

  // ------------------------------------------------------------ building it

  /** The snapshot lists a path once. */
  predicate DistinctPaths(files: seq<File>) {
    forall i, j :: 0 <= i < j < |files| ==> files[i].path != files[j].path
  }

  ghost predicate FilesIndexed(index: Index, files: seq<File>) {
    && (forall p :: p in index.files ==> index.files[p] in files && index.files[p].path == p)
    && (forall f :: f in files ==> f.path in index.files && index.files[f.path] == f)
    && (forall i, p :: p in At(index.identityPaths, i) <==> Identified(index.files, p) && index.files[p].identity == i)
  }

  ghost predicate MediaIndexed(index: Index, refs: seq<MediaRef>) {
    && (forall k, p :: p in At(index.mediaPaths, k) <==> MediaRef(k, p) in refs)
    && (forall p, r :: r in At(index.mediaByPath, p) <==> r in refs && r.path == p)
  }

  ghost predicate TorrentsIndexed(index: Index, refs: seq<TorrentRef>) {
    TorrentPathsAre(index.torrentPaths, refs) && TorrentsByPathAre(index.torrentsByPath, refs)
  }

  ghost predicate TorrentPathsAre(torrentPaths: map<string, seq<Path>>, refs: seq<TorrentRef>) {
    forall h, p :: p in At(torrentPaths, h) <==> TorrentRef(h, p) in refs
  }

  ghost predicate TorrentsByPathAre(torrentsByPath: map<Path, seq<TorrentRef>>, refs: seq<TorrentRef>) {
    forall p, r :: r in At(torrentsByPath, p) <==> r in refs && r.path == p
  }

  /** The names of each physical file are listed once each, in order. */
  ghost predicate NamesListed(identityPaths: map<Identity, seq<Path>>) {
    forall i :: i in identityPaths ==> Distinct(identityPaths[i]) && SortedBy(PathLe, identityPaths[i])
  }

  ghost predicate NamesOnce(identityPaths: map<Identity, seq<Path>>) {
    forall i :: i in identityPaths ==> Distinct(identityPaths[i])
  }

  function AppendUnique(values: seq<Path>, candidate: Path): (r: seq<Path>)
    ensures forall p :: p in r <==> p in values || p == candidate
    ensures Distinct(values) ==> Distinct(r)
  {
    if candidate in values then values else values + [candidate]
  }

  method New(files: seq<File>, mediaRefs: seq<MediaRef>, torrentRefs: seq<TorrentRef>) returns (index: Index)
    requires DistinctPaths(files)
    ensures FilesIndexed(index, files) && MediaIndexed(index, mediaRefs) && TorrentsIndexed(index, torrentRefs)
    ensures NamesListed(index.identityPaths)
  {
    var byPath, identityPaths := IndexFiles(files);
    var mediaPaths, mediaByPath := IndexMedia(mediaRefs);
    var torrentPaths, torrentsByPath := IndexTorrents(torrentRefs);
    identityPaths := SortNames(identityPaths, byPath);
    index := Index(byPath, identityPaths, mediaPaths, torrentPaths, mediaByPath, torrentsByPath);
  }

  method SortNames(identityPaths: map<Identity, seq<Path>>, ghost byPath: map<Path, File>) returns (sorted: map<Identity, seq<Path>>)
    requires ByIdentityIs(identityPaths, byPath) && NamesOnce(identityPaths)
    ensures ByIdentityIs(sorted, byPath) && NamesListed(sorted)
  {
    sorted := map i | i in identityPaths :: Sort(PathLe, identityPaths[i]);
    PathLeIsOrder();
    forall i | i in identityPaths
      ensures Distinct(sorted[i]) && SortedBy(PathLe, sorted[i])
      ensures forall p :: p in sorted[i] <==> p in identityPaths[i]
    {
      SortContents(PathLe, identityPaths[i]);
      SortDistinct(PathLe, identityPaths[i]);
      SortSorted(PathLe, identityPaths[i]);
    }
    forall i, p
      ensures p in At(sorted, i) <==> Identified(byPath, p) && byPath[p].identity == i
    {
      assert p in At(sorted, i) <==> p in At(identityPaths, i);
    }
  }

  ghost predicate ByPathIs(byPath: map<Path, File>, files: seq<File>) {
    && (forall p :: p in byPath ==> byPath[p] in files && byPath[p].path == p)
    && (forall f :: f in files ==> f.path in byPath && byPath[f.path] == f)
  }

  ghost predicate ByIdentityIs(identityPaths: map<Identity, seq<Path>>, byPath: map<Path, File>) {
    forall i, p :: p in At(identityPaths, i) <==> Identified(byPath, p) && byPath[p].identity == i
  }

  lemma FileStep(byPath: map<Path, File>, identityPaths: map<Identity, seq<Path>>, files: seq<File>, n: nat)
    requires n < |files| && DistinctPaths(files) && ByPathIs(byPath, files[..n]) && ByIdentityIs(identityPaths, byPath)
    ensures var f := files[n]; var after := byPath[f.path := f];
      && ByPathIs(after, files[..n + 1])
      && ByIdentityIs(if f.present && f.known then identityPaths[f.identity := AppendUnique(At(identityPaths, f.identity), f.path)] else identityPaths, after)
  {
    var f := files[n];
    MemberStep(files, n);
    assert forall m :: 0 <= m < n ==> files[..n][m] == files[m];
    assert f.path !in byPath;
    var after := byPath[f.path := f];
    var paths := if f.present && f.known then identityPaths[f.identity := AppendUnique(At(identityPaths, f.identity), f.path)] else identityPaths;
    forall i, p
      ensures p in At(paths, i) <==> Identified(after, p) && after[p].identity == i
    {
      assert p in At(identityPaths, i) <==> Identified(byPath, p) && byPath[p].identity == i;
    }
  }

  method IndexFiles(files: seq<File>) returns (byPath: map<Path, File>, identityPaths: map<Identity, seq<Path>>)
    requires DistinctPaths(files)
    ensures ByPathIs(byPath, files) && ByIdentityIs(identityPaths, byPath) && NamesOnce(identityPaths)
  {
    byPath, identityPaths := map[], map[];
    for n := 0 to |files|
      invariant ByPathIs(byPath, files[..n]) && ByIdentityIs(identityPaths, byPath) && NamesOnce(identityPaths)
    {
      FileStep(byPath, identityPaths, files, n);
      var f := files[n];
      byPath := byPath[f.path := f];
      if f.present && f.known {
        identityPaths := identityPaths[f.identity := AppendUnique(At(identityPaths, f.identity), f.path)];
      }
    }
    assert files[..|files|] == files;
  }

  ghost predicate PathsByOwner(mediaPaths: map<MediaKey, seq<Path>>, refs: seq<MediaRef>) {
    forall k, p :: p in At(mediaPaths, k) <==> MediaRef(k, p) in refs
  }

  ghost predicate RefsByPath(mediaByPath: map<Path, seq<MediaRef>>, refs: seq<MediaRef>) {
    forall p, r :: r in At(mediaByPath, p) <==> r in refs && r.path == p
  }

  lemma OwnerStep(mediaPaths: map<MediaKey, seq<Path>>, refs: seq<MediaRef>, n: nat)
    requires n < |refs| && PathsByOwner(mediaPaths, refs[..n])
    ensures var r := refs[n]; PathsByOwner(mediaPaths[r.owner := AppendUnique(At(mediaPaths, r.owner), r.path)], refs[..n + 1])
  {
    MemberStep(refs, n);
    var r := refs[n];
    var after := mediaPaths[r.owner := AppendUnique(At(mediaPaths, r.owner), r.path)];
    forall k, p
      ensures p in At(after, k) <==> MediaRef(k, p) in refs[..n + 1]
    {
      assert p in At(after, k) <==> p in At(mediaPaths, k) || (k == r.owner && p == r.path);
      assert p in At(mediaPaths, k) <==> MediaRef(k, p) in refs[..n];
    }
  }

  function WithRef(mediaByPath: map<Path, seq<MediaRef>>, r: MediaRef): map<Path, seq<MediaRef>> {
    mediaByPath[r.path := At(mediaByPath, r.path) + [r]]
  }

  lemma RefStepAt(mediaByPath: map<Path, seq<MediaRef>>, refs: seq<MediaRef>, n: nat, p: Path, x: MediaRef)
    requires n < |refs| && RefsByPath(mediaByPath, refs[..n])
    ensures x in At(WithRef(mediaByPath, refs[n]), p) <==> x in refs[..n + 1] && x.path == p
  {
    MemberStep(refs, n);
    var r := refs[n];
    assert x in At(mediaByPath, p) <==> x in refs[..n] && x.path == p;
    assert At(WithRef(mediaByPath, r), p) == if p == r.path then At(mediaByPath, p) + [r] else At(mediaByPath, p);
  }

  lemma RefStep(mediaByPath: map<Path, seq<MediaRef>>, refs: seq<MediaRef>, n: nat)
    requires n < |refs| && RefsByPath(mediaByPath, refs[..n])
    ensures RefsByPath(WithRef(mediaByPath, refs[n]), refs[..n + 1])
  {
    forall p, x { RefStepAt(mediaByPath, refs, n, p, x); }
  }

  method IndexMedia(refs: seq<MediaRef>) returns (mediaPaths: map<MediaKey, seq<Path>>, mediaByPath: map<Path, seq<MediaRef>>)
    ensures PathsByOwner(mediaPaths, refs) && RefsByPath(mediaByPath, refs)
  {
    mediaPaths, mediaByPath := map[], map[];
    for n := 0 to |refs|
      invariant PathsByOwner(mediaPaths, refs[..n]) && RefsByPath(mediaByPath, refs[..n])
    {
      var r := refs[n];
      OwnerStep(mediaPaths, refs, n);
      RefStep(mediaByPath, refs, n);
      mediaPaths := mediaPaths[r.owner := AppendUnique(At(mediaPaths, r.owner), r.path)];
      mediaByPath := mediaByPath[r.path := At(mediaByPath, r.path) + [r]];
    }
    assert refs[..|refs|] == refs;
  }

  lemma TorrentStepAt(torrentsByPath: map<Path, seq<TorrentRef>>, refs: seq<TorrentRef>, n: nat, p: Path, x: TorrentRef)
    requires n < |refs| && TorrentsByPathAre(torrentsByPath, refs[..n])
    ensures x in At(WithTorrent(torrentsByPath, refs[n]), p) <==> x in refs[..n + 1] && x.path == p
  {
    MemberStep(refs, n);
    var r := refs[n];
    assert x in At(torrentsByPath, p) <==> x in refs[..n] && x.path == p;
    assert At(WithTorrent(torrentsByPath, r), p) == if p == r.path then At(torrentsByPath, p) + [r] else At(torrentsByPath, p);
  }

  function WithTorrent(torrentsByPath: map<Path, seq<TorrentRef>>, r: TorrentRef): map<Path, seq<TorrentRef>> {
    torrentsByPath[r.path := At(torrentsByPath, r.path) + [r]]
  }

  lemma TorrentStep(torrentsByPath: map<Path, seq<TorrentRef>>, refs: seq<TorrentRef>, n: nat)
    requires n < |refs| && TorrentsByPathAre(torrentsByPath, refs[..n])
    ensures TorrentsByPathAre(WithTorrent(torrentsByPath, refs[n]), refs[..n + 1])
  {
    forall p, x { TorrentStepAt(torrentsByPath, refs, n, p, x); }
  }

  lemma HashStep(torrentPaths: map<string, seq<Path>>, refs: seq<TorrentRef>, n: nat)
    requires n < |refs| && TorrentPathsAre(torrentPaths, refs[..n])
    ensures var r := refs[n]; TorrentPathsAre(torrentPaths[r.hash := AppendUnique(At(torrentPaths, r.hash), r.path)], refs[..n + 1])
  {
    MemberStep(refs, n);
    var r := refs[n];
    var after := torrentPaths[r.hash := AppendUnique(At(torrentPaths, r.hash), r.path)];
    forall h, p
      ensures p in At(after, h) <==> TorrentRef(h, p) in refs[..n + 1]
    {
      assert p in At(after, h) <==> p in At(torrentPaths, h) || (h == r.hash && p == r.path);
      assert p in At(torrentPaths, h) <==> TorrentRef(h, p) in refs[..n];
    }
  }

  method IndexTorrents(refs: seq<TorrentRef>) returns (torrentPaths: map<string, seq<Path>>, torrentsByPath: map<Path, seq<TorrentRef>>)
    ensures TorrentPathsAre(torrentPaths, refs) && TorrentsByPathAre(torrentsByPath, refs)
  {
    torrentPaths, torrentsByPath := map[], map[];
    for n := 0 to |refs|
      invariant TorrentPathsAre(torrentPaths, refs[..n]) && TorrentsByPathAre(torrentsByPath, refs[..n])
    {
      var r := refs[n];
      HashStep(torrentPaths, refs, n);
      TorrentStep(torrentsByPath, refs, n);
      torrentPaths := torrentPaths[r.hash := AppendUnique(At(torrentPaths, r.hash), r.path)];
      torrentsByPath := torrentsByPath[r.path := At(torrentsByPath, r.path) + [r]];
    }
    assert refs[..|refs|] == refs;
  }

  // ------------------------------------------------------------- same file

  /** The other names of the file at this path. */
  method SamePhysicalPaths(index: Index, path: Path) returns (others: seq<Path>)
    ensures forall p :: p in others <==>
      p != path && Identified(index.files, path) && p in At(index.identityPaths, index.files[path].identity)
  {
    others := [];
    if path !in index.files || !index.files[path].present || !index.files[path].known {
      return;
    }
    var paths := At(index.identityPaths, index.files[path].identity);
    for n := 0 to |paths|
      invariant forall p :: p in others <==> p != path && p in paths[..n]
    {
      MemberStep(paths, n);
      if paths[n] != path {
        others := others + [paths[n]];
      }
    }
    assert paths[..|paths|] == paths;
  }

  /** Some path of each list names the same physical file. */
  ghost predicate Shares(files: map<Path, File>, a: seq<Path>, b: seq<Path>) {
    exists p, q :: p in a && q in b && SameFile(files, p, q)
  }

  /** Some path of each list are two directory entries of one physical file. */
  ghost predicate Hardlinked(files: map<Path, File>, a: seq<Path>, b: seq<Path>) {
    exists p, q :: p in a && q in b && p != q && SameFile(files, p, q)
                   && Countable(files, p) && Countable(files, q) && files[q].links > 1
  }

  ghost predicate AllIdentified(files: map<Path, File>, a: seq<Path>) { forall p :: p in a ==> Identified(files, p) }

  ghost predicate AllCountable(files: map<Path, File>, a: seq<Path>) { forall p :: p in a ==> Countable(files, p) }

  /** Whether a torrent and a media item claim the same physical file.  A match is
      certain; its absence only if every identity is known. */
  method TorrentMediaPhysicalMatch(index: Index, hash: string, key: MediaKey) returns (matched: bool, known: bool)
    ensures var m, t := At(index.mediaPaths, key), At(index.torrentPaths, hash);
      && (matched <==> Shares(index.files, m, t))
      && (known <==> matched || (m != [] && t != [] && AllIdentified(index.files, m) && AllIdentified(index.files, t)))
  {
    var m, t := At(index.mediaPaths, key), At(index.torrentPaths, hash);
    if m == [] || t == [] {
      return false, false;
    }
    var identities: set<Identity> := {};
    var complete := true;
    for n := 0 to |m|
      invariant forall i :: i in identities <==> exists p :: p in m[..n] && Identified(index.files, p) && index.files[p].identity == i
      invariant complete <==> AllIdentified(index.files, m[..n])
    {
      MemberStep(m, n);
      var p := m[n];
      if p !in index.files || !index.files[p].present || !index.files[p].known {
        complete := false;
      } else {
        identities := identities + {index.files[p].identity};
      }
    }
    assert m[..|m|] == m;
    ghost var mediaComplete := complete;
    for n := 0 to |t|
      invariant !Shares(index.files, m, t[..n])
      invariant complete <==> mediaComplete && AllIdentified(index.files, t[..n])
    {
      MemberStep(t, n);
      var q := t[n];
      if q !in index.files || !index.files[q].present || !index.files[q].known {
        complete := false;
      } else if index.files[q].identity in identities {
        assert q in t;
        return true, true;
      }
    }
    assert t[..|t|] == t;
    return false, complete;
  }

  predicate CountableAs(files: map<Path, File>, p: Path, i: Identity) {
    Countable(files, p) && files[p].identity == i
  }

  /** For each identity the names it has among the given paths. */
  ghost predicate OwnersOf(files: map<Path, File>, owners: map<Identity, set<Path>>, a: seq<Path>) {
    forall i, p :: p in Names(owners, i) <==> p in a && CountableAs(files, p, i)
  }

  lemma OwnersStep(files: map<Path, File>, before: map<Identity, set<Path>>, after: map<Identity, set<Path>>, a: seq<Path>, n: nat)
    requires n < |a| && OwnersOf(files, before, a[..n])
    requires after == if Countable(files, a[n]) then before[files[a[n]].identity := Names(before, files[a[n]].identity) + {a[n]}] else before
    ensures OwnersOf(files, after, a[..n + 1])
  {
    MemberStep(a, n);
    forall i, p
      ensures p in Names(after, i) <==> p in a[..n + 1] && CountableAs(files, p, i)
    {
      assert p in Names(after, i) <==> p in Names(before, i) || (p == a[n] && CountableAs(files, p, i));
      assert p in Names(before, i) <==> p in a[..n] && CountableAs(files, p, i);
      assert p in a[..n + 1] <==> p in a[..n] || p == a[n];
    }
  }

  /** Whether some path of each list are distinct names of one file, as needed to
      call them hardlinked. */
  method PathsHardlinked(index: Index, a: seq<Path>, b: seq<Path>) returns (hardlinked: bool, known: bool)
    ensures hardlinked <==> Hardlinked(index.files, a, b)
    ensures known <==> hardlinked || (a != [] && b != [] && AllCountable(index.files, a) && AllCountable(index.files, b))
  {
    if a == [] || b == [] {
      return false, false;
    }
    var owners: map<Identity, set<Path>> := map[];
    var complete := true;
    for n := 0 to |a|
      invariant OwnersOf(index.files, owners, a[..n])
      invariant complete <==> AllCountable(index.files, a[..n])
    {
      MemberStep(a, n);
      var p := a[n];
      ghost var before := owners;
      if p !in index.files || !index.files[p].present || !index.files[p].known || index.files[p].links == 0 {
        complete := false;
      } else {
        var i := index.files[p].identity;
        owners := owners[i := Names(owners, i) + {p}];
      }
      OwnersStep(index.files, before, owners, a, n);
    }
    assert a[..|a|] == a;
    ghost var firstComplete := complete;
    for n := 0 to |b|
      invariant !Hardlinked(index.files, a, b[..n])
      invariant complete <==> firstComplete && AllCountable(index.files, b[..n])
    {
      MemberStep(b, n);
      var q := b[n];
      if q !in index.files || !index.files[q].present || !index.files[q].known || index.files[q].links == 0 {
        complete := false;
      } else {
        var i := index.files[q].identity;
        var others := Names(owners, i) - {q};
        if others != {} && index.files[q].links > 1 {
          ghost var p :| p in others;
          assert p in a && q in b && SameFile(index.files, p, q);
          return true, true;
        }
        assert forall p :: p in a && p != q && SameFile(index.files, p, q) && Countable(index.files, p) ==> CountableAs(index.files, p, i);
      }
    }
    assert b[..|b|] == b;
    return false, complete;
  }

  /** The same question for a torrent and a media item. */
  method TorrentMediaHardlink(index: Index, hash: string, key: MediaKey) returns (hardlinked: bool, known: bool)
    ensures var m, t := At(index.mediaPaths, key), At(index.torrentPaths, hash);
      && (hardlinked <==> Hardlinked(index.files, m, t))
      && (known <==> hardlinked || (m != [] && t != [] && AllCountable(index.files, m) && AllCountable(index.files, t)))
  {
    hardlinked, known := PathsHardlinked(index, At(index.mediaPaths, key), At(index.torrentPaths, hash));
  }
}
