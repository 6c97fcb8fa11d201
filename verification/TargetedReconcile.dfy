/** The targeted reconciliation: refresh the scoped files, republish the scoped
    owners, drop the torrents that are gone, and patch the database.  A scope it
    cannot vouch for is promoted to a full reconciliation. */
module TargetedReconcile {
  import opened Sorting
  import opened FileTopology
  import opened Unlinking
  import opened TargetedRefresh
  import opened TopologyStore
  import opened TopologyDelta

  datatype Torrent = Torrent(hash: string, savePath: Path)

  datatype ScopeOwner = ScopeOwner(kind: MediaKind, id: int, service: string)

  datatype Scope = Scope(full: bool, paths: seq<Path>, owners: seq<ScopeOwner>, torrents: seq<string>)

  datatype Reason = ScopeRequiresFull | ScopeMissing | FilesystemInvariant | OwnerInstanceAmbiguous | OwnerQueryFailed
                  | OwnerScopeMismatch | TorrentScopeMismatch | TorrentInventoryChanged | GenerationChanged

  datatype Outcome = Promoted(reason: Reason) | PersistFailed | Published

  // ------------------------------------------------------------- projections

  ghost predicate Claimed(claims: seq<Claim>, torrents: seq<TorrentClaim>, p: Path) {
    (exists c :: c in claims && c.path == p) || (exists t :: t in torrents && t.path == p)
  }

  function UnmanagedAt(r: Scanned): Unmanaged {
    if r.file.known && r.file.links <= 1 then Unmanaged(r, r.file.size, 0)
    else if r.file.known then Unmanaged(r, 0, r.file.size)
    else Unmanaged(r, 0, 0)
  }

  /** The files nobody claims, in the order of the files. */
  ghost function Unclaimed(rows: seq<Scanned>, claims: seq<Claim>, torrents: seq<TorrentClaim>): seq<Unmanaged> {
    if rows == [] then []
    else
      var r := rows[|rows| - 1];
      Unclaimed(rows[..|rows| - 1], claims, torrents) + if Claimed(claims, torrents, r.file.path) then [] else [UnmanagedAt(r)]
  }

  lemma {:induction false} UnclaimedMembers(rows: seq<Scanned>, claims: seq<Claim>, torrents: seq<TorrentClaim>)
    ensures forall u :: u in Unclaimed(rows, claims, torrents) <==>
      u.row in rows && !Claimed(claims, torrents, u.row.file.path) && u == UnmanagedAt(u.row)
    ensures OncePerPath(rows) ==> OncePerRow(Unclaimed(rows, claims, torrents))
    decreases |rows|
  {
    if rows != [] {
      var front, r := rows[..|rows| - 1], rows[|rows| - 1];
      UnclaimedMembers(front, claims, torrents);
      assert rows == front + [r];
      if OncePerPath(rows) {
        assert OncePerPath(front);
        var xs := Unclaimed(front, claims, torrents);
        forall i | 0 <= i < |xs|
          ensures xs[i].row.file.path != r.file.path
        {
          assert xs[i] in xs;
          var k :| 0 <= k < |front| && front[k] == xs[i].row;
          assert rows[k] == front[k];
        }
      }
    }
  }

  /** The row says what stat says about its path. */
  ghost predicate RowDescribes(r: Scanned, d: Disk) {
    var p := r.file.path; p in d.entries && d.entries[p] in d.inodes && r.file == Stat(d, p)
  }

  /** The bytes that unlinking the file frees now, and beside them the bytes that stay
      because of its other links; of a file without identity neither is known. */
  ghost predicate TrueAmounts(u: Unmanaged) {
    if !u.row.file.known then u.reclaimable == 0 && u.shared == 0
    else
      && u.reclaimable + u.shared == u.row.file.size
      && forall d: Disk :: Sane(d) && RowDescribes(u.row, d) ==> u.reclaimable == Unlink(d, u.row.file.path).1
  }

  /** Every file that nobody claims is listed, and no other, with its true amounts. */
  ghost predicate ListsUnclaimed(rows: seq<Scanned>, claims: seq<Claim>, torrents: seq<TorrentClaim>, unmanaged: seq<Unmanaged>) {
    && (forall u :: u in unmanaged ==> u.row in rows && !Claimed(claims, torrents, u.row.file.path) && TrueAmounts(u))
    && (forall r :: r in rows && !Claimed(claims, torrents, r.file.path) ==> exists u :: u in unmanaged && u.row == r)
  }

  lemma AmountsAreTrue(r: Scanned)
    ensures TrueAmounts(UnmanagedAt(r))
  {
    forall d: Disk | Sane(d) && RowDescribes(r, d)
      ensures r.file.links >= 1 && Unlink(d, r.file.path).1 == if r.file.links <= 1 then r.file.size else 0
    {
    }
  }

  lemma UnclaimedIsListed(rows: seq<Scanned>, claims: seq<Claim>, torrents: seq<TorrentClaim>)
    ensures ListsUnclaimed(rows, claims, torrents, Unclaimed(rows, claims, torrents))
  {
    UnclaimedMembers(rows, claims, torrents);
    forall r | r in rows { AmountsAreTrue(r); }
    forall r | r in rows && !Claimed(claims, torrents, r.file.path)
      ensures exists u :: u in Unclaimed(rows, claims, torrents) && u.row == r
    {
      assert UnmanagedAt(r) in Unclaimed(rows, claims, torrents);
    }
  }

  method ProjectUnmanaged(rows: seq<Scanned>, claims: seq<Claim>, torrents: seq<TorrentClaim>) returns (unmanaged: seq<Unmanaged>)
    ensures unmanaged == Unclaimed(rows, claims, torrents)
    ensures ListsUnclaimed(rows, claims, torrents, unmanaged)
  {
    UnclaimedIsListed(rows, claims, torrents);
    var claimed := ClaimedPaths(claims, torrents);
    unmanaged := [];
    for n := 0 to |rows|
      invariant unmanaged == Unclaimed(rows[..n], claims, torrents)
    {
      var r := rows[n];
      assert rows[..n + 1][..n] == rows[..n];
      if r.file.path !in claimed {
        var item := Unmanaged(r, 0, 0);
        if r.file.known && r.file.links <= 1 {
          item := item.(reclaimable := r.file.size);
        } else if r.file.known {
          item := item.(shared := r.file.size);
        }
        unmanaged := unmanaged + [item];
      }
    }
    assert rows[..|rows|] == rows;
  }

  method ClaimedPaths(claims: seq<Claim>, torrents: seq<TorrentClaim>) returns (claimed: set<Path>)
    ensures forall p :: p in claimed <==> Claimed(claims, torrents, p)
  {
    claimed := {};
    for n := 0 to |claims|
      invariant forall p :: p in claimed <==> Claimed(claims[..n], [], p)
    {
      MemberStep(claims, n);
      claimed := claimed + {claims[n].path};
    }
    assert claims[..|claims|] == claims;
    for n := 0 to |torrents|
      invariant forall p :: p in claimed <==> Claimed(claims, torrents[..n], p)
    {
      MemberStep(torrents, n);
      claimed := claimed + {torrents[n].path};
    }
    assert torrents[..|torrents|] == torrents;
  }

  // ------------------------------------------------------------ scope guards

  ghost predicate PathOf(claims: seq<Claim>, owners: set<MediaKey>, p: Path) {
    exists c :: c in claims && c.owner in owners && c.path == p
  }

  ghost predicate PathIn(claims: seq<Claim>, p: Path) { exists c :: c in claims && c.path == p }

  /** Republishing the owners changes no path outside of the affected ones. */
  ghost predicate WithinScope(before: seq<Claim>, replacement: seq<Claim>, owners: set<MediaKey>, affected: set<Path>) {
    forall p :: p !in affected ==> (PathOf(before, owners, p) <==> PathIn(replacement, p))
  }

  method MediaRefChangesWithinScope(before: seq<Claim>, replacement: seq<Claim>, owners: set<MediaKey>, affected: set<Path>) returns (ok: bool)
    ensures ok <==> WithinScope(before, replacement, owners, affected)
  {
    var oldPaths: set<Path>, newPaths: set<Path> := {}, {};
    for n := 0 to |before|
      invariant forall p :: p in oldPaths <==> PathOf(before[..n], owners, p)
    {
      MemberStep(before, n);
      if before[n].owner in owners {
        oldPaths := oldPaths + {before[n].path};
      }
    }
    assert before[..|before|] == before;
    for n := 0 to |replacement|
      invariant forall p :: p in newPaths <==> PathIn(replacement[..n], p)
    {
      MemberStep(replacement, n);
      newPaths := newPaths + {replacement[n].path};
    }
    assert replacement[..|replacement|] == replacement;
    ok := SomeOutside(oldPaths, newPaths, affected);
    if ok {
      ok := SomeOutside(newPaths, oldPaths, affected);
    }
  }

  method SomeOutside(paths: set<Path>, others: set<Path>, affected: set<Path>) returns (none: bool)
    ensures none <==> forall p :: p in paths ==> p in others || p in affected
  {
    var todo := paths;
    while todo != {}
      invariant todo <= paths
      invariant forall p :: p in paths && p !in todo ==> p in others || p in affected
      decreases |todo|
    {
      var p :| p in todo;
      todo := todo - {p};
      if p !in others && p !in affected {
        return false;
      }
    }
    return true;
  }

  /** An owner without a service is only resolved when there is one instance. */
  function Resolved(o: ScopeOwner, radarr: seq<string>, sonarr: seq<string>): Option<MediaKey> {
    var instances := if o.kind == Movie then radarr else sonarr;
    if o.service != "" then Some(MediaKey(o.kind, o.service, o.id))
    else if |instances| == 1 then Some(MediaKey(o.kind, instances[0], o.id))
    else None
  }

  method ResolveOwners(owners: seq<ScopeOwner>, radarr: seq<string>, sonarr: seq<string>) returns (keys: Option<set<MediaKey>>, ids: seq<OwnerId>)
    ensures keys.None? <==> exists o :: o in owners && Resolved(o, radarr, sonarr).None?
    ensures keys.Some? ==> forall k :: k in keys.value <==> exists o :: o in owners && Resolved(o, radarr, sonarr) == Some(k)
    ensures keys.Some? ==> forall i :: i in ids <==> exists o :: o in owners && OwnerId(o.kind, o.id) == i
  {
    var found: set<MediaKey> := {};
    ids := [];
    for n := 0 to |owners|
      invariant forall o :: o in owners[..n] ==> Resolved(o, radarr, sonarr).Some?
      invariant forall k :: k in found <==> exists o :: o in owners[..n] && Resolved(o, radarr, sonarr) == Some(k)
      invariant forall i :: i in ids <==> exists o :: o in owners[..n] && OwnerId(o.kind, o.id) == i
    {
      MemberStep(owners, n);
      var key := Resolved(owners[n], radarr, sonarr);
      if key.None? {
        return None, ids;
      }
      found := found + {key.value};
      ids := ids + [OwnerId(owners[n].kind, owners[n].id)];
    }
    assert owners[..|owners|] == owners;
    return Some(found), ids;
  }

  /** Every removed torrent had files, and the scope covers them. */
  ghost predicate RemovedWithinScope(torrents: seq<TorrentClaim>, removed: set<string>, affected: set<Path>) {
    forall h :: h in removed ==> HashWithinScope(torrents, h, affected)
  }

  ghost predicate HashWithinScope(torrents: seq<TorrentClaim>, h: string, affected: set<Path>) {
    (exists t :: t in torrents && t.hash == h) && forall t :: t in torrents && t.hash == h ==> t.path in affected
  }

  method HashCovered(torrents: seq<TorrentClaim>, h: string, affected: set<Path>) returns (ok: bool)
    ensures ok <==> HashWithinScope(torrents, h, affected)
  {
    var refs := Filter((t: TorrentClaim) => t.hash == h, torrents);
    FilterContents((t: TorrentClaim) => t.hash == h, torrents);
    if |refs| == 0 {
      return false;
    }
    assert refs[0] in refs;
    return forall t | t in refs :: t.path in affected;
  }

  method RemovedCovered(torrents: seq<TorrentClaim>, removed: set<string>, affected: set<Path>) returns (ok: bool)
    ensures ok <==> RemovedWithinScope(torrents, removed, affected)
  {
    var todo := removed;
    while todo != {}
      invariant todo <= removed
      invariant forall h :: h in removed && h !in todo ==> HashWithinScope(torrents, h, affected)
      decreases |todo|
    {
      var h :| h in todo;
      todo := todo - {h};
      var covered := HashCovered(torrents, h, affected);
      if !covered {
        return false;
      }
    }
    return true;
  }

  predicate Blank(s: string) { forall i :: 0 <= i < |s| ==> s[i] in {' ', '\t', '\n', '\r'} }

  /** A cleaned absolute path lies under a cleaned absolute root. */
  predicate Under(root: Path, p: Path) {
    p == root || root == "/" || (|root| < |p| && p[..|root|] == root && p[|root|] == '/')
  }

  /** Torrents by hash; where two instances hold the same torrent the later one stands. */
  function ByHash(torrents: seq<Torrent>): (m: map<string, Torrent>)
    ensures forall h :: h in m <==> exists t :: t in torrents && t.hash == h
  {
    if torrents == [] then map[]
    else
      var last := torrents[|torrents| - 1];
      assert torrents == torrents[..|torrents| - 1] + [last];
      ByHash(torrents[..|torrents| - 1])[last.hash := last]
  }

  /** A current torrent had files in the last walk, under its save path. */
  predicate InventoryHolds(torrents: seq<TorrentClaim>, t: Torrent) {
    && (exists r :: r in torrents && r.hash == t.hash)
    && !Blank(t.savePath)
    && forall r :: r in torrents && r.hash == t.hash ==> Under(t.savePath, r.path)
  }

  method InventoryUnchanged(torrents: seq<TorrentClaim>, current: map<string, Torrent>) returns (ok: bool)
    ensures ok <==> forall h :: h in current ==> InventoryHolds(torrents, current[h])
  {
    var todo := current.Keys;
    while todo != {}
      invariant todo <= current.Keys
      invariant forall h :: h in current && h !in todo ==> InventoryHolds(torrents, current[h])
      decreases |todo|
    {
      var h :| h in todo;
      todo := todo - {h};
      if !InventoryHolds(torrents, current[h]) {
        return false;
      }
    }
    return true;
  }

  function KeptTorrent(current: set<string>, removed: set<string>): TorrentClaim -> bool {
    (t: TorrentClaim) => t.hash in current && t.hash !in removed
  }

  /** The removed torrents, and beside them only such as are not reported. */
  predicate OnlyGone(gone: set<string>, current: set<string>, removed: set<string>) {
    removed <= gone && forall h :: h in gone && h !in removed ==> h !in current
  }

  /** The files of torrents that are still there; the others must be in scope. */
  method KeepTorrents(torrents: seq<TorrentClaim>, current: set<string>, removed: set<string>, affected: set<Path>)
    returns (kept: Option<seq<TorrentClaim>>, gone: set<string>)
    ensures kept.None? <==> exists t :: t in torrents && !KeptTorrent(current, removed)(t) && t.path !in affected
    ensures kept.Some? ==> kept.value == Filter(KeptTorrent(current, removed), torrents)
    ensures kept.Some? ==> forall t :: t in torrents ==> (KeptTorrent(current, removed)(t) <==> t.hash !in gone)
    ensures kept.Some? ==> OnlyGone(gone, current, removed)
  {
    var refs: seq<TorrentClaim> := [];
    gone := removed;
    for n := 0 to |torrents|
      invariant refs == Filter(KeptTorrent(current, removed), torrents[..n])
      invariant OnlyGone(gone, current, removed)
      invariant forall t :: t in torrents[..n] && !KeptTorrent(current, removed)(t) ==> t.hash in gone && t.path in affected
    {
      MemberStep(torrents, n);
      var t := torrents[n];
      assert torrents[..n + 1] == torrents[..n] + [t];
      FilterAppend(KeptTorrent(current, removed), torrents[..n], [t]);
      if t.hash in current && t.hash !in gone {
        refs := refs + [t];
      } else {
        if t.path !in affected {
          return None, gone;
        }
        gone := gone + {t.hash};
      }
    }
    assert torrents[..|torrents|] == torrents;
    return Some(refs), gone;
  }

  // ---------------------------------------------------- what the guards give

  /** Outside of the affected paths, a file is claimed as before. */
  lemma ClaimsUnchanged(before: Topology, owners: set<MediaKey>, replacement: seq<Claim>, current: set<string>, removed: set<string>, affected: set<Path>, p: Path)
    requires WithinScope(before.claims, replacement, owners, affected) && p !in affected
    requires forall t :: t in before.torrents && !KeptTorrent(current, removed)(t) ==> t.path in affected
    ensures Claimed(Filter(OtherOwner(owners), before.claims) + replacement, Filter(KeptTorrent(current, removed), before.torrents), p)
            <==> Claimed(before.claims, before.torrents, p)
  {
    FilterContents(OtherOwner(owners), before.claims);
    FilterContents(KeptTorrent(current, removed), before.torrents);
    var claims := Filter(OtherOwner(owners), before.claims) + replacement;
    if PathOf(before.claims, owners, p) {
      var c :| c in replacement && c.path == p;
      assert c in claims;
    } else if c :| c in before.claims && c.path == p {
      assert OtherOwner(owners)(c) && c in claims;
    }
    if c :| c in claims && c.path == p {
      if c in replacement { assert PathIn(replacement, p); }
    }
  }

  lemma UnmanagedFollows(before: Topology, after: Topology, d: Delta)
    requires before.unmanaged == Unclaimed(before.files, before.claims, before.torrents)
    requires after.unmanaged == Unclaimed(after.files, after.claims, after.torrents)
    requires FilesChange(before, after, d)
    requires forall p :: p !in d.paths ==> (Claimed(after.claims, after.torrents, p) <==> Claimed(before.claims, before.torrents, p))
    requires d.unmanaged == Filter((u: Unmanaged) => u.row.file.path in d.paths, after.unmanaged)
    ensures UnmanagedChange(before, after, d)
  {
    var inPaths := (u: Unmanaged) => u.row.file.path in d.paths;
    UnclaimedMembers(before.files, before.claims, before.torrents);
    UnclaimedMembers(after.files, after.claims, after.torrents);
    FilterContents(inPaths, after.unmanaged);
    FilterOnceRow(inPaths, after.unmanaged);
  }

  lemma {:induction false} FilterOnceRow(keep: Unmanaged -> bool, xs: seq<Unmanaged>)
    requires OncePerRow(xs)
    ensures OncePerRow(Filter(keep, xs))
  {
    if xs != [] {
      var rest := Filter(keep, xs[1..]);
      FilterOnceRow(keep, xs[1..]);
      FilterContents(keep, xs[1..]);
      forall u | u in rest
        ensures u.row.file.path != xs[0].row.file.path
      {
        var k :| 0 <= k < |xs[1..]| && xs[1..][k] == u;
        assert xs[k + 1] == u;
      }
    }
  }

  lemma SplicedFiles(le: (Scanned, Scanned) -> bool, rows: seq<Scanned>, affected: set<Path>, renewed: seq<Scanned>, before: Topology, after: Topology, d: Delta)
    requires before.files == rows && after.files == Splice(le, rows, affected, renewed) && d.files == renewed
    requires forall p :: p in d.paths <==> p in affected
    requires OncePerPath(rows) && OncePerPath(renewed) && forall r :: r in renewed ==> r.file.path in affected
    ensures FilesChange(before, after, d)
  {
    SpliceOnce(le, rows, affected, renewed);
    forall r
      ensures r in after.files <==> r in d.files || (r in before.files && r.file.path !in d.paths)
    {
      SpliceMember(le, rows, affected, renewed, r);
    }
  }

  method Keys(s: set<string>) returns (xs: seq<string>)
    ensures forall x :: x in xs <==> x in s
  {
    xs := [];
    var todo := s;
    while todo != {}
      invariant todo <= s && forall x :: x in xs <==> x in s && x !in todo
      decreases |todo|
    {
      var x :| x in todo;
      xs, todo := xs + [x], todo - {x};
    }
  }

  // -------------------------------------------------------------- projection

  datatype Projection = Unsafe(reason: Reason) | Ready(after: Topology, torrents: seq<Torrent>, delta: Delta, owners: set<MediaKey>, affected: set<Path>)

  /** What passed the guards: the pieces of the new topology. */
  datatype Pieces = Pieces(affected: set<Path>, renewed: seq<Scanned>, owners: set<MediaKey>, ids: seq<OwnerId>, replacement: seq<Claim>,
                           current: set<string>, removed: set<string>, gone: set<string>, kept: seq<TorrentClaim>)

  ghost predicate Vouched(before: Topology, x: Pieces) {
    && OncePerPath(x.renewed) && (forall r :: r in x.renewed ==> r.file.path in x.affected)
    && WithinScope(before.claims, x.replacement, x.owners, x.affected)
    && (forall k :: k in x.owners ==> IdOf(k) in x.ids)
    && x.kept == Filter(KeptTorrent(x.current, x.removed), before.torrents)
    && (forall t :: t in before.torrents && !KeptTorrent(x.current, x.removed)(t) ==> t.path in x.affected)
    && (forall t :: t in before.torrents ==> (KeptTorrent(x.current, x.removed)(t) <==> t.hash !in x.gone))
  }

  /** The guards make the delta the difference of the two topologies. */
  lemma VouchedChanges(le: (Scanned, Scanned) -> bool, before: Topology, x: Pieces, after: Topology, d: Delta)
    requires OncePerPath(before.files) && before.unmanaged == Unclaimed(before.files, before.claims, before.torrents)
    requires Vouched(before, x)
    requires after.files == Splice(le, before.files, x.affected, x.renewed)
    requires after.claims == Filter(OtherOwner(x.owners), before.claims) + x.replacement
    requires after.torrents == x.kept && after.unmanaged == Unclaimed(after.files, after.claims, after.torrents)
    requires (forall p :: p in d.paths <==> p in x.affected) && (forall h :: h in d.removedHashes <==> h in x.gone)
    requires d.files == x.renewed && d.owners == x.ids && d.claims == x.replacement && d.torrents == []
    requires d.unmanaged == Filter((u: Unmanaged) => u.row.file.path in d.paths, after.unmanaged)
    ensures Changes(before, after, d, x.owners) && OncePerPath(after.files)
  {
    SplicedFiles(le, before.files, x.affected, x.renewed, before, after, d);
    forall p | p !in d.paths
      ensures Claimed(after.claims, after.torrents, p) <==> Claimed(before.claims, before.torrents, p)
    {
      ClaimsUnchanged(before, x.owners, x.replacement, x.current, x.removed, x.affected, p);
    }
    UnmanagedFollows(before, after, d);
    FilterAgree(KeptTorrent(x.current, x.removed), OtherHash(d.removedHashes), before.torrents);
  }

  /** What the reconciliation is asked and told. */
  datatype Request = Request(scope: Scope, radarr: seq<string>, sonarr: seq<string>, answer: Option<seq<Claim>>, torrents: seq<Torrent>)

  ghost function AffectedSet(rows: seq<Scanned>, requested: seq<Path>): set<Path> {
    (set p | p in requested) + set r | r in rows && IsAffected(rows, requested, r.file.path) :: r.file.path
  }

  function OwnerKeys(q: Request): set<MediaKey> {
    set o | o in q.scope.owners && Resolved(o, q.radarr, q.sonarr).Some? :: Resolved(o, q.radarr, q.sonarr).value
  }

  function Removed(q: Request): set<string> { set h | h in q.scope.torrents }

  function Current(q: Request): map<string, Torrent> { ByHash(Filter((t: Torrent) => t.hash !in Removed(q), q.torrents)) }

  /** The files can be refreshed: known paths, and no answer is in the way. */
  ghost predicate FilesSound(rows: seq<Scanned>, requested: seq<Path>, stat: Path -> Answer) {
    && (forall p :: p in requested ==> p in ByPath(rows))
    && forall p :: p in ByPath(rows) && IsAffected(rows, requested, p) ==> Trouble(ByPath(rows)[p], stat(p)).None?
  }

  ghost predicate TorrentsSound(torrents: seq<TorrentClaim>, q: Request, affected: set<Path>) {
    && RemovedWithinScope(torrents, Removed(q), affected)
    && (forall h :: h in Current(q) ==> InventoryHolds(torrents, Current(q)[h]))
    && forall t :: t in torrents && !KeptTorrent(Current(q).Keys, Removed(q))(t) ==> t.path in affected
  }

  /** The scope tells the whole story. */
  ghost predicate Sound(before: Topology, q: Request, stat: Path -> Answer) {
    && !q.scope.full && q.scope.paths != []
    && FilesSound(before.files, q.scope.paths, stat)
    && (forall o :: o in q.scope.owners ==> Resolved(o, q.radarr, q.sonarr).Some?)
    && q.answer.Some?
    && WithinScope(before.claims, q.answer.value, OwnerKeys(q), AffectedSet(before.files, q.scope.paths))
    && TorrentsSound(before.torrents, q, AffectedSet(before.files, q.scope.paths))
  }

  /** What a sound scope means: no owner is ambiguous, every torrent said to be removed
      had files and all of them are affected, and every torrent still reported had
      files, each at or under its save path. */
  lemma SoundMeans(before: Topology, q: Request, stat: Path -> Answer)
    requires Sound(before, q, stat)
    ensures !q.scope.full && q.scope.paths != []
    ensures forall p :: p in q.scope.paths ==> (exists r :: r in before.files && r.file.path == p) && (stat(p).Absent? || stat(p).Regular?)
    ensures forall o :: o in q.scope.owners ==> o.service != "" || |if o.kind == Movie then q.radarr else q.sonarr| == 1
    ensures forall h :: h in q.scope.torrents ==> exists t :: t in before.torrents && t.hash == h
    ensures forall t :: t in before.torrents && t.hash in q.scope.torrents ==> t.path in AffectedSet(before.files, q.scope.paths)
    ensures forall x :: x in q.torrents && x.hash !in q.scope.torrents ==> exists t :: t in before.torrents && t.hash == x.hash
  {
    var affected := AffectedSet(before.files, q.scope.paths);
    forall p | p in q.scope.paths
      ensures (exists r :: r in before.files && r.file.path == p) && (stat(p).Absent? || stat(p).Regular?)
    {
      assert IsAffected(before.files, q.scope.paths, p);
      assert ByPath(before.files)[p] in before.files && Trouble(ByPath(before.files)[p], stat(p)).None?;
    }
    forall h | h in q.scope.torrents
      ensures exists t :: t in before.torrents && t.hash == h
    {
      assert h in Removed(q) && HashWithinScope(before.torrents, h, affected);
    }
    forall x | x in q.torrents && x.hash !in q.scope.torrents
      ensures exists t :: t in before.torrents && t.hash == x.hash
    {
      FilterContents((t: Torrent) => t.hash !in Removed(q), q.torrents);
      assert x.hash in Current(q) && InventoryHolds(before.torrents, Current(q)[x.hash]);
      CurrentHash(q, x.hash);
    }
  }

  lemma CurrentHash(q: Request, h: string)
    requires h in Current(q)
    ensures Current(q)[h].hash == h
  {
    ByHashHash(Filter((t: Torrent) => t.hash !in Removed(q), q.torrents), h);
  }

  lemma {:induction false} ByHashHash(torrents: seq<Torrent>, h: string)
    requires h in ByHash(torrents)
    ensures ByHash(torrents)[h].hash == h && ByHash(torrents)[h] in torrents
    decreases |torrents|
  {
    var front, last := torrents[..|torrents| - 1], torrents[|torrents| - 1];
    assert torrents == front + [last];
    if h != last.hash { ByHashHash(front, h); }
  }

  /** A path lies at or under a root exactly if it is the root followed by nothing, or by
      a separator and more. */
  lemma UnderMeans(root: Path, p: Path)
    requires root != "/"
    ensures Under(root, p) <==> p == root || exists rest: Path :: p == root + "/" + rest
  {
    if Under(root, p) && p != root {
      assert p == root + "/" + p[|root| + 1..];
    }
    if rest: Path :| p == root + "/" + rest { assert p[|root|] == '/' && p[..|root|] == root; }
  }

  ghost predicate IsPieces(before: Topology, q: Request, stat: Path -> Answer, x: Pieces) {
    && x.affected == AffectedSet(before.files, q.scope.paths)
    && IsRefreshOf(x.renewed, ByPath(before.files), x.affected, stat)
    && x.owners == OwnerKeys(q)
    && q.answer == Some(x.replacement)
    && (forall i :: i in x.ids <==> exists o :: o in q.scope.owners && OwnerId(o.kind, o.id) == i)
  }

  /** The guards, in order: they pass exactly when the scope is sound. */
  method Guard(before: Topology, q: Request, stat: Path -> Answer) returns (refused: Option<Reason>, x: Pieces)
    ensures refused.None? <==> Sound(before, q, stat)
    ensures refused.None? ==> Vouched(before, x) && IsPieces(before, q, stat, x) && OnlyGone(x.gone, Current(q).Keys, Removed(q))
    ensures refused.None? ==> x.current == Current(q).Keys && x.removed == Removed(q)
  {
    x := Pieces({}, [], {}, [], [], {}, {}, {}, []);
    if q.scope.full {
      return Some(ScopeRequiresFull), x;
    }
    if |q.scope.paths| == 0 {
      return Some(ScopeMissing), x;
    }
    var refresh := RefreshTargetedPaths(before.files, q.scope.paths, stat);
    if refresh.Refused? {
      return Some(FilesystemInvariant), x;
    }
    IsAffectedSet(before.files, q.scope.paths, refresh.affected);
    var resolved, ids := ResolveOwners(q.scope.owners, q.radarr, q.sonarr);
    if resolved.None? {
      return Some(OwnerInstanceAmbiguous), x;
    }
    AreOwnerKeys(q, resolved.value);
    if q.answer.None? {
      return Some(OwnerQueryFailed), x;
    }
    var within := MediaRefChangesWithinScope(before.claims, q.answer.value, resolved.value, refresh.affected);
    if !within {
      return Some(OwnerScopeMismatch), x;
    }
    var reason, kept, gone := GuardTorrents(before.torrents, q, refresh.affected);
    if reason.Some? {
      return reason, x;
    }
    x := Pieces(refresh.affected, refresh.rows, resolved.value, ids, q.answer.value, Current(q).Keys, Removed(q), gone, kept);
    PiecesVouch(before, q, stat, x);
    return None, x;
  }

  lemma IsAffectedSet(rows: seq<Scanned>, requested: seq<Path>, affected: set<Path>)
    requires forall p :: p in affected <==> IsAffected(rows, requested, p)
    ensures affected == AffectedSet(rows, requested)
  {
  }

  lemma AreOwnerKeys(q: Request, keys: set<MediaKey>)
    requires forall k :: k in keys <==> exists o :: o in q.scope.owners && Resolved(o, q.radarr, q.sonarr) == Some(k)
    ensures keys == OwnerKeys(q)
  {
  }

  /** What the guards have gathered accounts for every change. */
  lemma PiecesVouch(before: Topology, q: Request, stat: Path -> Answer, x: Pieces)
    requires IsPieces(before, q, stat, x) && Sound(before, q, stat)
    requires x.removed == Removed(q) && x.current == Current(q).Keys
    requires x.kept == Filter(KeptTorrent(x.current, x.removed), before.torrents)
    requires forall t :: t in before.torrents ==> (KeptTorrent(x.current, x.removed)(t) <==> t.hash !in x.gone)
    requires OncePerPath(x.renewed) && forall r :: r in x.renewed ==> r.file.path in x.affected
    ensures Vouched(before, x)
  {
    OwnersHaveIds(q, x.ids);
  }

  lemma OwnersHaveIds(q: Request, ids: seq<OwnerId>)
    requires forall o :: o in q.scope.owners ==> Resolved(o, q.radarr, q.sonarr).Some?
    requires forall i :: i in ids <==> exists o :: o in q.scope.owners && OwnerId(o.kind, o.id) == i
    ensures forall k :: k in OwnerKeys(q) ==> IdOf(k) in ids
  {
  }

  method GuardTorrents(torrents: seq<TorrentClaim>, q: Request, affected: set<Path>)
    returns (refused: Option<Reason>, kept: seq<TorrentClaim>, gone: set<string>)
    ensures refused.None? <==> TorrentsSound(torrents, q, affected)
    ensures refused.None? ==>
      && kept == Filter(KeptTorrent(Current(q).Keys, Removed(q)), torrents)
      && (forall t :: t in torrents ==> (KeptTorrent(Current(q).Keys, Removed(q))(t) <==> t.hash !in gone))
      && OnlyGone(gone, Current(q).Keys, Removed(q))
  {
    var covered := RemovedCovered(torrents, Removed(q), affected);
    if !covered {
      return Some(TorrentScopeMismatch), [], {};
    }
    var holds := InventoryUnchanged(torrents, Current(q));
    if !holds {
      return Some(TorrentInventoryChanged), [], {};
    }
    var rest;
    rest, gone := KeepTorrents(torrents, Current(q).Keys, Removed(q), affected);
    if rest.None? {
      return Some(TorrentScopeMismatch), [], {};
    }
    return None, rest.value, gone;
  }

  /** The new topology with the delta that leads to it. */
  ghost predicate Projects(le: (Scanned, Scanned) -> bool, before: Topology, q: Request, stat: Path -> Answer, p: Projection) {
    && p.Ready?
    && p.affected == AffectedSet(before.files, q.scope.paths)
    && IsRefreshOf(p.delta.files, ByPath(before.files), p.affected, stat)
    && p.after.files == Splice(le, before.files, p.affected, p.delta.files)
    && p.after.unmanaged == Unclaimed(p.after.files, p.after.claims, p.after.torrents)
    && OncePerPath(p.after.files)
    && q.answer == Some(p.delta.claims) && p.owners == OwnerKeys(q)
    && p.after.torrents == Filter(KeptTorrent(Current(q).Keys, Removed(q)), before.torrents)
    && (forall x :: x in p.torrents <==> x in q.torrents && x.hash !in Removed(q))
    && (forall i :: i in p.delta.owners <==> exists o :: o in q.scope.owners && OwnerId(o.kind, o.id) == i)
    && Changes(before, p.after, p.delta, p.owners)
  }

  /** What is published: the answered claims of the scoped owners and the former claims of
      all others; the files of the torrents that are still reported and were not removed;
      and those torrents. */
  lemma PublishedMeans(le: (Scanned, Scanned) -> bool, before: Topology, q: Request, stat: Path -> Answer, p: Projection)
    requires Projects(le, before, q, stat, p) && Sound(before, q, stat)
    ensures forall c :: c in p.after.claims <==>
      c in q.answer.value || (c in before.claims && forall o :: o in q.scope.owners ==> Resolved(o, q.radarr, q.sonarr) != Some(c.owner))
    ensures forall t :: t in p.after.torrents <==>
      t in before.torrents && t.hash !in q.scope.torrents && exists x :: x in q.torrents && x.hash == t.hash
    ensures forall x :: x in p.torrents <==> x in q.torrents && x.hash !in q.scope.torrents
  {
    FilterContents(OtherOwner(p.owners), before.claims);
    FilterContents(KeptTorrent(Current(q).Keys, Removed(q)), before.torrents);
    FilterContents((t: Torrent) => t.hash !in Removed(q), q.torrents);
    forall t: TorrentClaim
      ensures KeptTorrent(Current(q).Keys, Removed(q))(t) <==> t.hash !in q.scope.torrents && exists x :: x in q.torrents && x.hash == t.hash
    {
    }
  }

  /** The torrents left in memory. */
  lemma RemainingTorrents(q: Request, gone: set<string>)
    requires OnlyGone(gone, Current(q).Keys, Removed(q))
    ensures forall x :: x in Filter((t: Torrent) => t.hash !in gone, q.torrents) <==> x in q.torrents && x.hash !in Removed(q)
  {
    FilterContents((t: Torrent) => t.hash !in gone, q.torrents);
    FilterContents((t: Torrent) => t.hash !in Removed(q), q.torrents);
    forall x | x in q.torrents && x.hash !in Removed(q)
      ensures x.hash in Current(q)
    {
      assert x in Filter((t: Torrent) => t.hash !in Removed(q), q.torrents);
    }
  }

  method Project(le: (Scanned, Scanned) -> bool, before: Topology, q: Request, stat: Path -> Answer, generation: nat) returns (p: Projection)
    requires OncePerPath(before.files) && before.unmanaged == Unclaimed(before.files, before.claims, before.torrents)
    ensures p.Ready? <==> Sound(before, q, stat)
    ensures p.Ready? ==> Projects(le, before, q, stat, p) && p.delta.generation == generation
  {
    var refused, x := Guard(before, q, stat);
    if refused.Some? {
      return Unsafe(refused.value);
    }
    var claims := Filter(OtherOwner(x.owners), before.claims) + x.replacement;
    var files := Splice(le, before.files, x.affected, x.renewed);
    var unmanaged := ProjectUnmanaged(files, claims, x.kept);
    var after := Topology(files, claims, x.kept, unmanaged);
    var paths := Keys(x.affected);
    var hashes := Keys(x.gone);
    var updated := Filter((u: Unmanaged) => u.row.file.path in paths, unmanaged);
    var d := Delta(paths, x.renewed, x.ids, x.replacement, hashes, [], updated, generation);
    VouchedChanges(le, before, x, after, d);
    RemainingTorrents(q, x.gone);
    return Ready(after, Filter((t: Torrent) => t.hash !in x.gone, q.torrents), d, x.owners, x.affected);
  }

  // ----------------------------------------------------------------- service

  class Service {
    var files: seq<Scanned>
    var claims: seq<Claim>
    var torrentClaims: seq<TorrentClaim>
    var unmanaged: seq<Unmanaged>
    var torrents: seq<Torrent>
    const db: Store

    constructor (db: Store)
      ensures this.db == db && Valid() && Contents() == Topology([], [], [], [])
    {
      files, claims, torrentClaims, unmanaged, torrents := [], [], [], [], [];
      this.db := db;
    }

    function Contents(): Topology
      reads this
    {
      Topology(files, claims, torrentClaims, unmanaged)
    }

    ghost predicate Valid()
      reads this
    {
      OncePerPath(files) && unmanaged == Unclaimed(files, claims, torrentClaims)
    }

    /** The generation is checked before the database is written and after; a
        change there or an unsound scope leaves the topology in memory alone. */
    method ReconcileTargeted(le: (Scanned, Scanned) -> bool, q: Request, stat: Path -> Answer, generation: nat, changedBefore: bool, changedDuring: bool)
      returns (outcome: Outcome, ghost p: Projection)
      requires Valid() && q.torrents == torrents
      modifies this, db
      ensures Valid()
      ensures outcome.Published? ==> Sound(old(Contents()), q, stat) && !changedBefore && !changedDuring
      ensures Sound(old(Contents()), q, stat) && !changedBefore && !changedDuring ==> !outcome.Promoted?
      ensures !outcome.Published? ==> Contents() == old(Contents()) && torrents == old(torrents)
      ensures !outcome.Published? && outcome != Promoted(GenerationChanged) ==> db.Contents() == old(db.Contents())
      ensures outcome == PersistFailed ==> p.Ready? && Patched(old(db.Contents()), p.delta).None?
      ensures outcome.Published? ==>
        && Projects(le, old(Contents()), q, stat, p)
        && Contents() == p.after && torrents == p.torrents
        && ListsUnclaimed(files, claims, torrentClaims, unmanaged)
        && Patched(old(db.Contents()), p.delta) == Some(db.Contents())
    {
      var projection := Project(le, Contents(), q, stat, generation);
      p := projection;
      if projection.Unsafe? {
        return Promoted(projection.reason), p;
      }
      if changedBefore {
        return Promoted(GenerationChanged), p;
      }
      var ok := db.PublishReconciliationDelta(projection.delta);
      if !ok {
        return PersistFailed, p;
      }
      if changedDuring {
        return Promoted(GenerationChanged), p;
      }
      Publish(projection.after, projection.torrents);
      UnclaimedIsListed(files, claims, torrentClaims);
      return Published, p;
    }

    method Publish(t: Topology, current: seq<Torrent>)
      modifies this
      ensures Contents() == t && torrents == current
    {
      files, claims, torrentClaims, unmanaged, torrents := t.files, t.claims, t.torrents, t.unmanaged, current;
    }
  }

  /** After a targeted publication the database still holds the topology in
      memory, exactly when kind and source id identify the republished owners. */
  lemma PublishedIsMirroredIff(le: (Scanned, Scanned) -> bool, before: Topology, tables: Tables, q: Request, stat: Path -> Answer, p: Projection)
    requires Replaced(before, tables.generation) == Some(tables)
    requires Projects(le, before, q, stat, p) && Replaced(p.after, p.delta.generation).Some?
    ensures Patched(tables, p.delta) == Replaced(p.after, p.delta.generation) <==>
      forall c, o :: c in before.claims && o in q.scope.owners && c.owner.kind == o.kind && c.owner.id == o.id ==> c.owner in OwnerKeys(q)
  {
    PatchIsReplacementIff(tables, before, p.after, p.delta, p.owners);
    var condition := forall c, o :: c in before.claims && o in q.scope.owners && c.owner.kind == o.kind && c.owner.id == o.id ==> c.owner in OwnerKeys(q);
    if condition {
      forall c | c in before.claims && IdOf(c.owner) in p.delta.owners
        ensures c.owner in p.owners
      {
        var o :| o in q.scope.owners && OwnerId(o.kind, o.id) == IdOf(c.owner);
      }
    }
  }

  // ------------------------------------------------ two instances of a service

  function MovieRow(path: Path, inode: nat): Scanned { Scanned(File(path, 1, true, true, Identity(1, inode), 1), []) }

  function MovieOf(service: string, fileId: int, path: Path): Claim {
    Claim(MediaKey(Movie, service, 1), service, "radarr", fileId, path, [])
  }

  function FirstMovie(): Claim { MovieOf("a", 1, "/a") }

  function OtherMovie(): Claim { MovieOf("b", 2, "/b") }

  /** Two instances each know a movie by the id 1, and each movie has its file. */
  function TwoInstances(): Topology {
    Topology([MovieRow("/a", 1), MovieRow("/b", 2)], [FirstMovie(), OtherMovie()], [], [])
  }

  /** The file and the movie of the first instance are gone. */
  function OneInstance(): Topology { Topology([MovieRow("/b", 2)], [OtherMovie()], [], []) }

  /** Its mutation scope, and the empty answer of its service. */
  function FirstRemoved(): Request {
    Request(Scope(false, ["/a"], [ScopeOwner(Movie, 1, "a")], []), ["a", "b"], [], Some([]), [])
  }

  function FirstUnlinked(): Path -> Answer {
    (p: Path) => if p == "/a" then Absent else Regular(1, true, Identity(1, 2), 1)
  }

  function FirstGone(): Projection {
    Ready(OneInstance(), [], Delta(["/a"], [], [OwnerId(Movie, 1)], [], [], [], [], 1), {MediaKey(Movie, "a", 1)}, {"/a"})
  }

  lemma TwoInstanceRows()
    ensures var rows := TwoInstances().files;
      OncePerPath(rows) && ByPath(rows) == map["/a" := MovieRow("/a", 1), "/b" := MovieRow("/b", 2)]
  {
    var a, b := MovieRow("/a", 1), MovieRow("/b", 2);
    assert "/a"[1] != "/b"[1];
    assert [a, b][..1] == [a] && [a][..0] == [];
    assert ByPath([a]) == map["/a" := a];
  }

  /** Only the scoped path itself is affected. */
  lemma OnlyFirstAffected(p: Path)
    ensures IsAffected(TwoInstances().files, ["/a"], p) <==> p == "/a"
  {
    TwoInstanceRows();
  }

  lemma FirstAffectedSet()
    ensures AffectedSet(TwoInstances().files, ["/a"]) == {"/a"}
  {
    forall p { OnlyFirstAffected(p); }
    assert "/a" in ["/a"];
  }

  lemma FirstOwner()
    ensures OwnerKeys(FirstRemoved()) == {MediaKey(Movie, "a", 1)}
    ensures forall o :: o in FirstRemoved().scope.owners ==> Resolved(o, ["a", "b"], []).Some?
  {
    var o := ScopeOwner(Movie, 1, "a");
    assert o in FirstRemoved().scope.owners && Resolved(o, ["a", "b"], []) == Some(MediaKey(Movie, "a", 1));
  }

  lemma FirstWithinScope()
    ensures WithinScope(TwoInstances().claims, [], {MediaKey(Movie, "a", 1)}, {"/a"})
  {
  }

  /** Every guard passes: the scope accounts for the whole change. */
  lemma FirstIsSound()
    ensures Sound(TwoInstances(), FirstRemoved(), FirstUnlinked())
  {
    TwoInstanceRows();
    FirstAffectedSet();
    FirstOwner();
    FirstWithinScope();
    forall p { OnlyFirstAffected(p); }
    assert Removed(FirstRemoved()) == {} && Current(FirstRemoved()) == map[];
  }

  lemma FirstSpliced(le: (Scanned, Scanned) -> bool)
    ensures Splice(le, TwoInstances().files, {"/a"}, []) == OneInstance().files
  {
    var a, b := MovieRow("/a", 1), MovieRow("/b", 2);
    var keep := (r: Scanned) => r.file.path !in {"/a"};
    assert "/a"[1] != "/b"[1];
    assert [a, b][1..] == [b] && [b][1..] == [];
    assert Filter(keep, [b]) == [b] && Filter(keep, [a, b]) == [b];
    assert [b] + [] == [b];
  }

  lemma {:induction false} NothingUnclaimed(rows: seq<Scanned>, claims: seq<Claim>)
    requires forall r :: r in rows ==> Claimed(claims, [], r.file.path)
    ensures Unclaimed(rows, claims, []) == []
    decreases |rows|
  {
    if rows != [] {
      assert rows[|rows| - 1] in rows;
      NothingUnclaimed(rows[..|rows| - 1], claims);
    }
  }

  lemma AllClaimed()
    ensures Unclaimed(TwoInstances().files, TwoInstances().claims, []) == [] && Unclaimed(OneInstance().files, OneInstance().claims, []) == []
  {
    assert FirstMovie() in TwoInstances().claims && OtherMovie() in TwoInstances().claims && OtherMovie() in OneInstance().claims;
    NothingUnclaimed(TwoInstances().files, TwoInstances().claims);
    NothingUnclaimed(OneInstance().files, OneInstance().claims);
  }

  lemma FirstChange(le: (Scanned, Scanned) -> bool)
    ensures Changes(TwoInstances(), OneInstance(), FirstGone().delta, {MediaKey(Movie, "a", 1)})
  {
    TwoInstanceRows();
    FirstSpliced(le);
    SplicedFiles(le, TwoInstances().files, {"/a"}, [], TwoInstances(), OneInstance(), FirstGone().delta);
    var keep := OtherOwner({MediaKey(Movie, "a", 1)});
    var claims := TwoInstances().claims;
    assert claims[1..] == [OtherMovie()] && claims[1..][1..] == [];
    assert Filter(keep, claims[1..]) == [OtherMovie()] && Filter(keep, claims) == [OtherMovie()];
  }

  lemma NothingRenewed()
    ensures IsRefreshOf([], ByPath(TwoInstances().files), {"/a"}, FirstUnlinked())
  {
  }

  lemma FirstOwnerIds()
    ensures forall i :: i in FirstGone().delta.owners <==> exists o :: o in FirstRemoved().scope.owners && OwnerId(o.kind, o.id) == i
  {
    assert ScopeOwner(Movie, 1, "a") in FirstRemoved().scope.owners;
  }

  lemma FirstFiles(le: (Scanned, Scanned) -> bool)
    ensures OneInstance().files == Splice(le, TwoInstances().files, AffectedSet(TwoInstances().files, ["/a"]), [])
    ensures OneInstance().unmanaged == Unclaimed(OneInstance().files, OneInstance().claims, OneInstance().torrents)
    ensures IsRefreshOf([], ByPath(TwoInstances().files), AffectedSet(TwoInstances().files, ["/a"]), FirstUnlinked())
  {
    FirstAffectedSet();
    FirstSpliced(le);
    AllClaimed();
    NothingRenewed();
  }

  /** This is what the targeted reconciliation publishes. */
  lemma FirstIsProjected(le: (Scanned, Scanned) -> bool)
    ensures Projects(le, TwoInstances(), FirstRemoved(), FirstUnlinked(), FirstGone())
  {
    FirstAffectedSet();
    FirstOwner();
    FirstFiles(le);
    FirstOwnerIds();
    FirstChange(le);
  }

  lemma RowsOfFile(r: Scanned)
    ensures FileRows([r]) == [(r.file.path, r)]
  {
    assert [r][..0] == [];
  }

  lemma TwoFilesStored()
    ensures InsertAll(map[], FileRows(TwoInstances().files)).Some?
  {
    var a, b := MovieRow("/a", 1), MovieRow("/b", 2);
    RowsOfFile(a);
    assert [a, b][..1] == [a] && "/a"[1] != "/b"[1];
    InsertTwo(("/a", a), ("/b", b));
    assert FileRows([a, b]) == [("/a", a)] + [("/b", b)];
  }

  lemma TwoClaimsStored(k: ClaimKey)
    ensures var claims := InsertAll(map[], ClaimRows(TwoInstances().claims)); claims.Some? && (k in claims.value ==> k.owner == OwnerId(Movie, 1))
    ensures InsertAll(map[], PartRows(TwoInstances().claims)).Some?
  {
    RowsOfTwo(FirstMovie(), OtherMovie());
    RowsOfOne(FirstMovie());
    RowsOfOne(OtherMovie());
    InsertTwo(ClaimRows([FirstMovie()])[0], ClaimRows([OtherMovie()])[0]);
  }

  lemma TwoInstancesStored(k: ClaimKey)
    ensures Replaced(TwoInstances(), 0).Some?
    ensures k in Replaced(TwoInstances(), 0).value.claims ==> k.owner == OwnerId(Movie, 1)
  {
    TwoClaimsStored(k);
    TwoFilesStored();
  }

  lemma OneClaimStored(c: Claim)
    requires c.parts == []
    ensures var rows := InsertAll(map[], ClaimRows([c])); rows.Some? && KeyOf(c) in rows.value
    ensures InsertAll(map[], PartRows([c])).Some?
  {
    RowsOfOne(c);
    InsertOne(map[], ClaimRows([c])[0]);
  }

  lemma OneFileStored(r: Scanned)
    ensures InsertAll(map[], FileRows([r])).Some?
  {
    RowsOfFile(r);
    InsertOne(map[], (r.file.path, r));
  }

  lemma OneInstanceStored()
    ensures Replaced(OneInstance(), 1).Some? && KeyOf(OtherMovie()) in Replaced(OneInstance(), 1).value.claims
  {
    OneClaimStored(OtherMovie());
    OneFileStored(MovieRow("/b", 2));
  }

  /** A scope that passes every guard, published by the targeted reconciliation,
      deletes the claim of the other instance from the database: in memory, and in
      a wholesale replacement, it is still there. */
  lemma SharedIdIsReachable(le: (Scanned, Scanned) -> bool) returns (tables: Tables)
    ensures Replaced(TwoInstances(), 0) == Some(tables)
    ensures Sound(TwoInstances(), FirstRemoved(), FirstUnlinked())
    ensures Projects(le, TwoInstances(), FirstRemoved(), FirstUnlinked(), FirstGone())
    ensures var after := Replaced(FirstGone().after, 1); after.Some? && KeyOf(OtherMovie()) in after.value.claims
    ensures var patched := Patched(tables, FirstGone().delta); patched.Some? && KeyOf(OtherMovie()) !in patched.value.claims
  {
    FirstIsSound();
    FirstIsProjected(le);
    OneInstanceStored();
    forall k { TwoInstancesStored(k); }
    tables := Replaced(TwoInstances(), 0).value;
    PatchOfFirst(tables);
  }

  lemma PatchOfFirst(tables: Tables)
    requires Replaced(TwoInstances(), 0) == Some(tables) && forall k :: k in tables.claims ==> k.owner == OwnerId(Movie, 1)
    ensures var patched := Patched(tables, FirstGone().delta); patched.Some? && patched.value.claims == map[]
  {
    assert ClaimsOf(tables.claims, [OwnerId(Movie, 1)]) == map[];
  }
}
