/** Refreshing only the files a mutation touched.  The scoped paths and every path
    known to be the same physical file are stated again; the rest of the last walk
    is kept. */
module TargetedRefresh {
  import opened Sorting
  import opened FileTopology
  import opened Unlinking

  /** A row of a walk: the file and the storage contexts its path lies in. */
  datatype Scanned = Scanned(file: File, contexts: seq<string>)

  /** What stat answers now. */
  datatype Answer = Absent | Denied | Irregular | Regular(size: nat, known: bool, identity: Identity, links: nat)

  datatype RefreshError = UnknownPath(path: Path) | StatFailed(path: Path) | NotAFile(path: Path) | IdentityChanged(path: Path)

  datatype Refresh = Refused(error: RefreshError) | Refreshed(affected: set<Path>, rows: seq<Scanned>)

  /** Rows by path; where a path is listed twice the later row stands. */
  function ByPath(rows: seq<Scanned>): (m: map<Path, Scanned>)
    ensures forall p :: p in m ==> m[p] in rows && m[p].file.path == p
    ensures forall r :: r in rows ==> r.file.path in m
  {
    if rows == [] then map[]
    else
      var last := rows[|rows| - 1];
      assert rows == rows[..|rows| - 1] + [last];
      ByPath(rows[..|rows| - 1])[last.file.path := last]
  }

  predicate Peers(rows: map<Path, Scanned>, q: Path, r: Scanned) {
    q in rows && rows[q].file.known && r.file.known && r.file.identity == rows[q].file.identity
  }

  /** The requested paths and the rows known to be the same physical files. */
  ghost predicate IsAffected(rows: seq<Scanned>, requested: seq<Path>, p: Path) {
    p in requested || exists q, r :: q in requested && r in rows && r.file.path == p && Peers(ByPath(rows), q, r)
  }

  /** Why the answer for an affected path cannot be used. */
  function Trouble(before: Scanned, a: Answer): Option<RefreshError> {
    match a
    case Absent => None
    case Denied => Some(StatFailed(before.file.path))
    case Irregular => Some(NotAFile(before.file.path))
    case Regular(_, known, identity, _) =>
      if before.file.known && (!known || identity != before.file.identity) then Some(IdentityChanged(before.file.path)) else None
  }

  function Restated(before: Scanned, a: Answer): Scanned
    requires a.Regular?
  {
    Scanned(File(before.file.path, a.size, true, a.known, if a.known then a.identity else Identity(0, 0), if a.known then a.links else 0), before.contexts)
  }

  predicate OncePerPath(rows: seq<Scanned>) {
    forall i, j :: 0 <= i < j < |rows| ==> rows[i].file.path != rows[j].file.path
  }

  /** The rows of the affected paths that are still there. */
  ghost predicate IsRefreshOf(renewed: seq<Scanned>, before: map<Path, Scanned>, affected: set<Path>, stat: Path -> Answer) {
    && OncePerPath(renewed)
    && forall r :: r in renewed <==> exists p :: p in affected && p in before && stat(p).Regular? && r == Restated(before[p], stat(p))
  }

  ghost predicate NamedIn(rows: seq<Scanned>, i: Identity, p: Path) {
    exists r :: r in rows && r.file.known && r.file.identity == i && r.file.path == p
  }

  lemma NamedStep(rows: seq<Scanned>, n: nat, i: Identity, p: Path)
    requires n < |rows|
    ensures NamedIn(rows[..n + 1], i, p) <==>
      NamedIn(rows[..n], i, p) || (rows[n].file.known && rows[n].file.identity == i && rows[n].file.path == p)
  {
    MemberStep(rows, n);
  }

  ghost predicate IsIndex(byIdentity: map<Identity, seq<Path>>, rows: seq<Scanned>) {
    forall i, p :: p in At(byIdentity, i) <==> NamedIn(rows, i, p)
  }

  lemma IndexStep(byIdentity: map<Identity, seq<Path>>, rows: seq<Scanned>, n: nat)
    requires n < |rows| && IsIndex(byIdentity, rows[..n])
    ensures var f := rows[n].file;
      IsIndex(if f.known then byIdentity[f.identity := At(byIdentity, f.identity) + [f.path]] else byIdentity, rows[..n + 1])
  {
    var f := rows[n].file;
    var after := if f.known then byIdentity[f.identity := At(byIdentity, f.identity) + [f.path]] else byIdentity;
    forall i, p
      ensures p in At(after, i) <==> NamedIn(rows[..n + 1], i, p)
    {
      NamedStep(rows, n, i, p);
      assert p in At(byIdentity, i) <==> NamedIn(rows[..n], i, p);
    }
  }

  method IndexRows(rows: seq<Scanned>) returns (byPath: map<Path, Scanned>, byIdentity: map<Identity, seq<Path>>)
    ensures byPath == ByPath(rows) && IsIndex(byIdentity, rows)
  {
    byPath, byIdentity := map[], map[];
    for n := 0 to |rows|
      invariant byPath == ByPath(rows[..n]) && IsIndex(byIdentity, rows[..n])
    {
      var r := rows[n];
      IndexStep(byIdentity, rows, n);
      assert rows[..n + 1][..n] == rows[..n];
      byPath := byPath[r.file.path := r];
      if r.file.known {
        byIdentity := byIdentity[r.file.identity := At(byIdentity, r.file.identity) + [r.file.path]];
      }
    }
    assert rows[..|rows|] == rows;
  }

  lemma AffectedStep(rows: seq<Scanned>, requested: seq<Path>, n: nat, p: Path)
    requires n < |requested| && requested[n] in ByPath(rows)
    ensures var q := requested[n];
      IsAffected(rows, requested[..n + 1], p) <==>
        IsAffected(rows, requested[..n], p) || p == q || (ByPath(rows)[q].file.known && NamedIn(rows, ByPath(rows)[q].file.identity, p))
  {
    MemberStep(requested, n);
    var q := requested[n];
    if ByPath(rows)[q].file.known && NamedIn(rows, ByPath(rows)[q].file.identity, p) {
      var r :| r in rows && r.file.known && r.file.identity == ByPath(rows)[q].file.identity && r.file.path == p;
      assert Peers(ByPath(rows), q, r);
    }
  }

  method AffectedPaths(rows: seq<Scanned>, requested: seq<Path>) returns (byPath: map<Path, Scanned>, affected: set<Path>, unknown: Option<Path>)
    ensures byPath == ByPath(rows)
    ensures unknown.None? ==> (forall p :: p in requested ==> p in byPath) && (forall p :: p in affected <==> IsAffected(rows, requested, p))
    ensures unknown.Some? ==> unknown.value in requested && unknown.value !in byPath
  {
    var byIdentity;
    byPath, byIdentity := IndexRows(rows);
    affected, unknown := {}, None;
    for n := 0 to |requested|
      invariant forall p :: p in requested[..n] ==> p in byPath
      invariant forall p :: p in affected <==> IsAffected(rows, requested[..n], p)
    {
      var q := requested[n];
      if q !in byPath {
        return byPath, affected, Some(q);
      }
      MemberStep(requested, n);
      forall p { AffectedStep(rows, requested, n, p); }
      affected := affected + {q};
      if byPath[q].file.known {
        var peers := At(byIdentity, byPath[q].file.identity);
        affected := affected + set p | p in peers;
      }
    }
    assert requested[..|requested|] == requested;
  }

  /** The path is gone, or is the regular file it was. */
  predicate SameFileStill(before: File, a: Answer) {
    a.Absent? || (a.Regular? && (before.known ==> a.known && a.identity == before.identity))
  }

  /** The refusal tells what stood in the way. */
  predicate IsCause(byPath: map<Path, Scanned>, a: Answer, error: RefreshError) {
    && error.path in byPath
    && match error
       case UnknownPath(_) => false
       case StatFailed(_) => a.Denied?
       case NotAFile(_) => a.Irregular?
       case IdentityChanged(p) => a.Regular? && byPath[p].file.known && (!a.known || a.identity != byPath[p].file.identity)
  }

  /** The row states what was answered. */
  predicate IsStated(r: Scanned, a: Answer) {
    && a.Regular? && r.file.present && r.file.size == a.size && r.file.known == a.known
    && (a.known ==> r.file.identity == a.identity && r.file.links == a.links)
  }

  method RefreshTargetedPaths(rows: seq<Scanned>, requested: seq<Path>, stat: Path -> Answer) returns (r: Refresh)
    ensures (r.Refused? && r.error.UnknownPath?) <==> exists p :: p in requested && p !in ByPath(rows)
    ensures r.Refused? && r.error.UnknownPath? ==> r.error.path in requested && r.error.path !in ByPath(rows)
    ensures r.Refused? && !r.error.UnknownPath? ==>
      exists p :: p in ByPath(rows) && IsAffected(rows, requested, p) && Trouble(ByPath(rows)[p], stat(p)) == Some(r.error)
    ensures r.Refreshed? ==>
      && (forall p :: p in r.affected <==> IsAffected(rows, requested, p))
      && (forall p :: p in r.affected ==> p in ByPath(rows) && Trouble(ByPath(rows)[p], stat(p)).None?)
      && IsRefreshOf(r.rows, ByPath(rows), r.affected, stat)
    ensures r.Refused? && !r.error.UnknownPath? ==> IsAffected(rows, requested, r.error.path) && IsCause(ByPath(rows), stat(r.error.path), r.error)
    ensures r.Refreshed? ==> forall p :: p in r.affected ==> p in ByPath(rows) && SameFileStill(ByPath(rows)[p].file, stat(p))
    ensures r.Refreshed? ==> forall x :: x in r.rows ==> x.file.path in r.affected && IsStated(x, stat(x.file.path))
    ensures r.Refreshed? ==> forall p :: p in r.affected && stat(p).Regular? ==> exists x :: x in r.rows && x.file.path == p
  {
    var byPath, affected, unknown := AffectedPaths(rows, requested);
    if unknown.Some? {
      return Refused(UnknownPath(unknown.value));
    }
    var renewed: seq<Scanned> := [];
    var todo := affected;
    while todo != {}
      invariant todo <= affected
      invariant forall p :: p in affected - todo ==> Trouble(byPath[p], stat(p)).None?
      invariant IsRefreshOf(renewed, byPath, affected - todo, stat)
      decreases |todo|
    {
      var p :| p in todo;
      var before := byPath[p];
      RefreshStep(renewed, byPath, affected, todo, stat, p);
      match stat(p) {
        case Absent =>
        case Denied =>
          return Refused(StatFailed(p));
        case Irregular =>
          return Refused(NotAFile(p));
        case Regular(size, known, identity, links) =>
          if before.file.known && (!known || identity != before.file.identity) {
            return Refused(IdentityChanged(p));
          }
          var file := File(p, size, true, false, Identity(0, 0), 0);
          if known {
            file := file.(known := true, identity := identity, links := links);
          }
          renewed := renewed + [Scanned(file, before.contexts)];
      }
      todo := todo - {p};
    }
    assert affected - todo == affected;
    RefreshStates(renewed, byPath, affected, stat);
    return Refreshed(affected, renewed);
  }

  lemma RefreshStates(renewed: seq<Scanned>, before: map<Path, Scanned>, affected: set<Path>, stat: Path -> Answer)
    requires IsRefreshOf(renewed, before, affected, stat) && forall q :: q in before ==> before[q].file.path == q
    ensures forall x :: x in renewed ==> x.file.path in affected && IsStated(x, stat(x.file.path))
    ensures forall p :: p in affected && p in before && stat(p).Regular? ==> exists x :: x in renewed && x.file.path == p
  {
    forall p | p in affected && p in before && stat(p).Regular?
      ensures exists x :: x in renewed && x.file.path == p
    {
      assert Restated(before[p], stat(p)) in renewed;
    }
  }

  lemma RefreshStep(renewed: seq<Scanned>, before: map<Path, Scanned>, affected: set<Path>, todo: set<Path>, stat: Path -> Answer, p: Path)
    requires todo <= affected && p in todo && p in before && IsRefreshOf(renewed, before, affected - todo, stat)
    requires forall q :: q in before ==> before[q].file.path == q
    ensures IsRefreshOf(if stat(p).Regular? then renewed + [Restated(before[p], stat(p))] else renewed, before, affected - (todo - {p}), stat)
  {
    assert affected - (todo - {p}) == affected - todo + {p};
    forall r | r in renewed
      ensures r.file.path != p
    {
      var q :| q in affected - todo && q in before && stat(q).Regular? && r == Restated(before[q], stat(q));
    }
  }

  // ------------------------------------------------- against the whole walk

  /** What a walk reports at a path. */
  function RowAt(d: Disk, p: Path, contexts: Path -> seq<string>): Option<Scanned> {
    if p in d.entries && d.entries[p] in d.inodes then Some(Scanned(Stat(d, p), contexts(p))) else None
  }

  /** A walk of the storage roots finds every entry under them, once. */
  ghost predicate IsWalk(rows: seq<Scanned>, d: Disk, inRoots: Path -> bool, contexts: Path -> seq<string>) {
    && OncePerPath(rows)
    && forall r :: r in rows <==> inRoots(r.file.path) && RowAt(d, r.file.path, contexts) == Some(r)
  }

  function AnswerOf(d: Disk, p: Path): Answer {
    if p in d.entries && d.entries[p] in d.inodes
    then Regular(d.inodes[d.entries[p]].size, true, d.entries[p], d.inodes[d.entries[p]].links)
    else Absent
  }

  /** The kept rows and the refreshed ones, in path order. */
  function Splice(le: (Scanned, Scanned) -> bool, rows: seq<Scanned>, affected: set<Path>, renewed: seq<Scanned>): seq<Scanned> {
    Sort(le, Filter((r: Scanned) => r.file.path !in affected, rows) + renewed)
  }

  /** Some name of the file at p is among the paths that are gone. */
  ghost predicate LostName(d: Disk, gone: set<Path>, p: Path) {
    p in d.entries && EntriesOf(d, gone, d.entries[p]) != {}
  }

  lemma WalkRow(rows: seq<Scanned>, d: Disk, inRoots: Path -> bool, contexts: Path -> seq<string>, p: Path)
    requires Sane(d) && IsWalk(rows, d, inRoots, contexts)
    ensures p in ByPath(rows) <==> p in d.entries && inRoots(p)
    ensures p in ByPath(rows) ==> RowAt(d, p, contexts) == Some(ByPath(rows)[p])
  {
    if p in d.entries && inRoots(p) {
      assert Scanned(Stat(d, p), contexts(p)) in rows;
    }
  }

  /** The row of an entry changes exactly if its file lost a name. */
  lemma RowKeptIff(d: Disk, gone: set<Path>, contexts: Path -> seq<string>, p: Path)
    requires Sane(d) && p in d.entries
    ensures RowAt(After(d, gone), p, contexts) == RowAt(d, p, contexts) <==> !LostName(d, gone, p)
  {
    if p in gone {
      assert p in EntriesOf(d, gone, d.entries[p]);
    } else {
      StillLinked(d, gone, p);
    }
  }

  /** When files only disappear, no answer is a reason to refuse. */
  lemma NoTrouble(rows: seq<Scanned>, d: Disk, gone: set<Path>, inRoots: Path -> bool, contexts: Path -> seq<string>, p: Path)
    requires Sane(d) && IsWalk(rows, d, inRoots, contexts) && p in ByPath(rows)
    ensures Trouble(ByPath(rows)[p], AnswerOf(After(d, gone), p)).None?
  {
    WalkRow(rows, d, inRoots, contexts, p);
    if p !in gone { StillLinked(d, gone, p); }
  }

  /** The spliced list holds the row as it was of an unaffected path, the new row of an
      affected one that is still there, and nothing else. */
  lemma SpliceMember(le: (Scanned, Scanned) -> bool, rows: seq<Scanned>, affected: set<Path>, renewed: seq<Scanned>, r: Scanned)
    ensures r in Splice(le, rows, affected, renewed) <==> r in renewed || (r in rows && r.file.path !in affected)
  {
    var keep := (x: Scanned) => x.file.path !in affected;
    FilterContents(keep, rows);
    SortContents(le, Filter(keep, rows) + renewed);
  }

  lemma {:induction false} FilterOnce(keep: Scanned -> bool, rows: seq<Scanned>)
    requires OncePerPath(rows)
    ensures OncePerPath(Filter(keep, rows))
  {
    if rows != [] {
      var rest := Filter(keep, rows[1..]);
      FilterOnce(keep, rows[1..]);
      FilterContents(keep, rows[1..]);
      forall r | r in rest
        ensures r.file.path != rows[0].file.path
      {
        var k :| 0 <= k < |rows[1..]| && rows[1..][k] == r;
        assert rows[k + 1] == r;
      }
    }
  }

  /** A list with one row per path, as a list of rows. */
  lemma OncePerPathIff(rows: seq<Scanned>)
    ensures OncePerPath(rows) <==> Distinct(rows) && forall r, s :: r in rows && s in rows && r.file.path == s.file.path ==> r == s
  {
  }

  lemma SpliceOnce(le: (Scanned, Scanned) -> bool, rows: seq<Scanned>, affected: set<Path>, renewed: seq<Scanned>)
    requires OncePerPath(rows) && OncePerPath(renewed) && forall r :: r in renewed ==> r.file.path in affected
    ensures OncePerPath(Splice(le, rows, affected, renewed))
  {
    var keep := (x: Scanned) => x.file.path !in affected;
    var kept := Filter(keep, rows);
    FilterOnce(keep, rows);
    FilterContents(keep, rows);
    assert OncePerPath(kept + renewed) by {
      forall i, j | 0 <= i < |kept| && 0 <= j < |renewed|
        ensures kept[i].file.path != renewed[j].file.path
      {
        assert kept[i] in kept && renewed[j] in renewed;
      }
    }
    OncePerPathIff(kept + renewed);
    SortDistinct(le, kept + renewed);
    SortContents(le, kept + renewed);
    OncePerPathIff(Splice(le, rows, affected, renewed));
  }

  ghost predicate Covers(affected: set<Path>, d: Disk, gone: set<Path>, inRoots: Path -> bool) {
    forall p :: p in d.entries && inRoots(p) && LostName(d, gone, p) ==> p in affected
  }

  lemma SpliceRow(le: (Scanned, Scanned) -> bool, rows: seq<Scanned>, d: Disk, gone: set<Path>, inRoots: Path -> bool, contexts: Path -> seq<string>,
                  affected: set<Path>, renewed: seq<Scanned>, r: Scanned)
    requires Sane(d) && IsWalk(rows, d, inRoots, contexts)
    requires forall p :: p in affected ==> p in ByPath(rows)
    requires IsRefreshOf(renewed, ByPath(rows), affected, p => AnswerOf(After(d, gone), p))
    ensures r in Splice(le, rows, affected, renewed) <==>
      var p := r.file.path;
      inRoots(p) && RowAt(if p in affected then After(d, gone) else d, p, contexts) == Some(r)
  {
    var p := r.file.path;
    SpliceMember(le, rows, affected, renewed, r);
    if p in affected {
      WalkRow(rows, d, inRoots, contexts, p);
      RenewedRow(rows, d, gone, contexts, affected, renewed, r);
    }
  }

  lemma RenewedRow(rows: seq<Scanned>, d: Disk, gone: set<Path>, contexts: Path -> seq<string>, affected: set<Path>, renewed: seq<Scanned>, r: Scanned)
    requires Sane(d) && r.file.path in affected && r.file.path in ByPath(rows)
    requires RowAt(d, r.file.path, contexts) == Some(ByPath(rows)[r.file.path])
    requires IsRefreshOf(renewed, ByPath(rows), affected, p => AnswerOf(After(d, gone), p))
    ensures r in renewed <==> RowAt(After(d, gone), r.file.path, contexts) == Some(r)
  {
    var p := r.file.path;
    var answer := AnswerOf(After(d, gone), p);
    if r in renewed {
      var q :| q in affected && q in ByPath(rows) && AnswerOf(After(d, gone), q).Regular? && r == Restated(ByPath(rows)[q], AnswerOf(After(d, gone), q));
      assert q == p;
    }
    if RowAt(After(d, gone), p, contexts) == Some(r) {
      assert r == Restated(ByPath(rows)[p], answer);
    }
  }

  /** Unlinking any paths: the splice is the new full walk exactly when every path
      under the roots that lost a name of its file was affected. */
  lemma SpliceIsWalkIff(le: (Scanned, Scanned) -> bool, rows: seq<Scanned>, d: Disk, gone: set<Path>, inRoots: Path -> bool, contexts: Path -> seq<string>,
                        affected: set<Path>, renewed: seq<Scanned>)
    requires Sane(d) && IsWalk(rows, d, inRoots, contexts)
    requires forall p :: p in affected ==> p in ByPath(rows)
    requires IsRefreshOf(renewed, ByPath(rows), affected, p => AnswerOf(After(d, gone), p))
    ensures IsWalk(Splice(le, rows, affected, renewed), After(d, gone), inRoots, contexts) <==> Covers(affected, d, gone, inRoots)
  {
    SpliceOnce(le, rows, affected, renewed);
    var spliced := Splice(le, rows, affected, renewed);
    forall r
      ensures r in spliced <==> var p := r.file.path; inRoots(p) && RowAt(if p in affected then After(d, gone) else d, p, contexts) == Some(r)
    {
      SpliceRow(le, rows, d, gone, inRoots, contexts, affected, renewed, r);
    }
    if Covers(affected, d, gone, inRoots) {
      forall r
        ensures r in spliced <==> inRoots(r.file.path) && RowAt(After(d, gone), r.file.path, contexts) == Some(r)
      {
        if r.file.path in d.entries { RowKeptIff(d, gone, contexts, r.file.path); }
      }
    } else {
      var p :| p in d.entries && inRoots(p) && LostName(d, gone, p) && p !in affected;
      RowKeptIff(d, gone, contexts, p);
      assert Scanned(Stat(d, p), contexts(p)) in spliced;
    }
  }

  /** When only requested paths were unlinked, what is affected covers every lost
      name: peers are found by the identities of the last walk. */
  lemma RequestedCovers(rows: seq<Scanned>, d: Disk, gone: set<Path>, inRoots: Path -> bool, contexts: Path -> seq<string>,
                        requested: seq<Path>, affected: set<Path>)
    requires Sane(d) && IsWalk(rows, d, inRoots, contexts)
    requires forall p :: p in gone ==> p in requested && p in ByPath(rows)
    requires forall p :: p in affected <==> IsAffected(rows, requested, p)
    ensures Covers(affected, d, gone, inRoots)
  {
    forall p | p in d.entries && inRoots(p) && LostName(d, gone, p)
      ensures p in affected
    {
      var q :| q in EntriesOf(d, gone, d.entries[p]);
      WalkRow(rows, d, inRoots, contexts, p);
      WalkRow(rows, d, inRoots, contexts, q);
      assert Peers(ByPath(rows), q, ByPath(rows)[p]);
    }
  }

  /** After some of the requested paths were unlinked, stating the affected paths
      again and splicing gives the full walk of the disk as it is now, link counts
      included. */
  lemma TargetedIsFullWalk(le: (Scanned, Scanned) -> bool, rows: seq<Scanned>, requested: seq<Path>, stat: Path -> Answer, affected: set<Path>, renewed: seq<Scanned>,
                           d: Disk, gone: set<Path>, inRoots: Path -> bool, contexts: Path -> seq<string>)
    requires Sane(d) && IsWalk(rows, d, inRoots, contexts)
    requires forall p :: p in requested ==> p in ByPath(rows)
    requires forall p :: p in gone ==> p in requested
    requires forall p :: stat(p) == AnswerOf(After(d, gone), p)
    requires forall p :: p in affected <==> IsAffected(rows, requested, p)
    requires IsRefreshOf(renewed, ByPath(rows), affected, stat)
    ensures IsWalk(Splice(le, rows, affected, renewed), After(d, gone), inRoots, contexts)
  {
    RequestedCovers(rows, d, gone, inRoots, contexts, requested, affected);
    assert IsRefreshOf(renewed, ByPath(rows), affected, p => AnswerOf(After(d, gone), p));
    SpliceIsWalkIff(le, rows, d, gone, inRoots, contexts, affected, renewed);
  }
}
