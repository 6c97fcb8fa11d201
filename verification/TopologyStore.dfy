/** The topology tables of the database: replaced wholesale after a full
    reconciliation, or patched by the rows a mutation touched.  Both run in one
    transaction and leave the tables alone when a statement fails. */
module TopologyStore {
  import opened FileTopology
  import opened TargetedRefresh

  datatype Part = Part(group: string, name: string, order: int, id: int)

  datatype Claim = Claim(owner: MediaKey, serviceName: string, source: string, fileId: int, path: Path, parts: seq<Part>)

  datatype TorrentClaim = TorrentClaim(client: string, hash: string, index: int, path: Path, service: string, serviceName: string)

  datatype Unmanaged = Unmanaged(row: Scanned, reclaimable: nat, shared: nat)

  datatype OwnerId = OwnerId(kind: MediaKind, id: int)

  datatype ClaimKey = ClaimKey(owner: OwnerId, source: string, fileId: int)
  datatype ClaimRow = ClaimRow(path: Path, service: string, serviceName: string)
  datatype PartKey = PartKey(claim: ClaimKey, id: int)
  datatype PartRow = PartRow(group: string, name: string, order: int)
  datatype TorrentKey = TorrentKey(client: string, hash: string, index: int)
  datatype TorrentRow = TorrentRow(path: Path, service: string, serviceName: string)

  datatype Tables = Tables(
    files: map<Path, Scanned>,
    unmanaged: map<Path, Unmanaged>,
    claims: map<ClaimKey, ClaimRow>,
    parts: map<PartKey, PartRow>,
    torrents: map<TorrentKey, TorrentRow>,
    generation: nat)

  /** The topology in memory. */
  datatype Topology = Topology(files: seq<Scanned>, claims: seq<Claim>, torrents: seq<TorrentClaim>, unmanaged: seq<Unmanaged>)

  datatype Delta = Delta(
    paths: seq<Path>, files: seq<Scanned>,
    owners: seq<OwnerId>, claims: seq<Claim>,
    removedHashes: seq<string>, torrents: seq<TorrentClaim>,
    unmanaged: seq<Unmanaged>, generation: nat)

  // -------------------------------------------------------------------- rows

  function IdOf(k: MediaKey): OwnerId { OwnerId(k.kind, k.id) }

  function KeyOf(c: Claim): ClaimKey { ClaimKey(IdOf(c.owner), c.source, c.fileId) }

  function FileRows(xs: seq<Scanned>): seq<(Path, Scanned)> {
    if xs == [] then [] else FileRows(xs[..|xs| - 1]) + [(xs[|xs| - 1].file.path, xs[|xs| - 1])]
  }

  function UnmanagedRows(xs: seq<Unmanaged>): seq<(Path, Unmanaged)> {
    if xs == [] then [] else UnmanagedRows(xs[..|xs| - 1]) + [(xs[|xs| - 1].row.file.path, xs[|xs| - 1])]
  }

  function ClaimRows(xs: seq<Claim>): seq<(ClaimKey, ClaimRow)> {
    if xs == [] then []
    else
      var c := xs[|xs| - 1];
      ClaimRows(xs[..|xs| - 1]) + [(KeyOf(c), ClaimRow(c.path, c.owner.service, c.serviceName))]
  }

  function RowsOfParts(key: ClaimKey, parts: seq<Part>): seq<(PartKey, PartRow)> {
    if parts == [] then []
    else
      var p := parts[|parts| - 1];
      RowsOfParts(key, parts[..|parts| - 1]) + [(PartKey(key, p.id), PartRow(p.group, p.name, p.order))]
  }

  function PartRows(xs: seq<Claim>): seq<(PartKey, PartRow)> {
    if xs == [] then []
    else PartRows(xs[..|xs| - 1]) + RowsOfParts(KeyOf(xs[|xs| - 1]), xs[|xs| - 1].parts)
  }

  function TorrentRows(xs: seq<TorrentClaim>): seq<(TorrentKey, TorrentRow)> {
    if xs == [] then []
    else
      var t := xs[|xs| - 1];
      TorrentRows(xs[..|xs| - 1]) + [(TorrentKey(t.client, t.hash, t.index), TorrentRow(t.path, t.service, t.serviceName))]
  }

  // -------------------------------------------------------------- statements

  /** Inserting a row whose primary key is taken is an error. */
  function InsertAll<K, V>(table: map<K, V>, rows: seq<(K, V)>): Option<map<K, V>> {
    if rows == [] then Some(table)
    else
      var before := InsertAll(table, rows[..|rows| - 1]);
      var (k, v) := rows[|rows| - 1];
      if before.None? || k in before.value then None else Some(before.value[k := v])
  }

  lemma {:induction false} InsertPrefix<K, V>(table: map<K, V>, rows: seq<(K, V)>, more: seq<(K, V)>)
    ensures InsertAll(table, rows + more) == (if InsertAll(table, rows).None? then None else InsertAll(InsertAll(table, rows).value, more))
    decreases |more|
  {
    if more == [] {
      assert rows + more == rows;
    } else {
      InsertPrefix(table, rows, more[..|more| - 1]);
      assert (rows + more)[..|rows + more| - 1] == rows + more[..|more| - 1];
    }
  }

  method InsertEach<K, V>(table: map<K, V>, rows: seq<(K, V)>) returns (r: Option<map<K, V>>)
    ensures r == InsertAll(table, rows)
  {
    var after := table;
    for n := 0 to |rows|
      invariant InsertAll(table, rows[..n]) == Some(after)
    {
      var (k, v) := rows[n];
      assert rows[..n + 1][..n] == rows[..n];
      if k in after {
        InsertPrefix(table, rows[..n + 1], rows[n + 1..]);
        assert rows == rows[..n + 1] + rows[n + 1..];
        return None;
      }
      after := after[k := v];
    }
    assert rows[..|rows|] == rows;
    return Some(after);
  }

  function ClaimsOf(rows: map<ClaimKey, ClaimRow>, owners: seq<OwnerId>): map<ClaimKey, ClaimRow> {
    map k | k in rows && k.owner !in owners :: rows[k]
  }

  function PartsOf(rows: map<PartKey, PartRow>, owners: seq<OwnerId>): map<PartKey, PartRow> {
    map k | k in rows && k.claim.owner !in owners :: rows[k]
  }

  function TorrentsOf(rows: map<TorrentKey, TorrentRow>, hashes: seq<string>): map<TorrentKey, TorrentRow> {
    map k | k in rows && k.hash !in hashes :: rows[k]
  }

  function Without<V>(rows: map<Path, V>, paths: seq<Path>): map<Path, V> {
    map p | p in rows && p !in paths :: rows[p]
  }

  /** The tables that hold exactly this topology; none if it repeats a key. */
  function Replaced(t: Topology, generation: nat): Option<Tables> {
    var files := InsertAll(map[], FileRows(t.files));
    var claims := InsertAll(map[], ClaimRows(t.claims));
    var parts := InsertAll(map[], PartRows(t.claims));
    var torrents := InsertAll(map[], TorrentRows(t.torrents));
    var unmanaged := InsertAll(map[], UnmanagedRows(t.unmanaged));
    if files.Some? && claims.Some? && parts.Some? && torrents.Some? && unmanaged.Some?
    then Some(Tables(files.value, unmanaged.value, claims.value, parts.value, torrents.value, generation))
    else None
  }

  /** The tables after a delta; none if a statement fails. */
  function Patched(t: Tables, d: Delta): Option<Tables> {
    var files := InsertAll(Without(t.files, d.paths), FileRows(d.files));
    var unmanaged := InsertAll(Without(t.unmanaged, d.paths), UnmanagedRows(d.unmanaged));
    var claims := InsertAll(ClaimsOf(t.claims, d.owners), ClaimRows(d.claims));
    var parts := InsertAll(PartsOf(t.parts, d.owners), PartRows(d.claims));
    var torrents := InsertAll(TorrentsOf(t.torrents, d.removedHashes), TorrentRows(d.torrents));
    if files.Some? && claims.Some? && parts.Some? && torrents.Some? && unmanaged.Some?
    then Some(Tables(files.value, unmanaged.value, claims.value, parts.value, torrents.value, d.generation))
    else None
  }

  // ---------------------------------------------------------------- database

  class Store {
    var files: map<Path, Scanned>
    var unmanaged: map<Path, Unmanaged>
    var claims: map<ClaimKey, ClaimRow>
    var parts: map<PartKey, PartRow>
    var torrents: map<TorrentKey, TorrentRow>
    var generation: nat

    function Contents(): Tables
      reads this
    {
      Tables(files, unmanaged, claims, parts, torrents, generation)
    }

    constructor ()
      ensures Contents() == Tables(map[], map[], map[], map[], map[], 0)
    {
      files, unmanaged, claims, parts, torrents, generation := map[], map[], map[], map[], map[], 0;
    }

    /** ROLLBACK. */
    method Restore(t: Tables)
      modifies this
      ensures Contents() == t
    {
      files, unmanaged, claims, parts, torrents, generation := t.files, t.unmanaged, t.claims, t.parts, t.torrents, t.generation;
    }

    method InsertFiles(rows: seq<Scanned>) returns (ok: bool)
      modifies this`files
      ensures ok <==> InsertAll(old(files), FileRows(rows)).Some?
      ensures ok ==> InsertAll(old(files), FileRows(rows)) == Some(files)
    {
      var r := InsertEach(files, FileRows(rows));
      ok := r.Some?;
      if ok { files := r.value; }
    }

    method InsertUnmanaged(rows: seq<Unmanaged>) returns (ok: bool)
      modifies this`unmanaged
      ensures ok <==> InsertAll(old(unmanaged), UnmanagedRows(rows)).Some?
      ensures ok ==> InsertAll(old(unmanaged), UnmanagedRows(rows)) == Some(unmanaged)
    {
      var r := InsertEach(unmanaged, UnmanagedRows(rows));
      ok := r.Some?;
      if ok { unmanaged := r.value; }
    }

    /** Each claim and then its parts. */
    method InsertClaims(rows: seq<Claim>) returns (ok: bool)
      modifies this`claims, this`parts
      ensures ok <==> InsertAll(old(claims), ClaimRows(rows)).Some? && InsertAll(old(parts), PartRows(rows)).Some?
      ensures ok ==> InsertAll(old(claims), ClaimRows(rows)) == Some(claims) && InsertAll(old(parts), PartRows(rows)) == Some(parts)
    {
      for n := 0 to |rows|
        invariant InsertAll(old(claims), ClaimRows(rows[..n])) == Some(claims)
        invariant InsertAll(old(parts), PartRows(rows[..n])) == Some(parts)
      {
        var c := rows[n];
        ClaimStep(old(claims), old(parts), rows, n);
        if KeyOf(c) in claims {
          return false;
        }
        claims := claims[KeyOf(c) := ClaimRow(c.path, c.owner.service, c.serviceName)];
        var r := InsertEach(parts, RowsOfParts(KeyOf(c), c.parts));
        if r.None? {
          return false;
        }
        parts := r.value;
      }
      assert rows[..|rows|] == rows;
      return true;
    }

    method InsertTorrents(rows: seq<TorrentClaim>) returns (ok: bool)
      modifies this`torrents
      ensures ok <==> InsertAll(old(torrents), TorrentRows(rows)).Some?
      ensures ok ==> InsertAll(old(torrents), TorrentRows(rows)) == Some(torrents)
    {
      var r := InsertEach(torrents, TorrentRows(rows));
      ok := r.Some?;
      if ok { torrents := r.value; }
    }

    method DeletePaths(paths: seq<Path>)
      modifies this`files, this`unmanaged
      ensures files == Without(old(files), paths) && unmanaged == Without(old(unmanaged), paths)
    {
      for n := 0 to |paths|
        invariant files == Without(old(files), paths[..n]) && unmanaged == Without(old(unmanaged), paths[..n])
      {
        MemberStep(paths, n);
        files := files - {paths[n]};
        unmanaged := unmanaged - {paths[n]};
      }
      assert paths[..|paths|] == paths;
    }

    method DeleteOwners(owners: seq<OwnerId>)
      modifies this`claims, this`parts
      ensures claims == ClaimsOf(old(claims), owners) && parts == PartsOf(old(parts), owners)
    {
      for n := 0 to |owners|
        invariant claims == ClaimsOf(old(claims), owners[..n]) && parts == PartsOf(old(parts), owners[..n])
      {
        MemberStep(owners, n);
        parts := map k | k in parts && k.claim.owner != owners[n] :: parts[k];
        claims := map k | k in claims && k.owner != owners[n] :: claims[k];
      }
      assert owners[..|owners|] == owners;
    }

    method DeleteHashes(hashes: seq<string>)
      modifies this`torrents
      ensures torrents == TorrentsOf(old(torrents), hashes)
    {
      for n := 0 to |hashes|
        invariant torrents == TorrentsOf(old(torrents), hashes[..n])
      {
        MemberStep(hashes, n);
        torrents := map k | k in torrents && k.hash != hashes[n] :: torrents[k];
      }
      assert hashes[..|hashes|] == hashes;
    }

    method PublishReconciliation(t: Topology, next: nat) returns (ok: bool)
      modifies this
      ensures ok <==> Replaced(t, next).Some?
      ensures Contents() == if ok then Replaced(t, next).value else old(Contents())
    {
      var saved := Contents();
      files, parts, claims, torrents := map[], map[], map[], map[];
      ok := InsertFiles(t.files);
      if ok { ok := InsertClaims(t.claims); }
      if ok { ok := InsertTorrents(t.torrents); }
      if ok {
        unmanaged := map[];
        ok := InsertUnmanaged(t.unmanaged);
      }
      if ok {
        generation := next;
      } else {
        Restore(saved);
      }
    }

    method PublishReconciliationDelta(d: Delta) returns (ok: bool)
      modifies this
      ensures ok <==> Patched(old(Contents()), d).Some?
      ensures Contents() == if ok then Patched(old(Contents()), d).value else old(Contents())
    {
      var saved := Contents();
      DeletePaths(d.paths);
      ok := InsertFiles(d.files);
      if ok { ok := InsertUnmanaged(d.unmanaged); }
      if ok {
        DeleteOwners(d.owners);
        ok := InsertClaims(d.claims);
      }
      if ok {
        DeleteHashes(d.removedHashes);
        ok := InsertTorrents(d.torrents);
      }
      if ok {
        generation := d.generation;
      } else {
        Restore(saved);
      }
    }
  }

  /** One claim more: its row and then its parts, or the failure of the whole. */
  lemma ClaimStep(claims: map<ClaimKey, ClaimRow>, parts: map<PartKey, PartRow>, rows: seq<Claim>, n: nat)
    requires n < |rows|
    requires InsertAll(claims, ClaimRows(rows[..n])).Some? && InsertAll(parts, PartRows(rows[..n])).Some?
    ensures var c := rows[n];
      var before := InsertAll(claims, ClaimRows(rows[..n])).value;
      var partsAfter := InsertAll(InsertAll(parts, PartRows(rows[..n])).value, RowsOfParts(KeyOf(c), c.parts));
      && InsertAll(claims, ClaimRows(rows[..n + 1]))
         == (if KeyOf(c) in before then None else Some(before[KeyOf(c) := ClaimRow(c.path, c.owner.service, c.serviceName)]))
      && InsertAll(parts, PartRows(rows[..n + 1])) == partsAfter
      && (KeyOf(c) in before ==> InsertAll(claims, ClaimRows(rows)).None?)
      && (partsAfter.None? ==> InsertAll(parts, PartRows(rows)).None?)
  {
    var c := rows[n];
    assert rows[..n + 1][..n] == rows[..n];
    var row := (KeyOf(c), ClaimRow(c.path, c.owner.service, c.serviceName));
    assert ClaimRows(rows[..n + 1]) == ClaimRows(rows[..n]) + [row];
    assert (ClaimRows(rows[..n]) + [row])[..|ClaimRows(rows[..n]) + [row]| - 1] == ClaimRows(rows[..n]);
    InsertPrefix(parts, PartRows(rows[..n]), RowsOfParts(KeyOf(c), c.parts));
    assert rows == rows[..n + 1] + rows[n + 1..];
    ClaimRowsAppend(rows[..n + 1], rows[n + 1..]);
    PartRowsAppend(rows[..n + 1], rows[n + 1..]);
    InsertPrefix(claims, ClaimRows(rows[..n + 1]), ClaimRows(rows[n + 1..]));
    InsertPrefix(parts, PartRows(rows[..n + 1]), PartRows(rows[n + 1..]));
  }

  lemma {:induction false} ClaimRowsAppend(a: seq<Claim>, b: seq<Claim>)
    ensures ClaimRows(a + b) == ClaimRows(a) + ClaimRows(b)
    decreases |b|
  {
    if b == [] {
      assert a + b == a;
    } else {
      assert (a + b)[..|a + b| - 1] == a + b[..|b| - 1];
      ClaimRowsAppend(a, b[..|b| - 1]);
    }
  }

  lemma {:induction false} PartRowsAppend(a: seq<Claim>, b: seq<Claim>)
    ensures PartRows(a + b) == PartRows(a) + PartRows(b)
    decreases |b|
  {
    if b == [] {
      assert a + b == a;
    } else {
      var front, last := b[..|b| - 1], b[|b| - 1];
      PartRowsAppend(a, front);
      var rows := RowsOfParts(KeyOf(last), last.parts);
      PartRowsLast(a + front, last);
      PartRowsLast(front, last);
      assert a + front + [last] == a + b;
      assert front + [last] == b;
      Regroup(PartRows(a), PartRows(front), rows);
    }
  }

  lemma Regroup<T>(a: seq<T>, b: seq<T>, c: seq<T>)
    ensures a + b + c == a + (b + c)
  {
  }

  lemma PartRowsLast(front: seq<Claim>, last: Claim)
    ensures PartRows(front + [last]) == PartRows(front) + RowsOfParts(KeyOf(last), last.parts)
  {
    assert (front + [last])[..|front + [last]| - 1] == front;
  }
}
