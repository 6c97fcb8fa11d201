/** Reading the tables back: what was stored wholesale is what the next process loads. */
module StoredTopology {
  import opened FileTopology
  import opened TopologyStore
  import opened TopologyDelta

  // ---------------------------------------------------------------- torrents

  /** The row of this torrent file: each column holds its own field. */
  predicate LoadsTorrent(tables: Tables, t: TorrentClaim) {
    && TorrentKey(t.client, t.hash, t.index) in tables.torrents
    && var row := tables.torrents[TorrentKey(t.client, t.hash, t.index)];
    row.path == t.path && row.service == t.service && row.serviceName == t.serviceName
  }

  lemma {:induction false} TorrentRowsIff(xs: seq<TorrentClaim>, t: TorrentClaim)
    ensures (TorrentKey(t.client, t.hash, t.index), TorrentRow(t.path, t.service, t.serviceName)) in TorrentRows(xs) <==> t in xs
    decreases |xs|
  {
    if xs != [] {
      TorrentRowsIff(xs[..|xs| - 1], t);
      assert xs == xs[..|xs| - 1] + [xs[|xs| - 1]];
    }
  }

  // ------------------------------------------------------------------- claims

  /** The row of this media file, and a row for each of its parts and no other. */
  predicate LoadsClaim(tables: Tables, c: Claim) {
    var key := ClaimKey(OwnerId(c.owner.kind, c.owner.id), c.source, c.fileId);
    && key in tables.claims
    && tables.claims[key].path == c.path && tables.claims[key].service == c.owner.service && tables.claims[key].serviceName == c.serviceName
    && (forall p :: p in c.parts ==> LoadsPart(tables, key, p))
    && (forall k :: k in tables.parts && k.claim == key ==> exists p :: p in c.parts && k.id == p.id && LoadsPart(tables, key, p))
  }

  predicate LoadsPart(tables: Tables, key: ClaimKey, p: Part) {
    && PartKey(key, p.id) in tables.parts
    && var row := tables.parts[PartKey(key, p.id)];
    row.group == p.group && row.name == p.name && row.order == p.order
  }

  lemma {:induction false} ClaimRowsIff(xs: seq<Claim>, k: ClaimKey, v: ClaimRow)
    ensures (k, v) in ClaimRows(xs) <==>
      exists c :: c in xs && k == ClaimKey(OwnerId(c.owner.kind, c.owner.id), c.source, c.fileId) && v == ClaimRow(c.path, c.owner.service, c.serviceName)
    decreases |xs|
  {
    if xs != [] {
      var front, last := xs[..|xs| - 1], xs[|xs| - 1];
      ClaimRowsIff(front, k, v);
      assert xs == front + [last];
      assert last in xs;
    }
  }

  lemma {:induction false} RowsOfPartsIff(key: ClaimKey, parts: seq<Part>, k: PartKey, v: PartRow)
    ensures (k, v) in RowsOfParts(key, parts) <==> exists p :: p in parts && k == PartKey(key, p.id) && v == PartRow(p.group, p.name, p.order)
    decreases |parts|
  {
    if parts != [] {
      var front, last := parts[..|parts| - 1], parts[|parts| - 1];
      RowsOfPartsIff(key, front, k, v);
      assert parts == front + [last];
      assert last in parts;
    }
  }

  lemma {:induction false} PartRowsIff(xs: seq<Claim>, k: PartKey, v: PartRow)
    ensures (k, v) in PartRows(xs) <==> exists c, p :: c in xs && p in c.parts && k == PartKey(KeyOf(c), p.id) && v == PartRow(p.group, p.name, p.order)
    decreases |xs|
  {
    if xs != [] {
      var front, last := xs[..|xs| - 1], xs[|xs| - 1];
      PartRowsIff(front, k, v);
      RowsOfPartsIff(KeyOf(last), last.parts, k, v);
      assert xs == front + [last];
      assert last in xs;
    }
  }

  lemma KeyIsTaken(xs: seq<Claim>, c: Claim)
    requires InsertAll(map[], ClaimRows(xs)).Some? && c in xs
    ensures KeyOf(c) in InsertAll(map[], ClaimRows(xs)).value
  {
    ClaimRowsMember(xs, c);
    InsertedItems(map[], ClaimRows(xs));
    assert Has(InsertAll(map[], ClaimRows(xs)).value, KeyOf(c), ClaimRow(c.path, c.owner.service, c.serviceName));
  }

  /** A key is used by one claim only. */
  lemma {:induction false} OneClaimPerKey(xs: seq<Claim>, c: Claim, x: Claim)
    requires InsertAll(map[], ClaimRows(xs)).Some? && c in xs && x in xs && KeyOf(c) == KeyOf(x)
    ensures c == x
    decreases |xs|
  {
    var front, last := xs[..|xs| - 1], xs[|xs| - 1];
    var row := (KeyOf(last), ClaimRow(last.path, last.owner.service, last.serviceName));
    assert ClaimRows(xs) == ClaimRows(front) + [row] && (ClaimRows(front) + [row])[..|ClaimRows(front)|] == ClaimRows(front);
    assert xs == front + [last];
    if c in front && x in front {
      OneClaimPerKey(front, c, x);
    } else if c in front || x in front {
      KeyIsTaken(front, if c in front then c else x);
      assert false;
    }
  }

  lemma PartLoads(claims: seq<Claim>, tables: Tables, c: Claim, p: Part)
    requires InsertAll(map[], PartRows(claims)) == Some(tables.parts) && c in claims && p in c.parts
    ensures LoadsPart(tables, KeyOf(c), p)
  {
    var k, v := PartKey(KeyOf(c), p.id), PartRow(p.group, p.name, p.order);
    PartRowsIff(claims, k, v);
    InsertedItems(map[], PartRows(claims));
    assert Has(tables.parts, k, v);
  }

  lemma LoadedPartIsStored(claims: seq<Claim>, tables: Tables, k: PartKey) returns (c: Claim, p: Part)
    requires InsertAll(map[], PartRows(claims)) == Some(tables.parts) && k in tables.parts
    ensures c in claims && p in c.parts && k == PartKey(KeyOf(c), p.id) && LoadsPart(tables, KeyOf(c), p)
  {
    var v := tables.parts[k];
    InsertedItems(map[], PartRows(claims));
    assert Has(tables.parts, k, v);
    PartRowsIff(claims, k, v);
    c, p :| c in claims && p in c.parts && k == PartKey(KeyOf(c), p.id) && v == PartRow(p.group, p.name, p.order);
  }

  lemma ClaimLoads(claims: seq<Claim>, tables: Tables, c: Claim)
    requires InsertAll(map[], ClaimRows(claims)) == Some(tables.claims) && InsertAll(map[], PartRows(claims)) == Some(tables.parts) && c in claims
    ensures LoadsClaim(tables, c)
  {
    ClaimRowsMember(claims, c);
    InsertedItems(map[], ClaimRows(claims));
    assert Has(tables.claims, KeyOf(c), ClaimRow(c.path, c.owner.service, c.serviceName));
    forall p | p in c.parts { PartLoads(claims, tables, c, p); }
    forall k | k in tables.parts && k.claim == KeyOf(c)
      ensures exists p :: p in c.parts && k.id == p.id && LoadsPart(tables, KeyOf(c), p)
    {
      var x, p := LoadedPartIsStored(claims, tables, k);
      OneClaimPerKey(claims, c, x);
    }
  }

  /** The same claim, whatever the order of its parts. */
  ghost predicate SameClaim(c: Claim, x: Claim) {
    && x.owner == c.owner && x.serviceName == c.serviceName && x.source == c.source && x.fileId == c.fileId && x.path == c.path
    && forall p :: p in x.parts <==> p in c.parts
  }

  lemma LoadedClaimIsStored(claims: seq<Claim>, tables: Tables, c: Claim) returns (x: Claim)
    requires InsertAll(map[], ClaimRows(claims)) == Some(tables.claims) && InsertAll(map[], PartRows(claims)) == Some(tables.parts)
    requires LoadsClaim(tables, c)
    ensures x in claims && SameClaim(c, x)
  {
    x := StoredUnder(claims, tables.claims, KeyOf(c));
    ClaimLoads(claims, tables, x);
    SameParts(tables, c, x);
    SameParts(tables, x, c);
  }

  lemma StoredUnder(claims: seq<Claim>, rows: map<ClaimKey, ClaimRow>, key: ClaimKey) returns (x: Claim)
    requires InsertAll(map[], ClaimRows(claims)) == Some(rows) && key in rows
    ensures x in claims && KeyOf(x) == key && rows[key] == ClaimRow(x.path, x.owner.service, x.serviceName)
  {
    InsertedItems(map[], ClaimRows(claims));
    assert Has(rows, key, rows[key]);
    ClaimRowsIff(claims, key, rows[key]);
    x :| x in claims && key == KeyOf(x) && rows[key] == ClaimRow(x.path, x.owner.service, x.serviceName);
  }

  lemma SameParts(tables: Tables, c: Claim, x: Claim)
    requires LoadsClaim(tables, c) && LoadsClaim(tables, x) && KeyOf(c) == KeyOf(x)
    ensures forall p :: p in c.parts ==> p in x.parts
  {
    forall p | p in c.parts
      ensures p in x.parts
    {
      assert LoadsPart(tables, KeyOf(c), p);
      var k := PartKey(KeyOf(c), p.id);
      var q :| q in x.parts && k.id == q.id && LoadsPart(tables, KeyOf(x), q);
      assert q == p;
    }
  }

  // --------------------------------------------------------------- everything

  /** What is stored wholesale is exactly what is read back: each file, each unmanaged
      file, each torrent file and each media file with its parts. */
  lemma StoredIsLoaded(t: Topology, tables: Tables, generation: nat)
    requires Replaced(t, generation) == Some(tables)
    ensures forall r :: r in tables.files.Values <==> r in t.files
    ensures forall u :: u in tables.unmanaged.Values <==> u in t.unmanaged
    ensures forall x :: LoadsTorrent(tables, x) <==> x in t.torrents
    ensures forall c :: c in t.claims ==> LoadsClaim(tables, c)
    ensures forall c :: LoadsClaim(tables, c) ==> exists x :: x in t.claims && SameClaim(c, x)
  {
    FilesAreLoaded(t, tables, generation);
    TorrentsAreLoaded(t, tables, generation);
    forall c | c in t.claims { ClaimLoads(t.claims, tables, c); }
    forall c | LoadsClaim(tables, c)
      ensures exists x :: x in t.claims && SameClaim(c, x)
    {
      var x := LoadedClaimIsStored(t.claims, tables, c);
    }
  }

  lemma FilesAreLoaded(t: Topology, tables: Tables, generation: nat)
    requires Replaced(t, generation) == Some(tables)
    ensures forall r :: r in tables.files.Values <==> r in t.files
    ensures forall u :: u in tables.unmanaged.Values <==> u in t.unmanaged
  {
    FileRowsMembers(t.files);
    UnmanagedRowsMembers(t.unmanaged);
    InsertedItems(map[], FileRows(t.files));
    InsertedItems(map[], UnmanagedRows(t.unmanaged));
    forall r
      ensures r in tables.files.Values <==> r in t.files
    {
      assert Has(tables.files, r.file.path, r) <==> r in t.files;
      if p :| p in tables.files && tables.files[p] == r { assert Has(tables.files, p, r); }
    }
    forall u
      ensures u in tables.unmanaged.Values <==> u in t.unmanaged
    {
      assert Has(tables.unmanaged, u.row.file.path, u) <==> u in t.unmanaged;
      if p :| p in tables.unmanaged && tables.unmanaged[p] == u { assert Has(tables.unmanaged, p, u); }
    }
  }

  lemma TorrentsAreLoaded(t: Topology, tables: Tables, generation: nat)
    requires Replaced(t, generation) == Some(tables)
    ensures forall x :: LoadsTorrent(tables, x) <==> x in t.torrents
  {
    InsertedItems(map[], TorrentRows(t.torrents));
    forall x
      ensures LoadsTorrent(tables, x) <==> x in t.torrents
    {
      TorrentRowsIff(t.torrents, x);
      assert Has(tables.torrents, TorrentKey(x.client, x.hash, x.index), TorrentRow(x.path, x.service, x.serviceName)) <==> x in t.torrents;
    }
  }
}
