/** Patching the tables against replacing them.  The tables hold the old topology;
    the new topology differs from it in what the delta carries.  Then the patch and
    the wholesale replacement give the same tables exactly when no claim that
    stays shares its kind and source id with a claim that is republished. */
module TopologyDelta {
  import opened Sorting
  import opened FileTopology
  import opened TargetedRefresh
  import opened TopologyStore

  // ------------------------------------------------------- rows and contents

  ghost predicate Has<K(!new), V(!new)>(t: map<K, V>, k: K, v: V) { k in t && t[k] == v }

  lemma SameItems<K(!new), V(!new)>(s: map<K, V>, t: map<K, V>)
    requires forall k, v :: Has(s, k, v) <==> Has(t, k, v)
    ensures s == t
  {
    forall k
      ensures k in s <==> k in t
      ensures k in s ==> s[k] == t[k]
    {
      if k in s { assert Has(s, k, s[k]); }
      if k in t { assert Has(t, k, t[k]); }
    }
    assert s.Keys == t.Keys;
  }

  /** The inserted table holds what was there and the rows, and nothing else. */
  lemma {:induction false} InsertedItems<K(!new), V(!new)>(table: map<K, V>, rows: seq<(K, V)>)
    requires InsertAll(table, rows).Some?
    ensures forall k, v :: Has(InsertAll(table, rows).value, k, v) <==> Has(table, k, v) || (k, v) in rows
    decreases |rows|
  {
    if rows != [] {
      var last := rows[|rows| - 1];
      InsertedItems(table, rows[..|rows| - 1]);
      assert rows == rows[..|rows| - 1] + [last];
      var before, after := InsertAll(table, rows[..|rows| - 1]).value, InsertAll(table, rows).value;
      forall k, v
        ensures Has(after, k, v) <==> Has(table, k, v) || (k, v) in rows
      {
        assert Has(after, k, v) <==> Has(before, k, v) || (k, v) == last;
        assert (k, v) in rows <==> (k, v) in rows[..|rows| - 1] || (k, v) == last;
      }
    }
  }

  ghost predicate DistinctKeys<K, V>(rows: seq<(K, V)>) {
    forall i, j :: 0 <= i < j < |rows| ==> rows[i].0 != rows[j].0
  }

  ghost predicate Insertable<K, V>(table: map<K, V>, rows: seq<(K, V)>) {
    DistinctKeys(rows) && forall r :: r in rows ==> r.0 !in table
  }

  lemma InsertableLast<K(!new), V(!new)>(table: map<K, V>, front: seq<(K, V)>, last: (K, V))
    requires Insertable(table, front) && InsertAll(table, front).Some?
    ensures Insertable(table, front + [last]) <==> last.0 !in InsertAll(table, front).value
  {
    InsertedItems(table, front);
    var before, rows := InsertAll(table, front).value, front + [last];
    if last.0 in before {
      var v := before[last.0];
      assert Has(before, last.0, v);
      if (last.0, v) in front {
        var i :| 0 <= i < |front| && front[i] == (last.0, v);
        assert rows[i].0 == rows[|front|].0;
      } else {
        assert last in rows && last.0 in table;
      }
    } else {
      assert forall r :: r in front ==> Has(before, r.0, r.1);
      assert last.0 in table ==> Has(table, last.0, table[last.0]) && Has(before, last.0, table[last.0]);
    }
  }

  lemma InsertableFront<K, V>(table: map<K, V>, front: seq<(K, V)>, last: (K, V))
    ensures Insertable(table, front + [last]) ==> Insertable(table, front)
  {
    if Insertable(table, front + [last]) {
      var rows := front + [last];
      assert forall i :: 0 <= i < |front| ==> rows[i] == front[i];
      assert forall r :: r in front ==> r in rows;
    }
  }

  lemma {:induction false} InsertSucceedsIff<K(!new), V(!new)>(table: map<K, V>, rows: seq<(K, V)>)
    ensures InsertAll(table, rows).Some? <==> Insertable(table, rows)
    decreases |rows|
  {
    if rows != [] {
      var front, last := rows[..|rows| - 1], rows[|rows| - 1];
      InsertSucceedsIff(table, front);
      InsertableFront(table, front, last);
      assert rows == front + [last];
      if InsertAll(table, front).Some? {
        InsertableLast(table, front, last);
      }
    }
  }

  function Restricted<K, V>(t: map<K, V>, keep: K -> bool): map<K, V> { map k | k in t && keep(k) :: t[k] }

  function OnKey<K, V>(keep: K -> bool): ((K, V)) -> bool { (r: (K, V)) => keep(r.0) }

  function OnClaim(keep: ClaimKey -> bool): PartKey -> bool { (k: PartKey) => keep(k.claim) }

  function OtherOwner(owners: set<MediaKey>): Claim -> bool { (c: Claim) => c.owner !in owners }

  function OtherId(ids: seq<OwnerId>): ClaimKey -> bool { (k: ClaimKey) => k.owner !in ids }

  function OtherHash(hashes: seq<string>): TorrentClaim -> bool { (t: TorrentClaim) => t.hash !in hashes }

  function OtherHashKey(hashes: seq<string>): TorrentKey -> bool { (k: TorrentKey) => k.hash !in hashes }

  /** Inserting only some of the rows gives that part of the table. */
  lemma {:induction false} InsertFiltered<K, V>(rows: seq<(K, V)>, keep: K -> bool)
    requires InsertAll(map[], rows).Some?
    ensures InsertAll(map[], Filter(OnKey(keep), rows)) == Some(Restricted(InsertAll(map[], rows).value, keep))
    decreases |rows|
  {
    if rows != [] {
      var front, last := rows[..|rows| - 1], rows[|rows| - 1];
      InsertFiltered(front, keep);
      FilterAppend(OnKey(keep), front, [last]);
      assert rows == front + [last];
      var one := Filter(OnKey(keep), [last]);
      assert one == if keep(last.0) then [last] else [];
      InsertPrefix(map[], Filter(OnKey(keep), front), one);
      var t := Restricted(InsertAll(map[], front).value, keep);
      assert InsertAll(t, one) == if keep(last.0) then Some(t[last.0 := last.1]) else Some(t) by { assert InsertAll(t, []) == Some(t); }
      assert InsertAll(map[], rows).value == InsertAll(map[], front).value[last.0 := last.1];
      assert Restricted(InsertAll(map[], rows).value, keep) == if keep(last.0) then t[last.0 := last.1] else t;
    }
  }

  // ----------------------------------------------------------- the five tables

  lemma {:induction false} ClaimRowsFiltered(keep: Claim -> bool, keepKey: ClaimKey -> bool, xs: seq<Claim>)
    requires forall c :: c in xs ==> keep(c) == keepKey(KeyOf(c))
    ensures ClaimRows(Filter(keep, xs)) == Filter(OnKey(keepKey), ClaimRows(xs))
    decreases |xs|
  {
    if xs != [] {
      var front, c := xs[..|xs| - 1], xs[|xs| - 1];
      assert xs == front + [c];
      var row := (KeyOf(c), ClaimRow(c.path, c.owner.service, c.serviceName));
      ClaimRowsFiltered(keep, keepKey, front);
      FilterAppend(keep, front, [c]);
      assert Filter(keep, [c]) == if keep(c) then [c] else [];
      assert ClaimRows(Filter(keep, [c])) == if keep(c) then [row] else [];
      ClaimRowsAppend(Filter(keep, front), Filter(keep, [c]));
      assert ClaimRows(xs) == ClaimRows(front) + [row];
      assert Filter(OnKey(keepKey), [row]) == if keepKey(row.0) then [row] else [];
      FilterAppend(OnKey(keepKey), ClaimRows(front), [row]);
    }
  }

  lemma {:induction false} PartRowsOfClaim(keepKey: ClaimKey -> bool, key: ClaimKey, parts: seq<Part>)
    ensures Filter(OnKey(OnClaim(keepKey)), RowsOfParts(key, parts))
            == if keepKey(key) then RowsOfParts(key, parts) else []
    decreases |parts|
  {
    if parts != [] {
      var p := parts[|parts| - 1];
      PartRowsOfClaim(keepKey, key, parts[..|parts| - 1]);
      FilterAppend(OnKey(OnClaim(keepKey)), RowsOfParts(key, parts[..|parts| - 1]), [(PartKey(key, p.id), PartRow(p.group, p.name, p.order))]);
    }
  }

  lemma {:induction false} PartRowsFiltered(keep: Claim -> bool, keepKey: ClaimKey -> bool, xs: seq<Claim>)
    requires forall c :: c in xs ==> keep(c) == keepKey(KeyOf(c))
    ensures PartRows(Filter(keep, xs)) == Filter(OnKey(OnClaim(keepKey)), PartRows(xs))
    decreases |xs|
  {
    if xs != [] {
      var front, c := xs[..|xs| - 1], xs[|xs| - 1];
      assert xs == front + [c];
      PartRowsFiltered(keep, keepKey, front);
      FilterAppend(keep, front, [c]);
      PartRowsAppend(Filter(keep, front), Filter(keep, [c]));
      PartRowsOfClaim(keepKey, KeyOf(c), c.parts);
      FilterAppend(OnKey(OnClaim(keepKey)), PartRows(front), RowsOfParts(KeyOf(c), c.parts));
      assert PartRows([c]) == RowsOfParts(KeyOf(c), c.parts) by { assert PartRows([c]) == PartRows([]) + RowsOfParts(KeyOf(c), c.parts); }
    }
  }

  lemma {:induction false} TorrentRowsAppend(a: seq<TorrentClaim>, b: seq<TorrentClaim>)
    ensures TorrentRows(a + b) == TorrentRows(a) + TorrentRows(b)
    decreases |b|
  {
    if b == [] {
      assert a + b == a;
    } else {
      assert (a + b)[..|a + b| - 1] == a + b[..|b| - 1];
      TorrentRowsAppend(a, b[..|b| - 1]);
    }
  }

  lemma {:induction false} TorrentRowsFiltered(keep: TorrentClaim -> bool, keepKey: TorrentKey -> bool, xs: seq<TorrentClaim>)
    requires forall t :: t in xs ==> keep(t) == keepKey(TorrentKey(t.client, t.hash, t.index))
    ensures TorrentRows(Filter(keep, xs)) == Filter(OnKey(keepKey), TorrentRows(xs))
    decreases |xs|
  {
    if xs != [] {
      var front, t := xs[..|xs| - 1], xs[|xs| - 1];
      assert xs == front + [t];
      var row := (TorrentKey(t.client, t.hash, t.index), TorrentRow(t.path, t.service, t.serviceName));
      TorrentRowsFiltered(keep, keepKey, front);
      FilterAppend(keep, front, [t]);
      assert Filter(keep, [t]) == if keep(t) then [t] else [];
      assert TorrentRows(Filter(keep, [t])) == if keep(t) then [row] else [];
      TorrentRowsAppend(Filter(keep, front), Filter(keep, [t]));
      assert TorrentRows(xs) == TorrentRows(front) + [row];
      assert Filter(OnKey(keepKey), [row]) == if keepKey(row.0) then [row] else [];
      FilterAppend(OnKey(keepKey), TorrentRows(front), [row]);
    }
  }

  lemma {:induction false} FileRowsListed(xs: seq<Scanned>)
    ensures |FileRows(xs)| == |xs| && forall i :: 0 <= i < |xs| ==> FileRows(xs)[i] == (xs[i].file.path, xs[i])
    decreases |xs|
  {
    if xs != [] { FileRowsListed(xs[..|xs| - 1]); }
  }

  lemma {:induction false} UnmanagedRowsListed(xs: seq<Unmanaged>)
    ensures |UnmanagedRows(xs)| == |xs| && forall i :: 0 <= i < |xs| ==> UnmanagedRows(xs)[i] == (xs[i].row.file.path, xs[i])
    decreases |xs|
  {
    if xs != [] { UnmanagedRowsListed(xs[..|xs| - 1]); }
  }

  lemma FileRowsMembers(xs: seq<Scanned>)
    ensures forall k, v :: (k, v) in FileRows(xs) <==> v in xs && v.file.path == k
    ensures DistinctKeys(FileRows(xs)) <==> OncePerPath(xs)
  {
    FileRowsListed(xs);
    forall k, v
      ensures (k, v) in FileRows(xs) <==> v in xs && v.file.path == k
    {
      if v in xs && v.file.path == k {
        var i :| 0 <= i < |xs| && xs[i] == v;
        assert FileRows(xs)[i] == (k, v);
      }
    }
    if DistinctKeys(FileRows(xs)) {
      forall i, j | 0 <= i < j < |xs|
        ensures xs[i].file.path != xs[j].file.path
      {
        assert FileRows(xs)[i].0 != FileRows(xs)[j].0;
      }
    }
  }

  ghost predicate OncePerRow(xs: seq<Unmanaged>) {
    forall i, j :: 0 <= i < j < |xs| ==> xs[i].row.file.path != xs[j].row.file.path
  }

  lemma UnmanagedRowsMembers(xs: seq<Unmanaged>)
    ensures forall k, v :: (k, v) in UnmanagedRows(xs) <==> v in xs && v.row.file.path == k
    ensures DistinctKeys(UnmanagedRows(xs)) <==> OncePerRow(xs)
  {
    UnmanagedRowsListed(xs);
    forall k, v
      ensures (k, v) in UnmanagedRows(xs) <==> v in xs && v.row.file.path == k
    {
      if v in xs && v.row.file.path == k {
        var i :| 0 <= i < |xs| && xs[i] == v;
        assert UnmanagedRows(xs)[i] == (k, v);
      }
    }
    if DistinctKeys(UnmanagedRows(xs)) {
      forall i, j | 0 <= i < j < |xs|
        ensures xs[i].row.file.path != xs[j].row.file.path
      {
        assert UnmanagedRows(xs)[i].0 != UnmanagedRows(xs)[j].0;
      }
    }
  }

  // ------------------------------------------------------------- the relation

  /** How the new topology comes from the old one: rows at the delta's paths are
      replaced, claims of some owners are replaced, torrents of some hashes are
      dropped. */
  ghost predicate Changes(before: Topology, after: Topology, d: Delta, owners: set<MediaKey>) {
    && FilesChange(before, after, d)
    && UnmanagedChange(before, after, d)
    && after.claims == Filter(OtherOwner(owners), before.claims) + d.claims
    && (forall k :: k in owners ==> IdOf(k) in d.owners)
    && d.torrents == []
    && after.torrents == Filter(OtherHash(d.removedHashes), before.torrents)
  }

  ghost predicate FilesChange(before: Topology, after: Topology, d: Delta) {
    && OncePerPath(d.files) && OncePerPath(after.files)
    && (forall r :: r in d.files ==> r.file.path in d.paths)
    && forall r :: r in after.files <==> r in d.files || (r in before.files && r.file.path !in d.paths)
  }

  ghost predicate UnmanagedChange(before: Topology, after: Topology, d: Delta) {
    && OncePerRow(d.unmanaged) && OncePerRow(after.unmanaged)
    && (forall u :: u in d.unmanaged ==> u.row.file.path in d.paths)
    && forall u :: u in after.unmanaged <==> u in d.unmanaged || (u in before.unmanaged && u.row.file.path !in d.paths)
  }

  /** A kind and a source id say which owner is meant. */
  ghost predicate OwnersIdentified(claims: seq<Claim>, owners: set<MediaKey>, ids: seq<OwnerId>) {
    forall c :: c in claims && IdOf(c.owner) in ids ==> c.owner in owners
  }

  lemma FilesPatched(before: Topology, after: Topology, d: Delta)
    requires FilesChange(before, after, d) && InsertAll(map[], FileRows(before.files)).Some?
    ensures InsertAll(map[], FileRows(after.files)).Some?
    ensures InsertAll(Without(InsertAll(map[], FileRows(before.files)).value, d.paths), FileRows(d.files)) == InsertAll(map[], FileRows(after.files))
  {
    var t := InsertAll(map[], FileRows(before.files)).value;
    FileRowsMembers(before.files);
    FileRowsMembers(after.files);
    FileRowsMembers(d.files);
    InsertedItems(map[], FileRows(before.files));
    InsertSucceedsIff(map[], FileRows(after.files));
    InsertSucceedsIff(Without(t, d.paths), FileRows(d.files));
    InsertedItems(map[], FileRows(after.files));
    InsertedItems(Without(t, d.paths), FileRows(d.files));
    var patched, replaced := InsertAll(Without(t, d.paths), FileRows(d.files)).value, InsertAll(map[], FileRows(after.files)).value;
    forall k, v
      ensures Has(patched, k, v) <==> Has(replaced, k, v)
    {
      assert Has(Without(t, d.paths), k, v) <==> Has(t, k, v) && k !in d.paths;
      assert Has(t, k, v) <==> v in before.files && v.file.path == k;
      assert Has(replaced, k, v) <==> v in after.files && v.file.path == k;
    }
    SameItems(patched, replaced);
  }

  lemma UnmanagedPatched(before: Topology, after: Topology, d: Delta)
    requires UnmanagedChange(before, after, d) && InsertAll(map[], UnmanagedRows(before.unmanaged)).Some?
    ensures InsertAll(map[], UnmanagedRows(after.unmanaged)).Some?
    ensures InsertAll(Without(InsertAll(map[], UnmanagedRows(before.unmanaged)).value, d.paths), UnmanagedRows(d.unmanaged))
            == InsertAll(map[], UnmanagedRows(after.unmanaged))
  {
    var t := InsertAll(map[], UnmanagedRows(before.unmanaged)).value;
    UnmanagedRowsMembers(before.unmanaged);
    UnmanagedRowsMembers(after.unmanaged);
    UnmanagedRowsMembers(d.unmanaged);
    InsertedItems(map[], UnmanagedRows(before.unmanaged));
    InsertSucceedsIff(map[], UnmanagedRows(after.unmanaged));
    InsertSucceedsIff(Without(t, d.paths), UnmanagedRows(d.unmanaged));
    InsertedItems(map[], UnmanagedRows(after.unmanaged));
    InsertedItems(Without(t, d.paths), UnmanagedRows(d.unmanaged));
    var patched, replaced := InsertAll(Without(t, d.paths), UnmanagedRows(d.unmanaged)).value, InsertAll(map[], UnmanagedRows(after.unmanaged)).value;
    forall k, v
      ensures Has(patched, k, v) <==> Has(replaced, k, v)
    {
      assert Has(Without(t, d.paths), k, v) <==> Has(t, k, v) && k !in d.paths;
      assert Has(t, k, v) <==> v in before.unmanaged && v.row.file.path == k;
      assert Has(replaced, k, v) <==> v in after.unmanaged && v.row.file.path == k;
    }
    SameItems(patched, replaced);
  }

  lemma TorrentsPatched(before: Topology, after: Topology, d: Delta)
    requires d.torrents == [] && InsertAll(map[], TorrentRows(before.torrents)).Some?
    requires after.torrents == Filter(OtherHash(d.removedHashes), before.torrents)
    ensures InsertAll(TorrentsOf(InsertAll(map[], TorrentRows(before.torrents)).value, d.removedHashes), TorrentRows(d.torrents))
            == InsertAll(map[], TorrentRows(after.torrents))
  {
    var keep := OtherHashKey(d.removedHashes);
    TorrentRowsFiltered(OtherHash(d.removedHashes), keep, before.torrents);
    InsertFiltered(TorrentRows(before.torrents), keep);
    var t := InsertAll(map[], TorrentRows(before.torrents)).value;
    assert Restricted(t, keep) == TorrentsOf(t, d.removedHashes);
    assert TorrentRows(d.torrents) == [];
  }

  lemma ClaimsPatched(claims: seq<Claim>, owners: set<MediaKey>, ids: seq<OwnerId>, replacement: seq<Claim>)
    requires OwnersIdentified(claims, owners, ids) && forall k :: k in owners ==> IdOf(k) in ids
    requires InsertAll(map[], ClaimRows(claims)).Some?
    ensures InsertAll(ClaimsOf(InsertAll(map[], ClaimRows(claims)).value, ids), ClaimRows(replacement))
            == InsertAll(map[], ClaimRows(Filter(OtherOwner(owners), claims) + replacement))
  {
    var kept := Filter(OtherOwner(owners), claims);
    var t := InsertAll(map[], ClaimRows(claims)).value;
    ClaimRowsFiltered(OtherOwner(owners), OtherId(ids), claims);
    InsertFiltered(ClaimRows(claims), OtherId(ids));
    assert Restricted(t, OtherId(ids)) == ClaimsOf(t, ids);
    ClaimRowsAppend(kept, replacement);
    InsertPrefix(map[], ClaimRows(kept), ClaimRows(replacement));
  }

  lemma PartsPatched(claims: seq<Claim>, owners: set<MediaKey>, ids: seq<OwnerId>, replacement: seq<Claim>)
    requires OwnersIdentified(claims, owners, ids) && forall k :: k in owners ==> IdOf(k) in ids
    requires InsertAll(map[], PartRows(claims)).Some?
    ensures InsertAll(PartsOf(InsertAll(map[], PartRows(claims)).value, ids), PartRows(replacement))
            == InsertAll(map[], PartRows(Filter(OtherOwner(owners), claims) + replacement))
  {
    var kept := Filter(OtherOwner(owners), claims);
    var t := InsertAll(map[], PartRows(claims)).value;
    PartRowsFiltered(OtherOwner(owners), OtherId(ids), claims);
    InsertFiltered(PartRows(claims), OnClaim(OtherId(ids)));
    assert Restricted(t, OnClaim(OtherId(ids))) == PartsOf(t, ids);
    PartRowsAppend(kept, replacement);
    InsertPrefix(map[], PartRows(kept), PartRows(replacement));
  }

  lemma {:induction false} ClaimRowsMember(xs: seq<Claim>, c: Claim)
    requires c in xs
    ensures (KeyOf(c), ClaimRow(c.path, c.owner.service, c.serviceName)) in ClaimRows(xs)
    decreases |xs|
  {
    if c != xs[|xs| - 1] {
      assert xs == xs[..|xs| - 1] + [xs[|xs| - 1]];
      ClaimRowsMember(xs[..|xs| - 1], c);
    }
  }

  lemma KeptClaimStays(before: Topology, after: Topology, d: Delta, owners: set<MediaKey>, c: Claim)
    requires Changes(before, after, d, owners) && InsertAll(map[], ClaimRows(after.claims)).Some?
    requires c in before.claims && c.owner !in owners
    ensures KeyOf(c) in InsertAll(map[], ClaimRows(after.claims)).value
    ensures forall v :: (KeyOf(c), v) !in ClaimRows(d.claims)
  {
    var kept := Filter(OtherOwner(owners), before.claims);
    FilterContents(OtherOwner(owners), before.claims);
    var row := (KeyOf(c), ClaimRow(c.path, c.owner.service, c.serviceName));
    ClaimRowsMember(kept, c);
    ClaimRowsAppend(kept, d.claims);
    InsertPrefix(map[], ClaimRows(kept), ClaimRows(d.claims));
    var keptTable := InsertAll(map[], ClaimRows(kept)).value;
    InsertedItems(map[], ClaimRows(kept));
    assert Has(keptTable, row.0, row.1);
    InsertSucceedsIff(keptTable, ClaimRows(d.claims));
    InsertedItems(keptTable, ClaimRows(d.claims));
    assert Has(InsertAll(map[], ClaimRows(after.claims)).value, row.0, row.1);
  }

  /** A claim that stays but shares its kind and id with a republished one is
      deleted by the patch and not put back. */
  lemma SharedIdIsLost(before: Topology, after: Topology, d: Delta, owners: set<MediaKey>, c: Claim)
    requires Changes(before, after, d, owners)
    requires InsertAll(map[], ClaimRows(before.claims)).Some? && InsertAll(map[], ClaimRows(after.claims)).Some?
    requires c in before.claims && IdOf(c.owner) in d.owners && c.owner !in owners
    ensures KeyOf(c) in InsertAll(map[], ClaimRows(after.claims)).value
    ensures var patched := InsertAll(ClaimsOf(InsertAll(map[], ClaimRows(before.claims)).value, d.owners), ClaimRows(d.claims));
      patched.Some? ==> KeyOf(c) !in patched.value
  {
    KeptClaimStays(before, after, d, owners, c);
    NotPutBack(ClaimsOf(InsertAll(map[], ClaimRows(before.claims)).value, d.owners), ClaimRows(d.claims), KeyOf(c));
  }

  lemma NotPutBack<K(!new), V(!new)>(table: map<K, V>, rows: seq<(K, V)>, k: K)
    requires k !in table && forall v :: (k, v) !in rows
    ensures InsertAll(table, rows).Some? ==> k !in InsertAll(table, rows).value
  {
    if InsertAll(table, rows).Some? {
      InsertedItems(table, rows);
      var after := InsertAll(table, rows).value;
      assert k in after ==> Has(after, k, after[k]);
    }
  }

  /** Patching equals replacing exactly when the ids of the republished owners
      belong to no claim that stays. */
  lemma PatchIsReplacementIff(tables: Tables, before: Topology, after: Topology, d: Delta, owners: set<MediaKey>)
    requires Replaced(before, tables.generation) == Some(tables)
    requires Changes(before, after, d, owners)
    requires Replaced(after, d.generation).Some?
    ensures Patched(tables, d) == Replaced(after, d.generation) <==> OwnersIdentified(before.claims, owners, d.owners)
  {
    FilesPatched(before, after, d);
    UnmanagedPatched(before, after, d);
    TorrentsPatched(before, after, d);
    if OwnersIdentified(before.claims, owners, d.owners) {
      ClaimsPatched(before.claims, owners, d.owners, d.claims);
      PartsPatched(before.claims, owners, d.owners, d.claims);
    } else {
      var c :| c in before.claims && IdOf(c.owner) in d.owners && c.owner !in owners;
      SharedIdIsLost(before, after, d, owners, c);
    }
  }

  // ------------------------------------------------------------ short lists

  lemma RowsOfOne(c: Claim)
    requires c.parts == []
    ensures ClaimRows([c]) == [(KeyOf(c), ClaimRow(c.path, c.owner.service, c.serviceName))] && PartRows([c]) == []
  {
    assert [c][..0] == [];
  }

  lemma RowsOfTwo(c: Claim, x: Claim)
    requires c.parts == [] && x.parts == []
    ensures ClaimRows([c, x]) == ClaimRows([c]) + ClaimRows([x]) && PartRows([c, x]) == []
  {
    RowsOfOne(c);
    RowsOfOne(x);
    ClaimRowsAppend([c], [x]);
    PartRowsAppend([c], [x]);
    assert [c] + [x] == [c, x];
  }

  lemma InsertTwo<K(!new), V(!new)>(r: (K, V), x: (K, V))
    requires r.0 != x.0
    ensures InsertAll(map[], [r] + [x]) == Some(map[r.0 := r.1, x.0 := x.1])
  {
    InsertOne(map[], r);
    InsertOne(map[r.0 := r.1], x);
    InsertPrefix(map[], [r], [x]);
  }

  lemma InsertOne<K, V>(table: map<K, V>, r: (K, V))
    requires r.0 !in table
    ensures InsertAll(table, [r]) == Some(table[r.0 := r.1])
  {
    assert InsertAll(table, []) == Some(table);
    assert [r][..0] == [];
  }
}
