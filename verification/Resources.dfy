/** The resource table: who holds each named resource, shared or exclusively. */
module Resources {
  import opened TaskTypes
  import opened SchedulerSpec

  /** exclusive is 0 when nobody holds the resource exclusively. */
  datatype Use = Use(shared: set<Id>, exclusive: Id)

  type Table = map<string, Use>

  function SharedOf(table: Table, r: string): set<Id> { if r in table then table[r].shared else {} }

  function ExclusiveOf(table: Table, r: string): Id { if r in table then table[r].exclusive else 0 }

  predicate Blocks(table: Table, c: Claim) {
    && c.resource in table
    && (table[c.resource].exclusive != 0 || (c.mode.Exclusive? && table[c.resource].shared != {}))
  }

  predicate Conflicts(table: Table, claims: seq<Claim>) {
    exists c :: c in claims && Blocks(table, c)
  }

  function AcquireOne(table: Table, e: Id, c: Claim): Table {
    var use := Use(SharedOf(table, c.resource), ExclusiveOf(table, c.resource));
    table[c.resource := if c.mode.Exclusive? then use.(exclusive := e) else use.(shared := use.shared + {e})]
  }

  function Acquire(table: Table, e: Id, claims: seq<Claim>): Table {
    if claims == [] then table
    else AcquireOne(Acquire(table, e, claims[..|claims| - 1]), e, claims[|claims| - 1])
  }

  function ReleaseOne(table: Table, e: Id, c: Claim): Table {
    if c.resource !in table then table
    else
      var use := table[c.resource];
      var left :=
        if c.mode.Shared? then use.(shared := use.shared - {e})
        else if use.exclusive == e then use.(exclusive := 0)
        else use;
      if left.shared == {} && left.exclusive == 0 then table - {c.resource} else table[c.resource := left]
  }

  function Release(table: Table, e: Id, claims: seq<Claim>): Table {
    if claims == [] then table
    else ReleaseOne(Release(table, e, claims[..|claims| - 1]), e, claims[|claims| - 1])
  }

  // ------------------------------------------------------------- the invariant

  /** An entry exists only while somebody holds it. */
  ghost predicate Normal(table: Table) {
    forall r :: r in table ==> table[r].shared != {} || table[r].exclusive != 0
  }

  ghost predicate HoldsShared(running: map<Id, seq<Claim>>, e: Id, r: string) {
    e in running && Claim(r, Shared) in running[e]
  }

  ghost predicate HoldsExclusive(running: map<Id, seq<Claim>>, e: Id, r: string) {
    e in running && Claim(r, Exclusive) in running[e]
  }

  /** The table is exactly the image of the claims of the running executions. */
  ghost predicate Mirrors(table: Table, running: map<Id, seq<Claim>>) {
    && 0 !in running
    && Normal(table)
    && (forall e, r :: e in SharedOf(table, r) <==> HoldsShared(running, e, r))
    && (forall e, r :: e != 0 ==> (ExclusiveOf(table, r) == e <==> HoldsExclusive(running, e, r)))
  }

  /** No two running executions hold conflicting claims. */
  ghost predicate Compatible(running: map<Id, seq<Claim>>) {
    forall e, f :: e in running && f in running && e != f ==> !ClaimsConflict(running[e], running[f])
  }

  /** Both claim some resource, and one of them alone. */
  predicate Excludes(first: seq<Claim>, second: seq<Claim>) {
    exists l, r :: l in first && r in second && l.resource == r.resource && !(l.mode.Shared? && r.mode.Shared?)
  }

  // -------------------------------------------------------------------- lemmas

  lemma ExcludesIff(first: seq<Claim>, second: seq<Claim>)
    ensures Excludes(first, second) <==> ClaimsConflict(first, second)
  {
    if Excludes(first, second) {
      var l, r :| l in first && r in second && l.resource == r.resource && !(l.mode.Shared? && r.mode.Shared?);
      assert l.mode.Exclusive? || r.mode.Exclusive?;
    }
    if ClaimsConflict(first, second) {
      var l, r :| l in first && r in second && l.resource == r.resource && (l.mode.Exclusive? || r.mode.Exclusive?);
      assert !(l.mode.Shared? && r.mode.Shared?);
    }
  }

  lemma {:induction false} AcquireEffect(table: Table, e: Id, claims: seq<Claim>, r: string)
    requires Normal(table) && e != 0
    ensures var t := Acquire(table, e, claims);
      && Normal(t)
      && SharedOf(t, r) == SharedOf(table, r) + (if Claim(r, Shared) in claims then {e} else {})
      && ExclusiveOf(t, r) == (if Claim(r, Exclusive) in claims then e else ExclusiveOf(table, r))
  {
    if claims != [] {
      var front, last := claims[..|claims| - 1], claims[|claims| - 1];
      AcquireEffect(table, e, front, r);
      assert forall c :: c in claims <==> c in front || c == last;
    }
  }

  lemma {:induction false} ReleaseEffect(table: Table, e: Id, claims: seq<Claim>, r: string)
    requires Normal(table) && e != 0
    ensures var t := Release(table, e, claims);
      && Normal(t)
      && SharedOf(t, r) == SharedOf(table, r) - (if Claim(r, Shared) in claims then {e} else {})
      && ExclusiveOf(t, r) == (if Claim(r, Exclusive) in claims && ExclusiveOf(table, r) == e then 0 else ExclusiveOf(table, r))
  {
    if claims != [] {
      var front, last := claims[..|claims| - 1], claims[|claims| - 1];
      ReleaseEffect(table, e, front, r);
      assert forall c :: c in claims <==> c in front || c == last;
    }
  }

  /** The check against the table is the check against every running execution. */
  lemma ConflictsIff(table: Table, running: map<Id, seq<Claim>>, claims: seq<Claim>)
    requires Mirrors(table, running)
    ensures Conflicts(table, claims) <==> exists e :: e in running && ClaimsConflict(claims, running[e])
  {
    if Conflicts(table, claims) {
      var c :| c in claims && Blocks(table, c);
      if ExclusiveOf(table, c.resource) != 0 {
        var e := ExclusiveOf(table, c.resource);
        assert HoldsExclusive(running, e, c.resource);
        assert ClaimsConflict(claims, running[e]);
      } else {
        var e :| e in SharedOf(table, c.resource);
        assert HoldsShared(running, e, c.resource);
        assert ClaimsConflict(claims, running[e]);
      }
    }
    if e :| e in running && ClaimsConflict(claims, running[e]) {
      var l, r :| l in claims && r in running[e] && l.resource == r.resource && (l.mode.Exclusive? || r.mode.Exclusive?);
      if r.mode.Exclusive? {
        assert r == Claim(r.resource, Exclusive) && HoldsExclusive(running, e, r.resource);
      } else {
        assert r == Claim(r.resource, Shared) && HoldsShared(running, e, r.resource);
        assert e in SharedOf(table, r.resource);
      }
      assert Blocks(table, l);
    }
  }

  /** Admission after a clear check records exactly the new claims. */
  lemma AcquireMirrors(table: Table, running: map<Id, seq<Claim>>, e: Id, claims: seq<Claim>)
    requires Mirrors(table, running) && e !in running && e != 0 && !Conflicts(table, claims)
    ensures Mirrors(Acquire(table, e, claims), running[e := claims])
  {
    var t, running' := Acquire(table, e, claims), running[e := claims];
    forall r
      ensures SharedOf(t, r) == SharedOf(table, r) + (if Claim(r, Shared) in claims then {e} else {})
      ensures ExclusiveOf(t, r) == if Claim(r, Exclusive) in claims then e else ExclusiveOf(table, r)
    {
      AcquireEffect(table, e, claims, r);
    }
    AcquireEffect(table, e, claims, "");
    forall f, r | f != 0
      ensures ExclusiveOf(t, r) == f <==> HoldsExclusive(running', f, r)
    {
      if Claim(r, Exclusive) in claims { assert !Blocks(table, Claim(r, Exclusive)); }
      assert ExclusiveOf(table, r) == f <==> HoldsExclusive(running, f, r);
    }
    forall f, r
      ensures f in SharedOf(t, r) <==> HoldsShared(running', f, r)
    {
      assert f in SharedOf(table, r) <==> HoldsShared(running, f, r);
    }
  }

  /** Finishing gives back exactly what the execution held. */
  lemma ReleaseMirrors(table: Table, running: map<Id, seq<Claim>>, e: Id)
    requires Mirrors(table, running) && e in running
    ensures Mirrors(Release(table, e, running[e]), running - {e})
  {
    var t := Release(table, e, running[e]);
    forall r
      ensures SharedOf(t, r) == SharedOf(table, r) - (if Claim(r, Shared) in running[e] then {e} else {})
      ensures ExclusiveOf(t, r)
              == if Claim(r, Exclusive) in running[e] && ExclusiveOf(table, r) == e then 0 else ExclusiveOf(table, r)
    {
      ReleaseEffect(table, e, running[e], r);
    }
    ReleaseEffect(table, e, running[e], "");
    forall f, r
      ensures f in SharedOf(t, r) <==> HoldsShared(running - {e}, f, r)
      ensures f != 0 ==> (ExclusiveOf(t, r) == f <==> HoldsExclusive(running - {e}, f, r))
    {
      assert f in SharedOf(table, r) <==> HoldsShared(running, f, r);
      assert f != 0 ==> (ExclusiveOf(table, r) == f <==> HoldsExclusive(running, f, r));
    }
  }

  lemma AcquireCompatible(table: Table, running: map<Id, seq<Claim>>, e: Id, claims: seq<Claim>)
    requires Mirrors(table, running) && Compatible(running) && e !in running && !Conflicts(table, claims)
    ensures Compatible(running[e := claims])
  {
    ConflictsIff(table, running, claims);
    forall f | f in running
      ensures !ClaimsConflict(claims, running[f]) && !ClaimsConflict(running[f], claims)
    {
      if ClaimsConflict(running[f], claims) {
        var l, r :| l in running[f] && r in claims && l.resource == r.resource && (l.mode.Exclusive? || r.mode.Exclusive?);
        assert ClaimsConflict(claims, running[f]);
      }
    }
  }
}
