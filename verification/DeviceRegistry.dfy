/** Stable ids for the storage devices that are currently discovered. */
module DeviceRegistry {
  import opened SetSums

  /** The stored settings of one device; id 0 means that none was gained. */
  datatype Device = Device(target: real, critical: real, name: string, id: int, removalDisabled: bool)

  const UNREGISTERED := Device(0.0, 0.0, "", 0, false)

  function Digits(n: nat): string {
    if n < 10 then [DIGITS[n]] else Digits(n / 10) + [DIGITS[n % 10]]
  }

  const DIGITS: string := "0123456789"

  function Lookup(devices: map<string, Device>, path: string): Device {
    if path in devices then devices[path] else UNREGISTERED
  }

  function Paths(live: seq<string>): set<string> { set p | p in live }

  function UsedIds(devices: map<string, Device>): set<int> {
    set p | p in devices && devices[p].id > 0 :: devices[p].id
  }

  /** Exactly the live devices are registered and each has an id. */
  predicate Settled(devices: map<string, Device>, live: seq<string>) {
    devices.Keys == Paths(live) && forall p :: p in devices ==> devices[p].id > 0
  }

  /** No two of these devices share a positive id. */
  predicate DistinctIds(devices: map<string, Device>) {
    forall p, q :: p in devices && q in devices && p != q && devices[p].id > 0 ==> devices[p].id != devices[q].id
  }

  function Surviving(devices: map<string, Device>, live: seq<string>): map<string, Device> {
    map p | p in devices && p in Paths(live) :: devices[p]
  }

  /** Every positive number below this id is taken. */
  ghost predicate NoSmallerFree(used: set<int>, id: int) {
    forall n :: 1 <= n < id ==> n in used
  }

  // -------------------------------------------------------------- pigeonhole

  lemma {:induction false} Pigeonhole(used: set<int>, id: nat)
    requires id >= 1 && NoSmallerFree(used, id)
    ensures id - 1 <= |used|
    decreases id
  {
    if id > 1 {
      assert id - 1 in used;
      var rest := used - {id - 1};
      assert NoSmallerFree(rest, id - 1);
      Pigeonhole(rest, id - 1);
    }
  }

  lemma UsedGrows(devices: map<string, Device>, path: string, entry: Device)
    requires Lookup(devices, path).id <= 0 && entry.id > 0
    ensures UsedIds(devices[path := entry]) == UsedIds(devices) + {entry.id}
  {
    var after := devices[path := entry];
    forall n | n in UsedIds(devices) + {entry.id}
      ensures n in UsedIds(after)
    {
      if n in UsedIds(devices) {
        var p :| p in devices && devices[p].id > 0 && devices[p].id == n;
        assert after[p].id == n;
      } else {
        assert after[path].id == n;
      }
    }
  }

  lemma {:induction false} IdsNoMoreThanDevices(devices: map<string, Device>, holders: set<string>)
    requires holders == set p | p in devices && devices[p].id > 0
    ensures |UsedIds(devices)| <= |holders|
    decreases |holders|
  {
    if holders != {} {
      var p :| p in holders;
      var rest := devices - {p};
      IdsNoMoreThanDevices(rest, holders - {p});
      UsedGrows(rest, p, devices[p]);
      assert rest[p := devices[p]] == devices;
    } else {
      assert forall p :: p in devices ==> p !in holders;
      assert UsedIds(devices) == {};
    }
  }

  /** While one live device lacks an id, fewer ids than live devices are used. */
  lemma RoomForOneMore(devices: map<string, Device>, live: seq<string>, path: string)
    requires devices.Keys <= Paths(live) && path in live && Lookup(devices, path).id <= 0
    ensures |UsedIds(devices)| < |Paths(live)|
  {
    var holders := set p | p in devices && devices[p].id > 0;
    IdsNoMoreThanDevices(devices, holders);
    assert holders <= Paths(live) - {path};
    SubsetSize(holders, Paths(live) - {path});
  }

  // --------------------------------------------------------------- allocation

  /** The least positive number that is not in use. */
  method NextId(used: set<int>) returns (id: int)
    ensures id >= 1 && id !in used && NoSmallerFree(used, id)
    ensures id <= |used| + 1
  {
    id := 1;
    while id in used
      invariant id >= 1 && NoSmallerFree(used, id) && id <= |used| + 1
      decreases |used| + 1 - id
    {
      Pigeonhole(used, id + 1);
      id := id + 1;
    }
  }

  /** What one device is given: its own id stays; a missing one becomes the least
      free number, no larger than the number of live devices. */
  ghost predicate Registered(before: Device, after: Device, finalIds: set<int>, bound: nat) {
    && after.id > 0
    && if before.id > 0 then after == before
       else
         && after == before.(id := after.id, name := if before.name == "" then "Device #" + Digits(after.id) else before.name)
         && after.id <= bound && NoSmallerFree(finalIds, after.id)
  }

  /** The devices among done have been registered, the others are as they were. */
  ghost predicate Progress(kept: map<string, Device>, merged: map<string, Device>, done: set<string>, bound: nat) {
    && merged.Keys == kept.Keys + done
    && (forall p :: p in done ==> Registered(Lookup(kept, p), merged[p], UsedIds(merged), bound))
    && (forall p :: p in kept && p !in done ==> merged[p] == kept[p])
    && (DistinctIds(kept) ==> DistinctIds(merged))
    && NewIdsUnshared(kept, merged, done)
  }

  /** A device that was given its id here shares it with no other. */
  ghost predicate NewIdsUnshared(kept: map<string, Device>, merged: map<string, Device>, done: set<string>) {
    forall p, q :: p in done && p in merged && q in merged && p != q && Lookup(kept, p).id <= 0 ==> merged[p].id != merged[q].id
  }

  lemma NewIdUnshared(kept: map<string, Device>, merged: map<string, Device>, done: set<string>, path: string, entry: Device, bound: nat)
    requires Progress(kept, merged, done, bound) && Lookup(merged, path).id <= 0 && entry.id > 0 && entry.id !in UsedIds(merged)
    ensures NewIdsUnshared(kept, merged[path := entry], done + {path})
  {
    var merged' := merged[path := entry];
    forall p, q | p in done + {path} && p in merged' && q in merged' && p != q && Lookup(kept, p).id <= 0
      ensures merged'[p].id != merged'[q].id
    {
      var other := if p == path then q else p;
      if (p == path || q == path) && merged[other].id > 0 { assert merged[other].id in UsedIds(merged); }
      if p != path && q == path { assert Registered(Lookup(kept, p), merged[p], UsedIds(merged), bound); }
    }
  }

  lemma RegisterOne(kept: map<string, Device>, merged: map<string, Device>, done: set<string>, path: string, entry: Device, bound: nat)
    requires Progress(kept, merged, done, bound) && Lookup(merged, path).id <= 0
    requires entry.id !in UsedIds(merged) && Registered(Lookup(merged, path), entry, UsedIds(merged), bound)
    ensures Progress(kept, merged[path := entry], done + {path}, bound)
    ensures UsedIds(merged[path := entry]) == UsedIds(merged) + {entry.id}
  {
    var merged' := merged[path := entry];
    UsedGrows(merged, path, entry);
    NewIdUnshared(kept, merged, done, path, entry, bound);
    assert path !in done && Lookup(merged, path) == Lookup(kept, path);
    forall p | p in done + {path}
      ensures Registered(Lookup(kept, p), merged'[p], UsedIds(merged'), bound)
    {
      if p in done { assert Registered(Lookup(kept, p), merged[p], UsedIds(merged), bound); }
    }
    if DistinctIds(kept) { StayDistinct(merged, path, entry); }
  }

  lemma StayDistinct(merged: map<string, Device>, path: string, entry: Device)
    requires DistinctIds(merged) && entry.id !in UsedIds(merged)
    ensures DistinctIds(merged[path := entry])
  {
    forall p | p in merged && p != path && merged[p].id > 0
      ensures merged[p].id != entry.id
    {
      assert merged[p].id in UsedIds(merged);
    }
  }

  /** Drops what is no longer discovered. */
  method Prune(devices: map<string, Device>, isLive: set<string>) returns (kept: map<string, Device>, pruned: bool)
    ensures kept == map p | p in devices && p in isLive :: devices[p]
    ensures pruned <==> !(devices.Keys <= isLive)
  {
    pruned, kept := false, map[];
    var todo := devices.Keys;
    while todo != {}
      invariant todo <= devices.Keys
      invariant kept == map p | p in devices && p !in todo && p in isLive :: devices[p]
      invariant pruned <==> exists p :: p in devices && p !in todo && p !in isLive
      decreases |todo|
    {
      var p :| p in todo;
      todo := todo - {p};
      if p !in isLive {
        pruned := true;
      } else {
        kept := kept[p := devices[p]];
      }
    }
  }

  /** The entry of one device, completed with an id and, if it has none, a name. */
  method Complete(before: Device, used: set<int>) returns (entry: Device)
    requires before.id <= 0
    ensures entry.id !in used && entry.id <= |used| + 1
    ensures forall bound: nat :: |used| < bound ==> Registered(before, entry, used, bound)
  {
    var id := NextId(used);
    entry := before.(id := id);
    if entry.name == "" {
      entry := entry.(name := "Device #" + Digits(id));
    }
  }

  /** Registers one live device, unless it has an id already. */
  method RegisterPath(ghost kept: map<string, Device>, merged: map<string, Device>, used: set<int>, live: seq<string>, i: nat)
    returns (after: map<string, Device>, usedAfter: set<int>, gained: bool)
    requires i < |live| && kept.Keys <= Paths(live) && used == UsedIds(merged)
    requires Progress(kept, merged, Paths(live[..i]), |Paths(live)|)
    ensures Progress(kept, after, Paths(live[..i + 1]), |Paths(live)|) && usedAfter == UsedIds(after)
    ensures gained <==> Lookup(merged, live[i]).id <= 0
    ensures !gained ==> after == merged
  {
    NextPath(live, i);
    var path := live[i];
    var entry := if path in merged then merged[path] else UNREGISTERED;
    gained := entry.id <= 0;
    if gained {
      after, usedAfter := GiveId(kept, merged, used, live, Paths(live[..i]), path, entry);
    } else {
      RegisteredAlready(kept, merged, Paths(live[..i]), path, |Paths(live)|);
      after, usedAfter := merged, used;
    }
  }

  lemma NextPath(live: seq<string>, i: nat)
    requires i < |live|
    ensures Paths(live[..i + 1]) == Paths(live[..i]) + {live[i]} && Paths(live[..i]) <= Paths(live)
  {
    assert live[..i + 1] == live[..i] + [live[i]];
  }

  lemma RegisteredAlready(kept: map<string, Device>, merged: map<string, Device>, done: set<string>, path: string, bound: nat)
    requires Progress(kept, merged, done, bound) && Lookup(merged, path).id > 0
    ensures Progress(kept, merged, done + {path}, bound)
  {
    assert merged.Keys == kept.Keys + (done + {path});
  }

  method GiveId(ghost kept: map<string, Device>, merged: map<string, Device>, used: set<int>, ghost live: seq<string>, ghost done: set<string>, path: string, entry: Device)
    returns (after: map<string, Device>, usedAfter: set<int>)
    requires kept.Keys <= Paths(live) && used == UsedIds(merged) && path in live && done <= Paths(live)
    requires Progress(kept, merged, done, |Paths(live)|) && entry == Lookup(merged, path) && entry.id <= 0
    ensures Progress(kept, after, done + {path}, |Paths(live)|) && usedAfter == UsedIds(after)
  {
    RoomForOneMore(merged, live, path);
    var complete := Complete(entry, used);
    assert path !in done && Lookup(merged, path) == Lookup(kept, path);
    RegisterOne(kept, merged, done, path, complete, |Paths(live)|);
    usedAfter := used + {complete.id};
    after := merged[path := complete];
  }

  predicate AllNumbered(devices: map<string, Device>, paths: seq<string>) {
    forall p :: p in paths ==> Lookup(devices, p).id > 0
  }

  lemma NumberedStep(kept: map<string, Device>, merged: map<string, Device>, live: seq<string>, i: nat, bound: nat)
    requires i < |live| && Progress(kept, merged, Paths(live[..i]), bound)
    ensures AllNumbered(kept, live[..i + 1]) <==> AllNumbered(kept, live[..i]) && Lookup(merged, live[i]).id > 0
  {
    assert live[..i + 1] == live[..i] + [live[i]];
    if AllNumbered(kept, live[..i]) && live[i] in Paths(live[..i]) { assert Lookup(kept, live[i]).id > 0; }
  }

  method AssignIds(kept: map<string, Device>, live: seq<string>) returns (merged: map<string, Device>, gained: bool)
    requires kept.Keys <= Paths(live)
    ensures Progress(kept, merged, Paths(live), |Paths(live)|)
    ensures gained <==> !AllNumbered(kept, live)
    ensures !gained ==> merged == kept
  {
    merged, gained := kept, false;
    var used: set<int> := set p | p in merged && merged[p].id > 0 :: merged[p].id;
    for i := 0 to |live|
      invariant Progress(kept, merged, Paths(live[..i]), |Paths(live)|) && used == UsedIds(merged)
      invariant !gained ==> merged == kept
      invariant gained <==> !AllNumbered(kept, live[..i])
    {
      NumberedStep(kept, merged, live, i, |Paths(live)|);
      var assignedNow;
      merged, used, assignedNow := RegisterPath(kept, merged, used, live, i);
      gained := gained || assignedNow;
    }
    assert live[..|live|] == live;
  }

  lemma SettledIff(devices: map<string, Device>, live: seq<string>)
    ensures Settled(devices, live)
            <==> devices.Keys <= Paths(live) && !exists p :: p in live && Lookup(Surviving(devices, live), p).id <= 0
  {
    if devices.Keys <= Paths(live) { assert Surviving(devices, live) == devices; }
  }

  /** Every live device has what it should be given, relative to the others. */
  ghost predicate AllRegistered(devices: map<string, Device>, updated: map<string, Device>, live: seq<string>) {
    forall p :: p in updated ==>
      Registered(Lookup(Surviving(devices, live), p), updated[p], UsedIds(updated), |Paths(live)|)
  }

  lemma ProgressDone(devices: map<string, Device>, live: seq<string>, merged: map<string, Device>)
    requires Progress(Surviving(devices, live), merged, Paths(live), |Paths(live)|)
    ensures Settled(merged, live) && AllRegistered(devices, merged, live)
    ensures NewIdsUnshared(Surviving(devices, live), merged, merged.Keys)
  {
  }

  /** After a full scan the registry holds exactly the live devices, each with an
      id of its own; a second call finds nothing to change. */
  method SyncDeviceRegistry(devices: map<string, Device>, live: seq<string>) returns (updated: map<string, Device>, changed: bool)
    ensures Settled(updated, live) && AllRegistered(devices, updated, live)
    ensures changed <==> !Settled(devices, live)
    ensures !changed ==> updated == devices
    ensures NewIdsUnshared(Surviving(devices, live), updated, updated.Keys)
    ensures DistinctIds(Surviving(devices, live)) ==> DistinctIds(updated)
  {
    var isLive := set p | p in live;
    var kept, pruned := Prune(devices, isLive);
    assert kept == Surviving(devices, live);
    var merged, gained := AssignIds(kept, live);
    SettledIff(devices, live);
    ProgressDone(devices, live, merged);
    changed := pruned || gained;
    if changed {
      updated := merged;
    } else {
      assert merged == kept == devices;
      updated := devices;
    }
  }
}
