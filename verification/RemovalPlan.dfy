/** The plan shown before a removal: the facts are read anew for the candidate
    paths, grouped by physical file, and a file counts only if the selection takes
    its last link. */
module RemovalPlan {
  import opened SetSums
  import opened Sorting
  import opened PathOrder
  import opened FileTopology
  import opened ReclaimEstimate
  import opened Unlinking

  /** What stat says about a path: absent, an error, a size without identity, or
      the physical facts. */
  datatype StatResult = Missing | Failed | Anonymous(size: nat) | Physical(size: nat, identity: Identity, links: nat)

  datatype Candidate = Candidate(path: Path, selected: bool)

  datatype Impact = Impact(device: nat, bytes: int)

  /** A candidate as the plan lists it. */
  datatype Listed = Listed(path: Path, selected: bool, found: bool, failed: bool, size: nat, identity: Option<Identity>, links: nat)

  datatype Plan = Plan(files: seq<Listed>, selectedBytes: int, reclaimable: int, impacts: seq<Impact>, missingHardlinks: bool)

  /** The paths of one physical file among the candidates. */
  datatype Group = Group(size: nat, links: nat, known: set<Path>, selected: set<Path>)

  function StatAt(stats: map<Path, StatResult>, p: Path): StatResult { if p in stats then stats[p] else Missing }

  function FilesOf(stats: map<Path, StatResult>): map<Path, File> {
    map p | p in stats && stats[p].Physical? :: File(p, stats[p].size, true, true, stats[p].identity, stats[p].links)
  }

  function PathsOf(candidates: seq<Candidate>): set<Path> { set c | c in candidates :: c.path }

  function SelectedPaths(candidates: seq<Candidate>): set<Path> { set c | c in candidates && c.selected :: c.path }

  /** A selected file without identity is counted at its size, each time it is
      listed. */
  function AnonymousBytes(stats: map<Path, StatResult>, candidates: seq<Candidate>): nat {
    if candidates == [] then 0
    else
      var c := candidates[|candidates| - 1];
      AnonymousBytes(stats, candidates[..|candidates| - 1])
        + if c.selected && StatAt(stats, c.path).Anonymous? then StatAt(stats, c.path).size else 0
  }

  function ListedAs(stats: map<Path, StatResult>, c: Candidate): Listed {
    match StatAt(stats, c.path)
    case Missing => Listed(c.path, c.selected, false, false, 0, None, 0)
    case Failed => Listed(c.path, c.selected, false, true, 0, None, 0)
    case Anonymous(size) => Listed(c.path, c.selected, true, false, size, None, 0)
    case Physical(size, identity, links) => Listed(c.path, c.selected, true, false, size, Some(identity), links)
  }

  function ListAll(stats: map<Path, StatResult>, candidates: seq<Candidate>): seq<Listed> {
    if candidates == [] then []
    else ListAll(stats, candidates[..|candidates| - 1]) + [ListedAs(stats, candidates[|candidates| - 1])]
  }

  /** The listed file says of the candidate what stat said. */
  predicate Tells(stats: map<Path, StatResult>, c: Candidate, f: Listed) {
    && f.path == c.path && f.selected == c.selected
    && match StatAt(stats, c.path)
       case Missing => !f.found && !f.failed
       case Failed => !f.found && f.failed
       case Anonymous(size) => f.found && !f.failed && f.size == size && f.identity == None
       case Physical(size, identity, links) => f.found && !f.failed && f.size == size && f.identity == Some(identity) && f.links == links
  }

  lemma {:induction false} AllAreTold(stats: map<Path, StatResult>, candidates: seq<Candidate>)
    ensures |ListAll(stats, candidates)| == |candidates|
    ensures forall i :: 0 <= i < |candidates| ==> Tells(stats, candidates[i], ListAll(stats, candidates)[i])
    decreases |candidates|
  {
    if candidates != [] { AllAreTold(stats, candidates[..|candidates| - 1]); }
  }

  /** Each candidate is told of in the list, and nothing else is. */
  ghost predicate TellsAll(stats: map<Path, StatResult>, candidates: seq<Candidate>, files: seq<Listed>) {
    && |files| == |candidates|
    && (forall c :: c in candidates ==> exists f :: f in files && Tells(stats, c, f))
    && (forall f :: f in files ==> exists c :: c in candidates && Tells(stats, c, f))
  }

  lemma PermutedTells(stats: map<Path, StatResult>, candidates: seq<Candidate>, files: seq<Listed>)
    requires multiset(files) == multiset(ListAll(stats, candidates))
    ensures TellsAll(stats, candidates, files)
  {
    var all := ListAll(stats, candidates);
    AllAreTold(stats, candidates);
    assert |files| == |multiset(files)| == |multiset(all)| == |all|;
    forall c | c in candidates
      ensures exists f :: f in files && Tells(stats, c, f)
    {
      var i :| 0 <= i < |candidates| && candidates[i] == c;
      assert all[i] in multiset(all);
      assert all[i] in files && Tells(stats, c, all[i]);
    }
    forall f | f in files
      ensures exists c :: c in candidates && Tells(stats, c, f)
    {
      assert f in multiset(files);
      var i :| 0 <= i < |all| && all[i] == f;
      assert candidates[i] in candidates;
    }
  }

  /** The bytes without identity add up over the list; one candidate brings its size if it
      is selected and stat knows no identity. */
  lemma {:induction false} AnonymousAdds(stats: map<Path, StatResult>, a: seq<Candidate>, b: seq<Candidate>)
    ensures AnonymousBytes(stats, a + b) == AnonymousBytes(stats, a) + AnonymousBytes(stats, b)
    ensures forall c: Candidate ::
      AnonymousBytes(stats, [c]) == (if c.selected && c.path in stats && stats[c.path].Anonymous? then stats[c.path].size else 0)
    decreases |b|
  {
    assert forall c: Candidate :: [c][..0] == [];
    if b == [] {
      assert a + b == a;
    } else {
      assert (a + b)[..|a + b| - 1] == a + b[..|b| - 1];
      AnonymousAdds(stats, a, b[..|b| - 1]);
    }
  }

  /** Selected files first, then by path. */
  predicate ShownFirst(a: Listed, b: Listed) {
    if a.selected != b.selected then a.selected else PathLe(a.path, b.path)
  }

  lemma ShownFirstIsOrder()
    ensures TotalPreorder(ShownFirst)
  {
    PathLeIsOrder();
    forall a, b
      ensures ShownFirst(a, b) || ShownFirst(b, a)
    {
      PathLeTotal(a.path, b.path);
    }
    forall a, b, c | ShownFirst(a, b) && ShownFirst(b, c)
      ensures ShownFirst(a, c)
    {
      if a.selected == b.selected == c.selected { PathLeTransitive(a.path, b.path, c.path); }
    }
  }

  function Physicals(files: map<Path, File>, paths: set<Path>, i: Identity): set<Path> {
    set p | p in paths && p in files && files[p].identity == i
  }

  /** What is recorded of one physical file: its candidate names and which of
      them are selected. */
  ghost predicate GroupAt(files: map<Path, File>, groups: map<Identity, Group>, known: set<Path>, selected: set<Path>, i: Identity) {
    if i !in groups then Physicals(files, known, i) == {}
    else
      && groups[i].known == Physicals(files, known, i) && groups[i].known != {}
      && groups[i].selected == Physicals(files, selected, i)
      && forall p :: p in groups[i].known ==> groups[i].size == files[p].size && groups[i].links == files[p].links
  }

  ghost predicate Grouped(files: map<Path, File>, groups: map<Identity, Group>, known: set<Path>, selected: set<Path>) {
    selected <= known && forall i :: GroupAt(files, groups, known, selected, i)
  }

  lemma PhysicalsMore(files: map<Path, File>, paths: set<Path>, p: Path, i: Identity)
    ensures Physicals(files, paths + {p}, i)
            == Physicals(files, paths, i) + (if p in files && files[p].identity == i then {p} else {})
  {
  }

  /** Group of the file named by a candidate, before that candidate is added. */
  function GroupBefore(groups: map<Identity, Group>, f: File): Group {
    if f.identity in groups then groups[f.identity] else Group(f.size, f.links, {}, {})
  }

  function WithCandidate(groups: map<Identity, Group>, f: File, c: Candidate): map<Identity, Group> {
    var g := GroupBefore(groups, f);
    groups[f.identity := g.(known := g.known + {c.path}, selected := if c.selected then g.selected + {c.path} else g.selected)]
  }

  lemma GroupStepAt(files: map<Path, File>, groups: map<Identity, Group>, known: set<Path>, selected: set<Path>, c: Candidate, i: Identity)
    requires Consistent(files) && Grouped(files, groups, known, selected)
    requires c.path in files && files[c.path].present && files[c.path].known
    requires forall p :: p in files ==> files[p].present && files[p].known
    ensures GroupAt(files, WithCandidate(groups, files[c.path], c), known + {c.path}, if c.selected then selected + {c.path} else selected, i)
  {
    var f := files[c.path];
    PhysicalsMore(files, known, c.path, i);
    PhysicalsMore(files, selected, c.path, i);
    assert GroupAt(files, groups, known, selected, i);
    if i == f.identity {
      assert Physicals(files, selected, i) <= Physicals(files, known, i);
      forall p | p in Physicals(files, known, i)
        ensures files[p].size == f.size && files[p].links == f.links
      {
        assert SameFile(files, p, c.path);
      }
    }
  }

  lemma GroupStep(files: map<Path, File>, groups: map<Identity, Group>, known: set<Path>, selected: set<Path>, c: Candidate)
    requires Consistent(files) && Grouped(files, groups, known, selected)
    requires forall p :: p in files ==> files[p].present && files[p].known
    ensures Grouped(files, if c.path in files then WithCandidate(groups, files[c.path], c) else groups,
                    known + {c.path}, if c.selected then selected + {c.path} else selected)
  {
    var selected' := if c.selected then selected + {c.path} else selected;
    var groups' := if c.path in files then WithCandidate(groups, files[c.path], c) else groups;
    forall i
      ensures GroupAt(files, groups', known + {c.path}, selected', i)
    {
      if c.path in files {
        GroupStepAt(files, groups, known, selected, c, i);
      } else {
        PhysicalsMore(files, known, c.path, i);
        PhysicalsMore(files, selected, c.path, i);
        assert GroupAt(files, groups, known, selected, i);
      }
    }
  }

  /** First pass: every candidate is stated and filed under its physical file. */
  method GroupCandidates(stats: map<Path, StatResult>, candidates: seq<Candidate>) returns (groups: map<Identity, Group>, anonymous: nat, files: seq<Listed>)
    requires Consistent(FilesOf(stats))
    ensures Grouped(FilesOf(stats), groups, PathsOf(candidates), SelectedPaths(candidates))
    ensures anonymous == AnonymousBytes(stats, candidates) && files == ListAll(stats, candidates)
  {
    groups, anonymous, files := map[], 0, [];
    ghost var facts := FilesOf(stats);
    ghost var known: set<Path>, selected: set<Path> := {}, {};
    for n := 0 to |candidates|
      invariant Grouped(facts, groups, known, selected)
      invariant known == PathsOf(candidates[..n]) && selected == SelectedPaths(candidates[..n])
      invariant anonymous == AnonymousBytes(stats, candidates[..n]) && files == ListAll(stats, candidates[..n])
    {
      var c := candidates[n];
      MemberStep(candidates, n);
      assert candidates[..n + 1][..n] == candidates[..n];
      GroupStep(facts, groups, known, selected, c);
      files := files + [ListedAs(stats, c)];
      match StatAt(stats, c.path) {
        case Missing =>
        case Failed =>
        case Anonymous(size) =>
          if c.selected { anonymous := anonymous + size; }
        case Physical(size, identity, links) =>
          var g := if identity in groups then groups[identity] else Group(size, links, {}, {});
          g := g.(known := g.known + {c.path});
          if c.selected { g := g.(selected := g.selected + {c.path}); }
          groups := groups[identity := g];
      }
      known, selected := known + {c.path}, if c.selected then selected + {c.path} else selected;
    }
    assert candidates[..|candidates|] == candidates;
  }

  // ------------------------------------------------------------ second pass

  /** The selection takes the last link. */
  predicate RemovesFinalLink(g: Group) { g.links > 0 && |g.selected| >= g.links }

  ghost function FinalBytes(groups: map<Identity, Group>): Identity -> int {
    i => if i in groups && RemovesFinalLink(groups[i]) then groups[i].size else 0
  }

  lemma FinalBytesAreGains(files: map<Path, File>, groups: map<Identity, Group>, known: set<Path>, selected: set<Path>, i: Identity)
    requires Consistent(files) && Grouped(files, groups, known, selected) && i in groups
    requires forall p :: p in files ==> files[p].present && files[p].known
    ensures FinalBytes(groups)(i) == Gain(files, selected, i)
  {
    assert GroupAt(files, groups, known, selected, i);
    var p :| p in groups[i].known;
    if groups[i].links > 0 {
      FactsAgree(files, p);
      forall q | q in Physicals(files, selected, i)
        ensures Countable(files, q)
      {
        assert SameFile(files, p, q);
      }
      assert NamesOf(files, selected, i) == groups[i].selected;
    } else {
      forall q | q in Physicals(files, selected, i)
        ensures !Countable(files, q)
      {
        assert SameFile(files, p, q);
      }
      assert NamesOf(files, selected, i) == {};
    }
  }

  /** The second pass over all groups gives the estimate of the selected paths. */
  lemma GroupsSumToEstimate(files: map<Path, File>, groups: map<Identity, Group>, known: set<Path>, selected: set<Path>)
    requires Consistent(files) && Grouped(files, groups, known, selected)
    requires forall p :: p in files ==> files[p].present && files[p].known
    ensures Sum(groups.Keys, FinalBytes(groups)) == Reclaimable(files, selected)
  {
    forall i | i in Touched(files, selected)
      ensures i in groups
    {
      TouchedIff(files, selected, i);
      var p :| p in NamesOf(files, selected, i);
      assert p in Physicals(files, known, i);
      assert GroupAt(files, groups, known, selected, i);
    }
    ReclaimableOver(files, selected, groups.Keys);
    forall i | i in groups.Keys
      ensures FinalBytes(groups)(i) == GainBy(files, selected)(i)
    {
      FinalBytesAreGains(files, groups, known, selected, i);
    }
    SumSame(groups.Keys, FinalBytes(groups), GainBy(files, selected));
  }

  ghost function OnDevice(identities: set<Identity>, d: nat): set<Identity> { set i | i in identities && i.device == d }

  ghost function BytesOf(byDevice: map<nat, int>): nat -> int { d => if d in byDevice then byDevice[d] else 0 }

  /** The bytes of each device with a file whose last link goes. */
  ghost predicate PerDevice(groups: map<Identity, Group>, byDevice: map<nat, int>, done: set<Identity>) {
    && (forall d :: d in byDevice <==> exists i :: i in done && i in groups && i.device == d && RemovesFinalLink(groups[i]))
    && (forall d :: BytesOf(byDevice)(d) == Sum(OnDevice(done, d), FinalBytes(groups)))
  }

  lemma DeviceStep(groups: map<Identity, Group>, byDevice: map<nat, int>, done: set<Identity>, i: Identity)
    requires PerDevice(groups, byDevice, done) && i in groups && i !in done
    ensures PerDevice(groups, WithImpact(groups, byDevice, i), done + {i})
  {
    var after := WithImpact(groups, byDevice, i);
    forall d
      ensures BytesOf(after)(d) == Sum(OnDevice(done + {i}, d), FinalBytes(groups))
    {
      assert BytesOf(byDevice)(d) == Sum(OnDevice(done, d), FinalBytes(groups));
      if d == i.device {
        assert OnDevice(done + {i}, d) == OnDevice(done, d) + {i};
        SumInsert(OnDevice(done, d), FinalBytes(groups), i);
      } else {
        assert OnDevice(done + {i}, d) == OnDevice(done, d);
      }
    }
    forall d
      ensures d in after <==> exists j :: j in done + {i} && j in groups && j.device == d && RemovesFinalLink(groups[j])
    {
      assert d in byDevice <==> exists j :: j in done && j in groups && j.device == d && RemovesFinalLink(groups[j]);
      if d in after && d !in byDevice { assert i in done + {i} && i.device == d; }
      if j :| j in done && j in groups && j.device == d && RemovesFinalLink(groups[j]) { assert j in done + {i}; }
    }
  }

  function WithImpact(groups: map<Identity, Group>, byDevice: map<nat, int>, i: Identity): map<nat, int>
    requires i in groups
  {
    if RemovesFinalLink(groups[i]) then byDevice[i.device := (if i.device in byDevice then byDevice[i.device] else 0) + groups[i].size]
    else byDevice
  }

  /** Adding to one device adds to the sum over devices. */
  lemma ImpactTotal(groups: map<Identity, Group>, byDevice: map<nat, int>, i: Identity)
    requires i in groups
    ensures var after := WithImpact(groups, byDevice, i);
      Sum(after.Keys, BytesOf(after)) == Sum(byDevice.Keys, BytesOf(byDevice)) + FinalBytes(groups)(i)
  {
    var after := WithImpact(groups, byDevice, i);
    if RemovesFinalLink(groups[i]) {
      var rest := byDevice.Keys - {i.device};
      SumRemove(after.Keys, BytesOf(after), i.device);
      assert after.Keys - {i.device} == rest;
      SumSame(rest, BytesOf(after), BytesOf(byDevice));
      if i.device in byDevice { SumRemove(byDevice.Keys, BytesOf(byDevice), i.device); } else { assert rest == byDevice.Keys; }
    }
  }

  ghost predicate Accounted(groups: map<Identity, Group>, done: set<Identity>, reclaimable: int, byDevice: map<nat, int>) {
    && reclaimable == Sum(done, FinalBytes(groups))
    && reclaimable == Sum(byDevice.Keys, BytesOf(byDevice))
    && PerDevice(groups, byDevice, done)
  }

  lemma AccountStep(groups: map<Identity, Group>, done: set<Identity>, reclaimable: int, byDevice: map<nat, int>, i: Identity)
    requires Accounted(groups, done, reclaimable, byDevice) && i in groups && i !in done
    ensures Accounted(groups, done + {i}, reclaimable + FinalBytes(groups)(i), WithImpact(groups, byDevice, i))
  {
    SumInsert(done, FinalBytes(groups), i);
    ImpactTotal(groups, byDevice, i);
    DeviceStep(groups, byDevice, done, i);
  }

  /** Some name of one of these files is not among the candidates. */
  ghost predicate Unlocated(groups: map<Identity, Group>, done: set<Identity>) {
    exists i :: i in done && i in groups && groups[i].links > |groups[i].known|
  }

  lemma UnlocatedStep(groups: map<Identity, Group>, todo: set<Identity>, i: Identity)
    requires todo <= groups.Keys && i in todo
    ensures groups.Keys - (todo - {i}) == groups.Keys - todo + {i}
    ensures Unlocated(groups, groups.Keys - (todo - {i})) <==>
      Unlocated(groups, groups.Keys - todo) || groups[i].links > |groups[i].known|
  {
    assert groups.Keys - (todo - {i}) == groups.Keys - todo + {i};
    if groups[i].links > |groups[i].known| { assert i in groups.Keys - todo + {i}; }
  }

  method FinalLink(g: Group, i: Identity, reclaimable: int, byDevice: map<nat, int>, ghost groups: map<Identity, Group>)
    returns (more: int, after: map<nat, int>)
    requires i in groups && groups[i] == g
    ensures more == reclaimable + FinalBytes(groups)(i) && after == WithImpact(groups, byDevice, i)
  {
    more, after := reclaimable, byDevice;
    if g.links > 0 && |g.selected| >= g.links {
      more := more + g.size;
      after := after[i.device := (if i.device in after then after[i.device] else 0) + g.size];
    }
  }

  lemma AccountNothing(groups: map<Identity, Group>)
    ensures Accounted(groups, {}, 0, map[])
  {
    assert forall d :: OnDevice({}, d) == {};
  }

  method NextFile(groups: map<Identity, Group>, todo: set<Identity>, reclaimable: int, byDevice: map<nat, int>, missing: bool)
    returns (rest: set<Identity>, more: int, after: map<nat, int>, anyMissing: bool)
    requires {} != todo <= groups.Keys && Accounted(groups, groups.Keys - todo, reclaimable, byDevice)
    requires missing <==> Unlocated(groups, groups.Keys - todo)
    ensures rest < todo && Accounted(groups, groups.Keys - rest, more, after)
    ensures anyMissing <==> Unlocated(groups, groups.Keys - rest)
  {
    var i :| i in todo;
    UnlocatedStep(groups, todo, i);
    AccountStep(groups, groups.Keys - todo, reclaimable, byDevice, i);
    anyMissing := missing || groups[i].links > |groups[i].known|;
    more, after := FinalLink(groups[i], i, reclaimable, byDevice, groups);
    rest := todo - {i};
  }

  /** Second pass: bytes whose last link goes, in total and per device. */
  method FinalLinks(groups: map<Identity, Group>) returns (reclaimable: int, byDevice: map<nat, int>, missing: bool)
    ensures Accounted(groups, groups.Keys, reclaimable, byDevice)
    ensures missing <==> Unlocated(groups, groups.Keys)
  {
    reclaimable, byDevice, missing := 0, map[], false;
    var todo := groups.Keys;
    AccountNothing(groups);
    assert groups.Keys - todo == {};
    while todo != {}
      invariant todo <= groups.Keys
      invariant Accounted(groups, groups.Keys - todo, reclaimable, byDevice)
      invariant missing <==> Unlocated(groups, groups.Keys - todo)
      decreases todo
    {
      todo, reclaimable, byDevice, missing := NextFile(groups, todo, reclaimable, byDevice, missing);
    }
    assert groups.Keys - todo == groups.Keys;
  }

  // ----------------------------------------------------------------- impacts

  function ImpactBytes(impacts: seq<Impact>): int {
    if impacts == [] then 0 else impacts[0].bytes + ImpactBytes(impacts[1..])
  }

  ghost predicate ListsDevices(impacts: seq<Impact>, byDevice: map<nat, int>, devices: set<nat>) {
    && Distinct(impacts)
    && (forall x :: x in impacts <==> x.device in devices && x.device in byDevice && x.bytes == byDevice[x.device])
  }

  lemma {:induction false} ImpactsAddUp(impacts: seq<Impact>, byDevice: map<nat, int>, devices: set<nat>)
    requires ListsDevices(impacts, byDevice, devices) && devices <= byDevice.Keys
    ensures ImpactBytes(impacts) == Sum(devices, BytesOf(byDevice))
    decreases |impacts|
  {
    if impacts == [] {
      assert forall d :: d in devices ==> Impact(d, byDevice[d]) in impacts;
      assert devices == {};
    } else {
      var x := impacts[0];
      assert x in impacts;
      forall y
        ensures y in impacts[1..] <==> y.device in devices - {x.device} && y.device in byDevice && y.bytes == byDevice[y.device]
      {
        assert y in impacts <==> y == x || y in impacts[1..];
      }
      assert Distinct(impacts[1..]);
      ImpactsAddUp(impacts[1..], byDevice, devices - {x.device});
      SumRemove(devices, BytesOf(byDevice), x.device);
    }
  }

  /** The devices in ascending order, each once. */
  method ListImpacts(byDevice: map<nat, int>) returns (impacts: seq<Impact>)
    ensures ListsDevices(impacts, byDevice, byDevice.Keys)
    ensures forall i, j :: 0 <= i < j < |impacts| ==> impacts[i].device < impacts[j].device
  {
    impacts := [];
    var todo := byDevice.Keys;
    while todo != {}
      invariant todo <= byDevice.Keys
      invariant ListsDevices(impacts, byDevice, byDevice.Keys - todo)
      decreases |todo|
    {
      var d :| d in todo;
      todo := todo - {d};
      assert Impact(d, byDevice[d]) !in impacts;
      impacts := impacts + [Impact(d, byDevice[d])];
    }
    var order := (x: Impact, y: Impact) => x.device <= y.device;
    SortContents(order, impacts);
    SortDistinct(order, impacts);
    SortSorted(order, impacts);
    impacts := Sort(order, impacts);
    forall i, j | 0 <= i < j < |impacts|
      ensures impacts[i].device < impacts[j].device
    {
      assert order(impacts[i], impacts[j]) && impacts[i] in impacts && impacts[j] in impacts && impacts[i] != impacts[j];
    }
  }

  // -------------------------------------------------------------------- build

  /** The bytes that removing the selected paths frees on one device. */
  ghost function FreedOn(files: map<Path, File>, known: set<Path>, selected: set<Path>, d: nat): int {
    Sum(OnDevice(Touched(files, known), d), GainBy(files, selected))
  }

  /** Some link of a file among the candidates is not a candidate itself. */
  ghost predicate LinkNotFound(files: map<Path, File>, known: set<Path>) {
    exists p :: p in known && p in files && files[p].links > |Physicals(files, known, files[p].identity)|
  }

  lemma UnlocatedIffNotFound(files: map<Path, File>, groups: map<Identity, Group>, known: set<Path>, selected: set<Path>)
    requires Grouped(files, groups, known, selected)
    ensures Unlocated(groups, groups.Keys) <==> LinkNotFound(files, known)
  {
    if Unlocated(groups, groups.Keys) {
      var i :| i in groups && groups[i].links > |groups[i].known|;
      assert GroupAt(files, groups, known, selected, i);
      var p :| p in groups[i].known;
      assert p in known && p in files && files[p].identity == i;
    }
    if LinkNotFound(files, known) {
      var p :| p in known && p in files && files[p].links > |Physicals(files, known, files[p].identity)|;
      var i := files[p].identity;
      assert p in Physicals(files, known, i) && GroupAt(files, groups, known, selected, i);
    }
  }

  /** The devices listed are those that lose bytes, each with what it loses. */
  ghost predicate Impacts(impacts: seq<Impact>, files: map<Path, File>, known: set<Path>, selected: set<Path>) {
    && (forall i, j :: 0 <= i < j < |impacts| ==> impacts[i].device < impacts[j].device)
    && (forall x :: x in impacts ==> x.bytes == FreedOn(files, known, selected, x.device))
    && (forall d :: FreedOn(files, known, selected, d) != 0 ==> exists x :: x in impacts && x.device == d)
  }

  lemma ImpactsListed(impacts: seq<Impact>, byDevice: map<nat, int>, files: map<Path, File>, groups: map<Identity, Group>, known: set<Path>, selected: set<Path>)
    requires Consistent(files) && Grouped(files, groups, known, selected)
    requires forall p :: p in files ==> files[p].present && files[p].known
    requires ListsDevices(impacts, byDevice, byDevice.Keys) && PerDevice(groups, byDevice, groups.Keys)
    requires forall i, j :: 0 <= i < j < |impacts| ==> impacts[i].device < impacts[j].device
    ensures Impacts(impacts, files, known, selected)
  {
    forall d: nat
      ensures BytesOf(byDevice)(d) == FreedOn(files, known, selected, d)
    {
      DeviceGains(files, groups, known, selected, d);
    }
    forall d: nat | FreedOn(files, known, selected, d) != 0
      ensures exists x :: x in impacts && x.device == d
    {
      assert BytesOf(byDevice)(d) != 0;
      assert Impact(d, byDevice[d]) in impacts;
    }
    forall x | x in impacts
      ensures x.bytes == FreedOn(files, known, selected, x.device)
    {
      assert BytesOf(byDevice)(x.device) == x.bytes;
    }
  }

  /** The plan's numbers are the estimate of the selected paths, the impacts list
      what each device loses and add up to it, and the warning is shown exactly
      when a link was not among the candidates. */
  method Build(stats: map<Path, StatResult>, candidates: seq<Candidate>) returns (plan: Plan)
    requires Consistent(FilesOf(stats))
    ensures plan.reclaimable == Reclaimable(FilesOf(stats), SelectedPaths(candidates))
    ensures plan.reclaimable == ImpactBytes(plan.impacts)
    ensures plan.selectedBytes == plan.reclaimable + AnonymousBytes(stats, candidates)
    ensures Impacts(plan.impacts, FilesOf(stats), PathsOf(candidates), SelectedPaths(candidates))
    ensures plan.missingHardlinks <==> LinkNotFound(FilesOf(stats), PathsOf(candidates))
    ensures multiset(plan.files) == multiset(ListAll(stats, candidates)) && SortedBy(ShownFirst, plan.files)
    ensures TellsAll(stats, candidates, plan.files)
  {
    var groups, anonymous, files := GroupCandidates(stats, candidates);
    ghost var known, selected := PathsOf(candidates), SelectedPaths(candidates);
    GroupsSumToEstimate(FilesOf(stats), groups, known, selected);
    UnlocatedIffNotFound(FilesOf(stats), groups, known, selected);
    var reclaimable, byDevice, missing := FinalLinks(groups);
    var impacts := ListImpacts(byDevice);
    ImpactsAddUp(impacts, byDevice, byDevice.Keys);
    ImpactsListed(impacts, byDevice, FilesOf(stats), groups, known, selected);
    ShownFirstIsOrder();
    SortContents(ShownFirst, files);
    SortSorted(ShownFirst, files);
    PermutedTells(stats, candidates, Sort(ShownFirst, files));
    plan := Plan(Sort(ShownFirst, files), reclaimable + anonymous, reclaimable, impacts, missing);
  }

  lemma DeviceGains(files: map<Path, File>, groups: map<Identity, Group>, known: set<Path>, selected: set<Path>, d: nat)
    requires Consistent(files) && Grouped(files, groups, known, selected)
    requires forall p :: p in files ==> files[p].present && files[p].known
    ensures Sum(OnDevice(groups.Keys, d), FinalBytes(groups)) == FreedOn(files, known, selected, d)
  {
    forall i | i in OnDevice(groups.Keys, d)
      ensures FinalBytes(groups)(i) == GainBy(files, selected)(i)
    {
      FinalBytesAreGains(files, groups, known, selected, i);
    }
    SumSame(OnDevice(groups.Keys, d), FinalBytes(groups), GainBy(files, selected));
    forall i | i in Touched(files, known)
      ensures i in groups
    {
      TouchedIff(files, known, i);
      var p :| p in NamesOf(files, known, i);
      assert p in Physicals(files, known, i) && GroupAt(files, groups, known, selected, i);
    }
    forall i | i in OnDevice(groups.Keys, d) && i !in OnDevice(Touched(files, known), d)
      ensures GainBy(files, selected)(i) == 0
    {
      TouchedIff(files, selected, i);
      TouchedMonotone(files, selected, known);
    }
    SumNarrow(OnDevice(Touched(files, known), d), OnDevice(groups.Keys, d), GainBy(files, selected));
  }

  /** What the plan shows is what removing the selected paths frees: unlinking them
      in any order gives exactly the reclaimable bytes of the plan. */
  lemma PlanIsFreed(stats: map<Path, StatResult>, candidates: seq<Candidate>, d: Disk, order: seq<Path>)
    requires Sane(d) && Describes(FilesOf(stats), d) && SelectedPaths(candidates) <= FilesOf(stats).Keys
    requires Permutes(order, SelectedPaths(candidates))
    ensures UnlinkAll(d, order).1 == Reclaimable(FilesOf(stats), SelectedPaths(candidates))
    ensures Consistent(FilesOf(stats))
  {
    DescribedIsConsistent(FilesOf(stats), d);
    ReclaimableIsFreed(FilesOf(stats), d, order, SelectedPaths(candidates));
  }

  /** The estimate made from the last walk and the plan made from fresh facts agree
      while the disk is the same. */
  lemma PlanIsEstimate(files: map<Path, File>, stats: map<Path, StatResult>, candidates: seq<Candidate>, d: Disk, order: seq<Path>)
    requires Sane(d) && Describes(files, d) && Describes(FilesOf(stats), d)
    requires SelectedPaths(candidates) <= files.Keys && SelectedPaths(candidates) <= FilesOf(stats).Keys
    requires Permutes(order, SelectedPaths(candidates))
    ensures Reclaimable(files, SelectedPaths(candidates)) == Reclaimable(FilesOf(stats), SelectedPaths(candidates))
  {
    ReclaimableIsFreed(files, d, order, SelectedPaths(candidates));
    PlanIsFreed(stats, candidates, d, order);
  }
}
