/** When a catalog split exists, and that it keeps whole seed families apart. */
module CatalogSplitGuarantees {
  import opened Prelude
  import opened Ordering
  import opened Listing
  import opened CatalogSplit

  /** What a caller can check beforehand. */
  predicate Fits(dataset: seq<Seed>, c: int, f: int, h: int) {
    && c >= 1 && f >= 1 && h >= 1
    && c + f + h < |dataset|
    && |SafetyIds(dataset)| <= c
  }

  function Joined<T>(a: Allocation<T>): seq<T> {
    a.calibration + a.frozen + a.heldOut + a.candidate
  }

  // ---------------------------------------------------------------- ids

  lemma Rearranged<T(!new)>(ids: seq<T>, other: seq<T>)
    requires Distinct(ids) && |other| == |ids| && forall x :: x in ids <==> x in other
    ensures Distinct(other) && SetOf(other) == SetOf(ids)
  {
    assert SetOf(other) == SetOf(ids);
  }

  lemma IdsMembers(seeds: seq<Seed>)
    ensures forall x :: x in Ids(seeds) <==> exists s :: s in seeds && s.seedId == x
  {
    forall x | x in Ids(seeds) ensures exists s :: s in seeds && s.seedId == x {
      var i :| 0 <= i < |seeds| && Ids(seeds)[i] == x;
      assert seeds[i] in seeds;
    }
  }

  /** The ids of all seeds, sorted, are those of the safety seeds and those of the selection seeds. */
  lemma IdsOfModes(seeds: seq<Seed>)
    ensures |SafetyIds(seeds)| + |SelectionIds(seeds)| == |seeds|
    ensures forall x :: x in Ids(seeds) <==> x in SafetyIds(seeds) || x in SelectionIds(seeds)
  {
    ModesSplit(seeds);
    IdsMembers(seeds);
    IdsMembers(OfMode(seeds, true));
    IdsMembers(OfMode(seeds, false));
    forall x | x in Ids(seeds) ensures x in SafetyIds(seeds) || x in SelectionIds(seeds) {
      var s :| s in seeds && s.seedId == x;
      assert s in OfMode(seeds, s.safety);
    }
  }

  lemma IdsOfSorted(dataset: seq<Seed>)
    requires Distinct(Ids(dataset))
    ensures |SortById(dataset)| == |dataset|
    ensures Distinct(Ids(SortById(dataset))) && SetOf(Ids(SortById(dataset))) == SetOf(Ids(dataset))
  {
    SortKeeps(dataset, ById);
    IdsMembers(dataset);
    IdsMembers(SortById(dataset));
    Rearranged(Ids(dataset), Ids(SortById(dataset)));
  }

  /** Sorting does not change how many seeds are safety seeds. */
  lemma {:induction false} InsertKeepsSafety(seed: Seed, sorted: seq<Seed>)
    ensures |OfMode(Insert(seed, sorted, ById), true)| == |OfMode(sorted, true)| + (if seed.safety then 1 else 0)
  {
    var r := Insert(seed, sorted, ById);
    if sorted != [] && !ById(seed, sorted[0]) {
      InsertKeepsSafety(seed, sorted[1..]);
      assert r[1..] == Insert(seed, sorted[1..], ById);
    } else {
      assert r[1..] == sorted;
    }
  }

  lemma {:induction false} SortKeepsSafety(seeds: seq<Seed>)
    ensures |SafetyIds(SortById(seeds))| == |SafetyIds(seeds)|
  {
    if seeds != [] {
      SortKeepsSafety(seeds[1..]);
      InsertKeepsSafety(seeds[0], SortById(seeds[1..]));
    }
  }

  // ---------------------------------------------------------------- the allocation

  lemma LeftoverCompletes<T(!new)>(ids: seq<T>, all: seq<T>, n: nat, candidate: seq<T>)
    requires Distinct(ids) && Distinct(all) && SetOf(all) == SetOf(ids) && |all| == |ids| && n <= |ids|
    requires candidate == Without(ids, SetOf(all[..n]))
    ensures |candidate| == |ids| - n
    ensures Distinct(all[..n] + candidate) && SetOf(all[..n] + candidate) == SetOf(ids)
  {
    var front, joined := SetOf(all[..n]), all[..n] + candidate;
    DistinctPrefix(all, n);
    WithoutIs(ids, front);
    assert |SetOf(ids)| == |SetOf(ids) - front| + |front|;
    assert SetOf(joined) == front + SetOf(candidate);
  }

  /** The four lists have the requested sizes and together list every id once, safety ids first. */
  predicate AllocatedWell<T(==, !new)>(a: Allocation<T>, ids: seq<T>, safety: seq<T>, c: int, f: int, h: int) {
    && |a.calibration| == c && |a.frozen| == f && |a.heldOut| == h && |a.candidate| == |ids| - c - f - h > 0
    && Distinct(Joined(a)) && SetOf(Joined(a)) == SetOf(ids)
    && safety <= a.calibration
  }

  lemma ThreeSlices<T(!new)>(s: seq<T>, i: nat, j: nat, k: nat)
    requires i <= j <= k <= |s|
    ensures s[..k] == s[..i] + s[i..j] + s[j..k]
    ensures SetOf(s[..k]) == SetOf(s[..i]) + SetOf(s[i..j]) + SetOf(s[j..k])
  {
  }

  lemma LeftoverOfCuts<T(!new)>(ids: seq<T>, all: seq<T>, i: nat, j: nat, k: nat)
    requires i <= j <= k <= |ids|
    requires Distinct(ids) && Distinct(all) && SetOf(all) == SetOf(ids) && |all| == |ids|
    ensures var t := Cuts(all, i, j, k);
            var candidate := Without(ids, t.Ids());
            && |candidate| == |ids| - k
            && Distinct(t.calibration + t.frozen + t.heldOut + candidate)
            && SetOf(t.calibration + t.frozen + t.heldOut + candidate) == SetOf(ids)
  {
    ThreeSlices(all, i, j, k);
    LeftoverCompletes(ids, all, k, Without(ids, Cuts(all, i, j, k).Ids()));
  }

  lemma CutsComplete<T(!new)>(ids: seq<T>, all: seq<T>, c: nat, f: nat, h: nat)
    requires c + f + h < |ids|
    requires Distinct(ids) && Distinct(all) && SetOf(all) == SetOf(ids) && |all| == |ids|
    ensures var r := Complete(ids, Cuts(all, c, c + f, c + f + h), f, h);
            && r.Ok? && |r.value.candidate| == |ids| - c - f - h
            && r.value.calibration == all[..c] && |r.value.frozen| == f && |r.value.heldOut| == h
            && Distinct(Joined(r.value)) && SetOf(Joined(r.value)) == SetOf(ids)
  {
    LeftoverOfCuts(ids, all, c, c + f, c + f + h);
  }

  lemma AllocationSucceeds<T(!new)>(ids: seq<T>, safety: seq<T>, selection: seq<T>, c: int, f: int, h: int)
    requires Distinct(ids) && |safety| + |selection| == |ids|
    requires forall x :: x in ids <==> x in safety || x in selection
    requires c >= 1 && f >= 1 && h >= 1 && c + f + h < |ids| && |safety| <= c
    ensures var r := Allocate(ids, safety, selection, c, f, h);
            r.Ok? && AllocatedWell(r.value, ids, safety, c, f, h)
  {
    var all := safety + selection;
    Rearranged(ids, all) by {
      assert forall x :: x in all <==> x in safety || x in selection;
    }
    TakeIsConsecutive(safety, selection, c, f, h);
    CutsComplete(ids, all, c, f, h);
    assert safety <= all[..c];
  }

  // ---------------------------------------------------------------- scenarios

  lemma {:induction false} ScenarioOrigin(seeds: seq<Seed>, s: Scenario)
    ensures s in ScenariosOf(seeds) <==> s.seedId in Ids(seeds) && s in ScenariosOfSeed(s.seedId)
  {
    if seeds != [] {
      ScenarioOrigin(seeds[1..], s);
      assert Ids(seeds) == [seeds[0].seedId] + Ids(seeds[1..]);
    }
  }

  /** The id of a scenario tells which seed it belongs to. */
  lemma ScenarioIdTellsSeed(a: Scenario, b: Scenario)
    requires a in ScenariosOfSeed(a.seedId) && b in ScenariosOfSeed(b.seedId) && a.scenarioId == b.scenarioId
    ensures a == b
  {
    var i :| 0 <= i < 3 && a == ScenariosOfSeed(a.seedId)[i];
    var j :| 0 <= j < 3 && b == ScenariosOfSeed(b.seedId)[j];
    var x := a.scenarioId;
    assert x[|x| - 1] == ['l', 't', 'e'][i] && x[|x| - 1] == ['l', 't', 'e'][j];
    assert a.seedId == x[..|a.seedId|] && b.seedId == x[..|b.seedId|];
  }

  lemma {:induction false} ScenarioIdsForMembers(scenarios: seq<Scenario>, seeds: set<string>, x: string)
    ensures x in ScenarioIdsFor(scenarios, seeds)
       <==> exists s :: s in scenarios && s.seedId in seeds && s.scenarioId == x
  {
    if scenarios != [] {
      ScenarioIdsForMembers(scenarios[1..], seeds, x);
      assert scenarios == [scenarios[0]] + scenarios[1..];
    }
  }

  lemma {:induction false} ScenarioIdsForAppend(a: seq<Scenario>, b: seq<Scenario>, seeds: set<string>)
    ensures ScenarioIdsFor(a + b, seeds) == ScenarioIdsFor(a, seeds) + ScenarioIdsFor(b, seeds)
  {
    if a == [] {
      assert a + b == b;
    } else {
      ScenarioIdsForAppend(a[1..], b, seeds);
      assert (a + b)[1..] == a[1..] + b && (a + b)[0] == a[0];
      assert ScenarioIdsFor(a + b, seeds)
          == if a[0].seedId in seeds then [a[0].scenarioId] + ScenarioIdsFor(a[1..] + b, seeds)
             else ScenarioIdsFor(a[1..] + b, seeds);
    }
  }

  lemma ScenarioIdsForOne(seedId: string, seeds: set<string>)
    ensures |ScenarioIdsFor(ScenariosOfSeed(seedId), seeds)| == if seedId in seeds then 3 else 0
  {
    var s := ScenariosOfSeed(seedId);
    var t := s[1..];
    assert t[1..] == [s[2]];
    assert |ScenarioIdsFor([s[2]], seeds)| == if seedId in seeds then 1 else 0;
    assert |ScenarioIdsFor(t, seeds)| == if seedId in seeds then 2 else 0;
  }

  lemma {:induction false} ThreeEach(dataset: seq<Seed>, seeds: set<string>)
    ensures |ScenarioIdsFor(ScenariosOf(dataset), seeds)| + 3 * |Without(Ids(dataset), seeds)| == 3 * |dataset|
  {
    if dataset != [] {
      ThreeEach(dataset[1..], seeds);
      var id := dataset[0].seedId;
      ScenarioIdsForAppend(ScenariosOfSeed(id), ScenariosOf(dataset[1..]), seeds);
      ScenarioIdsForOne(id, seeds);
      assert Ids(dataset) == [id] + Ids(dataset[1..]);
    }
  }

  lemma FamiliesAreWhole(dataset: seq<Seed>, seedIds: seq<string>)
    requires Distinct(Ids(dataset)) && Distinct(seedIds) && SetOf(seedIds) <= SetOf(Ids(dataset))
    ensures |ScenarioIdsFor(ScenariosOf(dataset), SetOf(seedIds))| == 3 * |seedIds|
  {
    ThreeEach(dataset, SetOf(seedIds));
    WithoutIs(Ids(dataset), SetOf(seedIds));
    assert |SetOf(Ids(dataset)) - SetOf(seedIds)| == |SetOf(Ids(dataset))| - |SetOf(seedIds)|;
  }

  /** What the dataset's scenarios have to do with its seeds. */
  ghost predicate OfSeeds(scenarios: seq<Scenario>, ids: set<string>) {
    && (forall s :: s in scenarios ==> s.seedId in ids)
    && (forall s, t :: s in scenarios && t in scenarios && s.scenarioId == t.scenarioId ==> s.seedId == t.seedId)
    && (forall some: seq<string> :: Distinct(some) && SetOf(some) <= ids ==>
          |ScenarioIdsFor(scenarios, SetOf(some))| == 3 * |some|)
  }

  lemma DatasetScenarios(dataset: seq<Seed>)
    requires Distinct(Ids(dataset))
    ensures OfSeeds(ScenariosOf(dataset), SetOf(Ids(dataset)))
  {
    var scenarios := ScenariosOf(dataset);
    forall s | s in scenarios ensures s.seedId in SetOf(Ids(dataset)) {
      ScenarioOrigin(dataset, s);
    }
    forall s, t | s in scenarios && t in scenarios && s.scenarioId == t.scenarioId ensures s.seedId == t.seedId {
      ScenarioOrigin(dataset, s);
      ScenarioOrigin(dataset, t);
      ScenarioIdTellsSeed(s, t);
    }
    forall some: seq<string> | Distinct(some) && SetOf(some) <= SetOf(Ids(dataset))
      ensures |ScenarioIdsFor(scenarios, SetOf(some))| == 3 * |some|
    {
      FamiliesAreWhole(dataset, some);
    }
  }

  /** What one partition holds: its whole seed families, three scenarios each. */
  predicate HoldsFamilies(p: Partition, name: SplitName, seedIds: seq<string>, scenarios: seq<Scenario>) {
    && p.name == name && p.seedIds == seedIds
    && |p.scenarioIds| == 3 * |seedIds|
    && p.scenarioIds == ScenarioIdsFor(scenarios, SetOf(seedIds))
  }

  lemma {:induction false} MakePartitionsMakesEach(lists: seq<seq<string>>, scenarios: seq<Scenario>, n: nat)
    requires n <= |lists| == |NAMES|
    requires forall i :: 0 <= i < n ==> MakePartition(NAMES[i], lists[i], scenarios).Ok?
    ensures var r := MakePartitions(lists, scenarios, n);
            && r.Ok? && |r.value| == n
            && forall i :: 0 <= i < n ==> MakePartition(NAMES[i], lists[i], scenarios) == Ok(r.value[i])
  {
    if n > 0 {
      MakePartitionsMakesEach(lists, scenarios, n - 1);
    }
  }

  // ---------------------------------------------------------------- the manifest

  lemma ListPosition<T(!new)>(a: Allocation<T>, i: nat, x: T) returns (k: nat)
    requires i < 4 && x in Lists(a)[i]
    ensures Offset(a, i) <= k < Offset(a, i) + |Lists(a)[i]| <= |Joined(a)| && Joined(a)[k] == x
  {
    var m :| 0 <= m < |Lists(a)[i]| && Lists(a)[i][m] == x;
    k := Offset(a, i) + m;
  }

  lemma JoinedApart<T(!new)>(a: Allocation<T>, i: nat, j: nat, x: T)
    requires Distinct(Joined(a)) && i < j < 4
    ensures !(x in Lists(a)[i] && x in Lists(a)[j])
  {
    if x in Lists(a)[i] && x in Lists(a)[j] {
      DistinctMeans(Joined(a));
      var m := ListPosition(a, i, x);
      var n := ListPosition(a, j, x);
    }
  }

  /** Where list i starts in the joined list. */
  function Offset<T>(a: Allocation<T>, i: nat): nat {
    match i
    case 0 => 0
    case 1 => |a.calibration|
    case 2 => |a.calibration| + |a.frozen|
    case _ => |a.calibration| + |a.frozen| + |a.heldOut|
  }

  lemma ListIsDistinct<T(!new)>(a: Allocation<T>, i: nat)
    requires Distinct(Joined(a)) && i < 4
    ensures Distinct(Lists(a)[i]) && SetOf(Lists(a)[i]) <= SetOf(Joined(a))
  {
    var list, joined := Lists(a)[i], Joined(a);
    DistinctMeans(list);
    DistinctMeans(joined);
    forall m | 0 <= m < |list| ensures list[m] == joined[Offset(a, i) + m] && list[m] in SetOf(joined) {
    }
  }

  lemma ListOf<T(!new)>(a: Allocation<T>, x: T) returns (i: nat)
    requires x in Joined(a)
    ensures i < 4 && x in Lists(a)[i]
  {
    i := if x in a.calibration then 0 else if x in a.frozen then 1 else if x in a.heldOut then 2 else 3;
  }

  /** Partition i holds whole families: those of list i. */
  predicate Publishes(partitions: seq<Partition>, a: Allocation<string>, scenarios: seq<Scenario>) {
    && |partitions| == 4
    && forall i :: 0 <= i < 4 ==> HoldsFamilies(partitions[i], NAMES[i], Lists(a)[i], scenarios)
  }

  lemma PartitionsPublish(a: Allocation<string>, scenarios: seq<Scenario>)
    requires forall i :: 0 <= i < 4 ==> |ScenarioIdsFor(scenarios, SetOf(Lists(a)[i]))| == 3 * |Lists(a)[i]| > 0
    ensures var r := MakePartitions(Lists(a), scenarios, 4);
            r.Ok? && Publishes(r.value, a, scenarios)
  {
    forall i | 0 <= i < 4
      ensures var p := MakePartition(NAMES[i], Lists(a)[i], scenarios);
              p.Ok? && HoldsFamilies(p.value, NAMES[i], Lists(a)[i], scenarios)
    {
    }
    MakePartitionsMakesEach(Lists(a), scenarios, 4);
  }

  lemma HeldBy(partitions: seq<Partition>, a: Allocation<string>, scenarios: seq<Scenario>, i: nat, x: string)
    requires Publishes(partitions, a, scenarios) && i < 4
    ensures x in partitions[i].scenarioIds
       <==> exists s :: s in scenarios && s.seedId in Lists(a)[i] && s.scenarioId == x
  {
    assert HoldsFamilies(partitions[i], NAMES[i], Lists(a)[i], scenarios);
    ScenarioIdsForMembers(scenarios, SetOf(Lists(a)[i]), x);
  }

  lemma PublishedIdsAreAll(partitions: seq<Partition>, a: Allocation<string>, scenarios: seq<Scenario>)
    requires Publishes(partitions, a, scenarios) && OfSeeds(scenarios, SetOf(Joined(a)))
    ensures HeldIds(partitions) == AllScenarioIds(scenarios)
  {
    forall x | x in HeldIds(partitions) ensures x in AllScenarioIds(scenarios) {
      var i :| 0 <= i < 4 && x in partitions[i].scenarioIds;
      HeldBy(partitions, a, scenarios, i, x);
    }
    forall s | s in scenarios ensures s.scenarioId in HeldIds(partitions) {
      var i := ListOf(a, s.seedId);
      HeldBy(partitions, a, scenarios, i, s.scenarioId);
    }
  }

  lemma PublishedApart(partitions: seq<Partition>, a: Allocation<string>, scenarios: seq<Scenario>, i: nat, j: nat, x: string)
    requires Publishes(partitions, a, scenarios) && Distinct(Joined(a)) && OfSeeds(scenarios, SetOf(Joined(a))) && i < j < 4
    ensures !(x in partitions[i].scenarioIds && x in partitions[j].scenarioIds)
  {
    if x in partitions[i].scenarioIds && x in partitions[j].scenarioIds {
      HeldBy(partitions, a, scenarios, i, x);
      HeldBy(partitions, a, scenarios, j, x);
      var s :| s in scenarios && s.seedId in Lists(a)[i] && s.scenarioId == x;
      JoinedApart(a, i, j, s.seedId);
    }
  }

  // ---------------------------------------------------------------- main results

  lemma PublishSucceeds(a: Allocation<string>, scenarios: seq<Scenario>)
    requires Distinct(Joined(a)) && OfSeeds(scenarios, SetOf(Joined(a)))
    requires forall i :: 0 <= i < 4 ==> Lists(a)[i] != []
    ensures var r := Publish(a, |Joined(a)|, scenarios);
            r.Ok? && Publishes(r.value, a, scenarios)
  {
    forall i | 0 <= i < 4 ensures |ScenarioIdsFor(scenarios, SetOf(Lists(a)[i]))| == 3 * |Lists(a)[i]| > 0 {
      ListIsDistinct(a, i);
    }
    PartitionsPublish(a, scenarios);
    PublishedIdsAreAll(MakePartitions(Lists(a), scenarios, 4).value, a, scenarios);
  }

  lemma AllocationPublishes(r: Result<Allocation<string>, SplitError>, ids: seq<string>, safety: seq<string>,
                            scenarios: seq<Scenario>, c: int, f: int, h: int)
    requires c >= 1 && f >= 1 && h >= 1 && Distinct(ids) && OfSeeds(scenarios, SetOf(ids))
    requires r.Ok? && AllocatedWell(r.value, ids, safety, c, f, h)
    ensures var m := PublishAny(r, |ids|, scenarios);
            m.Ok? && Publishes(m.value, r.value, scenarios)
  {
    PublishSucceeds(r.value, scenarios);
  }

  /** The allocation, and the partitions that come of it. */
  lemma IdsPublish(ids: seq<string>, safety: seq<string>, selection: seq<string>, scenarios: seq<Scenario>,
                   c: int, f: int, h: int)
    requires Distinct(ids) && |safety| + |selection| == |ids|
    requires forall x :: x in ids <==> x in safety || x in selection
    requires c >= 1 && f >= 1 && h >= 1 && c + f + h < |ids| && |safety| <= c
    requires OfSeeds(scenarios, SetOf(ids))
    ensures var a := Allocate(ids, safety, selection, c, f, h);
            var m := PublishAny(a, |ids|, scenarios);
            && a.Ok? && AllocatedWell(a.value, ids, safety, c, f, h)
            && m.Ok? && Publishes(m.value, a.value, scenarios)
  {
    AllocationSucceeds(ids, safety, selection, c, f, h);
    AllocationPublishes(Allocate(ids, safety, selection, c, f, h), ids, safety, scenarios, c, f, h);
  }

  // Not by induction: the seeds are only passed on, and trying it on them costs too much.
  lemma {:induction false} SeedsPublish(seeds: seq<Seed>, scenarios: seq<Scenario>, c: int, f: int, h: int)
    requires Distinct(Ids(seeds)) && Fits(seeds, c, f, h) && OfSeeds(scenarios, SetOf(Ids(seeds)))
    ensures var a := AllocationOf(seeds, c, f, h);
            var m := PublishAny(a, |seeds|, scenarios);
            && a.Ok? && AllocatedWell(a.value, Ids(seeds), SafetyIds(seeds), c, f, h)
            && m.Ok? && Publishes(m.value, a.value, scenarios)
  {
    IdsOfModes(seeds);
    IdsPublish(Ids(seeds), SafetyIds(seeds), SelectionIds(seeds), scenarios, c, f, h);
  }

  lemma BuildPublishes(dataset: seq<Seed>, c: int, f: int, h: int)
    requires Distinct(Ids(dataset)) && Fits(dataset, c, f, h)
    ensures var a := AllocationOf(SortById(dataset), c, f, h);
            var r := Build(dataset, c, f, h);
            && a.Ok? && AllocatedWell(a.value, Ids(SortById(dataset)), SafetyIds(SortById(dataset)), c, f, h)
            && r.Ok? && Publishes(r.value, a.value, ScenariosOf(dataset))
  {
    IdsOfSorted(dataset);
    SortKeepsSafety(dataset);
    DatasetScenarios(dataset);
    SeedsPublish(SortById(dataset), ScenariosOf(dataset), c, f, h);
  }

  /** The first reason not to split. */
  function Refusal(dataset: seq<Seed>, c: int, f: int, h: int): Option<SplitError> {
    if c < 1 || f < 1 || h < 1 then Some(EmptySplitRequested)
    else if c + f + h >= |dataset| then Some(NoCandidateSeedsLeft)
    else if |SafetyIds(dataset)| > c then Some(CalibrationUnavailable)
    else None
  }

  lemma AllocationRefuses(dataset: seq<Seed>, c: int, f: int, h: int)
    requires Refusal(dataset, c, f, h).Some?
    ensures AllocationOf(SortById(dataset), c, f, h) == Err(Refusal(dataset, c, f, h).value)
  {
    SortKeeps(dataset, ById);
    SortKeepsSafety(dataset);
  }

  lemma BuildRefuses(dataset: seq<Seed>, c: int, f: int, h: int)
    requires Refusal(dataset, c, f, h).Some?
    ensures Build(dataset, c, f, h) == Err(Refusal(dataset, c, f, h).value)
  {
    AllocationRefuses(dataset, c, f, h);
  }

  /** A split exists exactly when it fits; the guards after the allocation never fire. */
  lemma BuildSucceedsExactlyWhenItFits(dataset: seq<Seed>, c: int, f: int, h: int)
    requires Distinct(Ids(dataset))
    ensures Build(dataset, c, f, h).Ok? <==> Fits(dataset, c, f, h)
    ensures Build(dataset, c, f, h).Err? ==> Refusal(dataset, c, f, h) == Some(Build(dataset, c, f, h).error)
  {
    if Fits(dataset, c, f, h) {
      BuildPublishes(dataset, c, f, h);
    } else {
      BuildRefuses(dataset, c, f, h);
    }
  }

  /** Whole families, of the requested sizes, each seed and each scenario in exactly one partition. */
  lemma SplitIsAPartition(dataset: seq<Seed>, c: int, f: int, h: int)
    requires Distinct(Ids(dataset)) && Build(dataset, c, f, h).Ok?
    ensures var p := Build(dataset, c, f, h).value;
            && |p| == 4 && (forall i :: 0 <= i < 4 ==> p[i].name == NAMES[i])
            && |p[0].seedIds| == c && |p[1].seedIds| == f && |p[2].seedIds| == h
            && Distinct(p[0].seedIds + p[1].seedIds + p[2].seedIds + p[3].seedIds)
            && SetOf(p[0].seedIds + p[1].seedIds + p[2].seedIds + p[3].seedIds) == SetOf(Ids(dataset))
            && (forall i :: 0 <= i < 4 ==> |p[i].scenarioIds| == 3 * |p[i].seedIds|)
            && (forall i, j, x :: 0 <= i < j < 4 && x in p[i].scenarioIds ==> x !in p[j].scenarioIds)
            && HeldIds(p) == AllScenarioIds(ScenariosOf(dataset))
  {
    BuildSucceedsExactlyWhenItFits(dataset, c, f, h);
    BuildPublishes(dataset, c, f, h);
    IdsOfSorted(dataset);
    var p, a := Build(dataset, c, f, h).value, AllocationOf(SortById(dataset), c, f, h).value;
    DatasetScenarios(dataset);
    PublishedIdsAreAll(p, a, ScenariosOf(dataset));
    forall i, j, x | 0 <= i < j < 4 && x in p[i].scenarioIds ensures x !in p[j].scenarioIds {
      PublishedApart(p, a, ScenariosOf(dataset), i, j, x);
    }
    forall i | 0 <= i < 4 ensures p[i].name == NAMES[i] && p[i].seedIds == Lists(a)[i] {
      assert HoldsFamilies(p[i], NAMES[i], Lists(a)[i], ScenariosOf(dataset));
    }
  }

  lemma SafetySeedsCalibrate(dataset: seq<Seed>, c: int, f: int, h: int, seed: Seed)
    requires Distinct(Ids(dataset)) && Build(dataset, c, f, h).Ok? && seed in dataset && seed.safety
    ensures var p := Build(dataset, c, f, h).value;
            |p| == 4 && seed.seedId in p[0].seedIds
  {
    BuildSucceedsExactlyWhenItFits(dataset, c, f, h);
    BuildPublishes(dataset, c, f, h);
    SortKeeps(dataset, ById);
    ModesSplit(SortById(dataset));
    IdsMembers(OfMode(SortById(dataset), true));
    var p, a := Build(dataset, c, f, h).value, AllocationOf(SortById(dataset), c, f, h).value;
    assert HoldsFamilies(p[0], NAMES[0], Lists(a)[0], ScenariosOf(dataset));
  }

  // ---------------------------------------------------------------- reading a split back

  lemma {:induction false} WithIdsMembers(scenarios: seq<Scenario>, allowed: set<string>)
    ensures forall s :: s in WithIds(scenarios, allowed) <==> s in scenarios && s.scenarioId in allowed
  {
    if scenarios != [] {
      WithIdsMembers(scenarios[1..], allowed);
      assert scenarios == [scenarios[0]] + scenarios[1..];
    }
  }

  /** Reading a named split succeeds exactly when the scenarios at hand cover it. */
  lemma LookupSucceedsExactlyWhenCovered(scenarios: seq<Scenario>, partitions: seq<Partition>, name: SplitName)
    ensures ScenariosForSplit(scenarios, partitions, name).Ok?
       <==> FirstNamed(partitions, name).Some?
            && SetOf(FirstNamed(partitions, name).value.scenarioIds) <= AllScenarioIds(scenarios)
  {
    if FirstNamed(partitions, name).Some? {
      var allowed := SetOf(FirstNamed(partitions, name).value.scenarioIds);
      WithIdsMembers(scenarios, allowed);
      var found := AllScenarioIds(WithIds(scenarios, allowed));
      assert found <= allowed && found <= AllScenarioIds(scenarios);
      if allowed <= AllScenarioIds(scenarios) {
        forall x | x in allowed ensures x in found {
          var s :| s in scenarios && s.scenarioId == x;
          assert s in WithIds(scenarios, allowed);
        }
      }
    }
  }

  lemma {:induction false} FourNames(p: seq<Partition>, k: nat, i: nat)
    requires |p| == 4 && k <= i < 4 && forall m :: 0 <= m < 4 ==> p[m].name == NAMES[m]
    ensures FirstNamed(p[k..], NAMES[i]) == Some(p[i])
    decreases i - k
  {
    var rest := p[k..];
    assert rest[0] == p[k] && rest[1..] == p[k + 1..];
    if k < i {
      FourNames(p, k + 1, i);
      assert NAMES[k] != NAMES[i];
    }
  }

  /** Round trip: reading split i of a manifest back gives all scenarios of its seeds, and no other. */
  lemma ManifestReadsBack(dataset: seq<Seed>, c: int, f: int, h: int, i: nat)
    requires Distinct(Ids(dataset)) && Build(dataset, c, f, h).Ok? && i < 4
    ensures var p := Build(dataset, c, f, h).value;
            var r := ScenariosForSplit(ScenariosOf(dataset), p, NAMES[i]);
            && |p| == 4 && r.Ok?
            && forall s :: s in r.value <==> s in ScenariosOf(dataset) && s.seedId in p[i].seedIds
  {
    SplitIsAPartition(dataset, c, f, h);
    BuildSucceedsExactlyWhenItFits(dataset, c, f, h);
    BuildPublishes(dataset, c, f, h);
    var p, a, scenarios := Build(dataset, c, f, h).value, AllocationOf(SortById(dataset), c, f, h).value, ScenariosOf(dataset);
    FourNames(p, 0, i);
    assert p[0..] == p;
    DatasetScenarios(dataset);
    PublishedReadsBack(p, a, scenarios, i);
  }

  lemma PublishedReadsBack(p: seq<Partition>, a: Allocation<string>, scenarios: seq<Scenario>, i: nat)
    requires Publishes(p, a, scenarios) && OfSeeds(scenarios, SetOf(Joined(a))) && i < 4
    requires FirstNamed(p, NAMES[i]) == Some(p[i])
    ensures var r := ScenariosForSplit(scenarios, p, NAMES[i]);
            && r.Ok?
            && forall s :: s in r.value <==> s in scenarios && s.seedId in p[i].seedIds
  {
    assert HoldsFamilies(p[i], NAMES[i], Lists(a)[i], scenarios);
    forall x | x in p[i].scenarioIds ensures x in AllScenarioIds(scenarios) {
      HeldBy(p, a, scenarios, i, x);
    }
    LookupSucceedsExactlyWhenCovered(scenarios, p, NAMES[i]);
    WithIdsMembers(scenarios, SetOf(p[i].scenarioIds));
    forall s | s in scenarios ensures s.scenarioId in p[i].scenarioIds <==> s.seedId in p[i].seedIds {
      HeldBy(p, a, scenarios, i, s.scenarioId);
    }
  }

  // ---------------------------------------------------------------- which seeds go where

  /** The ids of all seeds of this mode, in ascending order. */
  ghost predicate ModeIds(dataset: seq<Seed>, safety: bool, ids: seq<string>) {
    && Ascending(ids)
    && forall x :: x in ids <==> exists seed :: seed in dataset && seed.safety == safety && seed.seedId == x
  }

  predicate Before(a: Seed, b: Seed) { Le(a.seedId, b.seedId) && a.seedId != b.seedId }

  lemma {:induction false} ModesInOrder(seeds: seq<Seed>, safety: bool)
    requires InOrder(seeds, Before)
    ensures InOrder(OfMode(seeds, safety), Before)
  {
    if seeds != [] {
      var rest := OfMode(seeds[1..], safety);
      ModesInOrder(seeds[1..], safety);
      ModesSplit(seeds[1..]);
      forall k | 0 <= k < |rest| ensures Before(seeds[0], rest[k]) {
        assert rest[k] in seeds[1..];
      }
    }
  }

  lemma ByIdOrders()
    ensures Preorder(ById)
  {
    forall a: Seed, b: Seed ensures ById(a, b) || ById(b, a) {
      LeTotal(a.seedId, b.seedId);
    }
    forall a: Seed, b: Seed, c: Seed | ById(a, b) && ById(b, c) ensures ById(a, c) {
      LeTransitive(a.seedId, b.seedId, c.seedId);
    }
  }

  lemma SortedBefore(dataset: seq<Seed>)
    requires Distinct(Ids(dataset))
    ensures InOrder(SortById(dataset), Before)
  {
    var seeds := SortById(dataset);
    IdsOfSorted(dataset);
    ByIdOrders();
    SortInOrder(dataset, ById);
    DistinctMeans(Ids(seeds));
    forall i, j | 0 <= i < j < |seeds| ensures Before(seeds[i], seeds[j]) {
      assert ById(seeds[i], seeds[j]) && Ids(seeds)[i] != Ids(seeds)[j];
    }
  }

  lemma IdsAscend(seeds: seq<Seed>)
    requires InOrder(seeds, Before)
    ensures Ascending(Ids(seeds))
  {
    var ids := Ids(seeds);
    forall i, j | 0 <= i < j < |ids| ensures Le(ids[i], ids[j]) && ids[i] != ids[j] {
      assert Before(seeds[i], seeds[j]);
    }
  }

  lemma ModeIdsAre(dataset: seq<Seed>, safety: bool)
    requires Distinct(Ids(dataset))
    ensures ModeIds(dataset, safety, Ids(OfMode(SortById(dataset), safety)))
  {
    var seeds := SortById(dataset);
    SortedBefore(dataset);
    ModesInOrder(seeds, safety);
    IdsAscend(OfMode(seeds, safety));
    IdsMembers(OfMode(seeds, safety));
    ModesSplit(seeds);
    SortKeeps(dataset, ById);
  }

  lemma {:induction false} WithoutAscends(ids: seq<string>, taken: set<string>)
    requires Ascending(ids)
    ensures Ascending(Without(ids, taken)) && forall x :: x in Without(ids, taken) ==> x in ids
  {
    if ids != [] {
      var rest := Without(ids[1..], taken);
      WithoutAscends(ids[1..], taken);
      forall k | 0 <= k < |rest| ensures Le(ids[0], rest[k]) && ids[0] != rest[k] {
        assert rest[k] in ids[1..];
      }
      assert ids == [ids[0]] + ids[1..];
    }
  }

  /** The four lists that an allocation takes from these seeds. */
  lemma AllocationTakesInOrder<T(!new)>(ids: seq<T>, safety: seq<T>, selection: seq<T>, c: int, f: int, h: int)
    requires |safety| + |selection| == |ids| && Allocate(ids, safety, selection, c, f, h).Ok?
    ensures var a, all := Allocate(ids, safety, selection, c, f, h).value, safety + selection;
      && 0 <= c && 0 <= f && 0 <= h && c + f + h <= |all|
      && a.calibration == all[..c] && a.frozen == all[c..c + f] && a.heldOut == all[c + f..c + f + h]
      && a.candidate == Without(ids, SetOf(a.calibration) + SetOf(a.frozen) + SetOf(a.heldOut))
  {
    TakeIsConsecutive(safety, selection, c, f, h);
  }

  /** Calibration, frozen candidates and held-out seeds are taken in this order from the ascending safety ids and then the
    * ascending selection ids; the candidates are what is left, ascending. */
  ghost predicate TakenInOrder(dataset: seq<Seed>, p: seq<Partition>, c: int, f: int, h: int, safety: seq<string>, selection: seq<string>) {
    && ModeIds(dataset, true, safety) && ModeIds(dataset, false, selection)
    && |p| == 4 && 0 <= c && 0 <= f && 0 <= h && c + f + h <= |safety + selection|
    && p[0].seedIds == (safety + selection)[..c]
    && p[1].seedIds == (safety + selection)[c..c + f]
    && p[2].seedIds == (safety + selection)[c + f..c + f + h]
    && Ascending(p[3].seedIds)
  }

  lemma CandidatesAscend(dataset: seq<Seed>, c: int, f: int, h: int)
    requires Distinct(Ids(dataset)) && AllocationOf(SortById(dataset), c, f, h).Ok?
    ensures Ascending(AllocationOf(SortById(dataset), c, f, h).value.candidate)
  {
    var seeds := SortById(dataset);
    IdsOfModes(seeds);
    AllocationTakesInOrder(Ids(seeds), SafetyIds(seeds), SelectionIds(seeds), c, f, h);
    var a := AllocationOf(seeds, c, f, h).value;
    SortedBefore(dataset);
    IdsAscend(seeds);
    WithoutAscends(Ids(seeds), SetOf(a.calibration) + SetOf(a.frozen) + SetOf(a.heldOut));
  }

  lemma PartitionsHold(p: seq<Partition>, a: Allocation<string>, scenarios: seq<Scenario>)
    requires Publishes(p, a, scenarios)
    ensures |p| == 4 && p[0].seedIds == a.calibration && p[1].seedIds == a.frozen
    ensures p[2].seedIds == a.heldOut && p[3].seedIds == a.candidate
  {
    forall i | 0 <= i < 4 ensures p[i].seedIds == Lists(a)[i] {
      assert HoldsFamilies(p[i], NAMES[i], Lists(a)[i], scenarios);
    }
  }

  lemma SplitTakesInOrder(dataset: seq<Seed>, c: int, f: int, h: int)
    requires Distinct(Ids(dataset)) && Build(dataset, c, f, h).Ok?
    ensures exists safety, selection :: TakenInOrder(dataset, Build(dataset, c, f, h).value, c, f, h, safety, selection)
  {
    var seeds, p := SortById(dataset), Build(dataset, c, f, h).value;
    BuildSucceedsExactlyWhenItFits(dataset, c, f, h);
    BuildPublishes(dataset, c, f, h);
    PartitionsHold(p, AllocationOf(seeds, c, f, h).value, ScenariosOf(dataset));
    ModeIdsAre(dataset, true);
    ModeIdsAre(dataset, false);
    IdsOfModes(seeds);
    AllocationTakesInOrder(Ids(seeds), SafetyIds(seeds), SelectionIds(seeds), c, f, h);
    CandidatesAscend(dataset, c, f, h);
    assert TakenInOrder(dataset, p, c, f, h, SafetyIds(seeds), SelectionIds(seeds));
  }
}
