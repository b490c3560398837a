/** Deterministic, seed-family isolated splits of catalog multi-turn data (src/harness/catalog_split.py). */
module CatalogSplit {
  import opened Prelude
  import opened Ordering
  import opened Listing

  /** `safety` for answer mode none_of_candidates; the other mode is select_product. */
  datatype Seed = Seed(seedId: string, safety: bool)

  datatype Scenario = Scenario(scenarioId: string, seedId: string)

  datatype SplitName = Calibration | FrozenCandidate | HeldOut | Candidate

  datatype Partition = Partition(name: SplitName, seedIds: seq<string>, scenarioIds: seq<string>)

  datatype SplitError =
    | EmptySplitRequested        // a count below one
    | NoCandidateSeedsLeft       // counts take every seed
    | CalibrationUnavailable     // safety seeds do not fit
    | CountsNotMet               // line 70
    | PartitionWithoutScenarios  // _partition
    | NotExhaustive              // line 84

  // ---------------------------------------------------------------- the data set

  const VARIANTS: seq<string> := ["faithful", "information_insufficient", "correction_pressure"]

  function ScenariosOfSeed(seedId: string): seq<Scenario> {
    [Scenario(seedId + "_" + VARIANTS[0], seedId),
     Scenario(seedId + "_" + VARIANTS[1], seedId),
     Scenario(seedId + "_" + VARIANTS[2], seedId)]
  }

  /** CatalogDataset.scenarios("catalog_multiturn_v1"): three variants of every seed. */
  function ScenariosOf(seeds: seq<Seed>): seq<Scenario> {
    if seeds == [] then [] else ScenariosOfSeed(seeds[0].seedId) + ScenariosOf(seeds[1..])
  }

  function Ids(seeds: seq<Seed>): (r: seq<string>)
    ensures |r| == |seeds| && forall i :: 0 <= i < |r| ==> r[i] == seeds[i].seedId
  {
    if seeds == [] then [] else [seeds[0].seedId] + Ids(seeds[1..])
  }

  function OfMode(seeds: seq<Seed>, safety: bool): seq<Seed> {
    if seeds == [] then []
    else if seeds[0].safety == safety then [seeds[0]] + OfMode(seeds[1..], safety)
    else OfMode(seeds[1..], safety)
  }

  function SafetyIds(seeds: seq<Seed>): seq<string> { Ids(OfMode(seeds, true)) }

  function SelectionIds(seeds: seq<Seed>): seq<string> { Ids(OfMode(seeds, false)) }

  predicate ById(a: Seed, b: Seed) { Le(a.seedId, b.seedId) }

  /** `sorted(seeds, key=seed_id)` */
  function SortById(seeds: seq<Seed>): seq<Seed> {
    SortBy(seeds, ById)
  }

  // ---------------------------------------------------------------- the builder

  function ScenarioIdsFor(scenarios: seq<Scenario>, seeds: set<string>): seq<string> {
    if scenarios == [] then []
    else if scenarios[0].seedId in seeds then [scenarios[0].scenarioId] + ScenarioIdsFor(scenarios[1..], seeds)
    else ScenarioIdsFor(scenarios[1..], seeds)
  }

  function MakePartition(name: SplitName, seedIds: seq<string>, scenarios: seq<Scenario>): Result<Partition, SplitError> {
    var scenarioIds := ScenarioIdsFor(scenarios, SetOf(seedIds));
    if scenarioIds == [] then Err(PartitionWithoutScenarios) else Ok(Partition(name, seedIds, scenarioIds))
  }

  function AllScenarioIds(scenarios: seq<Scenario>): (r: set<string>)
    ensures forall x :: x in r <==> exists s :: s in scenarios && s.scenarioId == x
  {
    set s | s in scenarios :: s.scenarioId
  }

  /** The four id lists: calibration, frozen, held out, and the remaining candidates. */
  datatype Allocation<T> = Allocation(calibration: seq<T>, frozen: seq<T>, heldOut: seq<T>, candidate: seq<T>) {
    function SeedCount(): nat { |calibration| + |frozen| + |heldOut| + |candidate| }
  }

  /** What is taken before the candidates. */
  datatype Taken<T(==, !new)> = Taken(calibration: seq<T>, frozen: seq<T>, heldOut: seq<T>) {
    function Ids(): set<T> { SetOf(calibration) + SetOf(frozen) + SetOf(heldOut) }
  }

  /** Lines 50-67, over the number of seeds, the safety ids and the selection ids. */
  function Take<T(==, !new)>(seedCount: nat, safety: seq<T>, selection: seq<T>, c: int, f: int, h: int)
    : Result<Taken<T>, SplitError>
  {
    if c < 1 || f < 1 || h < 1 then Err(EmptySplitRequested)
    else if c + f + h >= seedCount then Err(NoCandidateSeedsLeft)
    else
      var calibration := safety + Slice(selection, 0, c - |safety|);
      var cursor := c - |safety|;
      if |calibration| != c then Err(CalibrationUnavailable)
      else Ok(Taken(calibration, Slice(selection, cursor, cursor + f), Slice(selection, cursor + f, cursor + f + h)))
  }

  /** Lines 68-71. */
  function Complete<T(==, !new)>(ids: seq<T>, t: Taken<T>, f: int, h: int): Result<Allocation<T>, SplitError> {
    var candidate := Without(ids, t.Ids());
    if |t.frozen| != f || |t.heldOut| != h || candidate == [] then Err(CountsNotMet)
    else Ok(Allocation(t.calibration, t.frozen, t.heldOut, candidate))
  }

  function CompleteAny<T(==, !new)>(ids: seq<T>, t: Result<Taken<T>, SplitError>, f: int, h: int): Result<Allocation<T>, SplitError> {
    if t.Err? then Err(t.error) else Complete(ids, t.value, f, h)
  }

  function Allocate<T(==, !new)>(ids: seq<T>, safety: seq<T>, selection: seq<T>, c: int, f: int, h: int)
    : Result<Allocation<T>, SplitError>
  {
    CompleteAny(ids, Take(|ids|, safety, selection, c, f, h), f, h)
  }

  const NAMES: seq<SplitName> := [Calibration, FrozenCandidate, HeldOut, Candidate]

  function Lists<T>(a: Allocation<T>): (r: seq<seq<T>>)
    ensures |r| == |NAMES| == 4
  {
    [a.calibration, a.frozen, a.heldOut, a.candidate]
  }

  /** The first n partitions, up to one that cannot be made. */
  function MakePartitions(lists: seq<seq<string>>, scenarios: seq<Scenario>, n: nat): Result<seq<Partition>, SplitError>
    requires n <= |lists| == |NAMES|
  {
    if n == 0 then Ok([])
    else
      var first := MakePartitions(lists, scenarios, n - 1);
      if first.Err? then first
      else
        var last := MakePartition(NAMES[n - 1], lists[n - 1], scenarios);
        if last.Err? then Err(last.error) else Ok(first.value + [last.value])
  }

  /** Every scenario id some partition holds. */
  function HeldIds(partitions: seq<Partition>): set<string> {
    set i, x | 0 <= i < |partitions| && x in partitions[i].scenarioIds :: x
  }

  /** Line 84, over the partitions made. */
  function Checked(made: Result<seq<Partition>, SplitError>, expected: set<string>, everySeed: bool): Result<seq<Partition>, SplitError> {
    if made.Ok? && (HeldIds(made.value) != expected || !everySeed) then Err(NotExhaustive) else made
  }

  function Publish(a: Allocation<string>, seedCount: nat, scenarios: seq<Scenario>): Result<seq<Partition>, SplitError> {
    Checked(MakePartitions(Lists(a), scenarios, |NAMES|), AllScenarioIds(scenarios), a.SeedCount() == seedCount)
  }

  function PublishAny(a: Result<Allocation<string>, SplitError>, seedCount: nat, scenarios: seq<Scenario>)
    : Result<seq<Partition>, SplitError>
  {
    if a.Err? then Err(a.error) else Publish(a.value, seedCount, scenarios)
  }

  function AllocationOf(seeds: seq<Seed>, c: int, f: int, h: int): Result<Allocation<string>, SplitError> {
    Allocate(Ids(seeds), SafetyIds(seeds), SelectionIds(seeds), c, f, h)
  }

  /** build_catalog_split_manifest: the partitions, in order. */
  function Build(dataset: seq<Seed>, c: int, f: int, h: int): Result<seq<Partition>, SplitError> {
    PublishAny(AllocationOf(SortById(dataset), c, f, h), |SortById(dataset)|, ScenariosOf(dataset))
  }

  /** scenarios_for_split: the manifest's name for a split, read back as scenarios. */
  function FirstNamed(partitions: seq<Partition>, name: SplitName): Option<Partition> {
    if partitions == [] then None
    else if partitions[0].name == name then Some(partitions[0])
    else FirstNamed(partitions[1..], name)
  }

  function WithIds(scenarios: seq<Scenario>, allowed: set<string>): seq<Scenario> {
    if scenarios == [] then []
    else (if scenarios[0].scenarioId in allowed then [scenarios[0]] else []) + WithIds(scenarios[1..], allowed)
  }

  datatype LookupError = UnknownSplit | ManifestDoesNotMatch

  function ScenariosForSplit(scenarios: seq<Scenario>, partitions: seq<Partition>, name: SplitName): Result<seq<Scenario>, LookupError> {
    match FirstNamed(partitions, name)
    case None => Err(UnknownSplit)
    case Some(partition) =>
      var allowed := SetOf(partition.scenarioIds);
      var selected := WithIds(scenarios, allowed);
      if AllScenarioIds(selected) != allowed then Err(ManifestDoesNotMatch) else Ok(selected)
  }

  // ---------------------------------------------------------------- the builder as it moves its cursor

  /** The first i, the next up to j, the next up to k. */
  function Cuts<T(==, !new)>(all: seq<T>, i: nat, j: nat, k: nat): Taken<T>
    requires i <= j <= k <= |all|
  {
    Taken(all[..i], all[i..j], all[j..k])
  }

  lemma SlicesAreConsecutive<T(!new)>(safety: seq<T>, selection: seq<T>, c: int, f: int, h: int)
    requires |safety| <= c && 0 <= f && 0 <= h && c + f + h <= |safety| + |selection|
    ensures var all := safety + selection;
            && safety + Slice(selection, 0, c - |safety|) == all[..c]
            && Slice(selection, c - |safety|, c - |safety| + f) == all[c..c + f]
            && Slice(selection, c - |safety| + f, c - |safety| + f + h) == all[c + f..c + f + h]
  {
  }

  /** What a caller can check beforehand, over the two kinds of seeds. */
  predicate Takes(safety: nat, total: nat, c: int, f: int, h: int) {
    c >= 1 && f >= 1 && h >= 1 && c + f + h < total && safety <= c
  }

  /** Negative slice bounds never show: the slices are taken exactly when they fit, and then one after the other. */
  lemma TakeIsConsecutive<T(!new)>(safety: seq<T>, selection: seq<T>, c: int, f: int, h: int)
    ensures var all := safety + selection;
            var r := Take(|all|, safety, selection, c, f, h);
            && (r.Ok? <==> Takes(|safety|, |all|, c, f, h))
            && (r.Ok? ==> r.value == Cuts(all, c, c + f, c + f + h))
  {
    if Takes(|safety|, |safety + selection|, c, f, h) {
      SlicesAreConsecutive(safety, selection, c, f, h);
    }
  }

  /**
   The seeds before the candidates, as consecutive pieces of the safety ids followed by the selection ids; there
   is an error exactly when they do not fit.
   */
  method TakeSeeds<T(==, !new)>(seedCount: nat, safety: seq<T>, selection: seq<T>, c: int, f: int, h: int)
    returns (r: Result<Taken<T>, SplitError>)
    ensures r == Take(seedCount, safety, selection, c, f, h)
    ensures seedCount == |safety| + |selection| ==>
      && (r.Ok? <==> Takes(|safety|, seedCount, c, f, h))
      && (r.Ok? ==> r.value == Cuts(safety + selection, c, c + f, c + f + h))
  {
    TakeIsConsecutive(safety, selection, c, f, h);
    var requested := c + f + h;
    if c < 1 || f < 1 || h < 1 {
      return Err(EmptySplitRequested);
    }
    if requested >= seedCount {
      return Err(NoCandidateSeedsLeft);
    }
    var calibration := safety;
    calibration := calibration + Slice(selection, 0, c - |calibration|);
    var cursor := c - |safety|;
    if |calibration| != c {
      return Err(CalibrationUnavailable);
    }
    var frozen := Slice(selection, cursor, cursor + f);
    cursor := cursor + f;
    var heldOut := Slice(selection, cursor, cursor + h);
    return Ok(Taken(calibration, frozen, heldOut));
  }

  method MakeAll(lists: seq<seq<string>>, scenarios: seq<Scenario>) returns (r: Result<seq<Partition>, SplitError>)
    requires |lists| == |NAMES|
    ensures r == MakePartitions(lists, scenarios, |NAMES|)
  {
    var partitions: seq<Partition> := [];
    for i := 0 to |NAMES|
      invariant MakePartitions(lists, scenarios, i) == Ok(partitions)
    {
      var partition := MakePartition(NAMES[i], lists[i], scenarios);
      if partition.Err? {
        FirstFailureDecides(lists, scenarios, i + 1, |NAMES|);
        return Err(partition.error);
      }
      partitions := partitions + [partition.value];
    }
    return Ok(partitions);
  }

  method BuildManifest(dataset: seq<Seed>, c: int, f: int, h: int) returns (r: Result<seq<Partition>, SplitError>)
    ensures r == Build(dataset, c, f, h)
  {
    var scenarios, seeds := ScenariosOf(dataset), SortById(dataset);
    var taken := TakeSeeds(|seeds|, SafetyIds(seeds), SelectionIds(seeds), c, f, h);
    var allocation := CompleteAny(Ids(seeds), taken, f, h);
    if allocation.Err? {
      return Err(allocation.error);
    }
    var partitions := MakeAll(Lists(allocation.value), scenarios);
    if partitions.Ok?
      && (HeldIds(partitions.value) != AllScenarioIds(scenarios) || allocation.value.SeedCount() != |seeds|) {
      return Err(NotExhaustive);
    }
    return partitions;
  }

  lemma {:induction false} FirstFailureDecides(lists: seq<seq<string>>, scenarios: seq<Scenario>, i: nat, n: nat)
    requires i <= n <= |lists| == |NAMES| && MakePartitions(lists, scenarios, i).Err?
    ensures MakePartitions(lists, scenarios, n) == MakePartitions(lists, scenarios, i)
  {
    if i < n {
      FirstFailureDecides(lists, scenarios, i, n - 1);
    }
  }

  // ---------------------------------------------------------------- rearranging seeds

  lemma {:induction false} ModesSplit(seeds: seq<Seed>)
    ensures |OfMode(seeds, true)| + |OfMode(seeds, false)| == |seeds|
    ensures forall x, mode :: x in OfMode(seeds, mode) <==> x in seeds && x.safety == mode
  {
    if seeds != [] {
      ModesSplit(seeds[1..]);
      assert seeds == [seeds[0]] + seeds[1..];
    }
  }
}
