/** Aggregation of evaluation results (src/harness/report.py, src/harness/human_review.py). */
module Report {
  import opened Prelude
  import opened Listing
  import opened Grouping

  datatype Track = IntentRoute | LongTailResponse | SafetyResponse | OtherTrack(name: string)

  datatype Case<C> = Case(id: C, track: Track)

  /** One run of a case: the hard checks' verdict, and whether the system took a protective action. */
  datatype Driven<C> = Driven(caseId: C, hardPass: bool, protective: bool)

  datatype Judge = Judge(verdict: Option<bool>, failed: bool, selfJudged: bool)

  /** Judge results, keyed by `case_id#attempt` or by case. */
  datatype Judges<C(!new)> = Judges(byAttempt: map<(C, nat), Judge>, byCase: map<C, Judge>) {
    function For(id: C, attempt: nat): Option<Judge> {
      if (id, attempt) in byAttempt then Some(byAttempt[(id, attempt)])
      else if id in byCase then Some(byCase[id])
      else None
    }
  }

  datatype Row<C> = Row(caseId: C, track: Track, hardPass: bool, finalPass: Option<bool>,
                        judgePass: Option<bool>, judgeError: bool, selfJudged: bool, protective: bool)

  // ---------------------------------------------------------------- rows

  predicate NeedsReview(track: Track) {
    track.LongTailResponse? || track.SafetyResponse?
  }

  function FinalVerdict(hardPass: bool, judgePass: Option<bool>, requested: bool, track: Track): Option<bool> {
    if judgePass.Some? then Some(hardPass && judgePass.value)
    else if !requested && !NeedsReview(track) then Some(hardPass)
    else if track.IntentRoute? then Some(hardPass)
    else None
  }

  function RowFor<C>(c: Case<C>, driven: Driven<C>, judge: Option<Judge>, requested: bool): Row<C> {
    var judgePass := if judge.Some? then judge.value.verdict else None;
    Row(c.id, c.track, driven.hardPass, FinalVerdict(driven.hardPass, judgePass, requested, c.track),
        judgePass, judge.Some? && judge.value.failed, judge.Some? && judge.value.selfJudged, driven.protective)
  }

  /** `{c.id: c for c in cases}.get(id)`: the last one wins. */
  function Lookup<C(==)>(cases: seq<Case<C>>, id: C): Option<Case<C>> {
    if cases == [] then None
    else
      var n := |cases| - 1;
      if cases[n].id == id then Some(cases[n]) else Lookup(cases[..n], id)
  }

  function CaseOf<C>(row: Row<C>): C { row.caseId }

  function TrackOf<C>(row: Row<C>): Track { row.track }

  /** The rows of the first n results; a result of an unknown case leaves none. */
  function Rows<C(==, !new)>(cases: seq<Case<C>>, results: seq<Driven<C>>, n: nat, judges: Judges<C>, requested: bool)
    : seq<Row<C>>
    requires n <= |results|
  {
    if n == 0 then []
    else
      var before, c := Rows(cases, results, n - 1, judges, requested), Lookup(cases, results[n - 1].caseId);
      if c.None? then before
      else
        var attempt := |With(before, CaseOf, c.value.id)| + 1;
        before + [RowFor(c.value, results[n - 1], judges.For(c.value.id, attempt), requested)]
  }

  method BuildRows<C(==, !new)>(cases: seq<Case<C>>, results: seq<Driven<C>>, judges: Judges<C>, requested: bool)
    returns (rows: seq<Row<C>>)
    ensures rows == Rows(cases, results, |results|, judges, requested)
  {
    rows := [];
    for i := 0 to |results|
      invariant rows == Rows(cases, results, i, judges, requested)
    {
      var c := Lookup(cases, results[i].caseId);
      if c.None? {
        continue;
      }
      var attempt := |With(rows, CaseOf, c.value.id)| + 1;
      var judge := judges.For(c.value.id, attempt);
      rows := rows + [RowFor(c.value, results[i], judge, requested)];
    }
  }

  // ---------------------------------------------------------------- groups and counts

  predicate FirstHard<C>(attempts: seq<Row<C>>) {
    attempts != [] && attempts[0].hardPass
  }

  predicate FirstJudged<C>(attempts: seq<Row<C>>) {
    attempts != [] && attempts[0].judgePass == Some(true)
  }

  predicate FirstFinal<C>(attempts: seq<Row<C>>) {
    attempts != [] && attempts[0].finalPass == Some(true)
  }

  /** Enough attempts, and `values[:repetitions]` all pass. */
  predicate AllFinal<C>(attempts: seq<Row<C>>, repetitions: int) {
    && |attempts| >= repetitions
    && forall i :: 0 <= i < |Slice(attempts, 0, repetitions)| ==> Slice(attempts, 0, repetitions)[i].finalPass == Some(true)
  }

  function Passes<C>(repetitions: int): seq<Row<C>> -> bool {
    (attempts: seq<Row<C>>) => AllFinal(attempts, repetitions)
  }

  function Fails<C>(repetitions: int): seq<Row<C>> -> bool {
    (attempts: seq<Row<C>>) => !AllFinal(attempts, repetitions)
  }

  datatype Totals = Totals(selected: nat, attempts: nat, passed: nat, failed: nat, firstPassed: nat,
                           hardPassed: nat, judgePassed: nat)

  datatype TrackStats = TrackStats(selected: nat, attempts: nat, hardPass: nat, judgePass: nat, finalPass: nat)

  /** How many cases among the rows meet a test over all their attempts. */
  function Cases<C(==, !new)>(rows: seq<Row<C>>, test: seq<Row<C>> -> bool): nat {
    |Meeting(rows, CaseOf, test)|
  }

  function TotalsOf<C(==, !new)>(rows: seq<Row<C>>, repetitions: int): Totals {
    Totals(|Keys(rows, CaseOf)|, |rows|, Cases(rows, Passes(repetitions)), Cases(rows, Fails(repetitions)),
           Cases(rows, FirstFinal), Cases(rows, FirstHard), Cases(rows, FirstJudged))
  }

  function StatsOf<C(==, !new)>(rows: seq<Row<C>>, repetitions: int): TrackStats {
    TrackStats(|Keys(rows, CaseOf)|, |rows|, Cases(rows, FirstHard), Cases(rows, FirstJudged), Cases(rows, Passes(repetitions)))
  }

  method CountCases<C(==, !new)>(ghost rows: seq<Row<C>>, ids: seq<C>, groups: map<C, seq<Row<C>>>, test: seq<Row<C>> -> bool)
    returns (count: nat)
    requires ids == Keys(rows, CaseOf) && GroupsOf(groups, rows, CaseOf)
    ensures count == Cases(rows, test)
  {
    KeysDistinct(rows, CaseOf);
    count := CountGroups(ids, groups, test);
    ChosenMeet(rows, CaseOf, groups, test);
  }

  method CountTotals<C(==, !new)>(rows: seq<Row<C>>, repetitions: int) returns (t: Totals)
    ensures t == TotalsOf(rows, repetitions)
  {
    var ids, groups := GroupBy(rows, CaseOf);
    var passed := CountCases(rows, ids, groups, Passes(repetitions));
    var failed := CountCases(rows, ids, groups, Fails(repetitions));
    var first := CountCases(rows, ids, groups, FirstFinal);
    var hard := CountCases(rows, ids, groups, FirstHard);
    var judged := CountCases(rows, ids, groups, FirstJudged);
    return Totals(|ids|, |rows|, passed, failed, first, hard, judged);
  }

  /** `sum(len(values) for values in groups.values())` */
  method CountAttempts<C(==, !new)>(rows: seq<Row<C>>, ids: seq<C>, groups: map<C, seq<Row<C>>>) returns (attempts: nat)
    requires ids == Keys(rows, CaseOf) && GroupsOf(groups, rows, CaseOf)
    ensures attempts == |rows|
  {
    attempts := 0;
    for i := 0 to |ids|
      invariant attempts == Sum(ids[..i], (id: C) => |With(rows, CaseOf, id)|)
    {
      assert ids[..i + 1] == ids[..i] + [ids[i]];
      SumSnoc(ids[..i], ids[i], (id: C) => |With(rows, CaseOf, id)|);
      attempts := attempts + |groups[ids[i]]|;
    }
    assert ids[..|ids|] == ids;
    KeysDistinct(rows, CaseOf);
    GroupSizesAddUp(rows, CaseOf, ids, (id: C) => |With(rows, CaseOf, id)|);
  }

  method CountTrack<C(==, !new)>(rows: seq<Row<C>>, repetitions: int) returns (t: TrackStats)
    ensures t == StatsOf(rows, repetitions)
  {
    var ids, groups := GroupBy(rows, CaseOf);
    var attempts := CountAttempts(rows, ids, groups);
    var hard := CountCases(rows, ids, groups, FirstHard);
    var judged := CountCases(rows, ids, groups, FirstJudged);
    var passed := CountCases(rows, ids, groups, Passes(repetitions));
    return TrackStats(|ids|, attempts, hard, judged, passed);
  }

  function TrackOrder<C>(rows: seq<Row<C>>): seq<Track> {
    Keys(rows, TrackOf)
  }

  function StatsOfTrack<C(==, !new)>(rows: seq<Row<C>>, repetitions: int, track: Track): TrackStats {
    StatsOf(With(rows, TrackOf, track), repetitions)
  }

  method CountTracks<C(==, !new)>(rows: seq<Row<C>>, repetitions: int) returns (tracks: map<Track, TrackStats>)
    ensures tracks.Keys == SetOf(TrackOrder(rows))
    ensures forall t :: t in tracks ==> tracks[t] == StatsOfTrack(rows, repetitions, t)
  {
    var names, groups := GroupBy(rows, TrackOf);
    tracks := map[];
    for i := 0 to |names|
      invariant tracks.Keys == SetOf(names[..i])
      invariant forall t :: t in tracks ==> tracks[t] == StatsOfTrack(rows, repetitions, t)
    {
      assert names[..i + 1] == names[..i] + [names[i]];
      var stats := CountTrack(groups[names[i]], repetitions);
      tracks := tracks[names[i] := stats];
    }
    assert names[..|names|] == names;
  }

  /** A share of the cases, or zero when there is none. */
  function Share(part: nat, whole: nat): real {
    if whole == 0 then 0.0 else part as real / whole as real
  }

  // ---------------------------------------------------------------- human review of safety

  datatype Risk = Low | High

  datatype Label<C> = Label(caseId: C, risk: Risk)

  datatype Thresholds = Thresholds(falseRejections: real, falseNegatives: real)

  datatype Review = Review(complete: bool, low: nat, high: nat, falseRejections: nat, falseNegatives: nat, gate: Option<bool>)

  datatype ReviewError = LabelKeyMismatch

  predicate ForReview<C>(row: Row<C>) { NeedsReview(row.track) }

  function ToReview<C>(rows: seq<Row<C>>): seq<Row<C>> {
    With(rows, ForReview, true)
  }

  predicate Labelled<C(!new)>(labels: map<C, Label<C>>, row: Row<C>, risk: Risk) {
    row.caseId in labels && labels[row.caseId].risk == risk
  }

  /** How many rows have a label of this risk. */
  function Number<C(!new)>(rows: seq<Row<C>>, labels: map<C, Label<C>>, risk: Risk): nat {
    if rows == [] then 0
    else
      var n := |rows| - 1;
      Number(rows[..n], labels, risk) + if Labelled(labels, rows[n], risk) then 1 else 0
  }

  /** How many rows of this risk got the wrong treatment: low risk stopped, high risk let through. */
  function Errors<C(!new)>(rows: seq<Row<C>>, labels: map<C, Label<C>>, risk: Risk): nat {
    if rows == [] then 0
    else
      var n := |rows| - 1;
      Errors(rows[..n], labels, risk)
      + if Labelled(labels, rows[n], risk) && rows[n].protective == risk.Low? then 1 else 0
  }

  function Rate(errors: nat, number: nat, round: real -> real): Option<real> {
    if number == 0 then None else Some(round(errors as real / number as real))
  }

  predicate Within(rate: Option<real>, limit: real) {
    rate.Some? && rate.value <= limit
  }

  predicate CompleteLabels<C(!new)>(rows: seq<Row<C>>, labels: map<C, Label<C>>) {
    rows != [] && forall i :: 0 <= i < |rows| ==> rows[i].caseId in labels
  }

  /** reviewed_safety_stats over the rows that need review. */
  function ReviewOf<C(!new)>(rows: seq<Row<C>>, labels: map<C, Label<C>>, thresholds: Option<Thresholds>, round: real -> real)
    : Review
  {
    var low, high := Number(rows, labels, Low), Number(rows, labels, High);
    var rejections, negatives := Errors(rows, labels, Low), Errors(rows, labels, High);
    var complete := CompleteLabels(rows, labels);
    Review(complete, low, high, rejections, negatives,
           if complete && thresholds.Some? then
             Some(Within(Rate(rejections, low, round), thresholds.value.falseRejections)
                  && Within(Rate(negatives, high, round), thresholds.value.falseNegatives))
           else None)
  }

  predicate KeysMatch<C(!new)>(labels: map<C, Label<C>>) {
    forall k :: k in labels ==> labels[k].caseId == k
  }

  function Reviewed<C(==, !new)>(rows: seq<Row<C>>, labels: map<C, Label<C>>, thresholds: Option<Thresholds>, round: real -> real)
    : Result<Review, ReviewError>
  {
    if KeysMatch(labels) then Ok(ReviewOf(ToReview(rows), labels, thresholds, round)) else Err(LabelKeyMismatch)
  }

  method ReviewSafety<C(==, !new)>(rows: seq<Row<C>>, labels: map<C, Label<C>>, thresholds: Option<Thresholds>,
                                   round: real -> real)
    returns (r: Result<Review, ReviewError>)
    ensures r == Reviewed(rows, labels, thresholds, round)
  {
    if !KeysMatch(labels) {
      return Err(LabelKeyMismatch);
    }
    var selected := ToReview(rows);
    var low, high, rejections, negatives := CountErrors(selected, labels);
    var lowRate, highRate := Rate(rejections, low, round), Rate(negatives, high, round);
    var complete := CompleteLabels(selected, labels);
    var gate: Option<bool> := None;
    if complete && thresholds.Some? {
      gate := Some(Within(lowRate, thresholds.value.falseRejections) && Within(highRate, thresholds.value.falseNegatives));
    }
    return Ok(Review(complete, low, high, rejections, negatives, gate));
  }

  method CountErrors<C(==, !new)>(rows: seq<Row<C>>, labels: map<C, Label<C>>)
    returns (low: nat, high: nat, rejections: nat, negatives: nat)
    ensures low == Number(rows, labels, Low) && high == Number(rows, labels, High)
    ensures rejections == Errors(rows, labels, Low) && negatives == Errors(rows, labels, High)
  {
    low, high, rejections, negatives := 0, 0, 0, 0;
    for i := 0 to |rows|
      invariant low == Number(rows[..i], labels, Low) && high == Number(rows[..i], labels, High)
      invariant rejections == Errors(rows[..i], labels, Low) && negatives == Errors(rows[..i], labels, High)
    {
      assert rows[..i + 1][..i] == rows[..i];
      if rows[i].caseId !in labels {
        continue;
      }
      var risk := labels[rows[i].caseId].risk;
      if risk.Low? {
        low := low + 1;
      } else {
        high := high + 1;
      }
      if risk.Low? && rows[i].protective {
        rejections := rejections + 1;
      }
      if risk.High? && !rows[i].protective {
        negatives := negatives + 1;
      }
    }
    assert rows[..|rows|] == rows;
  }

  // ---------------------------------------------------------------- the report

  datatype Mode = Debug | Release

  datatype Status = Cancelled | Incomplete | Completed

  datatype Options<C(!new)> = Options(
    mode: Mode, repetitions: int, cancelled: bool, judgeEnabled: Option<bool>,
    labels: Option<map<C, Label<C>>>, thresholds: Option<Thresholds>)

  datatype Summary<C> = Summary(
    gate: bool, status: Status, totals: Totals, firstPassRate: real, allPassRate: real, rows: seq<Row<C>>)

  predicate Requested<C(!new)>(judges: Judges<C>, enabled: Option<bool>) {
    if enabled.Some? then enabled.value else |judges.byAttempt| + |judges.byCase| > 0
  }

  predicate Unjudged<C>(row: Row<C>) {
    row.judgeError || row.judgePass.None?
  }

  predicate JudgeIncomplete<C(==, !new)>(rows: seq<Row<C>>, requested: bool) {
    || (exists r :: r in rows && NeedsReview(r.track) && !r.track.IntentRoute? && (!requested || Unjudged(r)))
    || (requested && exists r :: r in rows && !r.track.IntentRoute? && Unjudged(r))
  }

  predicate AnyForReview<C(==, !new)>(rows: seq<Row<C>>) {
    exists r :: r in rows && NeedsReview(r.track)
  }

  /** Lines 219-260: whether the gate opens, and the status. */
  function Gate<C(==, !new)>(rows: seq<Row<C>>, review: Option<Review>, mode: Mode, requested: bool): bool {
    && mode.Release? && requested
    && !(exists r :: r in rows && r.selfJudged)
    && !JudgeIncomplete(rows, requested)
    && (forall r :: r in rows ==> r.hardPass)
    && (AnyForReview(rows) ==> review.Some? && review.value.gate == Some(true))
  }

  function StatusOf<C(==, !new)>(rows: seq<Row<C>>, review: Option<Review>, requested: bool, cancelled: bool): Status {
    if cancelled then Cancelled
    else if JudgeIncomplete(rows, requested)
      || (AnyForReview(rows) && (review.None? || !review.value.complete || review.value.gate.None?)) then Incomplete
    else Completed
  }

  function SummaryOf<C(==, !new)>(rows: seq<Row<C>>, review: Option<Review>, options: Options<C>, requested: bool): Summary<C> {
    var t := TotalsOf(rows, options.repetitions);
    Summary(Gate(rows, review, options.mode, requested), StatusOf(rows, review, requested, options.cancelled),
            t, Share(t.firstPassed, t.selected), Share(t.passed, t.selected), rows)
  }

  /** build_report, over any rounding. */
  function Build<C(==, !new)>(cases: seq<Case<C>>, results: seq<Driven<C>>, judges: Judges<C>, options: Options<C>,
                              round: real -> real)
    : Result<Summary<C>, ReviewError>
  {
    var requested := Requested(judges, options.judgeEnabled);
    var rows := Rows(cases, results, |results|, judges, requested);
    if options.labels.None? then Ok(SummaryOf(rows, None, options, requested))
    else
      var review := Reviewed(rows, options.labels.value, options.thresholds, round);
      if review.Err? then Err(review.error) else Ok(SummaryOf(rows, Some(review.value), options, requested))
  }

  method BuildReport<C(==, !new)>(cases: seq<Case<C>>, results: seq<Driven<C>>, judges: Judges<C>, options: Options<C>,
                                  round: real -> real)
    returns (r: Result<Summary<C>, ReviewError>, tracks: map<Track, TrackStats>)
    ensures r == Build(cases, results, judges, options, round)
    ensures r.Ok? ==> tracks.Keys == SetOf(TrackOrder(r.value.rows))
    ensures r.Ok? ==> forall t :: t in tracks ==> tracks[t] == StatsOfTrack(r.value.rows, options.repetitions, t)
  {
    var requested := Requested(judges, options.judgeEnabled);
    var rows := BuildRows(cases, results, judges, requested);
    tracks := CountTracks(rows, options.repetitions);
    var totals := CountTotals(rows, options.repetitions);
    var review: Option<Review> := None;
    if options.labels.Some? {
      var reviewed := ReviewSafety(rows, options.labels.value, options.thresholds, round);
      if reviewed.Err? {
        return Err(reviewed.error), tracks;
      }
      review := Some(reviewed.value);
    }
    var gate := Gate(rows, review, options.mode, requested);
    var status := StatusOf(rows, review, requested, options.cancelled);
    return Ok(Summary(gate, status, totals, Share(totals.firstPassed, totals.selected),
                      Share(totals.passed, totals.selected), rows)), tracks;
  }
}
