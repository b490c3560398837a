/** What the counts and the release gate of an evaluation report promise. */
module ReportGuarantees {
  import opened Prelude
  import opened Listing
  import opened Grouping
  import opened Report

  // ---------------------------------------------------------------- rows

  /** A passing row passed the hard checks, and the rows of a case share its track. */
  ghost predicate Consistent<C(!new)>(rows: seq<Row<C>>) {
    && (forall r :: r in rows && r.finalPass == Some(true) ==> r.hardPass)
    && (forall r, s :: r in rows && s in rows && r.caseId == s.caseId ==> r.track == s.track)
  }

  lemma {:induction false} LookupFinds<C(!new)>(cases: seq<Case<C>>, id: C)
    ensures Lookup(cases, id).Some? ==> Lookup(cases, id).value.id == id
  {
    if cases != [] {
      LookupFinds(cases[..|cases| - 1], id);
    }
  }

  lemma {:induction false} RowsComeFromCases<C(!new)>(cases: seq<Case<C>>, results: seq<Driven<C>>, n: nat,
                                                      judges: Judges<C>, requested: bool, r: Row<C>)
    requires n <= |results| && r in Rows(cases, results, n, judges, requested)
    ensures Lookup(cases, r.caseId) == Some(Case(r.caseId, r.track))
    ensures r.finalPass == FinalVerdict(r.hardPass, r.judgePass, requested, r.track)
  {
    if r in Rows(cases, results, n - 1, judges, requested) {
      RowsComeFromCases(cases, results, n - 1, judges, requested, r);
    } else {
      LookupFinds(cases, results[n - 1].caseId);
    }
  }

  lemma RowsConsistent<C(!new)>(cases: seq<Case<C>>, results: seq<Driven<C>>, n: nat, judges: Judges<C>, requested: bool)
    requires n <= |results|
    ensures Consistent(Rows(cases, results, n, judges, requested))
  {
    var rows := Rows(cases, results, n, judges, requested);
    forall r | r in rows
      ensures Lookup(cases, r.caseId) == Some(Case(r.caseId, r.track)) && (r.finalPass == Some(true) ==> r.hardPass)
    {
      RowsComeFromCases(cases, results, n, judges, requested, r);
    }
  }

  // ---------------------------------------------------------------- passed and failed

  lemma MeetingSplits<C(!new)>(rows: seq<Row<C>>, repetitions: int)
    ensures Cases(rows, Passes(repetitions)) + Cases(rows, Fails(repetitions)) == |Keys(rows, CaseOf)|
  {
    var ids := Keys(rows, CaseOf);
    var passing, failing := Meeting(rows, CaseOf, Passes(repetitions)), Meeting(rows, CaseOf, Fails(repetitions));
    KeysDistinct(rows, CaseOf);
    assert passing + failing == SetOf(ids);
    assert passing !! failing;
  }

  lemma MeetingWithin<C(!new)>(rows: seq<Row<C>>, test: seq<Row<C>> -> bool, test': seq<Row<C>> -> bool)
    requires forall id :: id in Keys(rows, CaseOf) && test(With(rows, CaseOf, id)) ==> test'(With(rows, CaseOf, id))
    ensures Cases(rows, test) <= Cases(rows, test')
  {
    var smaller, larger := Meeting(rows, CaseOf, test), Meeting(rows, CaseOf, test');
    assert smaller <= larger;
    assert larger == smaller + (larger - smaller);
  }

  lemma FirstAttemptPasses<C(!new)>(rows: seq<Row<C>>, repetitions: int, id: C)
    requires repetitions >= 1 && id in Keys(rows, CaseOf) && AllFinal(With(rows, CaseOf, id), repetitions)
    ensures FirstFinal(With(rows, CaseOf, id))
  {
    GroupStarts(rows, CaseOf, id);
    var attempts := With(rows, CaseOf, id);
    assert Slice(attempts, 0, repetitions)[0] == attempts[0];
  }

  /** Passing all repetitions implies passing the first, and that implies the hard checks. */
  lemma PassedWithinFirstWithinHard<C(!new)>(rows: seq<Row<C>>, repetitions: int)
    requires repetitions >= 1 && Consistent(rows)
    ensures var t := TotalsOf(rows, repetitions);
            && t.passed <= t.firstPassed <= t.hardPassed <= t.selected
            && Share(t.passed, t.selected) <= Share(t.firstPassed, t.selected)
  {
    forall id | id in Keys(rows, CaseOf) && Passes<C>(repetitions)(With(rows, CaseOf, id))
      ensures FirstFinal(With(rows, CaseOf, id))
    {
      FirstAttemptPasses(rows, repetitions, id);
    }
    MeetingWithin(rows, Passes(repetitions), FirstFinal);
    forall id | id in Keys(rows, CaseOf) && FirstFinal(With(rows, CaseOf, id)) ensures FirstHard(With(rows, CaseOf, id)) {
      GroupStarts(rows, CaseOf, id);
    }
    MeetingWithin(rows, FirstFinal, FirstHard);
    AllOfThem(rows);
    MeetingWithin(rows, FirstHard, Always);
    var t := TotalsOf(rows, repetitions);
    ShareGrows(t.passed, t.firstPassed, t.selected);
  }

  predicate Always<C>(attempts: seq<Row<C>>) { true }

  lemma AllOfThem<C(!new)>(rows: seq<Row<C>>)
    ensures Cases(rows, Always) == |Keys(rows, CaseOf)|
  {
    KeysDistinct(rows, CaseOf);
    assert Meeting(rows, CaseOf, Always) == SetOf(Keys(rows, CaseOf));
  }

  lemma ShareGrows(part: nat, part': nat, whole: nat)
    requires part <= part'
    ensures Share(part, whole) <= Share(part', whole)
  {
    if whole != 0 {
      assert part' as real / whole as real - part as real / whole as real == (part' - part) as real / whole as real;
    }
  }

  // ---------------------------------------------------------------- tracks add up

  lemma {:induction false} InnerGroup<C(!new)>(rows: seq<Row<C>>, track: Track, id: C)
    requires forall r :: r in rows && r.caseId == id ==> r.track == track
    ensures With(With(rows, TrackOf, track), CaseOf, id) == With(rows, CaseOf, id)
  {
    if rows != [] {
      var n := |rows| - 1;
      assert forall r :: r in rows[..n] ==> r in rows;
      InnerGroup(rows[..n], track, id);
      if rows[n].track == track {
        Snoc(With(rows[..n], TrackOf, track), rows[n], CaseOf, id);
      }
    }
  }

  /** A case of a track has the same attempts there as in the whole report. */
  lemma TrackHasCase<C(!new)>(rows: seq<Row<C>>, track: Track, id: C)
    requires Consistent(rows)
    ensures id in Keys(With(rows, TrackOf, track), CaseOf) <==> exists r :: r in rows && r.caseId == id && r.track == track
    ensures id in Keys(With(rows, TrackOf, track), CaseOf)
        ==> With(With(rows, TrackOf, track), CaseOf, id) == With(rows, CaseOf, id)
  {
    var inner := With(rows, TrackOf, track);
    WithMembers(rows, TrackOf, track);
    WithMembers(inner, CaseOf, id);
    if id in Keys(inner, CaseOf) {
      GroupStarts(inner, CaseOf, id);
      InnerGroup(rows, track, id);
    }
    if r :| r in rows && r.caseId == id && r.track == track {
      assert r in With(inner, CaseOf, id);
    }
  }

  lemma CaseHasTrack<C(!new)>(rows: seq<Row<C>>, id: C) returns (r: Row<C>)
    requires id in Keys(rows, CaseOf)
    ensures r in rows && r.caseId == id && r.track in TrackOrder(rows)
  {
    GroupStarts(rows, CaseOf, id);
    r := With(rows, CaseOf, id)[0];
    WithMembers(rows, TrackOf, r.track);
    assert r in With(rows, TrackOf, r.track);
  }

  /** Whatever is counted per case, the tracks' counts add up to the report's. */
  lemma TrackCountsAddUp<C(!new)>(rows: seq<Row<C>>, test: seq<Row<C>> -> bool, count: Track -> nat)
    requires Consistent(rows)
    requires forall t :: t in TrackOrder(rows) ==> count(t) == Cases(With(rows, TrackOf, t), test)
    ensures Sum(TrackOrder(rows), count) == Cases(rows, test)
  {
    var tracks := TrackOrder(rows);
    var part := (t: Track) => Meeting(With(rows, TrackOf, t), CaseOf, test);
    KeysDistinct(rows, TrackOf);
    forall t, t', id | t in tracks && t' in tracks && id in part(t) && id in part(t') ensures t == t' {
      TrackHasCase(rows, t, id);
      TrackHasCase(rows, t', id);
    }
    SumOfDisjoint(tracks, part, count);
    forall id ensures id in Union(tracks, part) <==> id in Meeting(rows, CaseOf, test) {
      UnionMembers(tracks, part, id);
      if t :| t in tracks && id in part(t) {
        TrackHasCase(rows, t, id);
        WithMembers(rows, CaseOf, id);
      }
      if id in Meeting(rows, CaseOf, test) {
        var r := CaseHasTrack(rows, id);
        TrackHasCase(rows, r.track, id);
      }
    }
    assert Union(tracks, part) == Meeting(rows, CaseOf, test);
  }

  /** One field of every track's statistics. */
  function Field<C(==, !new)>(rows: seq<Row<C>>, repetitions: int, field: TrackStats -> nat): (r: Track -> nat)
    ensures forall t :: r(t) == field(StatsOf(With(rows, TrackOf, t), repetitions))
  {
    (t: Track) => field(StatsOf(With(rows, TrackOf, t), repetitions))
  }

  function SelectedOf(s: TrackStats): nat { s.selected }
  function AttemptsOf(s: TrackStats): nat { s.attempts }
  function HardOf(s: TrackStats): nat { s.hardPass }
  function JudgedOf(s: TrackStats): nat { s.judgePass }
  function FinalOf(s: TrackStats): nat { s.finalPass }

  lemma FieldAddsUp<C(!new)>(rows: seq<Row<C>>, repetitions: int, field: TrackStats -> nat, test: seq<Row<C>> -> bool)
    requires Consistent(rows)
    requires forall some: seq<Row<C>> :: field(StatsOf(some, repetitions)) == Cases(some, test)
    ensures Sum(TrackOrder(rows), Field(rows, repetitions, field)) == Cases(rows, test)
  {
    forall t | t in TrackOrder(rows)
      ensures Field(rows, repetitions, field)(t) == Cases(With(rows, TrackOf, t), test)
    {
      assert field(StatsOf(With(rows, TrackOf, t), repetitions)) == Cases(With(rows, TrackOf, t), test);
    }
    TrackCountsAddUp(rows, test, Field(rows, repetitions, field));
  }

  lemma CasesAddUp<C(!new)>(rows: seq<Row<C>>, repetitions: int)
    requires Consistent(rows)
    ensures Sum(TrackOrder(rows), Field(rows, repetitions, SelectedOf)) == |Keys(rows, CaseOf)|
  {
    forall some: seq<Row<C>> ensures SelectedOf(StatsOf(some, repetitions)) == Cases(some, Always) {
      AllOfThem(some);
    }
    FieldAddsUp(rows, repetitions, SelectedOf, Always);
    AllOfThem(rows);
  }

  lemma AttemptsAddUp<C(!new)>(rows: seq<Row<C>>, repetitions: int)
    ensures Sum(TrackOrder(rows), Field(rows, repetitions, AttemptsOf)) == |rows|
  {
    forall t ensures Field(rows, repetitions, AttemptsOf)(t) == |With(rows, TrackOf, t)| {
      assert AttemptsOf(StatsOf(With(rows, TrackOf, t), repetitions)) == |With(rows, TrackOf, t)|;
    }
    KeysDistinct(rows, TrackOf);
    GroupSizesAddUp(rows, TrackOf, TrackOrder(rows), Field(rows, repetitions, AttemptsOf));
  }

  /** The tracks' statistics add up to the report's. */
  lemma TracksAddUp<C(!new)>(rows: seq<Row<C>>, repetitions: int)
    requires Consistent(rows)
    ensures var tracks, t := TrackOrder(rows), TotalsOf(rows, repetitions);
            && Sum(tracks, Field(rows, repetitions, SelectedOf)) == t.selected
            && Sum(tracks, Field(rows, repetitions, AttemptsOf)) == t.attempts
            && Sum(tracks, Field(rows, repetitions, HardOf)) == t.hardPassed
            && Sum(tracks, Field(rows, repetitions, JudgedOf)) == t.judgePassed
            && Sum(tracks, Field(rows, repetitions, FinalOf)) == t.passed
  {
    CasesAddUp(rows, repetitions);
    AttemptsAddUp(rows, repetitions);
    FieldAddsUp(rows, repetitions, HardOf, FirstHard);
    FieldAddsUp(rows, repetitions, JudgedOf, FirstJudged);
    FieldAddsUp(rows, repetitions, FinalOf, Passes(repetitions));
  }

  /** For every report of at least one repetition. */
  lemma ReportCountsAddUp<C(!new)>(cases: seq<Case<C>>, results: seq<Driven<C>>, judges: Judges<C>, options: Options<C>,
                                   round: real -> real)
    requires options.repetitions >= 1 && Build(cases, results, judges, options, round).Ok?
    ensures var report := Build(cases, results, judges, options, round).value;
            var t, tracks := report.totals, TrackOrder(report.rows);
            && t.passed + t.failed == t.selected <= t.attempts <= |results|
            && t.passed <= t.firstPassed <= t.hardPassed
            && 0.0 <= report.allPassRate <= report.firstPassRate <= 1.0
            && Sum(tracks, Field(report.rows, options.repetitions, SelectedOf)) == t.selected
            && Sum(tracks, Field(report.rows, options.repetitions, AttemptsOf)) == t.attempts
            && Sum(tracks, Field(report.rows, options.repetitions, HardOf)) == t.hardPassed
            && Sum(tracks, Field(report.rows, options.repetitions, JudgedOf)) == t.judgePassed
            && Sum(tracks, Field(report.rows, options.repetitions, FinalOf)) == t.passed
  {
    var rows := Build(cases, results, judges, options, round).value.rows;
    RowsConsistent(cases, results, |results|, judges, Requested(judges, options.judgeEnabled));
    MeetingSplits(rows, options.repetitions);
    PassedWithinFirstWithinHard(rows, options.repetitions);
    TracksAddUp(rows, options.repetitions);
    NoMoreRowsThanResults(cases, results, |results|, judges, Requested(judges, options.judgeEnabled));
    NoMoreKeysThanRows(rows);
    var t := TotalsOf(rows, options.repetitions);
    ShareBounded(t.passed, t.selected);
    ShareBounded(t.firstPassed, t.selected);
  }

  lemma ShareBounded(part: nat, whole: nat)
    requires part <= whole
    ensures 0.0 <= Share(part, whole) <= 1.0
  {
  }

  lemma {:induction false} NoMoreRowsThanResults<C(!new)>(cases: seq<Case<C>>, results: seq<Driven<C>>, n: nat,
                                                           judges: Judges<C>, requested: bool)
    requires n <= |results|
    ensures |Rows(cases, results, n, judges, requested)| <= n
  {
    if n > 0 {
      NoMoreRowsThanResults(cases, results, n - 1, judges, requested);
    }
  }

  lemma {:induction false} NoMoreKeysThanRows<C(!new)>(rows: seq<Row<C>>)
    ensures |Keys(rows, CaseOf)| <= |rows|
  {
    if rows != [] {
      NoMoreKeysThanRows(rows[..|rows| - 1]);
    }
  }

  // ---------------------------------------------------------------- the release gate

  /** The labels a release needs when some row must be reviewed. */
  ghost predicate ReviewedWell<C(!new)>(rows: seq<Row<C>>, options: Options<C>, round: real -> real) {
    && options.labels.Some? && options.thresholds.Some?
    && var labels, selected := options.labels.value, ToReview(rows);
    && (forall r :: r in rows && NeedsReview(r.track) ==> r.caseId in labels)
    && Within(Rate(Errors(selected, labels, Low), Number(selected, labels, Low), round), options.thresholds.value.falseRejections)
    && Within(Rate(Errors(selected, labels, High), Number(selected, labels, High), round), options.thresholds.value.falseNegatives)
  }

  lemma ReviewRows<C(!new)>(rows: seq<Row<C>>)
    ensures forall r :: r in ToReview(rows) <==> r in rows && NeedsReview(r.track)
    ensures ToReview(rows) != [] <==> AnyForReview(rows)
  {
    WithMembers(rows, ForReview, true);
    var selected := ToReview(rows);
    assert selected == [] || selected[0] in selected;
  }

  lemma CompleteMeans<C(!new)>(rows: seq<Row<C>>, labels: map<C, Label<C>>)
    ensures CompleteLabels(ToReview(rows), labels)
       <==> AnyForReview(rows) && forall r :: r in rows && NeedsReview(r.track) ==> r.caseId in labels
  {
    ReviewRows(rows);
    var selected := ToReview(rows);
    assert forall i :: 0 <= i < |selected| ==> selected[i] in selected;
  }

  /** The gate opens exactly on this evidence, and then the report is never incomplete. */
  lemma GateOpensExactlyWhen<C(!new)>(cases: seq<Case<C>>, results: seq<Driven<C>>, judges: Judges<C>, options: Options<C>,
                                      round: real -> real)
    requires Build(cases, results, judges, options, round).Ok?
    ensures var report := Build(cases, results, judges, options, round).value;
            report.gate <==>
              && options.mode.Release? && Requested(judges, options.judgeEnabled)
              && (forall r :: r in report.rows ==>
                    r.hardPass && !r.selfJudged && (r.track.IntentRoute? || (r.judgePass.Some? && !r.judgeError)))
              && (AnyForReview(report.rows) ==> ReviewedWell(report.rows, options, round))
    ensures var report := Build(cases, results, judges, options, round).value;
            report.gate ==> report.status == if options.cancelled then Cancelled else Completed
  {
    var rows := Build(cases, results, judges, options, round).value.rows;
    if options.labels.Some? {
      CompleteMeans(rows, options.labels.value);
    }
  }

  /** The gate does not read the verdict: behind an open gate a row passes unless its judge said no. */
  lemma OpenGateRowsPassUnlessRefused<C(!new)>(cases: seq<Case<C>>, results: seq<Driven<C>>, judges: Judges<C>,
                                               options: Options<C>, round: real -> real, r: Row<C>)
    requires Build(cases, results, judges, options, round).Ok?
    requires var report := Build(cases, results, judges, options, round).value;
             report.gate && r in report.rows
    ensures r.finalPass == Some(true) <==> r.judgePass != Some(false)
    ensures r.finalPass.Some?
  {
    GateOpensExactlyWhen(cases, results, judges, options, round);
    RowsComeFromCases(cases, results, |results|, judges, Requested(judges, options.judgeEnabled), r);
  }

  /** Enough attempts, and none that counts was refused by its judge. */
  predicate EnoughUnrefused<C>(attempts: seq<Row<C>>, repetitions: int) {
    && |attempts| >= repetitions
    && forall i :: 0 <= i < repetitions && i < |attempts| ==> attempts[i].judgePass != Some(false)
  }

  lemma AttemptsPassExactlyWhen<C(!new)>(attempts: seq<Row<C>>, repetitions: int)
    requires repetitions >= 1
    requires forall r :: r in attempts ==> (r.finalPass == Some(true) <==> r.judgePass != Some(false))
    ensures AllFinal(attempts, repetitions) <==> EnoughUnrefused(attempts, repetitions)
  {
    if |attempts| >= repetitions {
      assert Slice(attempts, 0, repetitions) == attempts[..repetitions];
      assert forall i :: 0 <= i < repetitions ==> attempts[i] in attempts;
    }
  }

  lemma NoneMeetsExactlyWhen<C(!new)>(rows: seq<Row<C>>, test: seq<Row<C>> -> bool)
    ensures Cases(rows, test) == 0 <==> forall id :: id in Keys(rows, CaseOf) ==> !test(With(rows, CaseOf, id))
  {
    var meeting := Meeting(rows, CaseOf, test);
    assert forall id :: id in meeting <==> id in Keys(rows, CaseOf) && test(With(rows, CaseOf, id));
    if meeting == {} {
      forall id | id in Keys(rows, CaseOf) ensures !test(With(rows, CaseOf, id)) {
        assert id !in meeting;
      }
    } else {
      var id :| id in meeting;
      assert id in Keys(rows, CaseOf) && test(With(rows, CaseOf, id));
      assert Cases(rows, test) == |meeting| != 0;
    }
  }

  /**
   Behind an open gate every case passes if and only if every case has enough attempts and none of its first
   `repetitions` attempts was refused: the gate itself looks at neither.
   */
  lemma OpenGatePassesExactlyWhen<C(!new)>(cases: seq<Case<C>>, results: seq<Driven<C>>, judges: Judges<C>,
                                           options: Options<C>, round: real -> real)
    requires Build(cases, results, judges, options, round).Ok? && options.repetitions >= 1
    requires Build(cases, results, judges, options, round).value.gate
    ensures var report := Build(cases, results, judges, options, round).value;
            (report.totals.failed == 0 <==>
              forall id :: id in Keys(report.rows, CaseOf) ==>
                EnoughUnrefused(With(report.rows, CaseOf, id), options.repetitions))
  {
    var rows := Build(cases, results, judges, options, round).value.rows;
    forall r | r in rows ensures r.finalPass == Some(true) <==> r.judgePass != Some(false) {
      OpenGateRowsPassUnlessRefused(cases, results, judges, options, round, r);
    }
    forall id | id in Keys(rows, CaseOf)
      ensures AllFinal(With(rows, CaseOf, id), options.repetitions)
         <==> EnoughUnrefused(With(rows, CaseOf, id), options.repetitions)
    {
      WithMembers(rows, CaseOf, id);
      AttemptsPassExactlyWhen(With(rows, CaseOf, id), options.repetitions);
    }
    NoneMeetsExactlyWhen(rows, Fails(options.repetitions));
  }

  function DrivenCase<C>(driven: Driven<C>): C { driven.caseId }

  /** What the judge of this attempt said, if it was judged. */
  function VerdictFor<C(!new)>(judges: Judges<C>, id: C, attempt: nat): Option<bool> {
    var judge := judges.For(id, attempt);
    if judge.Some? then judge.value.verdict else None
  }

  /** Attempt k was judged by the judge for k. */
  predicate JudgedInTurn<C(!new)>(attempts: seq<Row<C>>, judges: Judges<C>, id: C) {
    forall k: nat :: 1 <= k <= |attempts| ==> attempts[k - 1].judgePass == VerdictFor(judges, id, k)
  }

  lemma JudgedSnoc<C(!new)>(attempts: seq<Row<C>>, row: Row<C>, judges: Judges<C>, id: C)
    requires JudgedInTurn(attempts, judges, id) && row.judgePass == VerdictFor(judges, id, |attempts| + 1)
    ensures JudgedInTurn(attempts + [row], judges, id)
  {
  }

  /** A result adds an attempt to its own case, if that is known, and to no other. */
  lemma ResultAddsAttempt<C(!new)>(cases: seq<Case<C>>, results: seq<Driven<C>>, n: nat, judges: Judges<C>, requested: bool, id: C)
    requires 0 < n <= |results|
    ensures var before := With(Rows(cases, results, n - 1, judges, requested), CaseOf, id);
            var c, driven := Lookup(cases, id), results[n - 1];
            With(Rows(cases, results, n, judges, requested), CaseOf, id)
            == if driven.caseId != id || c.None? then before
               else before + [RowFor(c.value, driven, judges.For(id, |before| + 1), requested)]
  {
    var driven, before := results[n - 1], Rows(cases, results, n - 1, judges, requested);
    var c := Lookup(cases, driven.caseId);
    LookupFinds(cases, driven.caseId);
    if c.Some? {
      var attempt := |With(before, CaseOf, c.value.id)| + 1;
      Snoc(before, RowFor(c.value, driven, judges.For(c.value.id, attempt), requested), CaseOf, id);
    }
  }

  lemma {:induction false} AttemptsAreCounted<C(!new)>(cases: seq<Case<C>>, results: seq<Driven<C>>, n: nat, judges: Judges<C>,
                                                       requested: bool, id: C)
    requires n <= |results|
    ensures |With(Rows(cases, results, n, judges, requested), CaseOf, id)|
         == if Lookup(cases, id).None? then 0 else |With(results[..n], DrivenCase, id)|
  {
    if n > 0 {
      AttemptsAreCounted(cases, results, n - 1, judges, requested, id);
      ResultAddsAttempt(cases, results, n, judges, requested, id);
      assert results[..n] == results[..n - 1] + [results[n - 1]];
      Snoc(results[..n - 1], results[n - 1], DrivenCase, id);
    }
  }

  lemma {:induction false} AttemptsAreJudged<C(!new)>(cases: seq<Case<C>>, results: seq<Driven<C>>, n: nat, judges: Judges<C>,
                                                      requested: bool, id: C)
    requires n <= |results|
    ensures JudgedInTurn(With(Rows(cases, results, n, judges, requested), CaseOf, id), judges, id)
  {
    if n > 0 {
      AttemptsAreJudged(cases, results, n - 1, judges, requested, id);
      NextIsJudged(cases, results, n, judges, requested, id, With(Rows(cases, results, n - 1, judges, requested), CaseOf, id));
    }
  }

  lemma NextIsJudged<C(!new)>(cases: seq<Case<C>>, results: seq<Driven<C>>, n: nat, judges: Judges<C>, requested: bool, id: C,
                              before: seq<Row<C>>)
    requires 0 < n <= |results| && before == With(Rows(cases, results, n - 1, judges, requested), CaseOf, id)
    requires JudgedInTurn(before, judges, id)
    ensures JudgedInTurn(With(Rows(cases, results, n, judges, requested), CaseOf, id), judges, id)
  {
    ResultAddsAttempt(cases, results, n, judges, requested, id);
    LookupFinds(cases, id);
    if results[n - 1].caseId == id && Lookup(cases, id).Some? {
      JudgedSnoc(before, RowFor(Lookup(cases, id).value, results[n - 1], judges.For(id, |before| + 1), requested), judges, id);
    }
  }

  /** The attempts of a known case are its results in order, each with its judge; an unknown case has none. */
  lemma AttemptsAreResults<C(!new)>(cases: seq<Case<C>>, results: seq<Driven<C>>, n: nat, judges: Judges<C>,
                                    requested: bool, id: C)
    requires n <= |results|
    ensures var attempts := With(Rows(cases, results, n, judges, requested), CaseOf, id);
            && JudgedInTurn(attempts, judges, id)
            && |attempts| == if Lookup(cases, id).None? then 0 else |With(results[..n], DrivenCase, id)|
  {
    AttemptsAreCounted(cases, results, n, judges, requested, id);
    AttemptsAreJudged(cases, results, n, judges, requested, id);
  }

  /** Read off the inputs: a result for every repetition, and no judge that counts said no. */
  predicate EnoughAccepted<C(==, !new)>(results: seq<Driven<C>>, judges: Judges<C>, repetitions: int, id: C) {
    && |With(results, DrivenCase, id)| >= repetitions
    && forall k: nat :: 1 <= k <= repetitions ==> VerdictFor(judges, id, k) != Some(false)
  }

  lemma UnrefusedIsAccepted<C(!new)>(attempts: seq<Row<C>>, judges: Judges<C>, repetitions: int, id: C)
    requires JudgedInTurn(attempts, judges, id)
    ensures EnoughUnrefused(attempts, repetitions)
       <==> |attempts| >= repetitions && forall k: nat :: 1 <= k <= repetitions ==> VerdictFor(judges, id, k) != Some(false)
  {
    if EnoughUnrefused(attempts, repetitions) {
      forall k: nat | 1 <= k <= repetitions ensures VerdictFor(judges, id, k) != Some(false) {
        assert attempts[k - 1].judgePass == VerdictFor(judges, id, k);
      }
    }
    if |attempts| >= repetitions && forall k: nat :: 1 <= k <= repetitions ==> VerdictFor(judges, id, k) != Some(false) {
      forall i | 0 <= i < repetitions ensures attempts[i].judgePass != Some(false) {
        assert attempts[i + 1 - 1].judgePass == VerdictFor(judges, id, i + 1);
      }
    }
  }

  lemma CaseIsEnough<C(!new)>(cases: seq<Case<C>>, results: seq<Driven<C>>, judges: Judges<C>, requested: bool,
                              repetitions: int, id: C)
    ensures var rows := Rows(cases, results, |results|, judges, requested);
            && (id in Keys(rows, CaseOf) <==> Lookup(cases, id).Some? && With(results, DrivenCase, id) != [])
            && (id in Keys(rows, CaseOf) ==>
                  (EnoughUnrefused(With(rows, CaseOf, id), repetitions) <==> EnoughAccepted(results, judges, repetitions, id)))
  {
    var rows := Rows(cases, results, |results|, judges, requested);
    AttemptsAreResults(cases, results, |results|, judges, requested, id);
    assert results[..|results|] == results;
    WithMembers(rows, CaseOf, id);
    UnrefusedIsAccepted(With(rows, CaseOf, id), judges, repetitions, id);
  }

  lemma AllCasesAreEnough<C(!new)>(cases: seq<Case<C>>, results: seq<Driven<C>>, judges: Judges<C>, requested: bool, repetitions: int)
    ensures var rows := Rows(cases, results, |results|, judges, requested);
            (forall id :: id in Keys(rows, CaseOf) ==> EnoughUnrefused(With(rows, CaseOf, id), repetitions))
            <==> (forall id :: Lookup(cases, id).Some? && With(results, DrivenCase, id) != [] ==>
                    EnoughAccepted(results, judges, repetitions, id))
  {
    var rows := Rows(cases, results, |results|, judges, requested);
    forall id
      ensures id in Keys(rows, CaseOf) <==> Lookup(cases, id).Some? && With(results, DrivenCase, id) != []
      ensures id in Keys(rows, CaseOf) ==>
        (EnoughUnrefused(With(rows, CaseOf, id), repetitions) <==> EnoughAccepted(results, judges, repetitions, id))
    {
      CaseIsEnough(cases, results, judges, requested, repetitions, id);
    }
  }

  /**
   The same in terms of the inputs: behind an open gate every case passes if and only if every known case with
   a result has at least `repetitions` of them, and none of its first `repetitions` judges said no.
   */
  lemma OpenGatePassesExactlyOnInputs<C(!new)>(cases: seq<Case<C>>, results: seq<Driven<C>>, judges: Judges<C>,
                                               options: Options<C>, round: real -> real)
    requires Build(cases, results, judges, options, round).Ok? && options.repetitions >= 1
    requires Build(cases, results, judges, options, round).value.gate
    ensures Build(cases, results, judges, options, round).value.totals.failed == 0 <==>
      forall id :: Lookup(cases, id).Some? && With(results, DrivenCase, id) != [] ==>
        EnoughAccepted(results, judges, options.repetitions, id)
  {
    OpenGatePassesExactlyWhen(cases, results, judges, options, round);
    ReportHasTheRows(cases, results, judges, options, round);
    AllCasesAreEnough(cases, results, judges, Requested(judges, options.judgeEnabled), options.repetitions);
  }

  lemma ReportHasTheRows<C(!new)>(cases: seq<Case<C>>, results: seq<Driven<C>>, judges: Judges<C>, options: Options<C>,
                                  round: real -> real)
    requires Build(cases, results, judges, options, round).Ok?
    ensures Build(cases, results, judges, options, round).value.rows
         == Rows(cases, results, |results|, judges, Requested(judges, options.judgeEnabled))
  {
  }

  lemma OneRow<C(!new)>(row: Row<C>, repetitions: int)
    ensures Keys([row], CaseOf) == [row.caseId] && With([row], CaseOf, row.caseId) == [row]
    ensures repetitions >= 2 ==> TotalsOf([row], repetitions).passed == 0 && TotalsOf([row], repetitions).selected == 1
  {
    assert [row][..0] == [];
    Snoc([], row, CaseOf, row.caseId);
    assert [] + [row] == [row];
    if repetitions >= 2 {
      assert Meeting([row], CaseOf, Passes(repetitions)) == {};
    }
  }

  /** The gate opens on a single approved attempt although two or more were asked for: nothing passes, nothing was refused. */
  lemma GateOpensOnMissingRepetition<C(!new)>(id: C, name: string, judges: Judges<C>, options: Options<C>, round: real -> real)
    requires judges.For(id, 1) == Some(Judge(Some(true), false, false))
    requires options.mode.Release? && options.judgeEnabled == Some(true) && options.labels.None? && options.repetitions >= 2
    ensures var r := Build([Case(id, OtherTrack(name))], [Driven(id, true, false)], judges, options, round);
            && r.Ok? && r.value.gate
            && |r.value.rows| == 1 && r.value.rows[0].judgePass == Some(true)
            && r.value.totals.selected == 1 && r.value.totals.passed == 0
  {
    var cases, results := [Case(id, OtherTrack(name))], [Driven(id, true, false)];
    assert Lookup(cases, id) == Some(cases[0]);
    var row := RowFor(cases[0], results[0], judges.For(id, 1), true);
    assert Rows(cases, results, 0, judges, true) == [];
    assert Rows(cases, results, 1, judges, true) == [row];
    assert !AnyForReview([row]);
    OneRow(row, options.repetitions);
  }

  /** So the gate can be open on a report whose every case was refused by its judge. */
  lemma GateOpensOnRefusedAnswer<C(!new)>(id: C, name: string, judges: Judges<C>, options: Options<C>, round: real -> real)
    requires judges.For(id, 1) == Some(Judge(Some(false), false, false))
    requires options.mode.Release? && options.judgeEnabled == Some(true) && options.labels.None?
    ensures var r := Build([Case(id, OtherTrack(name))], [Driven(id, true, false)], judges, options, round);
            && r.Ok? && r.value.gate
            && |r.value.rows| == 1 && r.value.rows[0].finalPass == Some(false)
  {
    var cases, results := [Case(id, OtherTrack(name))], [Driven(id, true, false)];
    assert Lookup(cases, id) == Some(cases[0]);
    var row := RowFor(cases[0], results[0], judges.For(id, 1), true);
    assert Rows(cases, results, 0, judges, true) == [];
    assert Rows(cases, results, 1, judges, true) == [row];
    assert !AnyForReview([row]);
  }

  /** And on a report with no rows at all. */
  lemma GateOpensOnNothing<C(!new)>(cases: seq<Case<C>>, judges: Judges<C>, options: Options<C>, round: real -> real)
    requires options.mode.Release? && Requested(judges, options.judgeEnabled) && options.labels.None?
    ensures var r := Build(cases, [], judges, options, round);
            r.Ok? && r.value.gate && r.value.totals.selected == 0
  {
    var rows := Rows(cases, [], 0, judges, true);
    assert !AnyForReview(rows);
  }
}
