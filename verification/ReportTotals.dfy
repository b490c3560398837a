/** The totals of a report as numbers of cases with certain results and judges (src/harness/report.py:100-180). */
module ReportTotals {
  import opened Prelude
  import opened Listing
  import opened Grouping
  import opened Report
  import opened ReportGuarantees
  import opened ReportInputs

  /** The cases that have a result. */
  ghost function SelectedIds<C(!new)>(cases: seq<Case<C>>, results: seq<Driven<C>>): set<C> {
    set driven | driven in results && Known(cases, driven.caseId) :: driven.caseId
  }

  /** The k-th result of the case passed the hard checks. */
  ghost predicate HardAt<C(!new)>(results: seq<Driven<C>>, id: C, k: nat) {
    exists i: nat :: IsAttempt(results, id, k, i) && results[i].hardPass
  }

  /** And its judge did not refuse it, and approved it where a judge decides. */
  ghost predicate PassesAt<C(!new)>(cases: seq<Case<C>>, results: seq<Driven<C>>, judges: Judges<C>, requested: bool, id: C, k: nat) {
    && HardAt(results, id, k) && !Says(judges, id, k, Refuses)
    && (Says(judges, id, k, Approves) || exists track :: KnownAs(cases, id, track) && !Judged(requested, track))
  }

  /** All of the first `repetitions` results pass, and there are that many. */
  ghost predicate PassesAll<C(!new)>(cases: seq<Case<C>>, results: seq<Driven<C>>, judges: Judges<C>, requested: bool,
                                     repetitions: int, id: C)
  {
    && |Earlier(results, |results|, id)| >= repetitions
    && forall k: nat :: 1 <= k <= repetitions ==> PassesAt(cases, results, judges, requested, id, k)
  }

  lemma EarlierGrows<C(!new)>(results: seq<Driven<C>>, id: C, i: nat, j: nat)
    requires i < j && i < |results| && results[i].caseId == id
    ensures |Earlier(results, i, id)| < |Earlier(results, j, id)|
  {
    var smaller, larger := Earlier(results, i, id), Earlier(results, j, id);
    assert i in larger && i !in smaller && smaller + {i} <= larger;
    assert larger == smaller + {i} + (larger - smaller - {i});
  }

  /** A case has only one k-th result. */
  lemma AttemptIsUnique<C(!new)>(results: seq<Driven<C>>, id: C, k: nat, i: nat, j: nat)
    requires IsAttempt(results, id, k, i) && IsAttempt(results, id, k, j)
    ensures i == j
  {
    if i < j {
      EarlierGrows(results, id, i, j);
    } else if j < i {
      EarlierGrows(results, id, j, i);
    }
  }

  lemma HardIs<C(!new)>(results: seq<Driven<C>>, id: C, k: nat, i: nat)
    requires IsAttempt(results, id, k, i)
    ensures HardAt(results, id, k) <==> results[i].hardPass
  {
    if HardAt(results, id, k) {
      var j: nat :| IsAttempt(results, id, k, j) && results[j].hardPass;
      AttemptIsUnique(results, id, k, i, j);
    }
  }

  lemma TrackDecides<C(!new)>(cases: seq<Case<C>>, id: C, track: Track, requested: bool)
    requires KnownAs(cases, id, track)
    ensures (exists other :: KnownAs(cases, id, other) && !Judged(requested, other)) <==> !Judged(requested, track)
  {
    forall other | KnownAs(cases, id, other) ensures other == track {
      KnownOnce(cases, id, track);
      KnownOnce(cases, id, other);
    }
  }

  lemma RowMeans<C(!new)>(cases: seq<Case<C>>, results: seq<Driven<C>>, judges: Judges<C>, requested: bool, row: Row<C>, k: nat, i: nat)
    requires IsAttempt(results, row.caseId, k, i) && RowFits(cases, judges, requested, row, results[i], k)
    ensures row.hardPass <==> HardAt(results, row.caseId, k)
    ensures row.judgePass == Some(true) <==> Says(judges, row.caseId, k, Approves)
    ensures row.finalPass == Some(true) <==> PassesAt(cases, results, judges, requested, row.caseId, k)
  {
    HardIs(results, row.caseId, k, i);
    TrackDecides(cases, row.caseId, row.track, requested);
    TwoVerdicts(row.finalPass);
    assert !(Says(judges, row.caseId, k, Approves) && Says(judges, row.caseId, k, Refuses));
  }

  /** What an attempt's row says is what its result and its judge say. */
  lemma AttemptMeans<C(!new)>(cases: seq<Case<C>>, results: seq<Driven<C>>, judges: Judges<C>, requested: bool, id: C, j: nat)
    requires j < |With(Rows(cases, results, |results|, judges, requested), CaseOf, id)|
    ensures var row := With(Rows(cases, results, |results|, judges, requested), CaseOf, id)[j];
      && (row.hardPass <==> HardAt(results, id, j + 1))
      && (row.judgePass == Some(true) <==> Says(judges, id, j + 1, Approves))
      && (row.finalPass == Some(true) <==> PassesAt(cases, results, judges, requested, id, j + 1))
  {
    AttemptsOnInputs(cases, results, |results|, judges, requested, id);
    var row := With(Rows(cases, results, |results|, judges, requested), CaseOf, id)[j];
    assert AttemptFits(cases, results, judges, requested, id, row, j + 1);
    var i: nat :| IsAttempt(results, id, j + 1, i) && RowFits(cases, judges, requested, row, results[i], j + 1);
    RowMeans(cases, results, judges, requested, row, j + 1, i);
  }

  lemma SelectedKeys<C(!new)>(cases: seq<Case<C>>, results: seq<Driven<C>>, judges: Judges<C>, requested: bool)
    ensures var ids := Keys(Rows(cases, results, |results|, judges, requested), CaseOf);
      SetOf(ids) == SelectedIds(cases, results) && |ids| == |SelectedIds(cases, results)|
  {
    var rows := Rows(cases, results, |results|, judges, requested);
    KeysDistinct(rows, CaseOf);
    forall id ensures id in Keys(rows, CaseOf) <==> id in SelectedIds(cases, results) {
      WithMembers(rows, CaseOf, id);
      AttemptsAreAsMany(cases, results, |results|, judges, requested, id);
      if id in SelectedIds(cases, results) {
        var driven :| driven in results && Known(cases, driven.caseId) && driven.caseId == id;
        var i :| 0 <= i < |results| && results[i] == driven;
        assert i in Earlier(results, |results|, id);
      }
      if Earlier(results, |results|, id) != {} {
        var i :| i in Earlier(results, |results|, id);
        assert results[i] in results;
      }
    }
  }

  /** What is counted over the groups of rows is the set of selected cases that meet the same condition on the inputs. */
  lemma CasesAre<C(!new)>(cases: seq<Case<C>>, results: seq<Driven<C>>, judges: Judges<C>, requested: bool,
                          test: seq<Row<C>> -> bool, ids: set<C>)
    requires forall id :: id in SelectedIds(cases, results) ==>
      (id in ids <==> test(With(Rows(cases, results, |results|, judges, requested), CaseOf, id)))
    requires ids <= SelectedIds(cases, results)
    ensures Cases(Rows(cases, results, |results|, judges, requested), test) == |ids|
  {
    SelectedKeys(cases, results, judges, requested);
    assert Meeting(Rows(cases, results, |results|, judges, requested), CaseOf, test) == ids;
  }

  lemma SelectedHaveAttempts<C(!new)>(cases: seq<Case<C>>, results: seq<Driven<C>>, judges: Judges<C>, requested: bool, id: C)
    requires id in SelectedIds(cases, results)
    ensures var attempts := With(Rows(cases, results, |results|, judges, requested), CaseOf, id);
      attempts != [] && |attempts| == |Earlier(results, |results|, id)|
  {
    SelectedKeys(cases, results, judges, requested);
    WithMembers(Rows(cases, results, |results|, judges, requested), CaseOf, id);
    AttemptsAreAsMany(cases, results, |results|, judges, requested, id);
  }

  lemma HardOnInputs<C(!new)>(cases: seq<Case<C>>, results: seq<Driven<C>>, judges: Judges<C>, requested: bool)
    ensures Cases(Rows(cases, results, |results|, judges, requested), FirstHard)
         == |set id | id in SelectedIds(cases, results) && HardAt(results, id, 1)|
  {
    forall id | id in SelectedIds(cases, results)
      ensures HardAt(results, id, 1) <==> FirstHard(With(Rows(cases, results, |results|, judges, requested), CaseOf, id))
    {
      SelectedHaveAttempts(cases, results, judges, requested, id);
      AttemptMeans(cases, results, judges, requested, id, 0);
    }
    CasesAre(cases, results, judges, requested, FirstHard, set id | id in SelectedIds(cases, results) && HardAt(results, id, 1));
  }

  lemma JudgedOnInputs<C(!new)>(cases: seq<Case<C>>, results: seq<Driven<C>>, judges: Judges<C>, requested: bool)
    ensures Cases(Rows(cases, results, |results|, judges, requested), FirstJudged)
         == |set id | id in SelectedIds(cases, results) && Says(judges, id, 1, Approves)|
  {
    forall id | id in SelectedIds(cases, results)
      ensures Says(judges, id, 1, Approves) <==> FirstJudged(With(Rows(cases, results, |results|, judges, requested), CaseOf, id))
    {
      SelectedHaveAttempts(cases, results, judges, requested, id);
      AttemptMeans(cases, results, judges, requested, id, 0);
    }
    CasesAre(cases, results, judges, requested, FirstJudged, set id | id in SelectedIds(cases, results) && Says(judges, id, 1, Approves));
  }

  lemma FirstOnInputs<C(!new)>(cases: seq<Case<C>>, results: seq<Driven<C>>, judges: Judges<C>, requested: bool)
    ensures Cases(Rows(cases, results, |results|, judges, requested), FirstFinal)
         == |set id | id in SelectedIds(cases, results) && PassesAt(cases, results, judges, requested, id, 1)|
  {
    forall id | id in SelectedIds(cases, results)
      ensures PassesAt(cases, results, judges, requested, id, 1) <==>
        FirstFinal(With(Rows(cases, results, |results|, judges, requested), CaseOf, id))
    {
      SelectedHaveAttempts(cases, results, judges, requested, id);
      AttemptMeans(cases, results, judges, requested, id, 0);
    }
    CasesAre(cases, results, judges, requested, FirstFinal,
             set id | id in SelectedIds(cases, results) && PassesAt(cases, results, judges, requested, id, 1));
  }

  lemma AllFinalIs<C(!new)>(attempts: seq<Row<C>>, repetitions: int)
    requires repetitions >= 1
    ensures AllFinal(attempts, repetitions) <==>
      |attempts| >= repetitions && forall j :: 0 <= j < repetitions && j < |attempts| ==> attempts[j].finalPass == Some(true)
  {
    if |attempts| >= repetitions {
      assert Slice(attempts, 0, repetitions) == attempts[..repetitions];
    }
  }

  lemma PassesAllMeans<C(!new)>(cases: seq<Case<C>>, results: seq<Driven<C>>, judges: Judges<C>, requested: bool, repetitions: int, id: C)
    requires repetitions >= 1 && id in SelectedIds(cases, results)
    ensures AllFinal(With(Rows(cases, results, |results|, judges, requested), CaseOf, id), repetitions)
       <==> PassesAll(cases, results, judges, requested, repetitions, id)
  {
    var attempts := With(Rows(cases, results, |results|, judges, requested), CaseOf, id);
    SelectedHaveAttempts(cases, results, judges, requested, id);
    AllFinalIs(attempts, repetitions);
    forall j: nat | j < |attempts|
      ensures attempts[j].finalPass == Some(true) <==> PassesAt(cases, results, judges, requested, id, j + 1)
    {
      AttemptMeans(cases, results, judges, requested, id, j);
    }
    if AllFinal(attempts, repetitions) {
      forall k: nat | 1 <= k <= repetitions ensures PassesAt(cases, results, judges, requested, id, k) {
        assert attempts[k - 1].finalPass == Some(true);
      }
    }
    if PassesAll(cases, results, judges, requested, repetitions, id) {
      forall j | 0 <= j < repetitions ensures attempts[j].finalPass == Some(true) {
        assert PassesAt(cases, results, judges, requested, id, j + 1);
      }
    }
  }

  lemma PassedOnInputs<C(!new)>(cases: seq<Case<C>>, results: seq<Driven<C>>, judges: Judges<C>, requested: bool, repetitions: int)
    requires repetitions >= 1
    ensures Cases(Rows(cases, results, |results|, judges, requested), Passes(repetitions))
         == |set id | id in SelectedIds(cases, results) && PassesAll(cases, results, judges, requested, repetitions, id)|
  {
    forall id | id in SelectedIds(cases, results)
      ensures PassesAll(cases, results, judges, requested, repetitions, id) <==>
        Passes(repetitions)(With(Rows(cases, results, |results|, judges, requested), CaseOf, id))
    {
      PassesAllMeans(cases, results, judges, requested, repetitions, id);
    }
    CasesAre(cases, results, judges, requested, Passes(repetitions),
             set id | id in SelectedIds(cases, results) && PassesAll(cases, results, judges, requested, repetitions, id));
  }

  /** The totals of every report: numbers of selected cases by their results and judges. */
  ghost predicate TotalsFit<C(!new)>(cases: seq<Case<C>>, results: seq<Driven<C>>, judges: Judges<C>, asked: bool, repetitions: int, t: Totals) {
    var ids := SelectedIds(cases, results);
    && t.selected == |ids|
    && t.hardPassed == |set id | id in ids && HardAt(results, id, 1)|
    && t.judgePassed == |set id | id in ids && Says(judges, id, 1, Approves)|
    && t.firstPassed == |set id | id in ids && PassesAt(cases, results, judges, asked, id, 1)|
    && t.passed == |set id | id in ids && PassesAll(cases, results, judges, asked, repetitions, id)|
    && t.failed == t.selected - t.passed
  }

  lemma RowTotalsFit<C(!new)>(cases: seq<Case<C>>, results: seq<Driven<C>>, judges: Judges<C>, requested: bool, repetitions: int)
    requires repetitions >= 1
    ensures TotalsFit(cases, results, judges, requested, repetitions,
                      TotalsOf(Rows(cases, results, |results|, judges, requested), repetitions))
  {
    SelectedKeys(cases, results, judges, requested);
    HardOnInputs(cases, results, judges, requested);
    JudgedOnInputs(cases, results, judges, requested);
    FirstOnInputs(cases, results, judges, requested);
    PassedOnInputs(cases, results, judges, requested, repetitions);
    MeetingSplits(Rows(cases, results, |results|, judges, requested), repetitions);
  }

  lemma ReportHasTheTotals<C(!new)>(cases: seq<Case<C>>, results: seq<Driven<C>>, judges: Judges<C>, options: Options<C>,
                                    round: real -> real)
    requires Build(cases, results, judges, options, round).Ok?
    ensures var report := Build(cases, results, judges, options, round).value;
      var rows := Rows(cases, results, |results|, judges, Requested(judges, options.judgeEnabled));
      && report.totals == TotalsOf(rows, options.repetitions)
      && report.firstPassRate == Share(report.totals.firstPassed, report.totals.selected)
      && report.allPassRate == Share(report.totals.passed, report.totals.selected)
  {
  }

  lemma TotalsOnInputs<C(!new)>(cases: seq<Case<C>>, results: seq<Driven<C>>, judges: Judges<C>, options: Options<C>,
                                round: real -> real)
    requires options.repetitions >= 1 && Build(cases, results, judges, options, round).Ok?
    ensures TotalsFit(cases, results, judges, JudgesAsked(judges, options), options.repetitions,
                      Build(cases, results, judges, options, round).value.totals)
  {
    RequestedIsAsked(judges, options);
    RowTotalsFit(cases, results, judges, Requested(judges, options.judgeEnabled), options.repetitions);
    ReportHasTheTotals(cases, results, judges, options, round);
  }

  /** part/whole, or zero of nothing. */
  predicate IsRate(rate: real, part: nat, whole: nat) {
    if whole == 0 then rate == 0.0 else rate * whole as real == part as real
  }

  lemma ShareIsRate(part: nat, whole: nat)
    ensures IsRate(Share(part, whole), part, whole)
  {
  }

  /** The two rates are those shares of the selected cases. */
  lemma RatesAreShares<C(!new)>(cases: seq<Case<C>>, results: seq<Driven<C>>, judges: Judges<C>, options: Options<C>,
                                round: real -> real)
    requires Build(cases, results, judges, options, round).Ok?
    ensures var report := Build(cases, results, judges, options, round).value;
      && IsRate(report.firstPassRate, report.totals.firstPassed, report.totals.selected)
      && IsRate(report.allPassRate, report.totals.passed, report.totals.selected)
  {
    var t := Build(cases, results, judges, options, round).value.totals;
    ReportHasTheTotals(cases, results, judges, options, round);
    ShareIsRate(t.firstPassed, t.selected);
    ShareIsRate(t.passed, t.selected);
  }
}
