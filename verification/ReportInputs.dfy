/**
 The report read off its inputs: which result and which judge every attempt, verdict and count stands for
 (src/harness/report.py:42-290, src/harness/human_review.py).
 */
module ReportInputs {
  import opened Prelude
  import opened Grouping
  import opened Report
  import opened ReportGuarantees

  // ---------------------------------------------------------------- cases, attempts and judges

  ghost predicate LastAt<C(!new)>(cases: seq<Case<C>>, id: C, i: nat) {
    i < |cases| && cases[i].id == id && forall j :: i < j < |cases| ==> cases[j].id != id
  }

  /** Of the cases with this id the last one counts. */
  ghost predicate KnownAs<C(!new)>(cases: seq<Case<C>>, id: C, track: Track) {
    exists i: nat :: LastAt(cases, id, i) && cases[i].track == track
  }

  ghost predicate Known<C(!new)>(cases: seq<Case<C>>, id: C) {
    exists i :: 0 <= i < |cases| && cases[i].id == id
  }

  /** The results of this case among the first n. */
  ghost function Earlier<C(!new)>(results: seq<Driven<C>>, n: nat, id: C): set<nat> {
    set j: nat | j < n && j < |results| && results[j].caseId == id
  }

  /** Result i is attempt number k of its case. */
  ghost predicate IsAttempt<C(!new)>(results: seq<Driven<C>>, id: C, k: nat, i: nat) {
    i < |results| && results[i].caseId == id && k == |Earlier(results, i, id)| + 1
  }

  /** The judge of an attempt, or else of its case, meets this test. */
  ghost predicate Says<C(!new)>(judges: Judges<C>, id: C, k: nat, test: Judge -> bool) {
    if (id, k) in judges.byAttempt then test(judges.byAttempt[(id, k)])
    else id in judges.byCase && test(judges.byCase[id])
  }

  predicate Approves(j: Judge) { j.verdict == Some(true) }
  predicate Refuses(j: Judge) { j.verdict == Some(false) }
  predicate HasFailed(j: Judge) { j.failed }
  predicate JudgesItself(j: Judge) { j.selfJudged }

  ghost predicate Decided<C(!new)>(judges: Judges<C>, id: C, k: nat) {
    Says(judges, id, k, Approves) || Says(judges, id, k, Refuses)
  }

  /** A judge decides the verdict of such a track. */
  predicate Judged(requested: bool, track: Track) {
    !track.IntentRoute? && (requested || track.LongTailResponse? || track.SafetyResponse?)
  }

  /** The row of this result as attempt k of its case. */
  ghost predicate RowFits<C(!new)>(cases: seq<Case<C>>, judges: Judges<C>, requested: bool, row: Row<C>, driven: Driven<C>, k: nat) {
    && row.caseId == driven.caseId && KnownAs(cases, row.caseId, row.track)
    && row.hardPass == driven.hardPass && row.protective == driven.protective
    && (row.judgePass == Some(true) <==> Says(judges, row.caseId, k, Approves))
    && (row.judgePass == Some(false) <==> Says(judges, row.caseId, k, Refuses))
    && (row.judgeError <==> Says(judges, row.caseId, k, HasFailed))
    && (row.selfJudged <==> Says(judges, row.caseId, k, JudgesItself))
    && (row.finalPass.None? <==> !Decided(judges, row.caseId, k) && Judged(requested, row.track))
    && (row.finalPass.Some? ==> row.finalPass.value == (driven.hardPass && !Says(judges, row.caseId, k, Refuses)))
  }

  lemma {:induction false} LookupIsLast<C(!new)>(cases: seq<Case<C>>, id: C)
    ensures match Lookup(cases, id)
      case Some(c) => c.id == id && KnownAs(cases, id, c.track)
      case None => forall i :: 0 <= i < |cases| ==> cases[i].id != id
  {
    if cases != [] {
      var n := |cases| - 1;
      LookupIsLast(cases[..n], id);
      if cases[n].id == id {
        assert LastAt(cases, id, n);
      } else if Lookup(cases, id).Some? {
        var track := Lookup(cases, id).value.track;
        var i: nat :| LastAt(cases[..n], id, i) && cases[..n][i].track == track;
        assert LastAt(cases, id, i) by {
          assert forall j :: i < j < n ==> cases[..n][j] == cases[j];
        }
      } else {
        assert forall i :: 0 <= i < n ==> cases[..n][i] == cases[i];
      }
    }
  }

  lemma KnownOnce<C(!new)>(cases: seq<Case<C>>, id: C, track: Track)
    ensures KnownAs(cases, id, track) <==> Lookup(cases, id) == Some(Case(id, track))
    ensures Known(cases, id) <==> Lookup(cases, id).Some?
  {
    LookupIsLast(cases, id);
    if Lookup(cases, id).Some? {
      var i: nat :| LastAt(cases, id, i) && cases[i].track == Lookup(cases, id).value.track;
      if KnownAs(cases, id, track) {
        var j: nat :| LastAt(cases, id, j) && cases[j].track == track;
        assert i == j;
      }
    }
  }

  lemma TwoVerdicts(verdict: Option<bool>)
    ensures verdict.Some? <==> verdict == Some(true) || verdict == Some(false)
  {
    if verdict.Some? {
      assert verdict == Some(if verdict.value then true else false);
    }
  }

  lemma JudgeForSays<C(!new)>(judges: Judges<C>, id: C, k: nat, test: Judge -> bool)
    ensures Says(judges, id, k, test) <==> judges.For(id, k).Some? && test(judges.For(id, k).value)
  {
  }

  /** The row that a known case's result gets is the one that the inputs say. */
  lemma RowForFits<C(!new)>(cases: seq<Case<C>>, judges: Judges<C>, requested: bool, c: Case<C>, driven: Driven<C>, k: nat)
    requires Lookup(cases, driven.caseId) == Some(c)
    ensures RowFits(cases, judges, requested, RowFor(c, driven, judges.For(c.id, k), requested), driven, k)
  {
    LookupIsLast(cases, driven.caseId);
    JudgeForSays(judges, c.id, k, Approves);
    JudgeForSays(judges, c.id, k, Refuses);
    JudgeForSays(judges, c.id, k, HasFailed);
    JudgeForSays(judges, c.id, k, JudgesItself);
    if judges.For(c.id, k).Some? {
      TwoVerdicts(judges.For(c.id, k).value.verdict);
    }
  }

  lemma EarlierSnoc<C(!new)>(results: seq<Driven<C>>, n: nat, id: C)
    requires n < |results|
    ensures |Earlier(results, n + 1, id)| == |Earlier(results, n, id)| + if results[n].caseId == id then 1 else 0
  {
    assert Earlier(results, n + 1, id) == Earlier(results, n, id) + if results[n].caseId == id then {n} else {};
  }

  // ---------------------------------------------------------------- the attempts of a case

  /** This row is attempt k of the case, made of its k-th result and of the judge for k. */
  ghost predicate AttemptFits<C(!new)>(cases: seq<Case<C>>, results: seq<Driven<C>>, judges: Judges<C>, requested: bool,
                                       id: C, row: Row<C>, k: nat)
  {
    exists i: nat :: IsAttempt(results, id, k, i) && RowFits(cases, judges, requested, row, results[i], k)
  }

  ghost predicate AttemptsFit<C(!new)>(cases: seq<Case<C>>, results: seq<Driven<C>>, judges: Judges<C>, requested: bool,
                                       id: C, attempts: seq<Row<C>>)
  {
    forall j :: 0 <= j < |attempts| ==> AttemptFits(cases, results, judges, requested, id, attempts[j], j + 1)
  }

  lemma AttemptsFitSnoc<C(!new)>(cases: seq<Case<C>>, results: seq<Driven<C>>, judges: Judges<C>, requested: bool,
                                 id: C, attempts: seq<Row<C>>, row: Row<C>)
    requires AttemptsFit(cases, results, judges, requested, id, attempts)
    requires AttemptFits(cases, results, judges, requested, id, row, |attempts| + 1)
    ensures AttemptsFit(cases, results, judges, requested, id, attempts + [row])
  {
  }

  /** A known case has as many attempts as results; an unknown case has none. */
  lemma {:induction false} AttemptsAreAsMany<C(!new)>(cases: seq<Case<C>>, results: seq<Driven<C>>, n: nat, judges: Judges<C>,
                                                      requested: bool, id: C)
    requires n <= |results|
    ensures |With(Rows(cases, results, n, judges, requested), CaseOf, id)| == if Known(cases, id) then |Earlier(results, n, id)| else 0
  {
    KnownOnce(cases, id, IntentRoute);
    if n == 0 {
      assert Earlier(results, 0, id) == {};
    } else {
      AttemptsAreAsMany(cases, results, n - 1, judges, requested, id);
      ResultAddsAttempt(cases, results, n, judges, requested, id);
      EarlierSnoc(results, n - 1, id);
    }
  }

  /** The row of a known case's result is the attempt that its place among the results says. */
  lemma RowForIsAttempt<C(!new)>(cases: seq<Case<C>>, results: seq<Driven<C>>, i: nat, judges: Judges<C>, requested: bool, id: C, k: nat)
    requires IsAttempt(results, id, k, i) && Lookup(cases, id).Some?
    ensures AttemptFits(cases, results, judges, requested, id,
                        RowFor(Lookup(cases, id).value, results[i], judges.For(id, k), requested), k)
  {
    LookupIsLast(cases, id);
    RowForFits(cases, judges, requested, Lookup(cases, id).value, results[i], k);
  }

  /** Attempt k of a known case is its k-th result with the judge for k. */
  lemma {:induction false} AttemptsOnInputs<C(!new)>(cases: seq<Case<C>>, results: seq<Driven<C>>, n: nat, judges: Judges<C>,
                                                     requested: bool, id: C)
    requires n <= |results|
    ensures AttemptsFit(cases, results, judges, requested, id, With(Rows(cases, results, n, judges, requested), CaseOf, id))
  {
    if n > 0 {
      AttemptsOnInputs(cases, results, n - 1, judges, requested, id);
      NextAttemptFits(cases, results, n, judges, requested, id, With(Rows(cases, results, n - 1, judges, requested), CaseOf, id));
    }
  }

  lemma NextAttemptFits<C(!new)>(cases: seq<Case<C>>, results: seq<Driven<C>>, n: nat, judges: Judges<C>, requested: bool, id: C,
                                 before: seq<Row<C>>)
    requires 0 < n <= |results| && before == With(Rows(cases, results, n - 1, judges, requested), CaseOf, id)
    requires AttemptsFit(cases, results, judges, requested, id, before)
    ensures AttemptsFit(cases, results, judges, requested, id, With(Rows(cases, results, n, judges, requested), CaseOf, id))
  {
    ResultAddsAttempt(cases, results, n, judges, requested, id);
    if results[n - 1].caseId == id && Lookup(cases, id).Some? {
      NextIsAttempt(cases, results, n, judges, requested, id, |before|);
      AttemptsFitSnoc(cases, results, judges, requested, id, before,
                      RowFor(Lookup(cases, id).value, results[n - 1], judges.For(id, |before| + 1), requested));
    }
  }

  lemma NextIsAttempt<C(!new)>(cases: seq<Case<C>>, results: seq<Driven<C>>, n: nat, judges: Judges<C>, requested: bool, id: C, k: nat)
    requires 0 < n <= |results| && results[n - 1].caseId == id && Lookup(cases, id).Some?
    requires k == |With(Rows(cases, results, n - 1, judges, requested), CaseOf, id)|
    ensures AttemptFits(cases, results, judges, requested, id,
                        RowFor(Lookup(cases, id).value, results[n - 1], judges.For(id, k + 1), requested), k + 1)
  {
    AttemptsAreAsMany(cases, results, n - 1, judges, requested, id);
    KnownOnce(cases, id, IntentRoute);
    RowForIsAttempt(cases, results, n - 1, judges, requested, id, k + 1);
  }

  // ---------------------------------------------------------------- every row

  ghost function AttemptNo<C(!new)>(results: seq<Driven<C>>, i: nat): nat
    requires i < |results|
  {
    |Earlier(results, i, results[i].caseId)| + 1
  }

  ghost predicate RowAt<C(!new)>(cases: seq<Case<C>>, results: seq<Driven<C>>, judges: Judges<C>, requested: bool, row: Row<C>, i: nat) {
    i < |results| && RowFits(cases, judges, requested, row, results[i], AttemptNo(results, i))
  }

  /** The rows are those of the first n results that have a case, at these positions and in their order. */
  ghost predicate RowsAt<C(!new)>(cases: seq<Case<C>>, results: seq<Driven<C>>, n: nat, judges: Judges<C>, requested: bool,
                                  rows: seq<Row<C>>, at: seq<nat>)
  {
    && |at| == |rows| && n <= |results|
    && (forall j, k :: 0 <= j < k < |at| ==> at[j] < at[k])
    && (forall i: nat :: i in at <==> i < n && Known(cases, results[i].caseId))
    && forall j :: 0 <= j < |at| ==> RowAt(cases, results, judges, requested, rows[j], at[j])
  }

  lemma RowsAtSnoc<C(!new)>(cases: seq<Case<C>>, results: seq<Driven<C>>, n: nat, judges: Judges<C>, requested: bool,
                            rows: seq<Row<C>>, at: seq<nat>, row: Row<C>)
    requires RowsAt(cases, results, n, judges, requested, rows, at) && n < |results|
    requires Known(cases, results[n].caseId) && RowAt(cases, results, judges, requested, row, n)
    ensures RowsAt(cases, results, n + 1, judges, requested, rows + [row], at + [n])
  {
    PositionsSnoc(at, n);
    forall j | 0 <= j < |at| + 1 ensures RowAt(cases, results, judges, requested, (rows + [row])[j], (at + [n])[j]) {
      if j < |at| {
        assert RowAt(cases, results, judges, requested, rows[j], at[j]);
      }
    }
  }

  lemma PositionsSnoc(at: seq<nat>, n: nat)
    requires (forall j, k :: 0 <= j < k < |at| ==> at[j] < at[k]) && forall i: nat :: i in at ==> i < n
    ensures forall j, k :: 0 <= j < k < |at| + 1 ==> (at + [n])[j] < (at + [n])[k]
    ensures forall i: nat :: i in at + [n] <==> i in at || i == n
  {
    forall j | 0 <= j < |at| ensures at[j] < n {
      assert at[j] in at;
    }
  }

  /** The rows with one more result: its row if its case is known. */
  ghost predicate Extends<C(!new)>(cases: seq<Case<C>>, results: seq<Driven<C>>, n: nat, judges: Judges<C>, requested: bool,
                                   before: seq<Row<C>>, after: seq<Row<C>>)
  {
    && 0 < n <= |results|
    && if Known(cases, results[n - 1].caseId) then
         |after| == |before| + 1 && after == before + [after[|before|]]
         && RowAt(cases, results, judges, requested, after[|before|], n - 1)
       else after == before
  }

  lemma RowsExtend<C(!new)>(cases: seq<Case<C>>, results: seq<Driven<C>>, n: nat, judges: Judges<C>, requested: bool)
    requires 0 < n <= |results|
    ensures Extends(cases, results, n, judges, requested, Rows(cases, results, n - 1, judges, requested),
                    Rows(cases, results, n, judges, requested))
  {
    var id := results[n - 1].caseId;
    KnownOnce(cases, id, IntentRoute);
    LookupIsLast(cases, id);
    if Known(cases, id) {
      AttemptsAreAsMany(cases, results, n - 1, judges, requested, id);
      RowForFits(cases, judges, requested, Lookup(cases, id).value, results[n - 1], AttemptNo(results, n - 1));
    }
  }

  lemma RowsAtNone<C(!new)>(cases: seq<Case<C>>, results: seq<Driven<C>>, n: nat, judges: Judges<C>, requested: bool,
                            rows: seq<Row<C>>, at: seq<nat>)
    requires RowsAt(cases, results, n, judges, requested, rows, at) && n < |results| && !Known(cases, results[n].caseId)
    ensures RowsAt(cases, results, n + 1, judges, requested, rows, at)
  {
  }

  lemma NextRowsAt<C(!new)>(cases: seq<Case<C>>, results: seq<Driven<C>>, n: nat, judges: Judges<C>, requested: bool,
                            before: seq<Row<C>>, after: seq<Row<C>>, at: seq<nat>)
    requires Extends(cases, results, n, judges, requested, before, after) && RowsAt(cases, results, n - 1, judges, requested, before, at)
    ensures RowsAt(cases, results, n, judges, requested, after, if Known(cases, results[n - 1].caseId) then at + [n - 1] else at)
  {
    if Known(cases, results[n - 1].caseId) {
      RowsAtSnoc(cases, results, n - 1, judges, requested, before, at, after[|before|]);
    } else {
      RowsAtNone(cases, results, n - 1, judges, requested, before, at);
    }
  }

  lemma NoRowsYet<C(!new)>(cases: seq<Case<C>>, results: seq<Driven<C>>, judges: Judges<C>, requested: bool)
    ensures RowsAt(cases, results, 0, judges, requested, [], [])
  {
  }

  lemma {:induction false} RowsFound<C(!new)>(cases: seq<Case<C>>, results: seq<Driven<C>>, n: nat, judges: Judges<C>, requested: bool)
    returns (at: seq<nat>)
    requires n <= |results|
    ensures RowsAt(cases, results, n, judges, requested, Rows(cases, results, n, judges, requested), at)
  {
    if n == 0 {
      NoRowsYet(cases, results, judges, requested);
      at := [];
    } else {
      at := RowsFound(cases, results, n - 1, judges, requested);
      RowsExtend(cases, results, n, judges, requested);
      NextRowsAt(cases, results, n, judges, requested, Rows(cases, results, n - 1, judges, requested),
                 Rows(cases, results, n, judges, requested), at);
      at := if Known(cases, results[n - 1].caseId) then at + [n - 1] else at;
    }
  }

  /** The rows are exactly the results that have a case, in their order. */
  lemma RowsOnInputs<C(!new)>(cases: seq<Case<C>>, results: seq<Driven<C>>, judges: Judges<C>, requested: bool)
    ensures exists at :: RowsAt(cases, results, |results|, judges, requested, Rows(cases, results, |results|, judges, requested), at)
  {
    var at := RowsFound(cases, results, |results|, judges, requested);
  }

  // ---------------------------------------------------------------- the gate on the inputs

  /** Whether judges were asked for: as the caller says, or by there being any. */
  predicate JudgesAsked<C(!new)>(judges: Judges<C>, options: Options<C>) {
    match options.judgeEnabled
    case Some(enabled) => enabled
    case None => judges.byAttempt != map[] || judges.byCase != map[]
  }

  lemma RequestedIsAsked<C(!new)>(judges: Judges<C>, options: Options<C>)
    ensures Requested(judges, options.judgeEnabled) <==> JudgesAsked(judges, options)
  {
  }

  /** The result counts in the report. */
  ghost predicate Counts<C(!new)>(cases: seq<Case<C>>, results: seq<Driven<C>>, i: nat) {
    i < |results| && Known(cases, results[i].caseId)
  }

  ghost predicate DecidedAt<C(!new)>(results: seq<Driven<C>>, judges: Judges<C>, i: nat)
    requires i < |results|
  {
    && Decided(judges, results[i].caseId, AttemptNo(results, i))
    && !Says(judges, results[i].caseId, AttemptNo(results, i), HasFailed)
  }

  /** What the gate wants of every result that counts: hard checks, and unless it is mere routing the word of another judge. */
  ghost predicate Vouched<C(!new)>(cases: seq<Case<C>>, results: seq<Driven<C>>, judges: Judges<C>, i: nat)
    requires i < |results|
  {
    && results[i].hardPass
    && !Says(judges, results[i].caseId, AttemptNo(results, i), JudgesItself)
    && (KnownAs(cases, results[i].caseId, IntentRoute) || DecidedAt(results, judges, i))
  }

  ghost predicate ReviewedAt<C(!new)>(cases: seq<Case<C>>, results: seq<Driven<C>>, i: nat) {
    i < |results| && (KnownAs(cases, results[i].caseId, LongTailResponse) || KnownAs(cases, results[i].caseId, SafetyResponse))
  }

  ghost predicate VouchedRow<C(!new)>(row: Row<C>) {
    row.hardPass && !row.selfJudged && (row.track.IntentRoute? || (row.judgePass.Some? && !row.judgeError))
  }

  lemma RowIsVouched<C(!new)>(cases: seq<Case<C>>, results: seq<Driven<C>>, judges: Judges<C>, requested: bool, row: Row<C>, i: nat)
    requires RowAt(cases, results, judges, requested, row, i)
    ensures VouchedRow(row) <==> Vouched(cases, results, judges, i)
    ensures NeedsReview(row.track) <==> ReviewedAt(cases, results, i)
    ensures row.track.IntentRoute? <==> KnownAs(cases, results[i].caseId, IntentRoute)
    ensures Unjudged(row) <==> !DecidedAt(results, judges, i)
    ensures Known(cases, results[i].caseId)
  {
    KnownOnce(cases, row.caseId, row.track);
    KnownOnce(cases, row.caseId, IntentRoute);
    KnownOnce(cases, row.caseId, LongTailResponse);
    KnownOnce(cases, row.caseId, SafetyResponse);
    TwoVerdicts(row.judgePass);
  }

  /** Rows and results that count correspond, whatever is asked of them. */
  lemma RowsAreResults<C(!new)>(cases: seq<Case<C>>, results: seq<Driven<C>>, judges: Judges<C>, requested: bool)
    ensures var rows := Rows(cases, results, |results|, judges, requested);
      && (forall row :: row in rows ==> exists i :: RowAt(cases, results, judges, requested, row, i))
      && (forall i: nat :: Counts(cases, results, i) ==> exists row :: row in rows && RowAt(cases, results, judges, requested, row, i))
  {
    var rows := Rows(cases, results, |results|, judges, requested);
    RowsOnInputs(cases, results, judges, requested);
    var at :| RowsAt(cases, results, |results|, judges, requested, rows, at);
    forall row | row in rows ensures exists i :: RowAt(cases, results, judges, requested, row, i) {
      var j :| 0 <= j < |rows| && rows[j] == row;
      assert RowAt(cases, results, judges, requested, rows[j], at[j]);
    }
    forall i: nat | Counts(cases, results, i) ensures exists row :: row in rows && RowAt(cases, results, judges, requested, row, i) {
      assert i in at;
      var j :| 0 <= j < |at| && at[j] == i;
      assert RowAt(cases, results, judges, requested, rows[j], at[j]) && rows[j] in rows;
    }
  }

  lemma AllVouched<C(!new)>(cases: seq<Case<C>>, results: seq<Driven<C>>, judges: Judges<C>, requested: bool)
    ensures var rows := Rows(cases, results, |results|, judges, requested);
      && ((forall row :: row in rows ==> VouchedRow(row)) <==>
            (forall i: nat :: Counts(cases, results, i) ==> Vouched(cases, results, judges, i)))
      && (AnyForReview(rows) <==> exists i :: ReviewedAt(cases, results, i))
  {
    var rows := Rows(cases, results, |results|, judges, requested);
    RowsAreResults(cases, results, judges, requested);
    forall row, i: nat | row in rows && RowAt(cases, results, judges, requested, row, i)
      ensures VouchedRow(row) <==> Vouched(cases, results, judges, i)
      ensures NeedsReview(row.track) <==> ReviewedAt(cases, results, i)
      ensures Counts(cases, results, i)
    {
      RowIsVouched(cases, results, judges, requested, row, i);
    }
    forall i: nat | ReviewedAt(cases, results, i) ensures Counts(cases, results, i) {
      KnownOnce(cases, results[i].caseId, LongTailResponse);
      KnownOnce(cases, results[i].caseId, SafetyResponse);
    }
  }

  // ---------------------------------------------------------------- human review on the inputs

  /** Result i is to be reviewed and has a label of this risk. */
  ghost predicate HasRisk<C(!new)>(cases: seq<Case<C>>, results: seq<Driven<C>>, labels: map<C, Label<C>>, risk: Risk, i: nat) {
    ReviewedAt(cases, results, i) && results[i].caseId in labels && labels[results[i].caseId].risk == risk
  }

  /** And it was treated wrongly: low risk stopped, or high risk let through. */
  ghost predicate IsMistaken<C(!new)>(cases: seq<Case<C>>, results: seq<Driven<C>>, labels: map<C, Label<C>>, risk: Risk, i: nat) {
    HasRisk(cases, results, labels, risk, i) && (risk.Low? <==> results[i].protective)
  }

  ghost function Below(n: nat, test: nat -> bool): set<nat> {
    set i: nat | i < n && test(i)
  }

  ghost function RiskTest<C(!new)>(cases: seq<Case<C>>, results: seq<Driven<C>>, labels: map<C, Label<C>>, risk: Risk): nat -> bool {
    (i: nat) => HasRisk(cases, results, labels, risk, i)
  }

  ghost function MistakeTest<C(!new)>(cases: seq<Case<C>>, results: seq<Driven<C>>, labels: map<C, Label<C>>, risk: Risk): nat -> bool {
    (i: nat) => IsMistaken(cases, results, labels, risk, i)
  }

  /** How many of the first n results have this risk, and how many of those were treated wrongly. */
  ghost function LabelledOf<C(!new)>(cases: seq<Case<C>>, results: seq<Driven<C>>, n: nat, labels: map<C, Label<C>>, risk: Risk): nat {
    |Below(n, RiskTest(cases, results, labels, risk))|
  }

  ghost function MistakenOf<C(!new)>(cases: seq<Case<C>>, results: seq<Driven<C>>, n: nat, labels: map<C, Label<C>>, risk: Risk): nat {
    |Below(n, MistakeTest(cases, results, labels, risk))|
  }

  lemma BelowSnoc(n: nat, test: nat -> bool)
    ensures |Below(n + 1, test)| == |Below(n, test)| + if test(n) then 1 else 0
  {
    assert Below(n + 1, test) == Below(n, test) + if test(n) then {n} else {};
  }

  lemma CountSnoc<C(!new)>(rows: seq<Row<C>>, row: Row<C>, labels: map<C, Label<C>>, risk: Risk)
    ensures var hit := NeedsReview(row.track) && Labelled(labels, row, risk);
      && Number(ToReview(rows + [row]), labels, risk) == Number(ToReview(rows), labels, risk) + (if hit then 1 else 0)
      && Errors(ToReview(rows + [row]), labels, risk)
         == Errors(ToReview(rows), labels, risk) + (if hit && row.protective == risk.Low? then 1 else 0)
  {
    Snoc(rows, row, ForReview, true);
    var selected := ToReview(rows);
    assert (selected + [row])[..|selected|] == selected;
  }

  lemma NextReviewed<C(!new)>(cases: seq<Case<C>>, results: seq<Driven<C>>, n: nat, judges: Judges<C>, requested: bool,
                              before: seq<Row<C>>, after: seq<Row<C>>, labels: map<C, Label<C>>, risk: Risk)
    requires Extends(cases, results, n, judges, requested, before, after)
    ensures Number(ToReview(after), labels, risk)
         == Number(ToReview(before), labels, risk) + if HasRisk(cases, results, labels, risk, n - 1) then 1 else 0
    ensures Errors(ToReview(after), labels, risk)
         == Errors(ToReview(before), labels, risk) + if IsMistaken(cases, results, labels, risk, n - 1) then 1 else 0
  {
    if Known(cases, results[n - 1].caseId) {
      RowIsVouched(cases, results, judges, requested, after[|before|], n - 1);
      CountSnoc(before, after[|before|], labels, risk);
    } else {
      KnownOnce(cases, results[n - 1].caseId, LongTailResponse);
      KnownOnce(cases, results[n - 1].caseId, SafetyResponse);
    }
  }

  /** What the review counts are the labelled and the mistaken results. */
  ghost predicate ReviewCounts<C(!new)>(cases: seq<Case<C>>, results: seq<Driven<C>>, n: nat, selected: seq<Row<C>>,
                                        labels: map<C, Label<C>>, risk: Risk)
  {
    && Number(selected, labels, risk) == LabelledOf(cases, results, n, labels, risk)
    && Errors(selected, labels, risk) == MistakenOf(cases, results, n, labels, risk)
  }

  lemma NothingReviewed<C(!new)>(cases: seq<Case<C>>, results: seq<Driven<C>>, labels: map<C, Label<C>>, risk: Risk)
    ensures ReviewCounts(cases, results, 0, [], labels, risk)
  {
    assert Below(0, RiskTest(cases, results, labels, risk)) == {} && Below(0, MistakeTest(cases, results, labels, risk)) == {};
  }

  lemma OneMoreReviewed<C(!new)>(cases: seq<Case<C>>, results: seq<Driven<C>>, n: nat, before: seq<Row<C>>, after: seq<Row<C>>,
                                 labels: map<C, Label<C>>, risk: Risk)
    requires ReviewCounts(cases, results, n, before, labels, risk)
    requires Number(after, labels, risk) == Number(before, labels, risk) + if HasRisk(cases, results, labels, risk, n) then 1 else 0
    requires Errors(after, labels, risk) == Errors(before, labels, risk) + if IsMistaken(cases, results, labels, risk, n) then 1 else 0
    ensures ReviewCounts(cases, results, n + 1, after, labels, risk)
  {
    BelowSnoc(n, RiskTest(cases, results, labels, risk));
    BelowSnoc(n, MistakeTest(cases, results, labels, risk));
  }

  lemma ReviewStep<C(!new)>(cases: seq<Case<C>>, results: seq<Driven<C>>, n: nat, judges: Judges<C>, requested: bool,
                            before: seq<Row<C>>, after: seq<Row<C>>, labels: map<C, Label<C>>, risk: Risk)
    requires Extends(cases, results, n, judges, requested, before, after)
    requires ReviewCounts(cases, results, n - 1, ToReview(before), labels, risk)
    ensures ReviewCounts(cases, results, n, ToReview(after), labels, risk)
  {
    NextReviewed(cases, results, n, judges, requested, before, after, labels, risk);
    OneMoreReviewed(cases, results, n - 1, ToReview(before), ToReview(after), labels, risk);
  }

  lemma {:induction false} ReviewOnInputs<C(!new)>(cases: seq<Case<C>>, results: seq<Driven<C>>, n: nat, judges: Judges<C>,
                                                   requested: bool, labels: map<C, Label<C>>, risk: Risk)
    requires n <= |results|
    ensures ReviewCounts(cases, results, n, ToReview(Rows(cases, results, n, judges, requested)), labels, risk)
  {
    if n == 0 {
      NothingReviewed(cases, results, labels, risk);
    } else {
      var before, after := Rows(cases, results, n - 1, judges, requested), Rows(cases, results, n, judges, requested);
      ReviewOnInputs(cases, results, n - 1, judges, requested, labels, risk);
      RowsExtend(cases, results, n, judges, requested);
      ReviewStep(cases, results, n, judges, requested, before, after, labels, risk);
    }
  }

  ghost predicate WithinLimit(errors: nat, number: nat, round: real -> real, limit: real) {
    number > 0 && round(errors as real / number as real) <= limit
  }

  /** Every result to be reviewed is labelled, and there are labels of both risks with few enough mistakes. */
  ghost predicate ReviewPasses<C(!new)>(cases: seq<Case<C>>, results: seq<Driven<C>>, options: Options<C>, round: real -> real) {
    && options.labels.Some? && options.thresholds.Some?
    && var labels, limits, n := options.labels.value, options.thresholds.value, |results|;
    && (forall i: nat :: ReviewedAt(cases, results, i) ==> results[i].caseId in labels)
    && WithinLimit(MistakenOf(cases, results, n, labels, Low), LabelledOf(cases, results, n, labels, Low), round, limits.falseRejections)
    && WithinLimit(MistakenOf(cases, results, n, labels, High), LabelledOf(cases, results, n, labels, High), round, limits.falseNegatives)
  }

  lemma AllLabelled<C(!new)>(cases: seq<Case<C>>, results: seq<Driven<C>>, judges: Judges<C>, requested: bool, labels: map<C, Label<C>>)
    ensures var rows := Rows(cases, results, |results|, judges, requested);
      (forall row :: row in rows && NeedsReview(row.track) ==> row.caseId in labels)
      <==> (forall i: nat :: ReviewedAt(cases, results, i) ==> results[i].caseId in labels)
  {
    var rows := Rows(cases, results, |results|, judges, requested);
    RowsAreResults(cases, results, judges, requested);
    forall row, i: nat | row in rows && RowAt(cases, results, judges, requested, row, i)
      ensures (NeedsReview(row.track) <==> ReviewedAt(cases, results, i)) && row.caseId == results[i].caseId
    {
      RowIsVouched(cases, results, judges, requested, row, i);
    }
    forall i: nat | ReviewedAt(cases, results, i) ensures Counts(cases, results, i) {
      KnownOnce(cases, results[i].caseId, LongTailResponse);
      KnownOnce(cases, results[i].caseId, SafetyResponse);
    }
  }

  lemma ReviewPassesOnInputs<C(!new)>(cases: seq<Case<C>>, results: seq<Driven<C>>, judges: Judges<C>, requested: bool,
                                      options: Options<C>, round: real -> real)
    ensures ReviewedWell(Rows(cases, results, |results|, judges, requested), options, round)
       <==> ReviewPasses(cases, results, options, round)
  {
    if options.labels.Some? && options.thresholds.Some? {
      AllLabelled(cases, results, judges, requested, options.labels.value);
      ReviewOnInputs(cases, results, |results|, judges, requested, options.labels.value, Low);
      ReviewOnInputs(cases, results, |results|, judges, requested, options.labels.value, High);
    }
  }

  /**
   The release gate on the inputs: a release for which judges were asked, whose every result that counts is vouched for, and
   whose human review passes if there is something to review.
   */
  lemma GateOnInputs<C(!new)>(cases: seq<Case<C>>, results: seq<Driven<C>>, judges: Judges<C>, options: Options<C>,
                              round: real -> real)
    requires Build(cases, results, judges, options, round).Ok?
    ensures Build(cases, results, judges, options, round).value.gate <==>
      && options.mode.Release? && JudgesAsked(judges, options)
      && (forall i: nat :: Counts(cases, results, i) ==> Vouched(cases, results, judges, i))
      && ((exists i :: ReviewedAt(cases, results, i)) ==> ReviewPasses(cases, results, options, round))
  {
    var requested := Requested(judges, options.judgeEnabled);
    GateOpensExactlyWhen(cases, results, judges, options, round);
    ReportHasTheRows(cases, results, judges, options, round);
    RequestedIsAsked(judges, options);
    AllVouched(cases, results, judges, requested);
    ReviewPassesOnInputs(cases, results, judges, requested, options, round);
    assert forall row: Row<C> :: VouchedRow(row) <==>
      row.hardPass && !row.selfJudged && (row.track.IntentRoute? || (row.judgePass.Some? && !row.judgeError));
  }

  /** A report is refused exactly for a label filed under another case. */
  lemma RefusedExactlyWhen<C(!new)>(cases: seq<Case<C>>, results: seq<Driven<C>>, judges: Judges<C>, options: Options<C>,
                                    round: real -> real)
    ensures Build(cases, results, judges, options, round).Err? <==>
      options.labels.Some? && exists id :: id in options.labels.value && options.labels.value[id].caseId != id
  {
  }

  // ---------------------------------------------------------------- the status on the inputs

  /** A judgement that the report cannot do without is missing: of any result but mere routing, or if none was asked for, of one to be reviewed. */
  ghost predicate MissesJudgement<C(!new)>(cases: seq<Case<C>>, results: seq<Driven<C>>, judges: Judges<C>, asked: bool, i: nat) {
    if asked then Counts(cases, results, i) && !KnownAs(cases, results[i].caseId, IntentRoute) && !DecidedAt(results, judges, i)
    else ReviewedAt(cases, results, i)
  }

  predicate MissingRow<C>(row: Row<C>, requested: bool) {
    if requested then !row.track.IntentRoute? && Unjudged(row) else NeedsReview(row.track)
  }

  lemma IncompleteRows<C(!new)>(rows: seq<Row<C>>, requested: bool)
    ensures JudgeIncomplete(rows, requested) <==> exists row :: row in rows && MissingRow(row, requested)
  {
    if row :| row in rows && MissingRow(row, requested) {
      assert NeedsReview(row.track) && !requested ==> JudgeIncomplete(rows, requested);
      assert requested ==> JudgeIncomplete(rows, requested);
    }
  }

  lemma JudgementsOnInputs<C(!new)>(cases: seq<Case<C>>, results: seq<Driven<C>>, judges: Judges<C>, requested: bool)
    ensures JudgeIncomplete(Rows(cases, results, |results|, judges, requested), requested)
       <==> exists i :: MissesJudgement(cases, results, judges, requested, i)
  {
    var rows := Rows(cases, results, |results|, judges, requested);
    RowsAreResults(cases, results, judges, requested);
    IncompleteRows(rows, requested);
    forall row, i: nat | row in rows && RowAt(cases, results, judges, requested, row, i)
      ensures MissingRow(row, requested) <==> MissesJudgement(cases, results, judges, requested, i)
    {
      RowIsVouched(cases, results, judges, requested, row, i);
    }
    forall i: nat | MissesJudgement(cases, results, judges, requested, i) ensures Counts(cases, results, i) {
      KnownOnce(cases, results[i].caseId, LongTailResponse);
      KnownOnce(cases, results[i].caseId, SafetyResponse);
    }
  }

  lemma StatusOnRows<C(!new)>(cases: seq<Case<C>>, results: seq<Driven<C>>, judges: Judges<C>, options: Options<C>, round: real -> real)
    requires Build(cases, results, judges, options, round).Ok?
    ensures var report, requested := Build(cases, results, judges, options, round).value, Requested(judges, options.judgeEnabled);
      var unreviewed := AnyForReview(report.rows)
        && (options.labels.None? || options.thresholds.None?
            || !(forall row :: row in report.rows && NeedsReview(row.track) ==> row.caseId in options.labels.value));
      report.status == if options.cancelled then Status.Cancelled
                       else if JudgeIncomplete(report.rows, requested) || unreviewed then Incomplete
                       else Completed
  {
    if options.labels.Some? {
      CompleteMeans(Build(cases, results, judges, options, round).value.rows, options.labels.value);
    }
  }

  /** Limits are set, and every result to be reviewed has a label. */
  ghost predicate Labels<C(!new)>(cases: seq<Case<C>>, results: seq<Driven<C>>, options: Options<C>) {
    && options.labels.Some? && options.thresholds.Some?
    && forall i: nat :: ReviewedAt(cases, results, i) ==> results[i].caseId in options.labels.value
  }

  /** With the gate open or closed: the status is incomplete exactly when a judgement, a label or the limits are missing. */
  lemma StatusOnInputs<C(!new)>(cases: seq<Case<C>>, results: seq<Driven<C>>, judges: Judges<C>, options: Options<C>, round: real -> real)
    requires Build(cases, results, judges, options, round).Ok?
    ensures var status := Build(cases, results, judges, options, round).value.status;
      && (status.Cancelled? <==> options.cancelled)
      && (status.Incomplete? <==>
           (!options.cancelled
            && ((exists i :: MissesJudgement(cases, results, judges, JudgesAsked(judges, options), i))
                || ((exists i :: ReviewedAt(cases, results, i)) && !Labels(cases, results, options)))))
  {
    var requested := Requested(judges, options.judgeEnabled);
    StatusOnRows(cases, results, judges, options, round);
    ReportHasTheRows(cases, results, judges, options, round);
    RequestedIsAsked(judges, options);
    JudgementsOnInputs(cases, results, judges, requested);
    AllVouched(cases, results, judges, requested);
    if options.labels.Some? {
      AllLabelled(cases, results, judges, requested, options.labels.value);
    }
  }
}
