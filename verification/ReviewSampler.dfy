/** Choosing dialogues for human review (src/harness/multiturn_review.py). */
module ReviewSampler {
  import opened Prelude
  import opened Ordering
  import opened Listing
  import opened RoundRobin

  /** A report row: its scenario id, and how many of its turns a reviewer can observe. */
  datatype Row = Row(scenarioId: string, turns: nat)

  /** A row with its place in the report. */
  datatype Entry = Entry(index: nat, row: Row)

  datatype QueueError = SizeNotPositive | TooFewRows | MissingScenarioId | DuplicateScenarioId | NoObservableTurns

  // ---------------------------------------------------------------- families

  predicate Digits(s: string) {
    s != [] && forall i :: 0 <= i < |s| ==> '0' <= s[i] <= '9'
  }

  predicate Numbering(part: string) {
    part == "v1" || Digits(part)
  }

  /** The position of the last underscore, or -1. */
  function LastUnderscore(s: string): (k: int)
    ensures -1 <= k < |s|
    ensures k >= 0 ==> s[k] == '_'
    ensures forall i :: k < i < |s| ==> s[i] != '_'
  {
    if s == [] then -1
    else if s[|s| - 1] == '_' then |s| - 1
    else LastUnderscore(s[..|s| - 1])
  }

  /** The id without its trailing numbering parts. */
  function Stripped(id: string): string {
    var k := LastUnderscore(id);
    if !Numbering(id[k + 1..]) then id
    else if k < 0 then ""
    else Stripped(id[..k])
  }

  function Family(id: string): string {
    if Stripped(id) == "" then id else Stripped(id)
  }

  function FamilyOf(row: Row): string {
    Family(row.scenarioId)
  }

  // ---------------------------------------------------------------- grouping

  /** The rows of a family with observable turns, among the first n, in report order. */
  function Group<K(==)>(rows: seq<Row>, key: Row -> K, n: nat, family: K): seq<Entry>
    requires n <= |rows|
  {
    if n == 0 then []
    else
      var before := Group(rows, key, n - 1, family);
      if rows[n - 1].turns > 0 && key(rows[n - 1]) == family then before + [Entry(n - 1, rows[n - 1])] else before
  }

  /** The families among the first n rows, in order of appearance. */
  function Names<K(==)>(rows: seq<Row>, key: Row -> K, n: nat): seq<K>
    requires n <= |rows|
  {
    if n == 0 then []
    else
      var before := Names(rows, key, n - 1);
      if rows[n - 1].turns > 0 && key(rows[n - 1]) !in before then before + [key(rows[n - 1])] else before
  }

  /** More turns first, then report order. */
  predicate Earlier(a: Entry, b: Entry) {
    a.row.turns > b.row.turns || (a.row.turns == b.row.turns && a.index <= b.index)
  }

  function Ranking<K(==)>(rows: seq<Row>, key: Row -> K, family: K): seq<Entry> {
    SortBy(Group(rows, key, |rows|, family), Earlier)
  }

  function FamilyNames<K(==)>(rows: seq<Row>, key: Row -> K, le: (K, K) -> bool): seq<K> {
    SortBy(Names(rows, key, |rows|), le)
  }

  function Rankings<K(==)>(rows: seq<Row>, key: Row -> K, names: seq<K>): (r: seq<seq<Entry>>)
    ensures |r| == |names| && forall j :: 0 <= j < |names| ==> r[j] == Ranking(rows, key, names[j])
  {
    if names == [] then [] else [Ranking(rows, key, names[0])] + Rankings(rows, key, names[1..])
  }

  /** The families in name order take turns, each offering its best row left. */
  function Turns<K(==)>(rows: seq<Row>, key: Row -> K, le: (K, K) -> bool, size: int): seq<Entry> {
    Truncate(All(Rankings(rows, key, FamilyNames(rows, key, le))), size)
  }

  /** _stable_review_sample */
  function Sample(rows: seq<Row>, size: int): seq<Entry> {
    Turns(rows, FamilyOf, Le, size)
  }

  // ---------------------------------------------------------------- the review queue

  function IdsOf(entries: seq<Entry>): (r: seq<string>)
    ensures |r| == |entries| && forall i :: 0 <= i < |r| ==> r[i] == entries[i].row.scenarioId
  {
    if entries == [] then [] else [entries[0].row.scenarioId] + IdsOf(entries[1..])
  }

  /** build_multiturn_review_queue: the rows to review. */
  function Queue(rows: seq<Row>, size: int): Result<seq<Entry>, QueueError> {
    if size < 1 then Err(SizeNotPositive)
    else
      var selected := Sample(rows, size);
      if |selected| < size then Err(TooFewRows)
      else if "" in IdsOf(selected) then Err(MissingScenarioId)
      else if !Distinct(IdsOf(selected)) then Err(DuplicateScenarioId)
      else if exists e :: e in selected && e.row.turns == 0 then Err(NoObservableTurns)
      else Ok(selected)
  }

  // ---------------------------------------------------------------- the sampler as it runs

  ghost predicate GroupsOf<K(!new)>(families: map<K, seq<Entry>>, rows: seq<Row>, key: Row -> K, n: nat)
    requires n <= |rows|
  {
    && families.Keys == SetOf(Names(rows, key, n))
    && forall f :: f in families ==> families[f] == Group(rows, key, n, f)
  }

  method GroupRows<K(==, !new)>(rows: seq<Row>, key: Row -> K) returns (names: seq<K>, families: map<K, seq<Entry>>)
    ensures names == Names(rows, key, |rows|) && GroupsOf(families, rows, key, |rows|)
  {
    names, families := [], map[];
    for index := 0 to |rows|
      invariant names == Names(rows, key, index) && GroupsOf(families, rows, key, index)
    {
      if rows[index].turns == 0 {
        continue;
      }
      var family := key(rows[index]);
      NewFamilyIsEmpty(rows, key, index, family);
      if family !in families {
        names := names + [family];
        families := families[family := []];
      }
      families := families[family := families[family] + [Entry(index, rows[index])]];
    }
  }

  lemma {:induction false} NewFamilyIsEmpty<K(!new)>(rows: seq<Row>, key: Row -> K, n: nat, family: K)
    requires n <= |rows|
    ensures family !in Names(rows, key, n) ==> Group(rows, key, n, family) == []
  {
    if n > 0 {
      NewFamilyIsEmpty(rows, key, n - 1, family);
    }
  }

  /** Sorts every family's rows. */
  method RankFamilies<K(==, !new)>(names: seq<K>, groups: map<K, seq<Entry>>) returns (families: map<K, seq<Entry>>)
    requires Distinct(names) && groups.Keys == SetOf(names)
    ensures families.Keys == groups.Keys
    ensures forall f :: f in groups ==> families[f] == SortBy(groups[f], Earlier)
  {
    families := groups;
    for k := 0 to |names|
      invariant families.Keys == groups.Keys
      invariant forall f :: f in groups && f in names[..k] ==> families[f] == SortBy(groups[f], Earlier)
      invariant forall f :: f in groups && f !in names[..k] ==> families[f] == groups[f]
    {
      DistinctNotEarlier(names, k);
      assert names[..k + 1] == names[..k] + [names[k]];
      families := families[names[k] := SortBy(families[names[k]], Earlier)];
    }
    assert names[..|names|] == names;
  }

  /** Sorts every family's rows, and lists the families by name. */
  method RankRows<K(==, !new)>(rows: seq<Row>, key: Row -> K, le: (K, K) -> bool) returns (lists: seq<seq<Entry>>)
    ensures lists == Rankings(rows, key, FamilyNames(rows, key, le))
  {
    var names, groups := GroupRows(rows, key);
    NamesDistinct(rows, key, |rows|);
    var families := RankFamilies(names, groups);
    var familyNames := SortBy(names, le);
    SortKeeps(names, le);
    lists := ListByName(rows, key, familyNames, families);
  }

  method ListByName<K(==, !new)>(ghost rows: seq<Row>, ghost key: Row -> K, names: seq<K>, families: map<K, seq<Entry>>)
    returns (lists: seq<seq<Entry>>)
    requires forall f :: f in names ==> f in families && families[f] == Ranking(rows, key, f)
    ensures lists == Rankings(rows, key, names)
  {
    lists := [];
    for k := 0 to |names|
      invariant |lists| == k && forall j :: 0 <= j < k ==> lists[j] == Ranking(rows, key, names[j])
    {
      assert names[k] in names;
      lists := lists + [families[names[k]]];
    }
  }

  method TakeTurns(lists: seq<seq<Entry>>, size: int) returns (selected: seq<Entry>)
    ensures selected == Truncate(All(lists), size)
  {
    selected := [];
    var offset := 0;
    while |selected| < size && lists != []
      invariant selected <= All(lists) && (|selected| <= size || selected == [])
      invariant |selected| < size ==> selected == Picked(lists, offset, 0)
      decreases size - |selected|
    {
      ghost var before := selected;
      var progressed := false;
      for p := 0 to |lists|
        invariant selected == Picked(lists, offset, p) && |selected| < size
        invariant if progressed then |selected| > |before| else selected == before
        invariant !progressed ==> forall j :: 0 <= j < p ==> |lists[j]| <= offset
      {
        if offset < |lists[p]| {
          selected := selected + [lists[p][offset]];
          PickedIsPrefixOfAll(lists, offset, p + 1);
          progressed := true;
          if |selected| == size {
            break;
          }
        }
      }
      if !progressed {
        EmptyRoundEnds(lists, offset);
        return;
      }
      if |selected| < size {
        PickedIsPrefixOfAll(lists, offset + 1, 0);
      }
      offset := offset + 1;
    }
    assert lists == [] ==> All(lists) == [];
  }

  method StableReviewSample(rows: seq<Row>, size: int) returns (selected: seq<Entry>)
    ensures selected == Sample(rows, size)
  {
    var lists := RankRows(rows, FamilyOf, Le);
    selected := TakeTurns(lists, size);
  }

  // ---------------------------------------------------------------- groups and names

  lemma {:induction false} NamesDistinct<K(!new)>(rows: seq<Row>, key: Row -> K, n: nat)
    requires n <= |rows|
    ensures Distinct(Names(rows, key, n))
  {
    if n > 0 {
      NamesDistinct(rows, key, n - 1);
      var before := Names(rows, key, n - 1);
      if key(rows[n - 1]) !in before {
        DistinctSnoc(before, key(rows[n - 1]));
      }
    }
  }

  lemma {:induction false} NamesMembers<K(!new)>(rows: seq<Row>, key: Row -> K, n: nat, family: K)
    requires n <= |rows|
    ensures family in Names(rows, key, n) <==> exists i :: 0 <= i < n && rows[i].turns > 0 && key(rows[i]) == family
  {
    if n > 0 {
      NamesMembers(rows, key, n - 1, family);
    }
  }

  lemma {:induction false} GroupMembers<K(!new)>(rows: seq<Row>, key: Row -> K, n: nat, family: K, e: Entry)
    requires n <= |rows|
    ensures e in Group(rows, key, n, family)
       <==> e.index < n && rows[e.index] == e.row && e.row.turns > 0 && key(e.row) == family
  {
    if n > 0 {
      GroupMembers(rows, key, n - 1, family, e);
    }
  }

  lemma {:induction false} GroupDistinct<K(!new)>(rows: seq<Row>, key: Row -> K, n: nat, family: K)
    requires n <= |rows|
    ensures Distinct(Group(rows, key, n, family))
  {
    if n > 0 {
      GroupDistinct(rows, key, n - 1, family);
      var e := Entry(n - 1, rows[n - 1]);
      GroupMembers(rows, key, n - 1, family, e);
      if rows[n - 1].turns > 0 && key(rows[n - 1]) == family {
        DistinctSnoc(Group(rows, key, n - 1, family), e);
      }
    }
  }

  // ---------------------------------------------------------------- main results

  lemma EarlierOrders()
    ensures Preorder(Earlier)
  {
  }

  /** A family's order: exactly its rows with observable turns, more turns first, then report order. */
  lemma RankingIs<K(!new)>(rows: seq<Row>, key: Row -> K, family: K)
    ensures Distinct(Ranking(rows, key, family)) && InOrder(Ranking(rows, key, family), Earlier)
    ensures forall e :: e in Ranking(rows, key, family)
                   <==> e in Eligible(rows) && key(e.row) == family
  {
    var group := Group(rows, key, |rows|, family);
    GroupDistinct(rows, key, |rows|, family);
    SortKeepsDistinct(group, Earlier);
    EarlierOrders();
    SortInOrder(group, Earlier);
    SortKeeps(group, Earlier);
    forall e ensures e in Ranking(rows, key, family) <==> e in Eligible(rows) && key(e.row) == family {
      GroupMembers(rows, key, |rows|, family, e);
    }
  }

  /** The rows a reviewer could be shown. */
  function Eligible(rows: seq<Row>): (r: set<Entry>)
    ensures forall e :: e in r <==> e.index < |rows| && rows[e.index] == e.row && e.row.turns > 0
  {
    set i | 0 <= i < |rows| && rows[i].turns > 0 :: Entry(i, rows[i])
  }

  lemma RankingsApart<K(!new)>(rows: seq<Row>, key: Row -> K, names: seq<K>)
    requires Distinct(names)
    ensures Apart(Rankings(rows, key, names))
  {
    var lists := Rankings(rows, key, names);
    DistinctMeans(names);
    forall j | 0 <= j < |lists| ensures Distinct(lists[j]) {
      RankingIs(rows, key, names[j]);
    }
    forall i, j, e | 0 <= i < j < |lists| && e in lists[i] ensures e !in lists[j] {
      RankingIs(rows, key, names[i]);
      RankingIs(rows, key, names[j]);
    }
  }

  lemma FamilyNamesAre<K(!new)>(rows: seq<Row>, key: Row -> K, le: (K, K) -> bool)
    ensures Distinct(FamilyNames(rows, key, le))
    ensures forall f :: f in FamilyNames(rows, key, le) <==> exists e :: e in Eligible(rows) && key(e.row) == f
  {
    var names := Names(rows, key, |rows|);
    NamesDistinct(rows, key, |rows|);
    SortKeepsDistinct(names, le);
    SortKeeps(names, le);
    forall f ensures f in names <==> exists e :: e in Eligible(rows) && key(e.row) == f {
      NamesMembers(rows, key, |rows|, f);
      if f in names {
        var i :| 0 <= i < |rows| && rows[i].turns > 0 && key(rows[i]) == f;
        assert Entry(i, rows[i]) in Eligible(rows);
      }
    }
  }

  /** All turns together take every eligible row once. */
  lemma AllTurns<K(!new)>(rows: seq<Row>, key: Row -> K, le: (K, K) -> bool)
    ensures var lists := Rankings(rows, key, FamilyNames(rows, key, le));
            Apart(lists) && Distinct(All(lists)) && SetOf(All(lists)) == Eligible(rows)
  {
    var names := FamilyNames(rows, key, le);
    var lists := Rankings(rows, key, names);
    FamilyNamesAre(rows, key, le);
    RankingsApart(rows, key, names);
    AllTakesEverything(lists);
    forall e ensures e in SetOf(All(lists)) <==> e in Eligible(rows) {
      if e in Eligible(rows) {
        assert key(e.row) in names;
        var j :| 0 <= j < |names| && names[j] == key(e.row);
        RankingIs(rows, key, names[j]);
        assert e in lists[j];
      }
      if e in All(lists) {
        var j :| 0 <= j < |lists| && e in lists[j];
        RankingIs(rows, key, names[j]);
      }
    }
  }

  /** As many distinct eligible rows as were asked for, or all there are. */
  lemma SampleIsFull<K(!new)>(rows: seq<Row>, key: Row -> K, le: (K, K) -> bool, size: int)
    ensures var sample := Turns(rows, key, le, size);
            && |sample| == (if size < 0 then 0 else if size <= |Eligible(rows)| then size else |Eligible(rows)|)
            && Distinct(sample) && SetOf(sample) <= Eligible(rows)
  {
    AllTurns(rows, key, le);
    var all := All(Rankings(rows, key, FamilyNames(rows, key, le)));
    var sample := Turns(rows, key, le, size);
    assert sample == all[..|sample|];
    DistinctPrefix(all, |sample|);
  }

  /** The rows of one family in s, in the order of s. */
  function OfFamily<K(==)>(s: seq<Entry>, key: Row -> K, family: K): seq<Entry> {
    if s == [] then []
    else
      var n := |s| - 1;
      OfFamily(s[..n], key, family) + if key(s[n].row) == family then [s[n]] else []
  }

  lemma {:induction false} OfFamilyKeeps<K(!new)>(s: seq<Entry>, key: Row -> K, family: K, some: set<Entry>)
    requires forall e :: e in s ==> (e in some <==> key(e.row) == family)
    ensures OfFamily(s, key, family) == Keep(s, some)
  {
    if s != [] {
      var n := |s| - 1;
      assert forall e :: e in s[..n] ==> e in s;
      OfFamilyKeeps(s[..n], key, family, some);
    }
  }

  lemma SampleKeeps<K(!new)>(rows: seq<Row>, key: Row -> K, le: (K, K) -> bool, size: int, j: nat)
    requires j < |FamilyNames(rows, key, le)|
    ensures var sample, f := Turns(rows, key, le, size), FamilyNames(rows, key, le)[j];
            OfFamily(sample, key, f) == Keep(sample, SetOf(Ranking(rows, key, f)))
  {
    var sample, f := Turns(rows, key, le, size), FamilyNames(rows, key, le)[j];
    SampleIsFull(rows, key, le, size);
    RankingIs(rows, key, f);
    assert forall e :: e in sample ==> e in SetOf(sample);
    OfFamilyKeeps(sample, key, f, SetOf(Ranking(rows, key, f)));
  }

  /** Fairness: what one family contributes is a prefix of its order; if it has rows left, no other
    * contributed more than one more, and a family with a later name not even that. */
  lemma SampleIsFair<K(!new)>(rows: seq<Row>, key: Row -> K, le: (K, K) -> bool, size: int, i: nat, j: nat)
    requires i < |FamilyNames(rows, key, le)| && j < |FamilyNames(rows, key, le)|
    ensures var sample, names := Turns(rows, key, le, size), FamilyNames(rows, key, le);
            var mine, other := OfFamily(sample, key, names[i]), OfFamily(sample, key, names[j]);
            && mine <= Ranking(rows, key, names[i])
            && (|mine| < |Ranking(rows, key, names[i])| ==> |other| <= |mine| + if j < i then 1 else 0)
  {
    AllTurns(rows, key, le);
    SampleKeeps(rows, key, le, size, i);
    SampleKeeps(rows, key, le, size, j);
    TurnsAreFair(Rankings(rows, key, FamilyNames(rows, key, le)), size, i, j);
  }

  // ---------------------------------------------------------------- the sample by scenario family

  lemma NameOrder(rows: seq<Row>, i: nat, j: nat)
    requires j < i < |FamilyNames(rows, FamilyOf, Le)|
    ensures var names := FamilyNames(rows, FamilyOf, Le);
            Le(names[j], names[i]) && names[j] != names[i]
  {
    forall x, y ensures Le(x, y) || Le(y, x) { LeTotal(x, y); }
    forall x, y, z | Le(x, y) && Le(y, z) ensures Le(x, z) { LeTransitive(x, y, z); }
    SortInOrder(Names(rows, FamilyOf, |rows|), Le);
    FamilyNamesAre(rows, FamilyOf, Le);
    DistinctMeans(FamilyNames(rows, FamilyOf, Le));
  }

  /** The rows of a scenario family in the sample. */
  function Reviewed(rows: seq<Row>, size: int, family: string): seq<Entry> {
    OfFamily(Sample(rows, size), FamilyOf, family)
  }

  lemma FirstIsMember(s: seq<Entry>)
    ensures s == [] || s[0] in s
  {
  }

  lemma NotReviewed(rows: seq<Row>, size: int, family: string)
    requires family !in FamilyNames(rows, FamilyOf, Le)
    ensures Reviewed(rows, size, family) == [] == Ranking(rows, FamilyOf, family)
  {
    SampleIsFull(rows, FamilyOf, Le, size);
    FamilyNamesAre(rows, FamilyOf, Le);
    RankingIs(rows, FamilyOf, family);
    FirstIsMember(Ranking(rows, FamilyOf, family));
    var sample := Sample(rows, size);
    assert forall e :: e in sample ==> e in SetOf(sample);
    OfFamilyKeeps(sample, FamilyOf, family, {});
    KeepMembers(sample, {});
    FirstIsMember(Keep(sample, {}));
  }

  /** For any two families: a prefix of the family's order, and fair to it. */
  lemma ReviewIsFair(rows: seq<Row>, size: int, family: string, other: string)
    ensures Reviewed(rows, size, family) <= Ranking(rows, FamilyOf, family)
    ensures |Reviewed(rows, size, family)| < |Ranking(rows, FamilyOf, family)| ==>
      |Reviewed(rows, size, other)| <= |Reviewed(rows, size, family)| + if Le(other, family) && other != family then 1 else 0
  {
    var names := FamilyNames(rows, FamilyOf, Le);
    if family !in names {
      NotReviewed(rows, size, family);
    } else if other !in names {
      NotReviewed(rows, size, other);
      var i :| 0 <= i < |names| && names[i] == family;
      SampleIsFair(rows, FamilyOf, Le, size, i, i);
    } else {
      var i :| 0 <= i < |names| && names[i] == family;
      var j :| 0 <= j < |names| && names[j] == other;
      SampleIsFair(rows, FamilyOf, Le, size, i, j);
      if j < i {
        NameOrder(rows, i, j);
      }
    }
  }

  /** A queue is built exactly when enough rows can be shown and the chosen ids are usable;
    * no row without turns ever gets that far. */
  lemma QueueIsBuiltExactlyWhen(rows: seq<Row>, size: int)
    ensures Queue(rows, size).Ok? <==>
      && 1 <= size <= |Eligible(rows)|
      && "" !in IdsOf(Sample(rows, size)) && Distinct(IdsOf(Sample(rows, size)))
    ensures Queue(rows, size).Ok? ==>
      && |Queue(rows, size).value| == size && Distinct(Queue(rows, size).value)
      && SetOf(Queue(rows, size).value) <= Eligible(rows)
    ensures Queue(rows, size) != Err(NoObservableTurns)
    ensures Queue(rows, size) == Err(TooFewRows) <==> size > |Eligible(rows)| && size >= 1
  {
    SampleIsFull(rows, FamilyOf, Le, size);
    var sample := Sample(rows, size);
    forall e | e in sample ensures e.row.turns > 0 {
      assert e in SetOf(sample);
    }
  }

  lemma {:induction false} LastUnderscoreIs(id: string, part: string)
    requires forall i :: 0 <= i < |part| ==> part[i] != '_'
    ensures LastUnderscore(id + "_" + part) == |id|
  {
    var numbered, n := id + "_" + part, |part| - 1;
    if part != [] {
      LastUnderscoreIs(id, part[..n]);
      assert numbered[..|numbered| - 1] == id + "_" + part[..n];
      assert numbered[|numbered| - 1] == part[n];
    }
  }

  /** Numbering a scenario does not change its family. */
  lemma FamilyIgnoresNumbering(id: string, part: string)
    requires Numbering(part) && Stripped(id) != ""
    ensures Family(id + "_" + part) == Family(id)
  {
    LastUnderscoreIs(id, part);
    var numbered := id + "_" + part;
    assert numbered[|id| + 1..] == part && numbered[..|id|] == id;
    assert Stripped(numbered) == Stripped(id);
  }

  /** In a family's order every row has more turns than the next, or as many and an earlier place in the report. */
  lemma RankingOrder<K(!new)>(rows: seq<Row>, key: Row -> K, family: K, i: nat, j: nat)
    requires i < j < |Ranking(rows, key, family)|
    ensures var a, b := Ranking(rows, key, family)[i], Ranking(rows, key, family)[j];
      a.row.turns > b.row.turns || (a.row.turns == b.row.turns && a.index < b.index)
  {
    var ranking := Ranking(rows, key, family);
    RankingIs(rows, key, family);
    DistinctMeans(ranking);
    assert Earlier(ranking[i], ranking[j]);
    assert ranking[i] in Eligible(rows) && ranking[j] in Eligible(rows);
  }

  /** An id without underscores is its own family. */
  lemma SinglePartIsItsFamily(id: string)
    requires forall i :: 0 <= i < |id| ==> id[i] != '_'
    ensures Family(id) == id
  {
    StrippedSinglePart(id);
  }

  /** Of an id without underscores nothing is left exactly when it is a numbering. */
  lemma StrippedSinglePart(id: string)
    requires forall i :: 0 <= i < |id| ==> id[i] != '_'
    ensures Stripped(id) == if id == "v1" || Digits(id) then "" else id
  {
    var k := LastUnderscore(id);
    assert k == -1 && id[k + 1..] == id;
  }

  /** A last part is dropped exactly when it is a numbering and something is left before it. */
  lemma FamilyDropsNumbering(id: string, part: string)
    requires forall i :: 0 <= i < |part| ==> part[i] != '_'
    ensures var whole := id + "_" + part;
      && (Stripped(whole) == "" <==> (part == "v1" || Digits(part)) && Stripped(id) == "")
      && Family(whole) == if (part == "v1" || Digits(part)) && Stripped(id) != "" then Family(id) else whole
  {
    var whole := id + "_" + part;
    LastUnderscoreIs(id, part);
    assert whole[|id| + 1..] == part && whole[..|id|] == id;
  }

  /** What a queue is refused for. */
  lemma QueueRefusesFor(rows: seq<Row>, size: int)
    ensures var queue, ids, enough := Queue(rows, size), IdsOf(Sample(rows, size)), 1 <= size <= |Eligible(rows)|;
      && (queue == Err(SizeNotPositive) <==> size < 1)
      && (queue == Err(MissingScenarioId) <==> enough && "" in ids)
      && (queue == Err(DuplicateScenarioId) <==> enough && "" !in ids && !Distinct(ids))
      && (queue.Ok? ==> queue.value == Sample(rows, size))
  {
    SampleIsFull(rows, FamilyOf, Le, size);
    QueueIsBuiltExactlyWhen(rows, size);
  }
}
