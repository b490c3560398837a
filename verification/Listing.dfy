/** Lists without repetition, Python slices, sorting by an order. */
module Listing {

  function Without<T(==)>(ids: seq<T>, taken: set<T>): seq<T> {
    if ids == [] then []
    else if ids[0] in taken then Without(ids[1..], taken)
    else [ids[0]] + Without(ids[1..], taken)
  }

  function SetOf<T(==, !new)>(s: seq<T>): (r: set<T>)
    ensures forall x :: x in r <==> x in s
  {
    set x | x in s
  }

  /** `len(set(s)) == len(s)` */
  predicate Distinct<T(==, !new)>(s: seq<T>) {
    |SetOf(s)| == |s|
  }

  lemma {:induction false} SetNoLarger<T(!new)>(s: seq<T>)
    ensures |SetOf(s)| <= |s|
  {
    if s != [] {
      SetNoLarger(s[1..]);
      assert s == [s[0]] + s[1..];
      assert SetOf(s) == {s[0]} + SetOf(s[1..]);
    }
  }

  lemma DistinctCons<T(!new)>(x: T, rest: seq<T>)
    ensures SetOf([x] + rest) == {x} + SetOf(rest)
    ensures Distinct([x] + rest) <==> x !in rest && Distinct(rest)
  {
    SetNoLarger(rest);
    assert SetOf([x] + rest) == {x} + SetOf(rest);
    if x in rest {
      assert {x} + SetOf(rest) == SetOf(rest);
    }
  }

  lemma {:induction false} DistinctMeans<T(!new)>(s: seq<T>)
    ensures Distinct(s) <==> forall i, j :: 0 <= i < j < |s| ==> s[i] != s[j]
  {
    if s != [] {
      var rest := s[1..];
      assert s == [s[0]] + rest;
      DistinctMeans(rest);
      DistinctCons(s[0], rest);
      assert forall i, j :: 1 <= i < j < |s| ==> (s[i] != s[j] <==> rest[i - 1] != rest[j - 1]);
      if s[0] in rest {
        var k :| 0 <= k < |rest| && rest[k] == s[0];
        assert s[0] == s[k + 1];
      } else if !Distinct(rest) {
        var i, j :| 0 <= i < j < |rest| && rest[i] == rest[j];
        assert s[i + 1] == s[j + 1];
      }
    }
  }

  lemma DistinctPrefix<T(!new)>(s: seq<T>, n: nat)
    requires Distinct(s) && n <= |s|
    ensures Distinct(s[..n]) && SetOf(s[..n]) <= SetOf(s)
  {
    SetNoLarger(s[..n]);
    SetNoLarger(s[n..]);
    assert s == s[..n] + s[n..];
    assert SetOf(s) == SetOf(s[..n]) + SetOf(s[n..]);
  }

  lemma {:induction false} WithoutIs<T(!new)>(ids: seq<T>, taken: set<T>)
    requires Distinct(ids)
    ensures Distinct(Without(ids, taken))
    ensures SetOf(Without(ids, taken)) == SetOf(ids) - taken
  {
    if ids != [] {
      var x, rest := ids[0], ids[1..];
      assert ids == [x] + rest;
      DistinctCons(x, rest);
      WithoutIs(rest, taken);
      if x !in taken {
        assert x !in SetOf(rest) && x !in SetOf(Without(rest, taken));
        DistinctCons(x, Without(rest, taken));
        assert Without(ids, taken) == [x] + Without(rest, taken);
      } else {
        assert Without(ids, taken) == Without(rest, taken);
      }
    }
  }

  // ---------------------------------------------------------------- Python slices

  function Bound(index: int, length: nat): (r: nat)
    ensures r <= length
  {
    if index < 0 then (if length + index < 0 then 0 else length + index)
    else if index > length then length
    else index
  }

  function Cut<T>(s: seq<T>, lo: nat, hi: nat): seq<T>
    requires hi <= |s|
  {
    if lo < hi then s[lo..hi] else []
  }

  /** `s[from:to]`, negative indices counting from the end. */
  function Slice<T>(s: seq<T>, from: int, to: int): seq<T> {
    Cut(s, Bound(from, |s|), Bound(to, |s|))
  }

  // ---------------------------------------------------------------- sorting

  function Insert<T>(x: T, sorted: seq<T>, le: (T, T) -> bool): seq<T> {
    if sorted == [] || le(x, sorted[0]) then [x] + sorted else [sorted[0]] + Insert(x, sorted[1..], le)
  }

  /** `sorted(s, key=...)` for the order le of the keys; equal keys keep their order. */
  function SortBy<T>(s: seq<T>, le: (T, T) -> bool): seq<T> {
    if s == [] then [] else Insert(s[0], SortBy(s[1..], le), le)
  }

  lemma {:induction false} InsertKeeps<T(!new)>(x: T, sorted: seq<T>, le: (T, T) -> bool)
    ensures |Insert(x, sorted, le)| == |sorted| + 1
    ensures forall y :: y in Insert(x, sorted, le) <==> y == x || y in sorted
  {
    if sorted != [] && !le(x, sorted[0]) {
      InsertKeeps(x, sorted[1..], le);
      assert sorted == [sorted[0]] + sorted[1..];
    }
  }

  /** Sorting only rearranges. */
  lemma {:induction false} SortKeeps<T(!new)>(s: seq<T>, le: (T, T) -> bool)
    ensures |SortBy(s, le)| == |s|
    ensures forall y :: y in SortBy(s, le) <==> y in s
  {
    if s != [] {
      SortKeeps(s[1..], le);
      InsertKeeps(s[0], SortBy(s[1..], le), le);
      assert s == [s[0]] + s[1..];
    }
  }

  ghost predicate Preorder<T(!new)>(le: (T, T) -> bool) {
    && (forall x, y :: le(x, y) || le(y, x))
    && (forall x, y, z :: le(x, y) && le(y, z) ==> le(x, z))
  }

  ghost predicate InOrder<T>(s: seq<T>, le: (T, T) -> bool) {
    forall i, j :: 0 <= i < j < |s| ==> le(s[i], s[j])
  }

  lemma {:induction false} InsertInOrder<T(!new)>(x: T, sorted: seq<T>, le: (T, T) -> bool)
    requires Preorder(le) && InOrder(sorted, le)
    ensures InOrder(Insert(x, sorted, le), le)
  {
    if sorted != [] && !le(x, sorted[0]) {
      InsertInOrder(x, sorted[1..], le);
      InsertKeeps(x, sorted[1..], le);
      var rest := Insert(x, sorted[1..], le);
      forall k | 0 <= k < |rest| ensures le(sorted[0], rest[k]) {
        assert rest[k] in rest;
      }
    } else if sorted != [] {
      assert le(x, sorted[0]);
      assert forall k :: 0 < k < |sorted| ==> le(sorted[0], sorted[k]);
    }
  }

  lemma {:induction false} SortInOrder<T(!new)>(s: seq<T>, le: (T, T) -> bool)
    requires Preorder(le)
    ensures InOrder(SortBy(s, le), le)
  {
    if s != [] {
      SortInOrder(s[1..], le);
      InsertInOrder(s[0], SortBy(s[1..], le), le);
    }
  }

  lemma SortKeepsDistinct<T(!new)>(s: seq<T>, le: (T, T) -> bool)
    requires Distinct(s)
    ensures Distinct(SortBy(s, le)) && SetOf(SortBy(s, le)) == SetOf(s)
  {
    SortKeeps(s, le);
    assert SetOf(SortBy(s, le)) == SetOf(s);
  }

  lemma {:induction false} InsertKeepsAll<T(!new)>(x: T, sorted: seq<T>, le: (T, T) -> bool)
    ensures multiset(Insert(x, sorted, le)) == multiset{x} + multiset(sorted)
  {
    if sorted != [] && !le(x, sorted[0]) {
      InsertKeepsAll(x, sorted[1..], le);
      assert sorted == [sorted[0]] + sorted[1..];
    }
  }

  /** Sorting loses and repeats nothing. */
  lemma {:induction false} SortKeepsAll<T(!new)>(s: seq<T>, le: (T, T) -> bool)
    ensures multiset(SortBy(s, le)) == multiset(s)
  {
    if s != [] {
      SortKeepsAll(s[1..], le);
      InsertKeepsAll(s[0], SortBy(s[1..], le), le);
      assert s == [s[0]] + s[1..];
    }
  }
}
