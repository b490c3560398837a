/** Taking turns among lists: the first of each, the second of each, and so on. */
module RoundRobin {
  import opened Listing

  /** What is taken before the turn of list p in round o. */
  function Picked<T>(lists: seq<seq<T>>, o: nat, p: nat): seq<T>
    requires p <= |lists|
    decreases o, p
  {
    if p > 0 then
      var before := Picked(lists, o, p - 1);
      if o < |lists[p - 1]| then before + [lists[p - 1][o]] else before
    else if o > 0 then Picked(lists, o - 1, |lists|)
    else []
  }

  function Longest<T>(lists: seq<seq<T>>): (n: nat)
    ensures forall j :: 0 <= j < |lists| ==> |lists[j]| <= n
  {
    if lists == [] then 0
    else
      var n := Longest(lists[1..]);
      assert forall j :: 1 <= j < |lists| ==> lists[j] == lists[1..][j - 1];
      if n < |lists[0]| then |lists[0]| else n
  }

  /** Everything, taken in turns. */
  function All<T>(lists: seq<seq<T>>): seq<T> {
    Picked(lists, Longest(lists), 0)
  }

  /** The first n of s, or all of s. */
  function Truncate<T>(s: seq<T>, n: int): (r: seq<T>)
    ensures r <= s && |r| == if n <= 0 then 0 else if n <= |s| then n else |s|
  {
    if n <= 0 then [] else if n <= |s| then s[..n] else s
  }

  // ---------------------------------------------------------------- how the picking grows

  lemma {:induction false} PickedGrows<T>(lists: seq<seq<T>>, o: nat, p: nat, o': nat, p': nat)
    requires p <= |lists| && p' <= |lists| && (o < o' || (o == o' && p <= p'))
    ensures Picked(lists, o, p) <= Picked(lists, o', p')
    decreases o', p'
  {
    if o == o' && p == p' {
    } else if p' > 0 {
      PickedGrows(lists, o, p, o', p' - 1);
    } else {
      PickedGrows(lists, o, p, o' - 1, |lists|);
    }
  }

  lemma {:induction false} NothingAfterLongest<T>(lists: seq<seq<T>>, o: nat, p: nat)
    requires p <= |lists| && o >= Longest(lists)
    ensures Picked(lists, o, p) == All(lists)
    decreases o, p
  {
    if p > 0 {
      NothingAfterLongest(lists, o, p - 1);
    } else if o > Longest(lists) {
      NothingAfterLongest(lists, o - 1, |lists|);
    }
  }

  lemma PickedIsPrefixOfAll<T>(lists: seq<seq<T>>, o: nat, p: nat)
    requires p <= |lists|
    ensures Picked(lists, o, p) <= All(lists)
  {
    if o < Longest(lists) {
      PickedGrows(lists, o, p, Longest(lists), 0);
    } else {
      NothingAfterLongest(lists, o, p);
    }
  }

  /** Once a whole round adds nothing, everything is taken. */
  lemma EmptyRoundEnds<T>(lists: seq<seq<T>>, o: nat)
    requires forall j :: 0 <= j < |lists| ==> |lists[j]| <= o
    ensures Picked(lists, o, 0) == All(lists)
  {
    LongestIsReached(lists);
    NothingAfterLongest(lists, o, 0);
  }

  lemma {:induction false} LongestIsReached<T>(lists: seq<seq<T>>)
    ensures Longest(lists) == 0 || exists j :: 0 <= j < |lists| && |lists[j]| == Longest(lists)
  {
    if lists != [] {
      LongestIsReached(lists[1..]);
      if Longest(lists) != |lists[0]| {
        var j :| 0 <= j < |lists| - 1 && |lists[1..][j]| == Longest(lists[1..]);
        assert lists[1..][j] == lists[j + 1];
      }
    }
  }

  /** Every shorter picking was picked at some turn. */
  lemma {:induction false} CutAt<T>(lists: seq<seq<T>>, o: nat, p: nat, m: nat) returns (o': nat, p': nat)
    requires p <= |lists| && m <= |Picked(lists, o, p)|
    ensures p' <= |lists| && Picked(lists, o', p') == Picked(lists, o, p)[..m]
    decreases o, p
  {
    if m == |Picked(lists, o, p)| {
      o', p' := o, p;
    } else if p > 0 {
      o', p' := CutAt(lists, o, p - 1, m);
    } else {
      o', p' := CutAt(lists, o - 1, |lists|, m);
    }
  }

  // ---------------------------------------------------------------- what each list contributes

  /** The elements of s that are in `some`, in the order of s. */
  function Keep<T(==)>(s: seq<T>, some: set<T>): seq<T> {
    if s == [] then []
    else
      var n := |s| - 1;
      Keep(s[..n], some) + if s[n] in some then [s[n]] else []
  }

  /** No element occurs twice, in one list or in two. */
  ghost predicate Apart<T(!new)>(lists: seq<seq<T>>) {
    && (forall j :: 0 <= j < |lists| ==> Distinct(lists[j]))
    && (forall i, j, x :: 0 <= i < j < |lists| && x in lists[i] ==> x !in lists[j])
  }

  /** How much of list j is taken before the turn of list p in round o. */
  function Taken<T>(lists: seq<seq<T>>, o: nat, p: nat, j: nat): (n: nat)
    requires j < |lists|
    ensures n <= |lists[j]|
  {
    var n := o + if j < p then 1 else 0;
    if n < |lists[j]| then n else |lists[j]|
  }

  lemma KeepSnoc<T(!new)>(s: seq<T>, x: T, some: set<T>)
    ensures Keep(s + [x], some) == Keep(s, some) + if x in some then [x] else []
  {
    assert (s + [x])[..|s|] == s;
  }

  lemma {:induction false} KeepMembers<T(!new)>(s: seq<T>, some: set<T>)
    ensures forall x :: x in Keep(s, some) <==> x in s && x in some
  {
    if s != [] {
      var n := |s| - 1;
      KeepMembers(s[..n], some);
      assert s == s[..n] + [s[n]];
    }
  }

  lemma OwnerIsUnique<T(!new)>(lists: seq<seq<T>>, o: nat, q: nat, j: nat)
    requires Apart(lists) && q < |lists| && j < |lists| && o < |lists[q]|
    ensures lists[q][o] in SetOf(lists[j]) <==> j == q
  {
    assert lists[q][o] in lists[q];
  }

  lemma TakenSteps<T>(lists: seq<seq<T>>, o: nat, p: nat, j: nat)
    requires 0 < p <= |lists| && j < |lists|
    ensures var before, after := lists[j][..Taken(lists, o, p - 1, j)], lists[j][..Taken(lists, o, p, j)];
            after == if j == p - 1 && o < |lists[j]| then before + [lists[j][o]] else before
  {
  }

  lemma {:induction false} PickedTakesPrefixes<T(!new)>(lists: seq<seq<T>>, o: nat, p: nat, j: nat)
    requires Apart(lists) && p <= |lists| && j < |lists|
    ensures Keep(Picked(lists, o, p), SetOf(lists[j])) == lists[j][..Taken(lists, o, p, j)]
    decreases o, p
  {
    if p > 0 {
      PickedTakesPrefixes(lists, o, p - 1, j);
      TakenSteps(lists, o, p, j);
      if o < |lists[p - 1]| {
        OwnerIsUnique(lists, o, p - 1, j);
        KeepSnoc(Picked(lists, o, p - 1), lists[p - 1][o], SetOf(lists[j]));
      }
    } else if o > 0 {
      PickedTakesPrefixes(lists, o - 1, |lists|, j);
    }
  }

  lemma DistinctSnoc<T(!new)>(s: seq<T>, x: T)
    requires Distinct(s) && x !in s
    ensures Distinct(s + [x])
  {
    assert SetOf(s + [x]) == SetOf(s) + {x};
  }

  lemma DistinctNotEarlier<T(!new)>(s: seq<T>, k: nat)
    requires Distinct(s) && k < |s|
    ensures s[k] !in s[..k]
  {
    DistinctMeans(s);
  }

  lemma {:induction false} PickedIsDistinct<T(!new)>(lists: seq<seq<T>>, o: nat, p: nat)
    requires Apart(lists) && p <= |lists|
    ensures Distinct(Picked(lists, o, p))
    decreases o, p
  {
    if p > 0 {
      PickedIsDistinct(lists, o, p - 1);
      if o < |lists[p - 1]| {
        var s, list := Picked(lists, o, p - 1), lists[p - 1];
        PickedTakesPrefixes(lists, o, p - 1, p - 1);
        KeepMembers(s, SetOf(list));
        DistinctNotEarlier(list, o);
        DistinctSnoc(s, list[o]);
      }
    } else if o > 0 {
      PickedIsDistinct(lists, o - 1, |lists|);
    }
  }

  lemma {:induction false} PickedComesFromLists<T(!new)>(lists: seq<seq<T>>, o: nat, p: nat, x: T)
    requires p <= |lists| && x in Picked(lists, o, p)
    ensures exists j :: 0 <= j < |lists| && x in lists[j]
    decreases o, p
  {
    if p > 0 {
      if x in Picked(lists, o, p - 1) {
        PickedComesFromLists(lists, o, p - 1, x);
      } else {
        assert x in lists[p - 1];
      }
    } else if o > 0 {
      PickedComesFromLists(lists, o - 1, |lists|, x);
    }
  }

  // ---------------------------------------------------------------- main results

  /** Everything is taken, each element once. */
  lemma AllTakesEverything<T(!new)>(lists: seq<seq<T>>)
    requires Apart(lists)
    ensures Distinct(All(lists))
    ensures forall x :: x in All(lists) <==> exists j :: 0 <= j < |lists| && x in lists[j]
  {
    PickedIsDistinct(lists, Longest(lists), 0);
    forall x | x in All(lists) ensures exists j :: 0 <= j < |lists| && x in lists[j] {
      PickedComesFromLists(lists, Longest(lists), 0, x);
    }
    forall j, x | 0 <= j < |lists| && x in lists[j] ensures x in All(lists) {
      PickedTakesPrefixes(lists, Longest(lists), 0, j);
      KeepMembers(All(lists), SetOf(lists[j]));
      assert lists[j][..|lists[j]|] == lists[j];
    }
  }

  /** Cut at any length, each list contributes a prefix, and none is served unfairly. */
  lemma TurnsAreFair<T(!new)>(lists: seq<seq<T>>, size: int, i: nat, j: nat)
    requires Apart(lists) && i < |lists| && j < |lists|
    ensures var sample := Truncate(All(lists), size);
            var mine, other := Keep(sample, SetOf(lists[i])), Keep(sample, SetOf(lists[j]));
            && mine <= lists[i]
            && (|mine| < |lists[i]| ==> |other| <= |mine| + if j < i then 1 else 0)
  {
    var sample := Truncate(All(lists), size);
    var o, p := CutAt(lists, Longest(lists), 0, |sample|);
    assert sample == All(lists)[..|sample|] == Picked(lists, o, p);
    PickedTakesPrefixes(lists, o, p, i);
    PickedTakesPrefixes(lists, o, p, j);
  }
}
