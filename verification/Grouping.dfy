/** Grouping rows by a key in a dictionary, and counting the groups that meet a test. */
module Grouping {
  import opened Listing
  import opened RoundRobin

  /** The rows with key k, in order. */
  function With<T, K(==)>(s: seq<T>, key: T -> K, k: K): seq<T> {
    if s == [] then []
    else
      var n := |s| - 1;
      var before := With(s[..n], key, k);
      if key(s[n]) == k then before + [s[n]] else before
  }

  /** The keys in order of appearance. */
  function Keys<T, K(==)>(s: seq<T>, key: T -> K): seq<K> {
    if s == [] then []
    else
      var n := |s| - 1;
      var before := Keys(s[..n], key);
      if key(s[n]) in before then before else before + [key(s[n])]
  }

  /** The keys whose rows meet the test. */
  function Meeting<T, K(==, !new)>(s: seq<T>, key: T -> K, test: seq<T> -> bool): set<K> {
    set k | k in Keys(s, key) && test(With(s, key, k))
  }

  ghost predicate GroupsOf<T, K(!new)>(groups: map<K, seq<T>>, s: seq<T>, key: T -> K) {
    && groups.Keys == SetOf(Keys(s, key))
    && forall k :: k in groups ==> groups[k] == With(s, key, k)
  }

  // ---------------------------------------------------------------- facts about groups

  lemma Snoc<T, K(!new)>(s: seq<T>, x: T, key: T -> K, k: K)
    ensures With(s + [x], key, k) == if key(x) == k then With(s, key, k) + [x] else With(s, key, k)
    ensures Keys(s + [x], key) == if key(x) in Keys(s, key) then Keys(s, key) else Keys(s, key) + [key(x)]
  {
    assert (s + [x])[..|s|] == s;
  }

  lemma {:induction false} KeysDistinct<T, K(!new)>(s: seq<T>, key: T -> K)
    ensures Distinct(Keys(s, key))
  {
    if s != [] {
      var n := |s| - 1;
      KeysDistinct(s[..n], key);
      if key(s[n]) !in Keys(s[..n], key) {
        DistinctSnoc(Keys(s[..n], key), key(s[n]));
      }
    }
  }

  lemma {:induction false} WithMembers<T(!new), K(!new)>(s: seq<T>, key: T -> K, k: K)
    ensures forall x :: x in With(s, key, k) <==> x in s && key(x) == k
    ensures With(s, key, k) != [] <==> k in Keys(s, key)
  {
    if s != [] {
      var n := |s| - 1;
      assert s == s[..n] + [s[n]];
      WithMembers(s[..n], key, k);
    }
  }

  /** The first row of every group is a row of s. */
  lemma GroupStarts<T(!new), K(!new)>(s: seq<T>, key: T -> K, k: K)
    requires k in Keys(s, key)
    ensures With(s, key, k) != [] && With(s, key, k)[0] in s && key(With(s, key, k)[0]) == k
  {
    WithMembers(s, key, k);
    assert With(s, key, k)[0] in With(s, key, k);
  }

  // ---------------------------------------------------------------- loops

  method GroupBy<T, K(==, !new)>(s: seq<T>, key: T -> K) returns (keys: seq<K>, groups: map<K, seq<T>>)
    ensures keys == Keys(s, key) && GroupsOf(groups, s, key)
  {
    keys, groups := [], map[];
    for i := 0 to |s|
      invariant keys == Keys(s[..i], key) && GroupsOf(groups, s[..i], key)
    {
      assert s[..i + 1] == s[..i] + [s[i]];
      var k := key(s[i]);
      ghost var before := groups;
      NewKeyIsEmpty(s[..i], key, k);
      if k !in groups {
        keys, groups := keys + [k], groups[k := []];
      }
      groups := groups[k := groups[k] + [s[i]]];
      forall j | j in groups ensures groups[j] == With(s[..i + 1], key, j) {
        Snoc(s[..i], s[i], key, j);
      }
      Snoc(s[..i], s[i], key, k);
    }
    assert s[..|s|] == s;
  }

  lemma {:induction false} NewKeyIsEmpty<T, K(!new)>(s: seq<T>, key: T -> K, k: K)
    ensures k !in Keys(s, key) ==> With(s, key, k) == []
  {
    if s != [] {
      NewKeyIsEmpty(s[..|s| - 1], key, k);
    }
  }

  function Chosen<T, K(==, !new)>(keys: seq<K>, groups: map<K, seq<T>>, test: seq<T> -> bool): set<K> {
    set k | k in keys && k in groups && test(groups[k])
  }

  lemma ChosenSnoc<T, K(!new)>(keys: seq<K>, k: K, groups: map<K, seq<T>>, test: seq<T> -> bool)
    requires k !in keys && k in groups
    ensures |Chosen(keys + [k], groups, test)| == |Chosen(keys, groups, test)| + if test(groups[k]) then 1 else 0
  {
    var before, after := Chosen(keys, groups, test), Chosen(keys + [k], groups, test);
    if test(groups[k]) {
      assert after == before + {k};
    } else {
      assert after == before;
    }
  }

  /** `sum(1 for values in groups.values() if test(values))` */
  method CountGroups<T, K(==, !new)>(keys: seq<K>, groups: map<K, seq<T>>, test: seq<T> -> bool) returns (count: nat)
    requires Distinct(keys) && groups.Keys == SetOf(keys)
    ensures count == |Chosen(keys, groups, test)|
  {
    count := 0;
    for i := 0 to |keys|
      invariant count == |Chosen(keys[..i], groups, test)|
    {
      assert keys[..i + 1] == keys[..i] + [keys[i]];
      DistinctNotEarlier(keys, i);
      ChosenSnoc(keys[..i], keys[i], groups, test);
      if test(groups[keys[i]]) {
        count := count + 1;
      }
    }
    assert keys[..|keys|] == keys;
  }

  lemma ChosenMeet<T, K(!new)>(s: seq<T>, key: T -> K, groups: map<K, seq<T>>, test: seq<T> -> bool)
    requires GroupsOf(groups, s, key)
    ensures Chosen(Keys(s, key), groups, test) == Meeting(s, key, test)
  {
  }

  // ---------------------------------------------------------------- adding up disjoint parts

  function Sum<P(!new)>(parts: seq<P>, size: P -> nat): nat {
    if parts == [] then 0 else size(parts[0]) + Sum(parts[1..], size)
  }

  /** The elements of all parts. */
  function Union<P(!new), K(!new)>(parts: seq<P>, part: P -> set<K>): set<K> {
    if parts == [] then {} else part(parts[0]) + Union(parts[1..], part)
  }

  lemma {:induction false} UnionMembers<P(!new), K(!new)>(parts: seq<P>, part: P -> set<K>, k: K)
    ensures k in Union(parts, part) <==> exists p :: p in parts && k in part(p)
  {
    if parts != [] {
      UnionMembers(parts[1..], part, k);
      assert parts == [parts[0]] + parts[1..];
    }
  }

  lemma {:induction false} SumOfDisjoint<P(!new), K(!new)>(parts: seq<P>, part: P -> set<K>, size: P -> nat)
    requires Distinct(parts)
    requires forall p :: p in parts ==> size(p) == |part(p)|
    requires forall p, q, k :: p in parts && q in parts && k in part(p) && k in part(q) ==> p == q
    ensures Sum(parts, size) == |Union(parts, part)|
  {
    if parts != [] {
      var first, rest := parts[0], parts[1..];
      assert parts == [first] + rest;
      DistinctCons(first, rest);
      SumOfDisjoint(rest, part, size);
      forall k | k in part(first) ensures k !in Union(rest, part) {
        UnionMembers(rest, part, k);
      }
    }
  }

  lemma {:induction false} SumSnoc<P(!new)>(parts: seq<P>, p: P, size: P -> nat)
    ensures Sum(parts + [p], size) == Sum(parts, size) + size(p)
  {
    if parts != [] {
      SumSnoc(parts[1..], p, size);
      assert (parts + [p])[1..] == parts[1..] + [p];
    }
  }

  // ---------------------------------------------------------------- the groups of a list add up to the list

  /** The positions of the rows with key k. */
  function Places<T, K(==)>(s: seq<T>, key: T -> K, k: K): set<nat> {
    set i: nat | i < |s| && key(s[i]) == k
  }

  lemma {:induction false} WithSize<T, K(!new)>(s: seq<T>, key: T -> K, k: K)
    ensures |With(s, key, k)| == |Places(s, key, k)|
  {
    if s != [] {
      var n := |s| - 1;
      WithSize(s[..n], key, k);
      assert Places(s, key, k) == Places(s[..n], key, k) + if key(s[n]) == k then {n} else {};
    }
  }

  lemma {:induction false} KeysMembers<T, K(!new)>(s: seq<T>, key: T -> K, k: K)
    ensures k in Keys(s, key) <==> exists i :: 0 <= i < |s| && key(s[i]) == k
  {
    if s != [] {
      KeysMembers(s[..|s| - 1], key, k);
    }
  }

  function UpTo(n: nat): (r: set<nat>)
    ensures |r| == n && forall i: nat :: i in r <==> i < n
  {
    if n == 0 then {} else UpTo(n - 1) + {n - 1}
  }

  /** Summed over any distinct list of keys that covers s, the groups have as many rows as s. */
  lemma GroupSizesAddUp<T, K(!new)>(s: seq<T>, key: T -> K, keys: seq<K>, size: K -> nat)
    requires Distinct(keys) && SetOf(keys) == SetOf(Keys(s, key))
    requires forall k :: k in keys ==> size(k) == |With(s, key, k)|
    ensures Sum(keys, size) == |s|
  {
    var part := (k: K) => Places(s, key, k);
    forall k | k in keys ensures size(k) == |part(k)| {
      WithSize(s, key, k);
    }
    SumOfDisjoint(keys, part, size);
    var all := UpTo(|s|);
    forall i: nat ensures i in Union(keys, part) <==> i in all {
      UnionMembers(keys, part, i);
      if i < |s| {
        KeysMembers(s, key, key(s[i]));
        assert key(s[i]) in SetOf(keys) && i in part(key(s[i]));
      }
    }
    assert Union(keys, part) == all;
  }
}
