/** Latency and cost distributions (src/harness/report.py), over reals and any rounding. */
module Percentile {
  import opened Listing

  predicate AtMost(a: real, b: real) { a <= b }

  /** A rounding keeps the order. */
  ghost predicate Rounds(round: real -> real) {
    forall x, y :: x <= y ==> round(x) <= round(y)
  }

  function Scaled(x: real, q: real): real { x * q }

  lemma ScaledWithin(x: real, q: real)
    requires 0.0 <= x && 0.0 <= q <= 1.0
    ensures 0.0 <= Scaled(x, q) <= x
  {
    assert x - x * q == x * (1.0 - q);
  }

  lemma ScaledGrows(x: real, q: real, q': real)
    requires 0.0 <= x && q <= q'
    ensures Scaled(x, q) <= Scaled(x, q')
  {
    assert x * q' - x * q == x * (q' - q);
  }

  /** Where the quantile falls among n samples. */
  function Position(n: nat, quantile: real): (p: real)
    requires n > 0 && 0.0 <= quantile <= 1.0
    ensures 0.0 <= p <= (n - 1) as real
  {
    ScaledWithin((n - 1) as real, quantile);
    Scaled((n - 1) as real, quantile)
  }

  /** The value at a position between samples. */
  function Interpolated(values: seq<real>, position: real): real
    requires values != [] && 0.0 <= position <= (|values| - 1) as real
  {
    var lower := position.Floor;
    var upper := if lower + 1 < |values| then lower + 1 else |values| - 1;
    var fraction := position - lower as real;
    values[lower] + Scaled(values[upper] - values[lower], fraction)
  }

  /** The percentile before rounding. */
  function Exact(values: seq<real>, quantile: real): real
    requires values != [] && 0.0 <= quantile <= 1.0
  {
    Interpolated(values, Position(|values|, quantile))
  }

  /** _percentile */
  function At(values: seq<real>, quantile: real, round: real -> real): real
    requires values != [] && 0.0 <= quantile <= 1.0
  {
    if |values| == 1 then round(values[0]) else round(Exact(values, quantile))
  }

  function Sum(values: seq<real>): real {
    if values == [] then 0.0 else Sum(values[..|values| - 1]) + values[|values| - 1]
  }

  datatype Distribution =
    | NoSamples
    | Samples(count: nat, mean: real, p50: real, p95: real, p99: real)

  /** _distribution */
  function Describe(values: seq<real>, round: real -> real): Distribution {
    SortKeeps(values, AtMost);
    var ordered := SortBy(values, AtMost);
    if values == [] then NoSamples
    else Samples(|ordered|, round(Sum(ordered) / |ordered| as real),
                 At(ordered, 0.50, round), At(ordered, 0.95, round), At(ordered, 0.99, round))
  }

  // ---------------------------------------------------------------- interpolation

  lemma InterpolatedBetween(values: seq<real>, position: real)
    requires InOrder(values, AtMost) && values != [] && 0.0 <= position <= (|values| - 1) as real
    ensures var k := position.Floor;
            var next := if k + 1 < |values| then k + 1 else k;
            values[k] <= Interpolated(values, position) <= values[next]
  {
    var k := position.Floor;
    var next := if k + 1 < |values| then k + 1 else k;
    assert k == next || AtMost(values[k], values[next]);
    ScaledWithin(values[next] - values[k], position - k as real);
  }

  lemma InterpolatedGrows(values: seq<real>, position: real, position': real)
    requires InOrder(values, AtMost) && values != [] && 0.0 <= position <= position' <= (|values| - 1) as real
    ensures Interpolated(values, position) <= Interpolated(values, position')
  {
    var k, k' := position.Floor, position'.Floor;
    if k == k' {
      var next := if k + 1 < |values| then k + 1 else k;
      assert k == next || AtMost(values[k], values[next]);
      ScaledGrows(values[next] - values[k], position - k as real, position' - k as real);
    } else {
      InterpolatedBetween(values, position);
      InterpolatedBetween(values, position');
      assert k + 1 == k' || AtMost(values[k + 1], values[k']);
    }
  }

  /** A percentile lies between the two samples around its position. */
  lemma LiesBetweenNeighbours(values: seq<real>, quantile: real)
    requires values != [] && InOrder(values, AtMost) && 0.0 <= quantile <= 1.0
    ensures var k := Position(|values|, quantile).Floor;
            var next := if k + 1 < |values| then k + 1 else k;
            values[k] <= Exact(values, quantile) <= values[next]
  {
    InterpolatedBetween(values, Position(|values|, quantile));
  }

  /** A higher quantile never gives a lower value. */
  lemma MonotoneInQuantile(values: seq<real>, q: real, q': real)
    requires values != [] && InOrder(values, AtMost) && 0.0 <= q <= q' <= 1.0
    ensures Exact(values, q) <= Exact(values, q')
  {
    ScaledGrows((|values| - 1) as real, q, q');
    InterpolatedGrows(values, Position(|values|, q), Position(|values|, q'));
  }

  /** The special case for one sample is no exception. */
  lemma AtIsRounded(values: seq<real>, quantile: real, round: real -> real)
    requires values != [] && 0.0 <= quantile <= 1.0
    ensures At(values, quantile, round) == round(Exact(values, quantile))
  {
    if |values| == 1 {
      assert Position(1, quantile) == 0.0;
    }
  }

  lemma Bounds(ordered: seq<real>, q: real)
    requires ordered != [] && InOrder(ordered, AtMost) && 0.0 <= q <= 1.0
    ensures ordered[0] <= Exact(ordered, q) <= ordered[|ordered| - 1]
  {
    var n, k := |ordered|, Position(|ordered|, q).Floor;
    var next := if k + 1 < n then k + 1 else k;
    LiesBetweenNeighbours(ordered, q);
    assert k == 0 || AtMost(ordered[0], ordered[k]);
    assert next == n - 1 || AtMost(ordered[next], ordered[n - 1]);
  }

  lemma OrderedPercentiles(ordered: seq<real>, round: real -> real)
    requires Rounds(round) && ordered != [] && InOrder(ordered, AtMost)
    ensures round(ordered[0]) <= At(ordered, 0.50, round) <= At(ordered, 0.95, round) <= At(ordered, 0.99, round)
         <= round(ordered[|ordered| - 1])
  {
    AtIsRounded(ordered, 0.50, round);
    AtIsRounded(ordered, 0.95, round);
    AtIsRounded(ordered, 0.99, round);
    MonotoneInQuantile(ordered, 0.50, 0.95);
    MonotoneInQuantile(ordered, 0.95, 0.99);
    Bounds(ordered, 0.50);
    Bounds(ordered, 0.99);
  }

  lemma AtMostOrders()
    ensures Preorder(AtMost)
  {
  }

  /** A least and a greatest sample. */
  ghost predicate Extremes(values: seq<real>, least: real, greatest: real) {
    least in values && greatest in values && forall x :: x in values ==> least <= x <= greatest
  }

  lemma EndsAreExtremes(ordered: seq<real>)
    requires ordered != [] && InOrder(ordered, AtMost)
    ensures Extremes(ordered, ordered[0], ordered[|ordered| - 1])
  {
    var n := |ordered|;
    forall k | 0 <= k < n ensures ordered[0] <= ordered[k] <= ordered[n - 1] {
      assert k == 0 || AtMost(ordered[0], ordered[k]);
      assert k == n - 1 || AtMost(ordered[k], ordered[n - 1]);
    }
  }

  /** Whatever the samples and the rounding: least <= p50 <= p95 <= p99 <= greatest, as rounded. */
  lemma PercentilesAreOrdered(values: seq<real>, round: real -> real) returns (least: real, greatest: real)
    requires Rounds(round) && values != []
    ensures Extremes(values, least, greatest)
    ensures var d := Describe(values, round);
            && d.Samples? && d.count == |values|
            && round(least) <= d.p50 <= d.p95 <= d.p99 <= round(greatest)
  {
    SortKeeps(values, AtMost);
    AtMostOrders();
    SortInOrder(values, AtMost);
    var ordered := SortBy(values, AtMost);
    OrderedPercentiles(ordered, round);
    EndsAreExtremes(ordered);
    least, greatest := ordered[0], ordered[|ordered| - 1];
    assert forall x :: x in values <==> x in ordered;
  }

  // ---------------------------------------------------------------- exactly which values

  /** Between neighbouring samples the value moves on a straight line, reaching both. */
  lemma LinearBetweenNeighbours(values: seq<real>, quantile: real, k: nat)
    requires values != [] && 0.0 <= quantile <= 1.0 && k + 1 < |values|
    requires k as real <= quantile * (|values| - 1) as real <= (k + 1) as real
    ensures var share := quantile * (|values| - 1) as real - k as real;
      Exact(values, quantile) == values[k] * (1.0 - share) + values[k + 1] * share
  {
    var position := Position(|values|, quantile);
    var share := position - k as real;
    assert position == quantile * (|values| - 1) as real;
    if share < 1.0 {
      assert position.Floor == k;
      assert Scaled(values[k + 1] - values[k], share) == values[k + 1] * share - values[k] * share;
    } else {
      assert position.Floor == k + 1 && share == 1.0;
    }
  }

  lemma {:induction false} SumCons(x: real, values: seq<real>)
    ensures Sum([x] + values) == x + Sum(values)
  {
    if values != [] {
      var n := |values| - 1;
      SumCons(x, values[..n]);
      assert ([x] + values)[..n + 1] == [x] + values[..n];
    }
  }

  lemma {:induction false} InsertAdds(x: real, sorted: seq<real>)
    ensures Sum(Insert(x, sorted, AtMost)) == x + Sum(sorted)
  {
    SumCons(x, sorted);
    if sorted != [] && !AtMost(x, sorted[0]) {
      InsertAdds(x, sorted[1..]);
      SumCons(sorted[0], Insert(x, sorted[1..], AtMost));
      SumCons(sorted[0], sorted[1..]);
      assert sorted == [sorted[0]] + sorted[1..];
    }
  }

  lemma {:induction false} SortingKeepsSum(values: seq<real>)
    ensures Sum(SortBy(values, AtMost)) == Sum(values)
  {
    if values != [] {
      SortingKeepsSum(values[1..]);
      InsertAdds(values[0], SortBy(values[1..], AtMost));
      SumCons(values[0], values[1..]);
      assert values == [values[0]] + values[1..];
    }
  }

  /** The distribution of any samples: their number, their mean, and three percentiles of them in ascending order. */
  lemma DescribesTheSamples(values: seq<real>, round: real -> real)
    requires values != []
    ensures exists ordered ::
      && multiset(ordered) == multiset(values) && |ordered| == |values| && InOrder(ordered, AtMost)
      && Describe(values, round)
         == Samples(|values|, round(Sum(values) / |values| as real), round(Exact(ordered, 0.50)), round(Exact(ordered, 0.95)),
                    round(Exact(ordered, 0.99)))
  {
    var ordered := SortBy(values, AtMost);
    SortKeeps(values, AtMost);
    SortKeepsAll(values, AtMost);
    AtMostOrders();
    SortInOrder(values, AtMost);
    SortingKeepsSum(values);
    AtIsRounded(ordered, 0.50, round);
    AtIsRounded(ordered, 0.95, round);
    AtIsRounded(ordered, 0.99, round);
  }
}
