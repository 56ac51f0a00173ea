/** The benchmark's interpolating percentile (benchmarks/run.py), over exact reals. */
module Percentile {
  import opened Arithmetic
  import opened Wrappers

  ghost predicate Sorted(values: seq<real>) {
    forall i, j :: 0 <= i <= j < |values| ==> values[i] <= values[j]
  }

  /** The rank a percentage falls on, between 0 and n - 1. */
  function Rank(n: nat, pct: real): real { (n as real - 1.0) * (pct / 100.0) }

  function Ceiling(k: real): int { if k.Floor as real == k then k.Floor else k.Floor + 1 }

  lemma RankInRange(n: nat, pct: real)
    requires n > 0 && 0.0 <= pct <= 100.0
    ensures 0.0 <= Rank(n, pct) <= n as real - 1.0
    ensures 0 <= Rank(n, pct).Floor <= Ceiling(Rank(n, pct)) < n
  {
    var m, q := n as real - 1.0, pct / 100.0;
    assert 0.0 <= q <= 1.0;
    ProductNonNegative(m, q);
    ProductNonNegative(m, 1.0 - q);
  }

  /** Straight-line interpolation between the two neighbouring ranks. */
  function At(values: seq<real>, k: real): real
    requires 0.0 <= k && Ceiling(k) < |values|
  {
    var f, c := k.Floor, Ceiling(k);
    if f == c then values[f] else values[f] + (values[c] - values[f]) * (k - f as real)
  }

  /** Between its neighbours, an interpolated value is a weighted mean. */
  lemma Between(lo: real, hi: real, t: real)
    requires lo <= hi && 0.0 <= t <= 1.0
    ensures lo <= lo + (hi - lo) * t <= hi
  {
    ProductNonNegative(hi - lo, t);
    ProductNonNegative(hi - lo, 1.0 - t);
  }

  lemma AtWithinItsCell(values: seq<real>, k: real)
    requires 0.0 <= k && Ceiling(k) < |values| && Sorted(values)
    ensures values[k.Floor] <= At(values, k) <= values[Ceiling(k)]
  {
    if k.Floor != Ceiling(k) {
      Between(values[k.Floor], values[Ceiling(k)], k - k.Floor as real);
    }
  }

  lemma MonotoneInCell(lo: real, hi: real, t: real, u: real)
    requires lo <= hi && t <= u
    ensures lo + (hi - lo) * t <= lo + (hi - lo) * u
  {
    ProductNonNegative(hi - lo, u - t);
  }

  /** Moving up in rank never moves down in value, across floor boundaries too. */
  lemma AtMonotone(values: seq<real>, k: real, l: real)
    requires 0.0 <= k <= l && Ceiling(l) < |values| && Sorted(values)
    ensures Ceiling(k) < |values| && At(values, k) <= At(values, l)
  {
    AtWithinItsCell(values, l);
    if k.Floor == l.Floor {
      if k.Floor as real == k {
        assert At(values, k) == values[k.Floor];
      } else {
        MonotoneInCell(values[k.Floor], values[k.Floor + 1], k - k.Floor as real, l - k.Floor as real);
      }
    } else {
      AtWithinItsCell(values, k);
      assert Ceiling(k) <= l.Floor;
    }
  }

  lemma RankMonotone(n: nat, pct: real, more: real)
    requires n > 0 && pct <= more
    ensures Rank(n, pct) <= Rank(n, more)
  {
    ProductNonNegative(n as real - 1.0, more / 100.0 - pct / 100.0);
  }

  ghost function Value(values: seq<real>, pct: real): real
    requires values != [] && 0.0 <= pct <= 100.0
  {
    RankInRange(|values|, pct);
    At(values, Rank(|values|, pct))
  }

  /** A percentile lies within the data, reaches both ends, and grows with the
      percentage. */
  lemma PercentileBounds(values: seq<real>, pct: real, more: real)
    requires values != [] && Sorted(values) && 0.0 <= pct <= more <= 100.0
    ensures values[0] <= Value(values, pct) <= Value(values, more) <= values[|values| - 1]
    ensures Value(values, 0.0) == values[0] && Value(values, 100.0) == values[|values| - 1]
  {
    RankInRange(|values|, pct);
    RankInRange(|values|, more);
    RankMonotone(|values|, pct, more);
    AtMonotone(values, Rank(|values|, pct), Rank(|values|, more));
    AtWithinItsCell(values, Rank(|values|, pct));
    AtWithinItsCell(values, Rank(|values|, more));
    assert Rank(|values|, 0.0) == 0.0 && Rank(|values|, 100.0) == |values| as real - 1.0;
  }

  /** The samples 0, 1, ..., n - 1. */
  ghost function Ramp(n: nat): seq<real> { seq(n, i => i as real) }

  /** Percentages are spread evenly over the samples: of evenly spaced samples the
      percentile is that share of the largest. */
  lemma PercentileOfRamp(n: nat, pct: real)
    requires n > 0 && 0.0 <= pct <= 100.0
    ensures Value(Ramp(n), pct) == (n as real - 1.0) * (pct / 100.0)
  {
    RankInRange(n, pct);
    var k := (n as real - 1.0) * (pct / 100.0);
    assert Rank(n, pct) == k;
    AtOfRamp(n, k);
  }

  lemma AtOfRamp(n: nat, k: real)
    requires 0.0 <= k && Ceiling(k) < n
    ensures At(Ramp(n), k) == k
  {
    assert Ramp(n)[k.Floor] == k.Floor as real && Ramp(n)[Ceiling(k)] == Ceiling(k) as real;
  }

  /** Slower samples never report a lower percentile. */
  lemma PercentileMonotoneInData(values: seq<real>, slower: seq<real>, pct: real)
    requires values != [] && |values| == |slower| && 0.0 <= pct <= 100.0
    requires forall i :: 0 <= i < |values| ==> values[i] <= slower[i]
    ensures Value(values, pct) <= Value(slower, pct)
  {
    RankInRange(|values|, pct);
    var k := Rank(|values|, pct);
    var f, c, t := k.Floor, Ceiling(k), k - k.Floor as real;
    if f != c {
      WeightedMeans(values[f], values[c], slower[f], slower[c], t);
    }
  }

  lemma WeightedMeans(lo: real, hi: real, lo': real, hi': real, t: real)
    requires lo <= lo' && hi <= hi' && 0.0 <= t <= 1.0
    ensures lo + (hi - lo) * t <= lo' + (hi' - lo') * t
  {
    ProductNonNegative(lo' - lo, 1.0 - t);
    ProductNonNegative(hi' - hi, t);
  }

  // ----- The function itself -----

  /** Python's subscript: a negative place counts from the end, and one outside
      the list raises. */
  function Subscript(values: seq<real>, place: int): Option<real> {
    if 0 <= place < |values| then Some(values[place])
    else if -|values| <= place < 0 then Some(values[|values| + place])
    else None
  }

  /** From the front, from the end, or not at all. */
  lemma SubscriptCountsBothWays(values: seq<real>, place: int)
    requires place >= 0
    ensures place < |values| ==> Subscript(values, place) == Some(values[place])
    ensures 0 < place <= |values| ==> Subscript(values, -place) == Some(values[|values| - place])
    ensures (place >= |values| ==> Subscript(values, place) == None)
            && (place > |values| ==> Subscript(values, -place) == None)
  {
  }

  datatype Answer = NotANumber | Percentile(value: real) | IndexError

  /** The point at rank `k` of the line through the two places around it. */
  function OnTheLine(values: seq<real>, k: real): Answer {
    match (Subscript(values, k.Floor), Subscript(values, Ceiling(k)))
    case (Some(low), Some(high)) => Percentile(low + (high - low) * (k - k.Floor as real))
    case _ => IndexError
  }

  lemma OnTheLineIsValue(values: seq<real>, pct: real)
    requires values != [] && 0.0 <= pct <= 100.0
    ensures OnTheLine(values, Rank(|values|, pct)) == Percentile(Value(values, pct))
  {
    RankInRange(|values|, pct);
  }

  lemma OffTheListExactly(values: seq<real>, k: real)
    ensures OnTheLine(values, k) == IndexError <==> Ceiling(k) >= |values| || k.Floor < -|values|
  {
    assert k.Floor <= Ceiling(k);
  }

  /** For any percentage: NaN for an empty list, else the point on the line through
      the two samples around the rank, where a rank below zero counts from the end
      and one off the list raises. From 0 to 100 nothing raises, and for sorted
      data the result lies between the smallest and the largest. */
  method Compute(values: seq<real>, pct: real) returns (r: Answer)
    ensures r == NotANumber <==> values == []
    ensures values != [] ==> r == OnTheLine(values, Rank(|values|, pct))
    ensures r == IndexError <==>
              values != [] && (Ceiling(Rank(|values|, pct)) >= |values| || Rank(|values|, pct).Floor < -|values|)
    ensures values != [] && 0.0 <= pct <= 100.0 ==> r == Percentile(Value(values, pct))
    ensures values != [] && 0.0 <= pct <= 100.0 && Sorted(values) ==>
              values[0] <= Value(values, pct) <= values[|values| - 1]
  {
    if values == [] { return NotANumber; }
    var k := Rank(|values|, pct);
    var f, c := k.Floor, Ceiling(k);
    OffTheListExactly(values, k);
    if 0.0 <= pct <= 100.0 {
      OnTheLineIsValue(values, pct);
      if Sorted(values) { PercentileBounds(values, pct, pct); }
    }
    var low, high := Subscript(values, f), Subscript(values, c);
    if low.None? || high.None? { return IndexError; }
    if f == c { return Percentile(low.value); }
    return Percentile(low.value + (high.value - low.value) * (k - f as real));
  }
}
