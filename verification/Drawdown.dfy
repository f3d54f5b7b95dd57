/**
 Worst drawdown of an equity curve: the one-pass scan against the worst drop over all pairs of
 days.
 */
module Drawdown {

  /** Dated equity values, oldest first. */
  type Curve = seq<(int, real)>

  /** The fractional loss from day i to day j. */
  function Drop(c: Curve, i: nat, j: nat): real
    requires i < |c| && j < |c| && c[i].1 != 0.0
  {
    (c[i].1 - c[j].1) / c[i].1
  }

  /** Where the scan stands: the running peak, and the worst drop so far with its two days. */
  datatype Scan = Scan(peak: nat, worst: real, from: nat, to: nat)

  /** The scan after the first k days: the peak moves first, then the drop from it is compared. */
  function ScanTo(c: Curve, k: nat): (s: Scan)
    requires 0 < k <= |c|
    ensures s.peak < k && s.from < k && s.to < k
  {
    if k == 1 then Scan(0, 0.0, 0, 0)
    else
      var s, day := ScanTo(c, k - 1), k - 1;
      var peak := if c[day].1 > c[s.peak].1 then day else s.peak;
      if c[peak].1 > 0.0 && Drop(c, peak, day) > s.worst then Scan(peak, Drop(c, peak, day), peak, day)
      else s.(peak := peak)
  }

  function MaxDrawdown(c: Curve): real {
    if c == [] then 0.0 else ScanTo(c, |c|).worst
  }

  /** Calendar days from the peak before the worst drop to its trough. */
  function DrawdownDays(c: Curve): int {
    if c == [] then 0
    else
      var s := ScanTo(c, |c|);
      if s.worst > 0.0 then c[s.to].0 - c[s.from].0 else 0
  }

  /** The first day of the highest value up to day j. */
  ghost predicate IsPeak(c: Curve, p: nat, j: nat)
    requires j < |c|
  {
    p <= j && (forall i :: 0 <= i <= j ==> c[i].1 <= c[p].1) && (forall i :: 0 <= i < p ==> c[i].1 < c[p].1)
  }

  /** What the scan knows after k days, on any curve. */
  ghost predicate ScanOk(c: Curve, k: nat, s: Scan)
    requires 0 < k <= |c| && s.peak < k && s.from < k && s.to < k
  {
    && IsPeak(c, s.peak, k - 1)
    && s.worst >= 0.0
    && (forall p: nat, j: nat :: j < k && IsPeak(c, p, j) && c[p].1 > 0.0 ==> Drop(c, p, j) <= s.worst)
    && (s.worst > 0.0 ==> IsPeak(c, s.from, s.to) && c[s.from].1 > 0.0 && s.worst == Drop(c, s.from, s.to))
    && (s.worst > 0.0 ==>
          forall p: nat, j: nat :: j < s.to && IsPeak(c, p, j) && c[p].1 > 0.0 ==> Drop(c, p, j) < s.worst)
  }

  lemma SelfDrop(c: Curve, i: nat)
    requires i < |c| && c[i].1 > 0.0
    ensures Drop(c, i, i) == 0.0
  {
  }

  lemma {:induction false} ScanIsOk(c: Curve, k: nat)
    requires 0 < k <= |c|
    ensures ScanOk(c, k, ScanTo(c, k))
  {
    hide Drop;
    var s := ScanTo(c, k);
    if k == 1 {
      if c[0].1 > 0.0 {
        SelfDrop(c, 0);
      }
    } else {
      ScanIsOk(c, k - 1);
      assert IsPeak(c, s.peak, k - 1);
      forall p: nat, j: nat | j < k && IsPeak(c, p, j) && c[p].1 > 0.0 ensures Drop(c, p, j) <= s.worst {
        if j == k - 1 {
          assert p == s.peak;
        }
      }
    }
  }

  /** The worst fall from a running peak, on any curve: day j from peak p, and no earlier day fell as far. */
  ghost predicate IsFirstWorst(c: Curve, p: nat, j: nat, magnitude: real) {
    && j < |c| && IsPeak(c, p, j) && c[p].1 > 0.0 && magnitude == Drop(c, p, j) == (c[p].1 - c[j].1) / c[p].1
    && (forall q: nat, i: nat :: i < |c| && IsPeak(c, q, i) && c[q].1 > 0.0 ==> Drop(c, q, i) <= magnitude)
    && (forall q: nat, i: nat :: i < j && IsPeak(c, q, i) && c[q].1 > 0.0 ==> Drop(c, q, i) < magnitude)
  }

  lemma FallIsPositive(a: real, b: real)
    requires a > 0.0 && b < a
    ensures (a - b) / a > 0.0
  {
    var q := (a - b) / a;
    assert q * a == a - b;
    assert q <= 0.0 ==> q * a <= 0.0;
  }

  /**
   The drawdown is the worst fall from a running peak and its duration the calendar days of the
   first such fall; without a fall both are zero.
   */
  ghost predicate MeasuresFirstWorst(c: Curve, magnitude: real, duration: int) {
    && magnitude >= 0.0
    && (magnitude > 0.0 ==> exists p: nat, j: nat :: IsFirstWorst(c, p, j, magnitude) && duration == c[j].0 - c[p].0)
    && (magnitude == 0.0 ==>
          && duration == 0
          && forall p: nat, j: nat :: j < |c| && IsPeak(c, p, j) && c[p].1 > 0.0 ==> c[j].1 >= c[p].1)
  }

  lemma DropIs(c: Curve, i: nat, j: nat)
    requires i < |c| && j < |c| && c[i].1 > 0.0
    ensures Drop(c, i, j) == (c[i].1 - c[j].1) / c[i].1
  {
  }

  lemma FallDrops(c: Curve, p: nat, j: nat)
    requires p < |c| && j < |c| && c[p].1 > 0.0 && c[j].1 < c[p].1
    ensures Drop(c, p, j) > 0.0
  {
    FallIsPositive(c[p].1, c[j].1);
  }

  lemma StatsMeasure(c: Curve)
    ensures MeasuresFirstWorst(c, MaxDrawdown(c), DrawdownDays(c))
  {
    hide Drop, ScanTo;
    if c != [] {
      ScanIsOk(c, |c|);
      var s := ScanTo(c, |c|);
      if s.worst > 0.0 {
        DropIs(c, s.from, s.to);
        assert IsFirstWorst(c, s.from, s.to, s.worst);
      }
      forall p: nat, j: nat | j < |c| && IsPeak(c, p, j) && c[p].1 > 0.0 && c[j].1 < c[p].1 ensures Drop(c, p, j) > 0.0 {
        FallDrops(c, p, j);
      }
    }
  }

  /** The loop over the curve, as the metrics run it. */
  method MaxDrawdownStats(c: Curve) returns (magnitude: real, duration: int)
    ensures magnitude == MaxDrawdown(c) && duration == DrawdownDays(c)
    ensures MeasuresFirstWorst(c, magnitude, duration)
  {
    hide MeasuresFirstWorst;
    StatsMeasure(c);
    if c == [] {
      return 0.0, 0;
    }
    var peak, peakDate, worst, fromDate, toDate := c[0].1, c[0].0, 0.0, c[0].0, c[0].0;
    ghost var s := ScanTo(c, 1);
    for k := 0 to |c|
      invariant s == if k == 0 then ScanTo(c, 1) else ScanTo(c, k)
      invariant peak == c[s.peak].1 && peakDate == c[s.peak].0
      invariant worst == s.worst && fromDate == c[s.from].0 && toDate == c[s.to].0
    {
      var day, value := c[k].0, c[k].1;
      if value > peak {
        peak, peakDate := value, day;
      }
      if peak > 0.0 {
        var drop := (peak - value) / peak;
        if drop > worst {
          worst, fromDate, toDate := drop, peakDate, day;
        }
      }
      s := ScanTo(c, k + 1);
    }
    magnitude := worst;
    duration := if worst > 0.0 then toDate - fromDate else 0;
  }

  // ---------------------------------------------------------------------- the true maximum

  lemma QuotientTimes(v: real, a: real)
    requires a != 0.0
    ensures v / a * a == v
  {
  }

  lemma NonNegativeQuotient(v: real, a: real)
    requires a > 0.0 && v >= 0.0
    ensures v / a >= 0.0
  {
  }

  lemma ProductOrder(x: real, y: real, a: real, b: real)
    requires 0.0 <= x <= y && 0.0 < a <= b
    ensures x * a <= y * b
    ensures x < y ==> x * a < y * b
  {
    assert x * a <= y * a <= y * b;
    assert x < y ==> x * a < y * a;
  }

  lemma QuotientOrder(v: real, a: real, b: real)
    requires 0.0 < a <= b
    ensures v >= 0.0 ==> v / a >= v / b
    ensures v < 0.0 && a < b ==> v / a < v / b
  {
    var x, y := v / a, v / b;
    QuotientTimes(v, a);
    QuotientTimes(v, b);
    if v >= 0.0 && x < y {
      assert x >= 0.0 by { NonNegativeQuotient(v, a); }
      ProductOrder(x, y, a, b);
    }
    if v < 0.0 && a < b && x >= y {
      assert x < 0.0;
      assert y < 0.0;
      ProductOrder(-x, -y, a, b);
    }
  }

  lemma SameQuotient(n: real, d: real, q: real)
    requires d != 0.0 && q * d == n
    ensures n / d == q
  {
  }

  lemma SplitQuotient(v: real, a: real)
    requires a != 0.0
    ensures (a - v) / a == 1.0 - v / a
  {
    QuotientTimes(v, a);
    SameQuotient(a - v, a, 1.0 - v / a);
  }

  lemma DropGrowsWithReference(v: real, a: real, b: real)
    requires 0.0 < a <= b
    ensures v >= 0.0 ==> (a - v) / a <= (b - v) / b
    ensures v < 0.0 && a < b ==> (a - v) / a > (b - v) / b
  {
    SplitQuotient(v, a);
    SplitQuotient(v, b);
    QuotientOrder(v, a, b);
  }

  /** The running peak is the worst reference for day j. */
  ghost predicate PeakIsWorst(c: Curve, p: nat, j: nat)
    requires j < |c| && IsPeak(c, p, j) && c[p].1 > 0.0
  {
    forall i :: 0 <= i <= j && c[i].1 > 0.0 ==> Drop(c, i, j) <= Drop(c, p, j)
  }

  /**
   Measuring day j against the running peak gives its worst drop exactly when the day's value is
   not negative, or no other positive value precedes it.
   */
  lemma PeakIsWorstIff(c: Curve, p: nat, j: nat)
    requires j < |c| && IsPeak(c, p, j) && c[p].1 > 0.0
    ensures PeakIsWorst(c, p, j)
       <==> (c[j].1 >= 0.0 || forall i :: 0 <= i <= j && c[i].1 > 0.0 ==> c[i].1 == c[p].1)
  {
    forall i | 0 <= i <= j && c[i].1 > 0.0
      ensures c[j].1 >= 0.0 ==> Drop(c, i, j) <= Drop(c, p, j)
      ensures c[j].1 < 0.0 && c[i].1 < c[p].1 ==> Drop(c, i, j) > Drop(c, p, j)
    {
      DropGrowsWithReference(c[j].1, c[i].1, c[p].1);
    }
  }

  lemma {:induction false} PeakExists(c: Curve, j: nat) returns (p: nat)
    requires j < |c|
    ensures IsPeak(c, p, j)
  {
    ScanIsOk(c, j + 1);
    p := ScanTo(c, j + 1).peak;
  }

  /**
   On a curve without negative values the scan finds the worst drop over all pairs of days, its
   two days attain it, and the peak is not after the trough.
   */
  lemma OnePassIsWorst(c: Curve)
    requires c != [] && forall i :: 0 <= i < |c| ==> c[i].1 >= 0.0
    ensures var s := ScanTo(c, |c|);
      && (forall i, j :: 0 <= i <= j < |c| && c[i].1 > 0.0 ==> Drop(c, i, j) <= MaxDrawdown(c))
      && (MaxDrawdown(c) > 0.0 ==> s.from <= s.to && c[s.from].1 > 0.0 && MaxDrawdown(c) == Drop(c, s.from, s.to))
  {
    ScanIsOk(c, |c|);
    forall i, j | 0 <= i <= j < |c| && c[i].1 > 0.0 ensures Drop(c, i, j) <= MaxDrawdown(c) {
      var p := PeakExists(c, j);
      PeakIsWorstIff(c, p, j);
    }
  }

  /** The scan bounds the drop of every ordered pair of days. */
  ghost predicate BoundsEveryPair(c: Curve) {
    forall i, j :: 0 <= i <= j < |c| && c[i].1 > 0.0 ==> Drop(c, i, j) <= MaxDrawdown(c)
  }

  /** Once positive, the curve does not fall below zero. */
  ghost predicate NeverFallsBelowZero(c: Curve) {
    forall i, j :: 0 <= i <= j < |c| && c[i].1 > 0.0 ==> c[j].1 >= 0.0
  }

  /** Day j is below zero and every positive value up to it equals the peak p. */
  ghost predicate SoleReference(c: Curve, p: nat, j: nat) {
    && j < |c| && IsPeak(c, p, j) && c[p].1 > 0.0 && c[j].1 < 0.0
    && forall i :: 0 <= i <= j && c[i].1 > 0.0 ==> c[i].1 == c[p].1
  }

  /** No ordered pair of days drops more than (p, j). */
  ghost predicate WorstPair(c: Curve, p: nat, j: nat)
    requires p < |c| && j < |c| && c[p].1 > 0.0
  {
    forall i, k :: 0 <= i <= k < |c| && c[i].1 > 0.0 ==> Drop(c, i, k) <= Drop(c, p, j)
  }

  lemma FallsBelowZeroDeeply(a: real, b: real)
    requires a > 0.0
    ensures b < 0.0 <==> (a - b) / a > 1.0
  {
    SplitQuotient(b, a);
    if b < 0.0 {
    } else {
      NonNegativeQuotient(b, a);
    }
  }

  /** A positive drawdown is the drop from the running peak of some day. */
  lemma PeakPairAttains(c: Curve) returns (p: nat, j: nat)
    requires MaxDrawdown(c) > 0.0
    ensures j < |c| && IsPeak(c, p, j) && c[p].1 > 0.0 && Drop(c, p, j) == MaxDrawdown(c)
  {
    ScanIsOk(c, |c|);
    p, j := ScanTo(c, |c|).from, ScanTo(c, |c|).to;
  }

  /** If the scan bounds every pair although the curve falls below zero, its own pair has one reference. */
  lemma BoundMeansSoleReference(c: Curve, i: nat, j: nat) returns (p: nat, q: nat)
    requires BoundsEveryPair(c) && i <= j < |c| && c[i].1 > 0.0 && c[j].1 < 0.0
    ensures SoleReference(c, p, q) && WorstPair(c, p, q)
  {
    hide Drop, MaxDrawdown;
    DropIs(c, i, j);
    FallsBelowZeroDeeply(c[i].1, c[j].1);
    p, q := PeakPairAttains(c);
    DropIs(c, p, q);
    FallsBelowZeroDeeply(c[p].1, c[q].1);
    assert PeakIsWorst(c, p, q);
    PeakIsWorstIff(c, p, q);
  }

  /**
   On every curve: the scan bounds all pairs exactly when the curve never falls below zero once
   positive, or some worst pair ends on a day whose positive past has a single value.
   */
  lemma OnePassIsWorstIff(c: Curve)
    requires c != []
    ensures BoundsEveryPair(c)
       <==> NeverFallsBelowZero(c) || exists p, j :: SoleReference(c, p, j) && WorstPair(c, p, j)
  {
    hide Drop, ScanTo;
    ScanIsOk(c, |c|);
    if NeverFallsBelowZero(c) {
      forall i, j | 0 <= i <= j < |c| && c[i].1 > 0.0 ensures Drop(c, i, j) <= MaxDrawdown(c) {
        var p := PeakExists(c, j);
        PeakIsWorstIff(c, p, j);
      }
    } else if BoundsEveryPair(c) {
      var i, j :| 0 <= i <= j < |c| && c[i].1 > 0.0 && c[j].1 < 0.0;
      var p, q := BoundMeansSoleReference(c, i, j);
    }
  }

  /** With a negative value the scan can miss: the drop from 1 to -5 is worse than from 10 to -5. */
  lemma NegativeEquityIsMissed()
    ensures var c: Curve := [(0, 1.0), (1, 10.0), (2, -5.0)];
      MaxDrawdown(c) == 1.5 && Drop(c, 0, 2) == 6.0
  {
    var c: Curve := [(0, 1.0), (1, 10.0), (2, -5.0)];
    assert ScanTo(c, 2).peak == 1 && ScanTo(c, 2).worst == 0.0;
    assert Drop(c, 1, 2) == 1.5;
  }

  /** Every pair is at most the reported drawdown. */
  lemma PairIsBounded(c: Curve, i: nat, j: nat)
    requires i <= j < |c| && c[i].1 > 0.0 && forall k :: 0 <= k < |c| ==> c[k].1 >= 0.0
    ensures Drop(c, i, j) <= MaxDrawdown(c)
  {
    OnePassIsWorst(c);
  }

  /** A positive drawdown is the drop of some pair. */
  lemma SomePairAttains(c: Curve) returns (i: nat, j: nat)
    requires MaxDrawdown(c) > 0.0
    ensures i <= j < |c| && c[i].1 > 0.0 && Drop(c, i, j) == MaxDrawdown(c)
  {
    ScanIsOk(c, |c|);
    i, j := ScanTo(c, |c|).from, ScanTo(c, |c|).to;
  }

  /** The values of `c` appear in `whole` from position `at` on, multiplied by `scale`. */
  ghost predicate Contains(whole: Curve, at: nat, c: Curve, scale: real) {
    && at + |c| <= |whole|
    && forall i :: 0 <= i < |c| ==> whole[at + i].1 == scale * c[i].1
  }

  lemma NonNegativeDrawdown(c: Curve)
    ensures MaxDrawdown(c) >= 0.0
  {
    if c != [] {
      ScanIsOk(c, |c|);
    }
  }

  lemma ScaledPair(c: Curve, whole: Curve, at: nat, scale: real, i: nat, j: nat)
    requires i <= j < |c| && at + |c| <= |whole| && scale > 0.0 && c[i].1 > 0.0
    requires whole[at + i].1 == scale * c[i].1 && whole[at + j].1 == scale * c[j].1
    ensures whole[at + i].1 > 0.0 && Drop(whole, at + i, at + j) == Drop(c, i, j)
  {
  }

  /** A curve that contains a rescaled copy of another is at least as deep. */
  lemma ContainingCurveIsDeeper(c: Curve, whole: Curve, at: nat, scale: real)
    requires Contains(whole, at, c, scale) && scale > 0.0
    requires forall k :: 0 <= k < |whole| ==> whole[k].1 >= 0.0
    ensures MaxDrawdown(c) <= MaxDrawdown(whole)
  {
    NonNegativeDrawdown(whole);
    if MaxDrawdown(c) > 0.0 {
      var i, j := SomePairAttains(c);
      ScaledPair(c, whole, at, scale, i, j);
      PairIsBounded(whole, at + i, at + j);
    }
  }
}
