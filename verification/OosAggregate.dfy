/**
 The walk-forward aggregate: per-window curves stitched into one, its return against the
 compounded window returns, its drawdown against theirs, and the single-window dependency flag.
 */
module OosAggregate {
  import opened OrderedDict
  import opened Drawdown
  import DailySpec
  import SortedTimes
  import WalkForward

  /** What the run keeps of one simulated window. */
  datatype Window = Window(curve: Curve, finalEquity: real, totalReturnPct: real, trades: nat, skips: nat,
                           roundTrips: nat, days: nat)

  datatype Aggregate = Aggregate(curve: Curve, stepReturns: seq<real>, totalReturnPct: real, maxDrawdownPct: real,
                                 trades: nat, skips: nat, roundTrips: nat, days: nat)

  function LastOf(c: Curve): real
    requires c != []
  {
    c[|c| - 1].1
  }

  /** A window whose first day already moved off the starting equity is seeded with it. */
  function Seeded(c: Curve, initial: real): (r: Curve)
    requires c != []
    ensures r != [] && r[0].1 == initial && LastOf(r) == LastOf(c)
  {
    if c[0].1 != initial then [(c[0].0, initial)] + c else c
  }

  function StepReturn(prev: real, curr: real): real {
    if prev > 0.0 then (curr - prev) / prev else 0.0
  }

  function Compounded(equity: real, r: real): real {
    equity * (1.0 + r)
  }

  /** `base` continued by the first k steps of `c`, compounding its step returns. */
  function Continue(base: Curve, c: Curve, k: nat): (r: Curve)
    requires base != [] && k < |c|
    ensures |r| == |base| + k
  {
    if k == 0 then base
    else
      var before := Continue(base, c, k - 1);
      before + [(c[k].0, Compounded(LastOf(before), StepReturn(c[k - 1].1, c[k].1)))]
  }

  /** The stitched curve of all windows; windows without a curve are passed over. */
  function Stitch(curves: seq<Curve>, initial: real): Curve {
    if curves == [] then []
    else
      var before, c := Stitch(curves[..|curves| - 1], initial), curves[|curves| - 1];
      if c == [] then before
      else
        var seeded := Seeded(c, initial);
        Continue(if before == [] then [(seeded[0].0, initial)] else before, seeded, |seeded| - 1)
  }

  /** One step return per day after the first. */
  function StepReturns(c: Curve): (rs: seq<real>)
    requires c != []
    ensures |rs| == |c| - 1
  {
    seq(|c| - 1, k requires 0 <= k < |c| - 1 => StepReturn(c[k].1, c[k + 1].1))
  }

  /** The concatenated step returns of all seeded windows. */
  function AllReturns(curves: seq<Curve>, initial: real): seq<real> {
    if curves == [] then []
    else
      var before, c := AllReturns(curves[..|curves| - 1], initial), curves[|curves| - 1];
      if c == [] then before else before + StepReturns(Seeded(c, initial))
  }

  function Running(curves: seq<Curve>, initial: real): real {
    var stitched := Stitch(curves, initial);
    if stitched == [] then initial else LastOf(stitched)
  }

  function CurvesOf(windows: seq<Window>): seq<Curve> {
    seq(|windows|, i requires 0 <= i < |windows| => windows[i].curve)
  }

  // ------------------------------------------------------------------------------ the loops

  /** Step returns of one seeded curve, appended to the running curve. */
  method AppendWindow(stitched: Curve, soFar: seq<real>, running: real, c: Curve)
    returns (after: Curve, allReturns: seq<real>, equity: real)
    requires stitched != [] && c != [] && running == LastOf(stitched)
    ensures after == Continue(stitched, c, |c| - 1) && equity == LastOf(after)
    ensures allReturns == soFar + StepReturns(c)
  {
    after, allReturns, equity := stitched, soFar, running;
    for k := 1 to |c|
      invariant after == Continue(stitched, c, k - 1) && equity == LastOf(after)
      invariant allReturns == soFar + StepReturns(c)[..k - 1]
    {
      var r := StepReturn(c[k - 1].1, c[k].1);
      equity := Compounded(equity, r);
      after := after + [(c[k].0, equity)];
      allReturns := allReturns + [r];
    }
  }

  function Sum(windows: seq<Window>, f: Window -> nat): nat {
    if windows == [] then 0 else Sum(windows[..|windows| - 1], f) + f(windows[|windows| - 1])
  }

  lemma {:induction false} SumAddsUp(a: seq<Window>, b: seq<Window>, f: Window -> nat)
    ensures Sum(a + b, f) == Sum(a, f) + Sum(b, f)
    ensures |a| == 1 ==> Sum(a, f) == f(a[0])
  {
    if |a| == 1 {
      assert a[..0] == [];
    }
    if b == [] {
      assert a + b == a;
    } else {
      SumAddsUp(a, b[..|b| - 1], f);
      assert (a + b)[..|a + b| - 1] == a + b[..|b| - 1];
    }
  }

  method Total(windows: seq<Window>, f: Window -> nat) returns (n: nat)
    ensures n == Sum(windows, f)
  {
    n := 0;
    for i := 0 to |windows|
      invariant n == Sum(windows[..i], f)
    {
      assert windows[..i + 1][..i] == windows[..i];
      n := n + f(windows[i]);
    }
    assert windows[..|windows|] == windows;
  }

  /** Every window appended in turn, the first one starting the curve. */
  method StitchWindows(windows: seq<Window>, initial: real)
    returns (stitched: Curve, steps: seq<real>, running: real)
    ensures stitched == Stitch(CurvesOf(windows), initial) && running == Running(CurvesOf(windows), initial)
    ensures steps == AllReturns(CurvesOf(windows), initial)
  {
    hide Continue, StepReturns;
    stitched, steps, running := [], [], initial;
    for i := 0 to |windows|
      invariant stitched == Stitch(CurvesOf(windows[..i]), initial)
      invariant running == Running(CurvesOf(windows[..i]), initial)
      invariant steps == AllReturns(CurvesOf(windows[..i]), initial)
    {
      assert CurvesOf(windows[..i + 1])[..i] == CurvesOf(windows[..i]);
      var c := windows[i].curve;
      if c != [] {
        var seeded := Seeded(c, initial);
        if stitched == [] {
          stitched := [(seeded[0].0, running)];
        }
        stitched, steps, running := AppendWindow(stitched, steps, running, seeded);
      }
    }
    assert windows[..|windows|] == windows;
  }

  /** An equity as a percentage return over the one it started from. */
  function PctOver(equity: real, initial: real): real
    requires initial != 0.0
  {
    (equity - initial) / initial * 100.0
  }

  /** Stitch, total and measure; a zero starting equity cannot be expressed as a return. */
  method AggregateOos(windows: seq<Window>, initial: real) returns (r: Option<Aggregate>)
    ensures r.None? <==> windows != [] && initial == 0.0
    ensures r.Some? ==>
              var a := r.value;
              && a.curve == Stitch(CurvesOf(windows), initial)
              && a.stepReturns == AllReturns(CurvesOf(windows), initial)
              && (windows == [] ==> a.totalReturnPct == 0.0)
              && (windows != [] ==> a.totalReturnPct == PctOver(Running(CurvesOf(windows), initial), initial))
              && a.maxDrawdownPct == MaxDrawdown(a.curve) * 100.0
              && a.trades == Sum(windows, (w: Window) => w.trades)
              && a.skips == Sum(windows, (w: Window) => w.skips)
              && a.roundTrips == Sum(windows, (w: Window) => w.roundTrips)
              && a.days == Sum(windows, (w: Window) => w.days)
  {
    if windows == [] {
      return Some(Aggregate([], [], 0.0, 0.0, 0, 0, 0, 0));
    }
    var stitched, steps, running := StitchWindows(windows, initial);
    if initial == 0.0 {
      return None;
    }
    hide PctOver;
    var drawdown, _ := MaxDrawdownStats(stitched);
    var trades := Total(windows, (w: Window) => w.trades);
    var skips := Total(windows, (w: Window) => w.skips);
    var roundTrips := Total(windows, (w: Window) => w.roundTrips);
    var days := Total(windows, (w: Window) => w.days);
    r := Some(Aggregate(stitched, steps, PctOver(running, initial), drawdown * 100.0, trades, skips, roundTrips, days));
  }

  /** Simulating a run of days from a starting equity: any function of the two. */
  type Simulate = (seq<int>, real) -> DailySpec.Output

  /** A window's return; with nothing to start from there is none. */
  function WindowReturn(finalEquity: real, initial: real): real {
    if initial > 0.0 then PctOver(finalEquity, initial) else 0.0
  }

  function WindowFrom(o: DailySpec.Output, days: nat, initial: real): Window {
    Window(o.curve, o.finalEquity, WindowReturn(o.finalEquity, initial), o.trades, o.skips, o.roundTrips, days)
  }

  /** A window keeps its run's curve, end, trades, skips and round trips, each under its own name. */
  ghost predicate Keeps(w: Window, o: DailySpec.Output, days: nat, initial: real) {
    && w.curve == o.curve && w.finalEquity == o.finalEquity
    && w.trades == o.trades && w.skips == o.skips && w.roundTrips == o.roundTrips && w.days == days
    && w.totalReturnPct == if initial > 0.0 then (o.finalEquity - initial) / initial * 100.0 else 0.0
  }

  lemma WindowKeeps(o: DailySpec.Output, days: nat, initial: real)
    ensures Keeps(WindowFrom(o, days, initial), o, days, initial)
  {
  }

  /** The window's return is the one from the starting equity to where its curve ends. */
  ghost predicate Measured(w: Window, initial: real) {
    && w.finalEquity == (if w.curve == [] then initial else LastOf(w.curve))
    && w.totalReturnPct == WindowReturn(w.finalEquity, initial)
  }

  /** As both replays do: every run reports its curve's last value as its final equity. */
  ghost predicate ReportsItsEnd(simulate: Simulate, initial: real) {
    forall days :: DailySpec.EndsOnCurve(simulate(days, initial), initial)
  }

  lemma WindowIsMeasured(simulate: Simulate, days: seq<int>, initial: real)
    requires ReportsItsEnd(simulate, initial)
    ensures Measured(WindowFrom(simulate(days, initial), |days|, initial), initial)
  {
    assert DailySpec.EndsOnCurve(simulate(days, initial), initial);
  }

  /**
   Split the days, then simulate each window on the days its test dates select; every window
   restarts at the same equity.
   */
  method RunWalkForward(days: seq<int>, train: int, test: int, step: int, initial: real, simulate: Simulate)
    returns (r: Option<seq<Window>>)
    requires SortedTimes.StrictlyAscending(days)
    ensures r.None? <==> |days| < train + test || train < 1 || test < 1 || step < 1
    ensures r.Some? ==>
              && |r.value| == WalkForward.NumWindows(|days|, train + test, step)
              && forall k :: 0 <= k < |r.value| ==>
                   k * step + train + test <= |days|
                   && Keeps(r.value[k], simulate(days[k * step + train..k * step + train + test], initial), test, initial)
    ensures r.Some? && ReportsItsEnd(simulate, initial) ==>
              forall k :: 0 <= k < |r.value| ==> Measured(r.value[k], initial)
  {
    hide WalkForward.Between, WalkForward.NumWindows, WindowFrom, Keeps, ReportsItsEnd, Measured;
    if |days| < train + test {
      return None;
    }
    var split := WalkForward.Split(days, train, test, step);
    if split.None? {
      return None;
    }
    var windows := split.value;
    var results: seq<Window> := [];
    for k := 0 to |windows|
      invariant |results| == k
      invariant forall j :: 0 <= j < k ==>
        j * step + train + test <= |days|
        && Keeps(results[j], simulate(days[j * step + train..j * step + train + test], initial), test, initial)
      invariant forall j :: 0 <= j < k && ReportsItsEnd(simulate, initial) ==> Measured(results[j], initial)
    {
      var selected := WalkForward.Between(days, windows[k].testStart, windows[k].testEnd);
      WalkForward.TestDatesSelectTheWindow(days, k * step, train, test);
      var o := simulate(selected, initial);
      if ReportsItsEnd(simulate, initial) {
        WindowIsMeasured(simulate, selected, initial);
      }
      WindowKeeps(o, |selected|, initial);
      results := results + [WindowFrom(o, |selected|, initial)];
    }
    r := Some(results);
  }

  // ---------------------------------------------------------------------------- telescoping

  /** Up to day k the equity does not move any more once it is at zero or below. */
  ghost predicate RestsUpTo(c: Curve, k: nat) {
    forall i :: 0 < i <= k && i < |c| && c[i - 1].1 <= 0.0 ==> c[i].1 == c[i - 1].1
  }

  ghost predicate RestsWhenBroke(c: Curve) {
    RestsUpTo(c, |c|)
  }

  ghost predicate AllRestWhenBroke(curves: seq<Curve>) {
    forall w :: 0 <= w < |curves| ==> RestsWhenBroke(curves[w])
  }

  ghost predicate NonNegative(c: Curve) {
    forall i :: 0 <= i < |c| ==> c[i].1 >= 0.0
  }

  ghost predicate AllNonNegative(curves: seq<Curve>) {
    forall w :: 0 <= w < |curves| ==> NonNegative(curves[w])
  }

  /** From a rescaled positive value one step lands on the next value, rescaled alike. */
  lemma StepScales(at: real, scale: real, prev: real, curr: real)
    requires prev > 0.0 && at == scale * prev
    ensures Compounded(at, StepReturn(prev, curr)) == scale * curr
  {
    var q := (curr - prev) / prev;
    QuotientTimes(curr - prev, prev);
    assert scale * prev * (1.0 + q) == scale * (prev + q * prev);
  }

  /** From a value that is not positive it stays put. */
  lemma StepRests(at: real, prev: real, curr: real)
    requires prev <= 0.0
    ensures Compounded(at, StepReturn(prev, curr)) == at
  {
  }

  /** Continuing along a curve reproduces it, rescaled to start at the base's last value. */
  lemma {:induction false} ContinueRescales(base: Curve, c: Curve, k: nat, scale: real, i: nat)
    requires base != [] && i <= k < |c| && RestsUpTo(c, k) && LastOf(base) == scale * c[0].1
    ensures Continue(base, c, k)[|base| - 1 + i].1 == scale * c[i].1
  {
    hide Compounded, StepReturn;
    if i < k {
      ContinueRescales(base, c, k - 1, scale, i);
    } else if k > 0 {
      ContinueRescales(base, c, k - 1, scale, k - 1);
      var at := LastOf(Continue(base, c, k - 1));
      if c[k - 1].1 > 0.0 {
        StepScales(at, scale, c[k - 1].1, c[k].1);
      } else {
        StepRests(at, c[k - 1].1, c[k].1);
      }
    }
  }

  lemma {:induction false} ContinueKeepsBase(base: Curve, c: Curve, k: nat)
    requires base != [] && k < |c|
    ensures Continue(base, c, k)[..|base|] == base
  {
    if k == 0 {
    } else {
      ContinueKeepsBase(base, c, k - 1);
      assert Continue(base, c, k)[..|base|] == Continue(base, c, k - 1)[..|base|];
    }
  }

  /** A window's growth factor, from the equity it restarts at to its last day. */
  function Growth(c: Curve, initial: real): real
    requires initial != 0.0
  {
    if c == [] then 1.0 else LastOf(c) / initial
  }

  function GrowthOfAll(curves: seq<Curve>, initial: real): real
    requires initial != 0.0
  {
    if curves == [] then 1.0
    else GrowthOfAll(curves[..|curves| - 1], initial) * Growth(curves[|curves| - 1], initial)
  }

  lemma SeededEndsWith(c: Curve, initial: real, i: nat)
    requires i < |c|
    ensures var seeded := Seeded(c, initial); |seeded| >= |c| && seeded[|seeded| - |c| + i] == c[i]
  {
  }

  lemma PrependPositive(first: (int, real), c: Curve)
    requires first.1 > 0.0
    ensures RestsWhenBroke([first] + c) <==> RestsWhenBroke(c)
  {
    var longer := [first] + c;
    assert forall i :: 0 <= i < |c| ==> longer[i + 1] == c[i];
    assert RestsWhenBroke(c) ==> forall i :: 1 < i < |longer| && longer[i - 1].1 <= 0.0 ==> longer[i].1 == longer[i - 1].1;
    if RestsWhenBroke(longer) {
      forall i | 0 < i < |c| && c[i - 1].1 <= 0.0 ensures c[i].1 == c[i - 1].1 {
        assert longer[i + 1] == c[i] && longer[i] == c[i - 1];
      }
    }
  }

  /** The seed is positive, so it does not matter to resting, nor to being non-negative. */
  lemma SeedChangesNothing(c: Curve, initial: real)
    requires c != [] && initial > 0.0
    ensures RestsWhenBroke(Seeded(c, initial)) <==> RestsWhenBroke(c)
    ensures NonNegative(c) ==> NonNegative(Seeded(c, initial))
  {
    if c[0].1 != initial {
      PrependPositive((c[0].0, initial), c);
    }
  }

  /** Stitching the last window continues a curve that ends at the equity running before it. */
  lemma StitchIsContinue(curves: seq<Curve>, initial: real) returns (base: Curve)
    requires curves != [] && curves[|curves| - 1] != []
    ensures var seeded := Seeded(curves[|curves| - 1], initial);
      && base != [] && LastOf(base) == Running(curves[..|curves| - 1], initial)
      && (if Stitch(curves[..|curves| - 1], initial) == [] then |base| == 1
          else base == Stitch(curves[..|curves| - 1], initial))
      && Stitch(curves, initial) == Continue(base, seeded, |seeded| - 1)
  {
    hide Continue;
    var before, seeded := Stitch(curves[..|curves| - 1], initial), Seeded(curves[|curves| - 1], initial);
    base := if before == [] then [(seeded[0].0, initial)] else before;
  }

  lemma RestsToTheEnd(c: Curve)
    requires c != []
    ensures RestsUpTo(c, |c| - 1) <==> RestsWhenBroke(c)
  {
  }

  /** Each day of the last window reappears at the end of the stitched curve, rescaled. */
  lemma WindowRescaled(curves: seq<Curve>, initial: real, scale: real, i: nat)
    requires curves != [] && initial > 0.0 && RestsWhenBroke(curves[|curves| - 1]) && i < |curves[|curves| - 1]|
    requires scale * initial == Running(curves[..|curves| - 1], initial)
    ensures var whole, c := Stitch(curves, initial), curves[|curves| - 1];
      |whole| >= |c| && whole[|whole| - |c| + i].1 == scale * c[i].1
  {
    hide Continue, Stitch, Running, RestsWhenBroke;
    var seeded, c := Seeded(curves[|curves| - 1], initial), curves[|curves| - 1];
    var base := StitchIsContinue(curves, initial);
    SeedChangesNothing(c, initial);
    RestsToTheEnd(seeded);
    ContinueRescales(base, seeded, |seeded| - 1, scale, |seeded| - |c| + i);
    SeededEndsWith(c, initial, i);
  }

  /** The running equity is a multiple of the starting one. */
  lemma SomeScale(running: real, initial: real) returns (scale: real)
    requires initial > 0.0
    ensures scale == running / initial && scale * initial == running
  {
    scale := running / initial;
    QuotientTimes(running, initial);
  }

  lemma ScaledAlike(scale: real, x: real, y: real)
    requires scale != 0.0 && scale * x == scale * y
    ensures x == y
  {
  }

  /** The end of the stitched curve is the last window, rescaled day by day. */
  ghost predicate TracksLastWindow(curves: seq<Curve>, initial: real, scale: real)
    requires curves != []
  {
    var whole, c := Stitch(curves, initial), curves[|curves| - 1];
    |whole| >= |c| && forall i :: 0 <= i < |c| ==> whole[|whole| - |c| + i].1 == scale * c[i].1
  }

  lemma {:induction false} ContinueMoves(base: Curve, c: Curve, k: nat, i: nat)
    requires base != [] && 0 < i <= k < |c|
    ensures var whole := Continue(base, c, k);
      whole[|base| - 1 + i].1 == Compounded(whole[|base| - 2 + i].1, StepReturn(c[i - 1].1, c[i].1))
  {
    hide Compounded, StepReturn;
    if i < k {
      ContinueMoves(base, c, k - 1, i);
    }
  }

  /** Where `at` goes when another curve moves from `prev` to `curr`: by the same ratio off a positive value, nowhere else. */
  function MovedBy(at: real, prev: real, curr: real): real {
    if prev > 0.0 then at * (1.0 + (curr - prev) / prev) else at
  }

  /** Day n moves by the same ratio as the window's day did, off a positive value, and else rests. */
  ghost predicate DayAppended(whole: Curve, n: int, prev: real, day: (int, real)) {
    && 0 < n < |whole| && whole[n].0 == day.0
    && whole[n].1 == MovedBy(whole[n - 1].1, prev, day.1)
  }

  /** A window joins the curve day by day under its own dates, seeded if its first day had already moved. */
  ghost predicate WindowAppended(before: Curve, c: Curve, initial: real, whole: Curve)
    requires c != []
  {
    var base := if before == [] then [(c[0].0, initial)] else before;
    && |whole| == |base| + (if c[0].1 == initial then |c| - 1 else |c|) && whole[..|base|] == base
    && (c[0].1 != initial ==> DayAppended(whole, |whole| - |c|, initial, c[0]))
    && (forall i :: 0 < i < |c| ==> DayAppended(whole, |whole| - |c| + i, c[i - 1].1, c[i]))
  }

  lemma MoveIs(at: real, prev: real, curr: real)
    ensures Compounded(at, StepReturn(prev, curr)) == MovedBy(at, prev, curr)
  {
  }

  lemma LastIsAppended(before: Curve, prev: real, day: (int, real))
    requires before != []
    ensures DayAppended(before + [(day.0, Compounded(LastOf(before), StepReturn(prev, day.1)))], |before|, prev, day)
  {
    hide MovedBy, Compounded, StepReturn;
    MoveIs(LastOf(before), prev, day.1);
  }

  lemma StillAppended(whole: Curve, n: int, prev: real, day: (int, real), next: (int, real))
    requires DayAppended(whole, n, prev, day)
    ensures DayAppended(whole + [next], n, prev, day)
  {
    hide MovedBy;
  }

  lemma {:induction false} StepIsAppended(base: Curve, c: Curve, k: nat, i: nat)
    requires base != [] && 0 < i <= k < |c|
    ensures DayAppended(Continue(base, c, k), |base| - 1 + i, c[i - 1].1, c[i])
  {
    hide Compounded, StepReturn, DayAppended;
    var before := Continue(base, c, k - 1);
    var next := (c[k].0, Compounded(LastOf(before), StepReturn(c[k - 1].1, c[k].1)));
    assert Continue(base, c, k) == before + [next];
    if i < k {
      StepIsAppended(base, c, k - 1, i);
      StillAppended(before, |base| - 1 + i, c[i - 1].1, c[i], next);
    } else {
      LastIsAppended(before, c[k - 1].1, c[k]);
    }
  }

  lemma SeededIsAppended(base: Curve, c: Curve, initial: real)
    requires base != [] && c != []
    ensures var seeded := Seeded(c, initial);
      var whole := Continue(base, seeded, |seeded| - 1);
      && |whole| == |base| + (if c[0].1 == initial then |c| - 1 else |c|) && whole[..|base|] == base
      && (c[0].1 != initial ==> DayAppended(whole, |whole| - |c|, initial, c[0]))
      && (forall i :: 0 < i < |c| ==> DayAppended(whole, |whole| - |c| + i, c[i - 1].1, c[i]))
  {
    hide Continue, DayAppended;
    var seeded := Seeded(c, initial);
    var k, whole := |seeded| - 1, Continue(base, seeded, |seeded| - 1);
    ContinueKeepsBase(base, seeded, k);
    if c[0].1 == initial {
      forall i | 0 < i < |c| ensures DayAppended(whole, |whole| - |c| + i, c[i - 1].1, c[i]) {
        StepIsAppended(base, seeded, k, i);
      }
    } else {
      StepIsAppended(base, seeded, k, 1);
      assert seeded == [(c[0].0, initial)] + c;
      forall i | 0 < i < |c| ensures DayAppended(whole, |whole| - |c| + i, c[i - 1].1, c[i]) {
        StepIsAppended(base, seeded, k, i + 1);
      }
    }
  }

  /** Stitching one more window. */
  lemma WindowIsAppended(curves: seq<Curve>, initial: real)
    requires curves != [] && curves[|curves| - 1] != []
    ensures WindowAppended(Stitch(curves[..|curves| - 1], initial), curves[|curves| - 1], initial, Stitch(curves, initial))
  {
    hide Continue, DayAppended;
    var before, c := Stitch(curves[..|curves| - 1], initial), curves[|curves| - 1];
    SeededIsAppended(if before == [] then [(c[0].0, initial)] else before, c, initial);
  }

  /** The stitched curve rests where the window is broke. */
  lemma StitchRests(curves: seq<Curve>, initial: real, i: nat)
    requires curves != [] && 0 < i < |curves[|curves| - 1]| && curves[|curves| - 1][i - 1].1 <= 0.0
    ensures var whole, c := Stitch(curves, initial), curves[|curves| - 1];
      |whole| >= |c| && whole[|whole| - |c| + i].1 == whole[|whole| - |c| + (i - 1)].1
  {
    hide Continue, Stitch, Running, Compounded, StepReturn, Seeded;
    var seeded, c := Seeded(curves[|curves| - 1], initial), curves[|curves| - 1];
    var base := StitchIsContinue(curves, initial);
    var extra := |seeded| - |c|;
    SeededEndsWith(c, initial, i);
    SeededEndsWith(c, initial, i - 1);
    ContinueMoves(base, seeded, |seeded| - 1, extra + i);
    StepRests(Stitch(curves, initial)[|base| - 2 + extra + i].1, c[i - 1].1, c[i].1);
  }

  /**
   Whatever the signs: as long as there is running equity to rescale by, the stitched curve
   follows the window on every day exactly when the window rests once it is broke.
   */
  lemma TracksIffRests(curves: seq<Curve>, initial: real, scale: real)
    requires curves != [] && initial > 0.0
    requires scale != 0.0 && scale * initial == Running(curves[..|curves| - 1], initial)
    ensures TracksLastWindow(curves, initial, scale) <==> RestsWhenBroke(curves[|curves| - 1])
  {
    hide Stitch, Running;
    var c, whole := curves[|curves| - 1], Stitch(curves, initial);
    if RestsWhenBroke(c) {
      if c != [] {
        WindowRescaled(curves, initial, scale, 0);
      }
      forall i | 0 <= i < |c| ensures whole[|whole| - |c| + i].1 == scale * c[i].1 {
        WindowRescaled(curves, initial, scale, i);
      }
    }
    if TracksLastWindow(curves, initial, scale) {
      forall i | 0 < i < |c| && c[i - 1].1 <= 0.0 ensures c[i].1 == c[i - 1].1 {
        StitchRests(curves, initial, i);
        assert whole[|whole| - |c| + i].1 == scale * c[i].1;
        assert whole[|whole| - |c| + (i - 1)].1 == scale * c[i - 1].1;
        ScaledAlike(scale, c[i].1, c[i - 1].1);
      }
    }
  }

  lemma EmptyCurveIsPassedOver(curves: seq<Curve>, initial: real)
    requires curves != [] && curves[|curves| - 1] == []
    ensures Running(curves, initial) == Running(curves[..|curves| - 1], initial)
  {
  }

  lemma LastRescaled(curves: seq<Curve>, initial: real, scale: real)
    requires curves != [] && initial > 0.0 && RestsWhenBroke(curves[|curves| - 1]) && curves[|curves| - 1] != []
    requires scale == Running(curves[..|curves| - 1], initial) / initial
    ensures Running(curves, initial) == scale * LastOf(curves[|curves| - 1])
  {
    hide Stitch, Continue;
    var c := curves[|curves| - 1];
    QuotientTimes(Running(curves[..|curves| - 1], initial), initial);
    WindowRescaled(curves, initial, scale, |c| - 1);
  }

  /** One more window multiplies the running equity by its growth. */
  lemma WindowMultiplies(curves: seq<Curve>, initial: real)
    requires curves != [] && initial > 0.0 && RestsWhenBroke(curves[|curves| - 1])
    ensures Running(curves, initial)
         == Running(curves[..|curves| - 1], initial) * Growth(curves[|curves| - 1], initial)
  {
    hide Stitch, Running;
    var front, c := curves[..|curves| - 1], curves[|curves| - 1];
    if c == [] {
      EmptyCurveIsPassedOver(curves, initial);
    } else {
      LastRescaled(curves, initial, Running(front, initial) / initial);
    }
  }

  lemma NothingRuns(initial: real)
    ensures Running([], initial) == initial
  {
  }

  /**
   Telescoping.  The stitched curve ends at the starting equity times the product of every
   window's growth, whether or not a window needed its day-0 seed, whenever no window moves
   after going broke; in particular for positive equities.
   */
  lemma {:induction false} StitchedCurveTelescopes(curves: seq<Curve>, initial: real)
    requires initial > 0.0 && AllRestWhenBroke(curves)
    ensures Running(curves, initial) == initial * GrowthOfAll(curves, initial)
  {
    hide Stitch, Growth, RestsWhenBroke;
    if curves == [] {
      NothingRuns(initial);
    } else {
      var front, growth := curves[..|curves| - 1], Growth(curves[|curves| - 1], initial);
      StitchedCurveTelescopes(front, initial);
      WindowMultiplies(curves, initial);
    }
  }

  lemma ZeroCompounds(r: real)
    ensures Compounded(0.0, r) == 0.0
  {
  }

  /** Along a non-negative curve that moves after going broke the continuation is stuck at zero. */
  lemma {:induction false} ContinueSticksAtZero(base: Curve, c: Curve, k: nat, scale: real)
    requires base != [] && k < |c| && LastOf(base) == scale * c[0].1 && NonNegative(c) && !RestsUpTo(c, k)
    ensures LastOf(Continue(base, c, k)) == 0.0
  {
    hide Compounded, StepReturn;
    if k == 0 {
    } else {
      var at := LastOf(Continue(base, c, k - 1));
      if RestsUpTo(c, k - 1) {
        ContinueRescales(base, c, k - 1, scale, k - 1);
        StepRests(at, c[k - 1].1, c[k].1);
      } else {
        ContinueSticksAtZero(base, c, k - 1, scale);
        ZeroCompounds(StepReturn(c[k - 1].1, c[k].1));
      }
    }
  }

  lemma EmptyRests(c: Curve)
    ensures c == [] ==> RestsWhenBroke(c)
  {
  }

  lemma WindowBreaks(curves: seq<Curve>, initial: real)
    requires curves != [] && initial > 0.0 && NonNegative(curves[|curves| - 1]) && !RestsWhenBroke(curves[|curves| - 1])
    ensures Running(curves, initial) == 0.0
  {
    hide Stitch, Continue, RestsWhenBroke, NonNegative;
    var c := curves[|curves| - 1];
    assert c != [] by { EmptyRests(c); }
    var seeded := Seeded(c, initial);
    var scale := SomeScale(Running(curves[..|curves| - 1], initial), initial);
    var base := StitchIsContinue(curves, initial);
    SeedChangesNothing(c, initial);
    RestsToTheEnd(seeded);
    ContinueSticksAtZero(base, seeded, |seeded| - 1, scale);
  }

  lemma {:induction false} StuckWindowStays(curves: seq<Curve>, initial: real)
    requires curves != [] && initial > 0.0 && Running(curves[..|curves| - 1], initial) == 0.0
    requires NonNegative(curves[|curves| - 1])
    ensures Running(curves, initial) == 0.0
  {
    hide Running;
    if RestsWhenBroke(curves[|curves| - 1]) {
      WindowMultiplies(curves, initial);
    } else {
      WindowBreaks(curves, initial);
    }
  }

  /** Where non-negative windows end: at the telescoped value, or stuck at zero. */
  lemma {:induction false} StitchedEnd(curves: seq<Curve>, initial: real)
    requires initial > 0.0 && AllNonNegative(curves)
    ensures Running(curves, initial) == if AllRestWhenBroke(curves) then initial * GrowthOfAll(curves, initial) else 0.0
  {
    hide Running, GrowthOfAll, RestsWhenBroke, NonNegative;
    if AllRestWhenBroke(curves) {
      StitchedCurveTelescopes(curves, initial);
    } else {
      var front := curves[..|curves| - 1];
      StitchedEnd(front, initial);
      if AllRestWhenBroke(front) {
        assert curves == front + [curves[|curves| - 1]];
        WindowBreaks(curves, initial);
      } else {
        StuckWindowStays(curves, initial);
      }
    }
  }

  ghost predicate EndsAtZero(c: Curve) {
    c != [] && LastOf(c) == 0.0
  }

  lemma GrowthIsZeroIff(c: Curve, initial: real)
    requires initial > 0.0
    ensures Growth(c, initial) == 0.0 <==> EndsAtZero(c)
  {
    if c != [] {
      QuotientTimes(LastOf(c), initial);
    }
  }

  lemma {:induction false} GrowthVanishesIff(curves: seq<Curve>, initial: real)
    requires initial > 0.0
    ensures GrowthOfAll(curves, initial) == 0.0 <==> exists w :: 0 <= w < |curves| && EndsAtZero(curves[w])
  {
    hide EndsAtZero;
    if curves == [] {
    } else {
      var front, c := curves[..|curves| - 1], curves[|curves| - 1];
      GrowthVanishesIff(front, initial);
      GrowthIsZeroIff(c, initial);
      if exists w :: 0 <= w < |front| && EndsAtZero(front[w]) {
        var w :| 0 <= w < |front| && EndsAtZero(front[w]);
        assert EndsAtZero(curves[w]);
      }
    }
  }

  /**
   Without negative equities the stitched curve telescopes exactly when no window moves after
   going broke, or some window ends at zero.
   */
  lemma TelescopesIff(curves: seq<Curve>, initial: real)
    requires initial > 0.0 && AllNonNegative(curves)
    ensures Running(curves, initial) == initial * GrowthOfAll(curves, initial)
       <==> AllRestWhenBroke(curves) || exists w :: 0 <= w < |curves| && EndsAtZero(curves[w])
  {
    hide Running, GrowthOfAll, RestsWhenBroke, NonNegative, EndsAtZero;
    StitchedEnd(curves, initial);
    GrowthVanishesIff(curves, initial);
  }

  /** A window that recovers from zero breaks it: the stitched curve never recovers. */
  lemma ZeroEquityBreaksTelescoping()
    ensures var c: Curve := [(0, 100.0), (1, 0.0), (2, 50.0)];
      Running([c], 100.0) == 0.0 && GrowthOfAll([c], 100.0) == 0.5
  {
    var c: Curve := [(0, 100.0), (1, 0.0), (2, 50.0)];
    assert [c][..0] == [];
    assert c[1].1 != c[2].1;
    WindowBreaks([c], 100.0);
  }

  lemma StitchOnlyGrows(curves: seq<Curve>, initial: real)
    requires curves != []
    ensures Stitch(curves[..|curves| - 1], initial) <= Stitch(curves, initial)
  {
    hide Continue, Seeded;
    var before, c := Stitch(curves[..|curves| - 1], initial), curves[|curves| - 1];
    if c != [] && before != [] {
      ContinueKeepsBase(before, Seeded(c, initial), |Seeded(c, initial)| - 1);
    }
  }

  lemma {:induction false} ReturnsAlign(curves: seq<Curve>, initial: real)
    ensures |AllReturns(curves, initial)| == if Stitch(curves, initial) == [] then 0 else |Stitch(curves, initial)| - 1
  {
    hide Continue, StepReturns;
    if curves == [] {
    } else {
      ReturnsAlign(curves[..|curves| - 1], initial);
    }
  }

  lemma ReturnOfLast(curves: seq<Curve>, initial: real, i: nat)
    requires curves != [] && curves[|curves| - 1] != [] && 0 < i < |Seeded(curves[|curves| - 1], initial)|
    ensures var rs, seeded := AllReturns(curves, initial), Seeded(curves[|curves| - 1], initial);
      var before := |AllReturns(curves[..|curves| - 1], initial)|;
      before + i - 1 < |rs| && rs[before + i - 1] == StepReturn(seeded[i - 1].1, seeded[i].1)
  {
    hide Seeded, StepReturn;
  }

  lemma EmptyStitchesNothing(curves: seq<Curve>, initial: real)
    requires curves != []
    ensures curves[|curves| - 1] == [] ==> Stitch(curves, initial) == Stitch(curves[..|curves| - 1], initial)
  {
  }

  /** The return stream rebuilds the curve: every value is the one before it, compounded by its return. */
  lemma {:induction false} ReturnsRebuildCurve(curves: seq<Curve>, initial: real, k: nat)
    requires 0 < k < |Stitch(curves, initial)|
    ensures var whole, rs := Stitch(curves, initial), AllReturns(curves, initial);
      |rs| == |whole| - 1 && whole[k].1 == Compounded(whole[k - 1].1, rs[k - 1])
  {
    hide Stitch, Continue, Running, Compounded, StepReturn, StepReturns, Seeded;
    ReturnsAlign(curves, initial);
    assert curves != [];
    var front, c := curves[..|curves| - 1], curves[|curves| - 1];
    ReturnsAlign(front, initial);
    StitchOnlyGrows(curves, initial);
    if k < |Stitch(front, initial)| {
      ReturnsRebuildCurve(front, initial, k);
    } else {
      EmptyStitchesNothing(curves, initial);
      var seeded := Seeded(c, initial);
      var base := StitchIsContinue(curves, initial);
      var i := k + 1 - |base|;
      ContinueMoves(base, seeded, |seeded| - 1, i);
      ReturnOfLast(curves, initial, i);
    }
  }

  // ------------------------------------------------------------------------- per-window returns

  ghost predicate PositiveBefore(c: Curve, k: nat) {
    forall i :: 0 <= i < k && i < |c| ==> c[i].1 > 0.0
  }

  /** Day-over-day returns; a day after a non-positive value has none. */
  function DailyReturns(c: Curve): seq<real> {
    if |c| < 2 then []
    else
      var prev, curr := c[|c| - 2].1, c[|c| - 1].1;
      DailyReturns(c[..|c| - 1]) + (if prev > 0.0 then [(curr - prev) / prev] else [])
  }

  method ComputeDailyReturns(c: Curve) returns (rs: seq<real>)
    ensures rs == DailyReturns(c)
  {
    rs := [];
    if |c| < 2 {
      return;
    }
    for i := 1 to |c|
      invariant rs == DailyReturns(c[..i])
    {
      assert c[..i + 1][..i] == c[..i];
      var prev, curr := c[i - 1].1, c[i].1;
      if prev > 0.0 {
        rs := rs + [(curr - prev) / prev];
      }
    }
    assert c[..|c|] == c;
  }

  /** The change of a step, over the value it starts from. */
  function Change(prev: real, curr: real): real
    requires prev > 0.0
  {
    (curr - prev) / prev
  }

  /** The returns are, in order, those of the steps at the places `at`. */
  ghost predicate ReturnsAt(rs: seq<real>, c: Curve, at: seq<nat>) {
    && SortedTimes.StrictlyAscending(at) && |at| == |rs|
    && forall i :: 0 <= i < |at| ==>
         at[i] + 1 < |c| && c[at[i]].1 > 0.0 && rs[i] == Change(c[at[i]].1, c[at[i] + 1].1)
  }

  ghost predicate ReturnsExactlyAt(rs: seq<real>, c: Curve, at: seq<nat>) {
    && ReturnsAt(rs, c, at)
    && forall j: nat :: j in at <==> j + 1 < |c| && c[j].1 > 0.0
  }

  lemma OneMoreReturn(c: Curve, rs: seq<real>, at: seq<nat>)
    requires |c| >= 2 && ReturnsExactlyAt(rs, c[..|c| - 1], at)
    ensures var n := |c| - 2;
      if c[n].1 > 0.0 then ReturnsExactlyAt(rs + [Change(c[n].1, c[n + 1].1)], c, at + [n])
      else ReturnsExactlyAt(rs, c, at)
  {
    hide Change;
    var n: nat := |c| - 2;
    assert forall j: nat :: j <= n ==> c[j] == c[..n + 1][j];
    if c[n].1 > 0.0 {
      assert forall x :: x in SortedTimes.SetOf(at) ==> x < n;
      SortedTimes.AscendingGrows(at, n);
    }
  }

  lemma DailyReturnsOfLonger(c: Curve)
    requires |c| >= 2
    ensures var n := |c| - 2;
      DailyReturns(c) == DailyReturns(c[..n + 1]) + if c[n].1 > 0.0 then [Change(c[n].1, c[n + 1].1)] else []
  {
  }

  lemma NothingReturned(c: Curve)
    requires |c| < 2
    ensures ReturnsExactlyAt([], c, [])
  {
    hide Change;
    var rs: seq<real>, at: seq<nat> := [], [];
    assert ReturnsAt(rs, c, at);
    assert forall j: nat :: j !in at;
    assert ReturnsExactlyAt(rs, c, at);
  }

  /** One return for every step off a positive value, in order: the change over that value. */
  lemma {:induction false} ReturnsOfPositiveDays(c: Curve) returns (at: seq<nat>)
    ensures ReturnsExactlyAt(DailyReturns(c), c, at)
  {
    hide ReturnsExactlyAt, Change;
    if |c| < 2 {
      at := [];
      NothingReturned(c);
      assert DailyReturns(c) == [];
    } else {
      var n: nat := |c| - 2;
      var before := ReturnsOfPositiveDays(c[..n + 1]);
      OneMoreReturn(c, DailyReturns(c[..n + 1]), before);
      DailyReturnsOfLonger(c);
      at := if c[n].1 > 0.0 then before + [n] else before;
      assert DailyReturns(c[..n + 1]) + [] == DailyReturns(c[..n + 1]);
    }
  }

  /** There is one return per step, none dropped, exactly when every day but the last is positive. */
  lemma {:induction false} OneReturnPerStepIff(c: Curve)
    requires c != []
    ensures |DailyReturns(c)| <= |c| - 1
    ensures |DailyReturns(c)| == |c| - 1 <==> PositiveBefore(c, |c| - 1)
  {
    if |c| >= 2 {
      OneReturnPerStepIff(c[..|c| - 1]);
    }
  }

  /** Percentage return of a window that restarts at `initial`. */
  function ReturnPct(c: Curve, initial: real): real
    requires initial != 0.0
  {
    PctOver(if c == [] then initial else LastOf(c), initial)
  }

  function Factor(returnsPct: seq<real>): real {
    if returnsPct == [] then 1.0
    else Factor(returnsPct[..|returnsPct| - 1]) * (1.0 + returnsPct[|returnsPct| - 1] / 100.0)
  }

  /** Percentage returns compounded geometrically. */
  function Compound(returnsPct: seq<real>): real {
    (Factor(returnsPct) - 1.0) * 100.0
  }

  method ComputeCompound(returnsPct: seq<real>) returns (r: real)
    ensures r == Compound(returnsPct)
  {
    var factor := 1.0;
    for i := 0 to |returnsPct|
      invariant factor == Factor(returnsPct[..i])
    {
      assert returnsPct[..i + 1][..i] == returnsPct[..i];
      factor := factor * (1.0 + returnsPct[i] / 100.0);
    }
    assert returnsPct[..|returnsPct|] == returnsPct;
    r := (factor - 1.0) * 100.0;
  }

  function ReturnsPct(curves: seq<Curve>, initial: real): seq<real>
    requires initial != 0.0
  {
    seq(|curves|, i requires 0 <= i < |curves| => ReturnPct(curves[i], initial))
  }

  lemma ReturnIsGrowth(c: Curve, initial: real)
    requires initial != 0.0
    ensures 1.0 + ReturnPct(c, initial) / 100.0 == Growth(c, initial)
  {
    var last := if c == [] then initial else LastOf(c);
    var q := (last - initial) / initial;
    QuotientTimes(last - initial, initial);
    assert q * 100.0 / 100.0 == q;
    SameQuotient(last, initial, 1.0 + q);
  }

  lemma {:induction false} FactorIsGrowth(curves: seq<Curve>, initial: real)
    requires initial != 0.0
    ensures Factor(ReturnsPct(curves, initial)) == GrowthOfAll(curves, initial)
  {
    if curves == [] {
    } else {
      var front := curves[..|curves| - 1];
      FactorIsGrowth(front, initial);
      assert ReturnsPct(curves, initial)[..|curves| - 1] == ReturnsPct(front, initial);
      ReturnIsGrowth(curves[|curves| - 1], initial);
    }
  }

  function ReturnsOf(windows: seq<Window>): seq<real> {
    seq(|windows|, i requires 0 <= i < |windows| => windows[i].totalReturnPct)
  }

  lemma ReturnMatches(running: real, initial: real, g: real)
    requires initial > 0.0
    ensures (running - initial) / initial * 100.0 == (g - 1.0) * 100.0 <==> running == initial * g
  {
    QuotientTimes(running - initial, initial);
    if running == initial * g {
      SameQuotient(running - initial, initial, g - 1.0);
    }
  }

  /** The aggregate return is the compounded per-window returns, exactly when the curve telescopes. */
  lemma AggregateReturnIsCompound(windows: seq<Window>, initial: real)
    requires initial > 0.0 && forall i :: 0 <= i < |windows| ==> Measured(windows[i], initial)
    ensures var curves := CurvesOf(windows);
      PctOver(Running(curves, initial), initial) == Compound(ReturnsOf(windows))
      <==> Running(curves, initial) == initial * GrowthOfAll(curves, initial)
  {
    hide Running, Factor, GrowthOfAll;
    var curves := CurvesOf(windows);
    assert ReturnsOf(windows) == ReturnsPct(curves, initial);
    FactorIsGrowth(curves, initial);
    ReturnMatches(Running(curves, initial), initial, GrowthOfAll(curves, initial));
  }

  // ------------------------------------------------------------------------ drawdown dominates

  lemma StepStaysNonNegative(at: real, prev: real, curr: real)
    requires at >= 0.0 && curr >= 0.0
    ensures Compounded(at, StepReturn(prev, curr)) >= 0.0
  {
    if prev > 0.0 {
      QuotientTimes(at, prev);
      NonNegativeQuotient(at, prev);
      StepScales(at, at / prev, prev, curr);
      assert at / prev * curr >= 0.0;
    }
  }

  lemma {:induction false} ContinueStaysNonNegative(base: Curve, c: Curve, k: nat)
    requires base != [] && k < |c| && NonNegative(base) && NonNegative(c)
    ensures NonNegative(Continue(base, c, k))
  {
    hide Compounded, StepReturn;
    if k == 0 {
    } else {
      ContinueStaysNonNegative(base, c, k - 1);
      StepStaysNonNegative(LastOf(Continue(base, c, k - 1)), c[k - 1].1, c[k].1);
    }
  }

  lemma {:induction false} StitchStaysNonNegative(curves: seq<Curve>, initial: real)
    requires initial > 0.0 && AllNonNegative(curves)
    ensures NonNegative(Stitch(curves, initial))
  {
    if curves == [] {
    } else {
      var front, c := curves[..|curves| - 1], curves[|curves| - 1];
      StitchStaysNonNegative(front, initial);
      if c != [] {
        var before, seeded := Stitch(front, initial), Seeded(c, initial);
        var base := if before == [] then [(seeded[0].0, initial)] else before;
        SeedChangesNothing(c, initial);
        ContinueStaysNonNegative(base, seeded, |seeded| - 1);
      }
    }
  }

  lemma {:induction false} EarlierStitchIsPrefix(curves: seq<Curve>, initial: real, k: nat)
    requires k <= |curves|
    ensures Stitch(curves[..k], initial) <= Stitch(curves, initial)
  {
    hide Stitch;
    if k == |curves| {
      assert curves[..k] == curves;
    } else {
      EarlierStitchIsPrefix(curves[..|curves| - 1], initial, k);
      assert curves[..|curves| - 1][..k] == curves[..k];
      StitchOnlyGrows(curves, initial);
    }
  }

  /** The stitched curve starts at the starting equity. */
  lemma {:induction false} StitchStarts(curves: seq<Curve>, initial: real)
    requires Stitch(curves, initial) != []
    ensures Stitch(curves, initial)[0].1 == initial
  {
    hide Continue;
    var front, c := curves[..|curves| - 1], curves[|curves| - 1];
    if Stitch(front, initial) != [] {
      StitchStarts(front, initial);
      StitchOnlyGrows(curves, initial);
    } else {
      var seeded := Seeded(c, initial);
      var base := [(seeded[0].0, initial)];
      ContinueKeepsBase(base, seeded, |seeded| - 1);
      assert Stitch(curves, initial)[..1] == base;
    }
  }

  lemma FullDrop(a: real)
    requires a > 0.0
    ensures (a - 0.0) / a == 1.0
  {
    SameQuotient(a, a, 1.0);
  }

  lemma PartialDrop(a: real, b: real)
    requires a > 0.0 && b >= 0.0
    ensures (a - b) / a <= 1.0
  {
    assert (a - b) / a * a == a - b;
  }

  /** Losing everything is a drawdown of one, and without negative values there is none deeper. */
  lemma LosingAllIsDeepest(c: Curve, whole: Curve)
    requires NonNegative(c) && NonNegative(whole) && whole != [] && whole[0].1 > 0.0 && LastOf(whole) == 0.0
    ensures MaxDrawdown(c) <= MaxDrawdown(whole)
  {
    PairIsBounded(whole, 0, |whole| - 1);
    FullDrop(whole[0].1);
    if MaxDrawdown(c) > 0.0 {
      var i, j := SomePairAttains(c);
      PartialDrop(c[i].1, c[j].1);
    } else {
      NonNegativeDrawdown(whole);
    }
  }

  /** The last window's curve appears in the stitched curve, rescaled. */
  lemma LastWindowAppears(curves: seq<Curve>, initial: real) returns (at: nat, scale: real)
    requires curves != [] && initial > 0.0 && curves[|curves| - 1] != []
    requires Running(curves[..|curves| - 1], initial) > 0.0 && RestsWhenBroke(curves[|curves| - 1])
    ensures scale > 0.0 && Contains(Stitch(curves, initial), at, curves[|curves| - 1], scale)
  {
    hide Stitch, Running, RestsWhenBroke;
    var c, whole := curves[|curves| - 1], Stitch(curves, initial);
    var running := Running(curves[..|curves| - 1], initial);
    scale := SomeScale(running, initial);
    NonNegativeQuotient(running, initial);
    WindowRescaled(curves, initial, scale, 0);
    at := |whole| - |c|;
    forall i | 0 <= i < |c| ensures whole[at + i].1 == scale * c[i].1 {
      WindowRescaled(curves, initial, scale, i);
    }
  }

  lemma EmptyHasNoDrawdown()
    ensures MaxDrawdown([]) == 0.0
  {
  }

  /** Either the last window is in the stitched curve, rescaled, or everything is lost. */
  lemma LastWindowIsDominated(curves: seq<Curve>, initial: real)
    requires curves != [] && initial > 0.0 && AllNonNegative(curves)
    ensures MaxDrawdown(curves[|curves| - 1]) <= MaxDrawdown(Stitch(curves, initial))
  {
    hide Stitch, Continue, RestsWhenBroke, MaxDrawdown;
    var c, whole := curves[|curves| - 1], Stitch(curves, initial);
    var front := curves[..|curves| - 1];
    StitchStaysNonNegative(curves, initial);
    StitchStaysNonNegative(front, initial);
    if c == [] {
      NonNegativeDrawdown(whole);
      EmptyHasNoDrawdown();
    } else if Running(front, initial) > 0.0 && RestsWhenBroke(c) {
      var at, scale := LastWindowAppears(curves, initial);
      ContainingCurveIsDeeper(c, whole, at, scale);
    } else {
      if Running(front, initial) > 0.0 {
        WindowBreaks(curves, initial);
      } else {
        StuckWindowStays(curves, initial);
      }
      StitchStarts(curves, initial);
      LosingAllIsDeepest(c, whole);
    }
  }

  /** The aggregate drawdown is at least every single window's. */
  lemma AggregateDrawdownDominates(curves: seq<Curve>, initial: real, w: nat)
    requires initial > 0.0 && AllNonNegative(curves) && w < |curves|
    ensures MaxDrawdown(curves[w]) <= MaxDrawdown(Stitch(curves, initial))
  {
    hide Stitch, MaxDrawdown;
    var whole, upTo := Stitch(curves, initial), curves[..w + 1];
    LastWindowIsDominated(upTo, initial);
    StitchStaysNonNegative(curves, initial);
    EarlierStitchIsPrefix(curves, initial, w + 1);
    assert Contains(whole, 0, Stitch(upTo, initial), 1.0);
    ContainingCurveIsDeeper(Stitch(upTo, initial), whole, 0, 1.0);
  }

  // ------------------------------------------------------------------- single-window dependency

  function Without(rs: seq<real>, i: nat): seq<real>
    requires i < |rs|
  {
    rs[..i] + rs[i + 1..]
  }

  ghost predicate IsBest(rs: seq<real>, b: nat) {
    b < |rs| && (forall i :: 0 <= i < |rs| ==> rs[i] <= rs[b]) && (forall i :: 0 <= i < b ==> rs[i] < rs[b])
  }

  /** There is an edge, and dropping window b leaves none. */
  ghost predicate Raised(rs: seq<real>, b: nat)
    requires b < |rs|
  {
    Compound(rs) > 0.0 && Compound(Without(rs, b)) <= 0.0
  }

  /** Does dropping the best window, if there is an edge at all, leave none? */
  method SingleWindowDependency(rs: seq<real>) returns (flag: bool, best: nat)
    ensures |rs| < 2 ==> !flag
    ensures |rs| >= 2 ==> IsBest(rs, best) && (flag <==> Raised(rs, best))
  {
    flag, best := false, 0;
    if |rs| < 2 {
      return;
    }
    for i := 1 to |rs|
      invariant best < i && forall j :: 0 <= j < i ==> rs[j] <= rs[best]
      invariant forall j :: 0 <= j < best ==> rs[j] < rs[best]
    {
      if rs[i] > rs[best] {
        best := i;
      }
    }
    var aggregate := ComputeCompound(rs);
    if aggregate <= 0.0 {
      return;
    }
    var without := ComputeCompound(Without(rs, best));
    flag := without <= 0.0;
  }

  /** What the flag is meant to say: an edge that some one window carries alone. */
  ghost predicate DependsOnOneWindow(rs: seq<real>) {
    |rs| >= 2 && Compound(rs) > 0.0 && exists i :: 0 <= i < |rs| && Compound(Without(rs, i)) <= 0.0
  }

  lemma FactorStep(rs: seq<real>)
    ensures Factor([]) == 1.0
    ensures rs != [] ==> Factor(rs) == Factor(rs[..|rs| - 1]) * (1.0 + rs[|rs| - 1] / 100.0)
  {
  }

  lemma {:induction false} FactorOfSum(a: seq<real>, b: seq<real>)
    ensures Factor(a + b) == Factor(a) * Factor(b)
  {
    hide Factor;
    FactorStep(b);
    FactorStep(a + b);
    if b == [] {
      assert a + b == a;
    } else {
      var front := b[..|b| - 1];
      FactorOfSum(a, front);
      assert (a + b)[..|a + b| - 1] == a + front;
    }
  }

  lemma FactorUpTo(rs: seq<real>, i: nat)
    requires i < |rs|
    ensures Factor(rs[..i + 1]) == Factor(rs[..i]) * (1.0 + rs[i] / 100.0)
  {
    assert rs[..i + 1][..i] == rs[..i];
  }

  /** Taking a window out divides its factor out. */
  lemma WithoutTimesFactor(rs: seq<real>, i: nat)
    requires i < |rs|
    ensures Factor(Without(rs, i)) * (1.0 + rs[i] / 100.0) == Factor(rs)
  {
    hide Factor;
    FactorOfSum(rs[..i], rs[i + 1..]);
    FactorOfSum(rs[..i + 1], rs[i + 1..]);
    assert rs[..i + 1] + rs[i + 1..] == rs;
    FactorUpTo(rs, i);
  }

  lemma ProductAbove(y: real, g: real, p: real)
    requires y > 1.0 && g > 0.0 && y * g == p
    ensures p > g
  {
  }

  lemma ProductNegative(x: real, f: real)
    requires x > 0.0 && f < 0.0
    ensures x * f < 0.0
  {
  }

  lemma QuotientsOrdered(p: real, x: real, y: real, f: real, g: real)
    requires p > 1.0 && x * f == p && y * g == p && 0.0 <= f <= g && x <= 1.0
    ensures y <= 1.0
  {
    if y > 1.0 {
      ProductAbove(y, g, p);
    }
  }

  lemma NegativeQuotientBelowOne(p: real, x: real, f: real)
    requires p > 1.0 && x * f == p && f < 0.0
    ensures x <= 1.0
  {
    if x > 1.0 {
      ProductNegative(x, f);
    }
  }

  lemma CompoundSign(rs: seq<real>)
    ensures Compound(rs) > 0.0 <==> Factor(rs) > 1.0
  {
  }

  /** Dropping the best window hurts most, when no window has a negative factor. */
  lemma BestDecides(rs: seq<real>, b: nat, i: nat)
    requires IsBest(rs, b) && i < |rs| && Compound(rs) > 0.0 && 1.0 + rs[i] / 100.0 >= 0.0
    requires Compound(Without(rs, i)) <= 0.0
    ensures Compound(Without(rs, b)) <= 0.0
  {
    hide Factor, Compound, Without;
    WithoutTimesFactor(rs, i);
    WithoutTimesFactor(rs, b);
    CompoundSign(rs);
    CompoundSign(Without(rs, i));
    CompoundSign(Without(rs, b));
    QuotientsOrdered(Factor(rs), Factor(Without(rs, i)), Factor(Without(rs, b)), 1.0 + rs[i] / 100.0, 1.0 + rs[b] / 100.0);
  }

  lemma NegativeFactorDecides(rs: seq<real>, i: nat)
    requires i < |rs| && Compound(rs) > 0.0 && 1.0 + rs[i] / 100.0 < 0.0
    ensures Compound(Without(rs, i)) <= 0.0
  {
    hide Factor, Compound, Without;
    WithoutTimesFactor(rs, i);
    CompoundSign(rs);
    CompoundSign(Without(rs, i));
    NegativeQuotientBelowOne(Factor(rs), Factor(Without(rs, i)), 1.0 + rs[i] / 100.0);
  }

  lemma ProductOfSigns(f: real, g: real)
    requires f > 0.0 && g <= 0.0
    ensures f * g <= 0.0
  {
  }

  lemma QuotientAboveOneIff(p: real, f: real, g: real)
    requires p > 1.0 && f * g == p
    ensures f > 1.0 <==> 0.0 < g < p
  {
    if f > 1.0 {
      if g <= 0.0 {
        ProductOfSigns(f, g);
      } else {
        ProductAbove(f, g, p);
      }
    }
  }

  /** Dropping window b leaves an edge exactly when b made less than the whole and not a total loss. */
  lemma EdgeWithoutIff(rs: seq<real>, b: nat)
    requires b < |rs| && Compound(rs) > 0.0
    ensures Compound(Without(rs, b)) > 0.0 <==> -100.0 < rs[b] < Compound(rs)
  {
    hide Factor, Without;
    WithoutTimesFactor(rs, b);
    CompoundSign(rs);
    CompoundSign(Without(rs, b));
    QuotientAboveOneIff(Factor(rs), Factor(Without(rs, b)), 1.0 + rs[b] / 100.0);
  }

  /**
   The flag is wrong exactly when there is an edge, some window lost more than everything, and the
   best window made less than the whole; and then it is silent, never a false alarm.
   */
  lemma DependencyFlagExact(rs: seq<real>, b: nat)
    requires |rs| >= 2 && IsBest(rs, b)
    ensures Raised(rs, b) ==> DependsOnOneWindow(rs)
    ensures !(Raised(rs, b) <==> DependsOnOneWindow(rs))
       <==> Compound(rs) > 0.0 && (exists i :: 0 <= i < |rs| && rs[i] < -100.0) && -100.0 < rs[b] < Compound(rs)
  {
    hide Compound, Without;
    if Compound(rs) > 0.0 {
      EdgeWithoutIff(rs, b);
      if i: nat :| i < |rs| && rs[i] < -100.0 {
        NegativeFactorDecides(rs, i);
      } else if DependsOnOneWindow(rs) {
        var i :| 0 <= i < |rs| && Compound(Without(rs, i)) <= 0.0;
        BestDecides(rs, b, i);
      }
    }
  }

  /** Two windows up by half and two down by 190 percent: each loser carries the edge, and no flag. */
  lemma DependencyIsMissed()
    ensures var rs := [50.0, 50.0, -190.0, -190.0];
      IsBest(rs, 0) && DependsOnOneWindow(rs) && !Raised(rs, 0)
  {
    var rs := [50.0, 50.0, -190.0, -190.0];
    assert rs[..3] == [50.0, 50.0, -190.0] && rs[..3][..2] == [50.0, 50.0] && rs[..3][..2][..1] == [50.0];
    assert Factor([50.0]) == 1.5 by { assert [50.0][..0] == []; }
    assert Factor(rs[..3][..2]) == 2.25;
    assert Factor(rs[..3]) == -2.025;
    assert Factor(rs) == 1.8225;
    assert Compound(rs) == 82.25;
    assert rs[2] == -190.0;
    DependencyFlagExact(rs, 0);
  }
}
