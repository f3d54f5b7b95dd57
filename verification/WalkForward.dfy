/**
 Walk-forward windows: how a trading-day budget is cut into consecutive out-of-sample tests, and
 how the windows' equity curves are stitched into one.
 */
module WalkForward {
  import opened OrderedDict
  import opened Drawdown
  import opened SortedTimes

  // ---------------------------------------------------------------------------- window spans

  datatype Spans = TooFewDays | NoTrainingDays | Spans(train: nat, test: nat, step: nat)

  function ComputeWindowSpans(days: int, windows: nat): Spans {
    if days < 2 then TooFewDays
    else
      var quotient := days / (windows + 1);
      var test := if quotient < 1 then 1 else quotient;
      var train := days - windows * test;
      if train < 1 then NoTrainingDays else Spans(train, test, test)
  }

  lemma QuotientBounds(n: nat, d: nat)
    requires d > 0
    ensures d * (n / d) <= n < d * (n / d) + d
  {
  }

  lemma QuotientAtLeastOne(n: nat, d: nat)
    requires n >= d > 0
    ensures n / d >= 1
  {
  }

  /**
   For at least one window: success exactly with one day more than windows; then train >= test, and
   no longer test would leave that much to train on.
   */
  lemma SpansSucceedIff(days: int, windows: nat)
    requires windows >= 1
    ensures var s := ComputeWindowSpans(days, windows);
      && (s.Spans? <==> days >= windows + 1)
      && (s.TooFewDays? <==> days < 2)
      && (s.Spans? ==> s.train + windows * s.test == days && s.train >= s.test >= 1 && s.step == s.test)
      && (s.Spans? ==> days < (windows + 1) * (s.test + 1))
  {
    if days >= 2 {
      QuotientBounds(days, windows + 1);
      var q := days / (windows + 1);
      if days >= windows + 1 {
        QuotientAtLeastOne(days, windows + 1);
        assert (windows + 1) * q == windows * q + q;
      } else {
        assert q == 0;
        assert windows * 1 == windows;
      }
    }
  }

  // --------------------------------------------------------------------------- the splitter

  /** First and last day of the train and test range of one window. */
  datatype Window = Window(trainStart: int, trainEnd: int, testStart: int, testEnd: int)

  function WindowAt(days: seq<int>, i: nat, train: nat, test: nat): Window
    requires train >= 1 && test >= 1 && i + train + test <= |days|
  {
    Window(days[i], days[i + train - 1], days[i + train], days[i + train + test - 1])
  }

  /** A window that starts at day i trains on the next `train` days and tests on the `test` days after. */
  ghost predicate IsWindow(w: Window, days: seq<int>, i: nat, train: nat, test: nat)
    requires train >= 1 && test >= 1 && i + train + test <= |days|
  {
    && w.trainStart == days[i] && w.trainEnd == days[i + train - 1]
    && w.testStart == days[i + train] && w.testEnd == days[i + train + test - 1]
  }

  lemma WindowAtIs(days: seq<int>, i: nat, train: nat, test: nat)
    requires train >= 1 && test >= 1 && i + train + test <= |days|
    ensures IsWindow(WindowAt(days, i, train, test), days, i, train, test)
  {
  }

  /** How many windows of length `length` fit when sliding by `step`. */
  function NumWindows(n: nat, length: nat, step: nat): nat
    requires step >= 1
  {
    if n < length then 0 else (n - length) / step + 1
  }

  /** The k-th window fits exactly when k is below the count. */
  lemma CountFits(n: nat, length: nat, step: nat, k: nat)
    requires step >= 1
    ensures k < NumWindows(n, length, step) <==> k * step + length <= n
  {
    if n >= length {
      var q := (n - length) / step;
      QuotientBounds(n - length, step);
      if k <= q {
        assert k * step <= q * step;
      } else {
        assert k * step >= (q + 1) * step;
      }
    }
  }

  /** Slide by `step` while a whole window fits. */
  method Split(days: seq<int>, train: int, test: int, step: int) returns (r: Option<seq<Window>>)
    ensures r.None? <==> train < 1 || test < 1 || step < 1
    ensures r.Some? ==>
              && |r.value| == NumWindows(|days|, train + test, step)
              && forall k :: 0 <= k < |r.value| ==>
                   k * step + train + test <= |days| && IsWindow(r.value[k], days, k * step, train, test)
    ensures r.Some? ==> |r.value| * step + train + test > |days|
  {
    if train < 1 || test < 1 || step < 1 {
      return None;
    }
    hide NumWindows, IsWindow, WindowAt;
    var windows: seq<Window> := [];
    var i := 0;
    CountFits(|days|, train + test, step, 0);
    while i + train + test <= |days|
      invariant i == |windows| * step
      invariant |windows| <= NumWindows(|days|, train + test, step)
      invariant forall k :: 0 <= k < |windows| ==>
        k * step + train + test <= |days| && IsWindow(windows[k], days, k * step, train, test)
      decreases |days| - i
    {
      WindowAtIs(days, i, train, test);
      CountFits(|days|, train + test, step, |windows|);
      assert (|windows| + 1) * step == |windows| * step + step;
      windows := windows + [WindowAt(days, i, train, test)];
      i := i + step;
    }
    CountFits(|days|, train + test, step, |windows|);
    r := Some(windows);
  }

  /** Where window k's test range begins. */
  function TestStart(s: Spans, k: nat): nat
    requires s.Spans?
  {
    if k == 0 then s.train else TestStart(s, k - 1) + s.test
  }

  lemma {:induction false} TestStartIs(s: Spans, j: nat, k: nat)
    requires s.Spans? && j <= k
    ensures TestStart(s, k) == s.train + k * s.test
    ensures TestStart(s, j) <= TestStart(s, k)
  {
    if k == 0 {
    } else {
      TestStartIs(s, if j < k then j else k - 1, k - 1);
      assert k * s.test == (k - 1) * s.test + s.test;
    }
  }

  /** The test ranges of windows 0..k laid end to end. */
  function TestsUpTo(days: seq<int>, s: Spans, k: nat): seq<int>
    requires s.Spans? && TestStart(s, k) <= |days|
  {
    if k == 0 then [] else TestsUpTo(days, s, k - 1) + days[TestStart(s, k - 1)..TestStart(s, k)]
  }

  lemma {:induction false} TestsTile(days: seq<int>, s: Spans, k: nat)
    requires s.Spans? && TestStart(s, k) <= |days|
    ensures s.train <= TestStart(s, k) && TestsUpTo(days, s, k) == days[s.train..TestStart(s, k)]
  {
    if k == 0 {
    } else {
      TestsTile(days, s, k - 1);
      var cut := TestStart(s, k - 1);
      assert days[s.train..cut] + days[cut..cut + s.test] == days[s.train..cut + s.test];
    }
  }

  /** A budget of train + windows * test days holds exactly that many windows. */
  lemma ExactFit(train: nat, test: nat, windows: nat)
    requires windows >= 1 && test >= 1
    ensures NumWindows(train + windows * test, train + test, test) == windows
  {
    assert windows * test == (windows - 1) * test + test;
    CountFits(train + windows * test, train + test, test, windows - 1);
    CountFits(train + windows * test, train + test, test, windows);
  }

  /**
   A budget that admits W windows is cut into exactly W of them; window k trains on the `train`
   days from k*step on and tests the `test` days right after, and the last test ends the budget.
   */
  lemma ExactlyThatManyWindows(days: nat, windows: nat, k: nat)
    requires windows >= 1 && days >= windows + 1
    ensures var s := ComputeWindowSpans(days, windows);
      && s.Spans?
      && NumWindows(days, s.train + s.test, s.step) == windows
      && TestStart(s, k) == k * s.step + s.train
      && TestStart(s, windows) == days
  {
    SpansSucceedIff(days, windows);
    var s := ComputeWindowSpans(days, windows);
    TestStartIs(s, 0, k);
    TestStartIs(s, 0, windows);
    ExactFit(s.train, s.test, windows);
  }

  /** Laid end to end the tests are all days after the first train range, each once. */
  lemma WindowsTile(days: seq<int>, windows: nat)
    requires windows >= 1 && |days| >= windows + 1
    ensures var s := ComputeWindowSpans(|days|, windows);
      s.Spans? && TestStart(s, windows) == |days| && TestsUpTo(days, s, windows) == days[s.train..]
  {
    hide ComputeWindowSpans, NumWindows;
    ExactlyThatManyWindows(|days|, windows, windows);
    TestsTile(days, ComputeWindowSpans(|days|, windows), windows);
  }

  /** Days within [from, to], as the run loop filters them. */
  function Between(days: seq<int>, from: int, to: int): seq<int> {
    if days == [] then []
    else Between(days[..|days| - 1], from, to)
         + (if from <= days[|days| - 1] <= to then [days[|days| - 1]] else [])
  }

  /** Filtering by a window's test dates gives back exactly its slice. */
  lemma {:induction false} DateFilterIsSlice(days: seq<int>, lo: nat, hi: nat, from: int, to: int)
    requires StrictlyAscending(days) && lo <= hi <= |days|
    requires forall i :: 0 <= i < |days| ==> (from <= days[i] <= to <==> lo <= i < hi)
    ensures Between(days, from, to) == days[lo..hi]
  {
    if days == [] {
    } else {
      var front := days[..|days| - 1];
      if hi == |days| && lo < hi {
        DateFilterIsSlice(front, lo, hi - 1, from, to);
        assert days[lo..hi] == front[lo..hi - 1] + [days[|days| - 1]];
      } else if lo == |days| {
        DateFilterIsSlice(front, lo - 1, lo - 1, from, to);
      } else {
        DateFilterIsSlice(front, lo, hi, from, to);
        assert front[lo..hi] == days[lo..hi];
      }
    }
  }

  lemma TestDatesSelectTheWindow(days: seq<int>, i: nat, train: nat, test: nat)
    requires StrictlyAscending(days) && train >= 1 && test >= 1 && i + train + test <= |days|
    ensures var w := WindowAt(days, i, train, test);
      Between(days, w.testStart, w.testEnd) == days[i + train..i + train + test]
  {
    hide Between;
    var w := WindowAt(days, i, train, test);
    DateFilterIsSlice(days, i + train, i + train + test, w.testStart, w.testEnd);
  }
}
