/**
 Bar tables and the plain filters over them.  The replay loops use bisection and cursors
 instead; the filters are what those shortcuts are proved equal to.
 */
module BarTables {
  import opened KernelSpec

  type Table = map<Symbol, seq<Bar>>

  const SECONDS_PER_DAY := 86_400

  /** Calendar day of a timestamp given in UTC seconds. */
  function UtcDate(ts: int): int {
    ts / SECONDS_PER_DAY
  }

  /** A date covers the 86400 seconds from its midnight, before the epoch as after it. */
  lemma DateSpansItsDay(ts: int)
    ensures UtcDate(ts) * 86_400 <= ts < (UtcDate(ts) + 1) * 86_400
  {
  }

  /** Bars dated on or before `day`. */
  function UpTo(bars: seq<Bar>, day: int): seq<Bar> {
    if bars == [] then []
    else
      var last := bars[|bars| - 1];
      UpTo(bars[..|bars| - 1], day) + (if UtcDate(last.start) <= day then [last] else [])
  }

  /** The data provider's latest bar per symbol once its clock is set to `day`. */
  function Quotes(t: Table, day: int): map<Symbol, Bar> {
    map s | s in t && UpTo(t[s], day) != [] :: UpTo(t[s], day)[|UpTo(t[s], day)| - 1]
  }

  predicate Ascending(bars: seq<Bar>) {
    forall i, j :: 0 <= i < j < |bars| ==> bars[i].start <= bars[j].start
  }

  predicate AllAscending(t: Table) {
    forall s :: s in t ==> Ascending(t[s])
  }

  /** A later filter does not see what an earlier one already kept out. */
  lemma {:induction false} UpToTwice(bars: seq<Bar>, day: int, limit: int)
    requires day <= limit
    ensures UpTo(UpTo(bars, limit), day) == UpTo(bars, day)
  {
    if bars == [] {
    } else {
      var front, last := bars[..|bars| - 1], bars[|bars| - 1];
      UpToTwice(front, day, limit);
      if UtcDate(last.start) <= limit {
        assert UpTo(bars, limit)[..|UpTo(bars, limit)| - 1] == UpTo(front, limit);
      } else {
        assert UpTo(bars, limit) == UpTo(front, limit);
      }
    }
  }

  /** On ascending bars the filter is a prefix, cut where the dates pass `day`. */
  lemma {:induction false} UpToIsPrefix(bars: seq<Bar>, day: int, cut: nat)
    requires cut <= |bars|
    requires forall i :: 0 <= i < cut ==> UtcDate(bars[i].start) <= day
    requires forall i :: cut <= i < |bars| ==> UtcDate(bars[i].start) > day
    ensures UpTo(bars, day) == bars[..cut]
  {
    if bars == [] {
    } else {
      var front := bars[..|bars| - 1];
      if cut == |bars| {
        UpToIsPrefix(front, day, cut - 1);
        assert bars[..cut] == front[..cut - 1] + [bars[|bars| - 1]];
      } else {
        UpToIsPrefix(front, day, cut);
        assert front[..cut] == bars[..cut];
      }
    }
  }
}
