/**
 The exchange-calendar table: a list of sessions reduced to its irregular days, and expanded
 back.  Days are ordinals counted as Python counts them (day 1 is a Monday); times are minutes.
 */
module Calendar {
  import opened SortedTimes

  datatype Session = Session(day: int, open: int, close: int)

  /** Every weekday of the coverage is a regular session unless closed; specials override the hours. */
  datatype Table = Table(first: int, last: int, open: int, close: int, closed: seq<int>, special: map<int, (int, int)>)

  const REGULAR_OPEN := 9 * 60 + 30
  const REGULAR_CLOSE := 16 * 60

  /** Monday is 0, Sunday 6. */
  function Weekday(day: int): int {
    (day + 6) % 7
  }

  // ---------------------------------------------------------------------------- compaction

  datatype CompactResult = NoSessions | NotOrdered | OnWeekend | Compacted(table: Table)

  function DaysOf(sessions: seq<Session>): seq<int> {
    seq(|sessions|, i requires 0 <= i < |sessions| => sessions[i].day)
  }

  /** Weekdays among the first n days of the coverage that have no session, in order. */
  function ClosedAmong(first: int, n: nat, openDays: seq<int>): seq<int> {
    if n == 0 then []
    else
      var day := first + n - 1;
      ClosedAmong(first, n - 1, openDays) + (if Weekday(day) < 5 && day !in openDays then [day] else [])
  }

  predicate IsRegular(s: Session) {
    s.open == REGULAR_OPEN && s.close == REGULAR_CLOSE
  }

  function SpecialOf(sessions: seq<Session>): map<int, (int, int)> {
    if sessions == [] then map[]
    else
      var front, s := SpecialOf(sessions[..|sessions| - 1]), sessions[|sessions| - 1];
      if IsRegular(s) then front else front[s.day := (s.open, s.close)]
  }

  function TableOf(sessions: seq<Session>): Table
    requires sessions != []
  {
    var first, last := sessions[0].day, sessions[|sessions| - 1].day;
    Table(first, last, REGULAR_OPEN, REGULAR_CLOSE,
          ClosedAmong(first, if last >= first then last - first + 1 else 0, DaysOf(sessions)), SpecialOf(sessions))
  }

  function Compact(sessions: seq<Session>): CompactResult {
    if sessions == [] then NoSessions
    else if DaysOf(sessions) != SortedSet(DaysOf(sessions)) then NotOrdered
    else if exists i :: 0 <= i < |sessions| && Weekday(sessions[i].day) >= 5 then OnWeekend
    else Compacted(TableOf(sessions))
  }

  // ----------------------------------------------------------------------------- expansion

  datatype ExpandResult = SpecialOnClosedDay | Expanded(sessions: seq<Session>)

  predicate IsOpen(t: Table, day: int) {
    Weekday(day) < 5 && day !in t.closed
  }

  function SessionOn(t: Table, day: int): Session {
    if day in t.special then Session(day, t.special[day].0, t.special[day].1) else Session(day, t.open, t.close)
  }

  /** Sessions among the first n days of the coverage. */
  function SessionsAmong(t: Table, n: nat): seq<Session> {
    if n == 0 then []
    else
      var day := t.first + n - 1;
      SessionsAmong(t, n - 1) + (if IsOpen(t, day) then [SessionOn(t, day)] else [])
  }

  function Span(t: Table): nat {
    if t.last >= t.first then t.last - t.first + 1 else 0
  }

  predicate SpecialsAreOpen(t: Table) {
    forall day :: day in t.special ==> t.first <= day <= t.last && IsOpen(t, day)
  }

  function Expand(t: Table): ExpandResult {
    if SpecialsAreOpen(t) then Expanded(SessionsAmong(t, Span(t))) else SpecialOnClosedDay
  }

  lemma LeftOver(t: Table, special: map<int, (int, int)>)
    requires special == map day | day in t.special && !(t.first <= day < t.first + Span(t) && IsOpen(t, day)) :: t.special[day]
    ensures special == map[] <==> SpecialsAreOpen(t)
  {
    if SpecialsAreOpen(t) {
      assert forall day :: day !in special;
    } else {
      var day :| day in t.special && !(t.first <= day <= t.last && IsOpen(t, day));
      assert day in special;
    }
  }

  /** Walk the coverage, taking each special's hours as it is met; one left over is an error. */
  method ExpandTable(t: Table) returns (r: ExpandResult)
    ensures r == Expand(t)
  {
    var special, sessions := t.special, [];
    for n := 0 to Span(t)
      invariant sessions == SessionsAmong(t, n)
      invariant special == map day | day in t.special && !(t.first <= day < t.first + n && IsOpen(t, day)) :: t.special[day]
    {
      var day := t.first + n;
      if Weekday(day) < 5 && day !in t.closed {
        if day in special {
          sessions := sessions + [Session(day, special[day].0, special[day].1)];
          special := special - {day};
        } else {
          sessions := sessions + [Session(day, t.open, t.close)];
        }
      }
    }
    LeftOver(t, special);
    r := if special != map[] then SpecialOnClosedDay else Expanded(sessions);
  }

  // ------------------------------------------------------------------------- lossless both ways

  lemma {:induction false} ClosedAmongHolds(first: int, n: nat, openDays: seq<int>)
    ensures forall day :: day in ClosedAmong(first, n, openDays)
              <==> first <= day < first + n && Weekday(day) < 5 && day !in openDays
    ensures StrictlyAscending(ClosedAmong(first, n, openDays))
  {
    if n == 0 {
    } else {
      ClosedAmongHolds(first, n - 1, openDays);
      AscendingGrows(ClosedAmong(first, n - 1, openDays), first + n - 1);
    }
  }

  lemma {:induction false} SpecialOfHolds(sessions: seq<Session>, day: int)
    requires StrictlyAscending(DaysOf(sessions))
    ensures day in SpecialOf(sessions) <==> exists i :: 0 <= i < |sessions| && sessions[i].day == day && !IsRegular(sessions[i])
    ensures forall i :: 0 <= i < |sessions| && sessions[i].day == day && !IsRegular(sessions[i]) ==>
              day in SpecialOf(sessions) && SpecialOf(sessions)[day] == (sessions[i].open, sessions[i].close)
  {
    if sessions == [] {
    } else {
      var front := sessions[..|sessions| - 1];
      assert DaysOf(front) == DaysOf(sessions)[..|front|];
      SpecialOfHolds(front, day);
      assert forall i :: 0 <= i < |front| ==> sessions[i] == front[i] && sessions[i].day == DaysOf(sessions)[i];
      assert forall i :: 0 <= i < |front| ==> DaysOf(sessions)[i] < DaysOf(sessions)[|front|];
      var s := sessions[|front|];
      if s.day == day {
        assert day !in SpecialOf(front);
      } else if day in SpecialOf(front) {
        var i :| 0 <= i < |front| && front[i].day == day && !IsRegular(front[i]);
        assert sessions[i].day == day && !IsRegular(sessions[i]);
      }
    }
  }

  ghost predicate ValidSessions(sessions: seq<Session>) {
    && sessions != []
    && StrictlyAscending(DaysOf(sessions))
    && forall i :: 0 <= i < |sessions| ==> Weekday(sessions[i].day) < 5
  }

  /** The test against the sorted set accepts exactly the non-empty, ascending, weekday-only lists. */
  lemma CompactAcceptsIff(sessions: seq<Session>)
    ensures Compact(sessions).Compacted? <==> ValidSessions(sessions)
  {
    OwnSortedSetIff(DaysOf(sessions));
  }

  lemma SessionIsRecovered(sessions: seq<Session>, i: nat)
    requires ValidSessions(sessions) && i < |sessions|
    ensures var t := TableOf(sessions);
      IsOpen(t, sessions[i].day) && SessionOn(t, sessions[i].day) == sessions[i]
  {
    var t := TableOf(sessions);
    ClosedAmongHolds(t.first, Span(t), DaysOf(sessions));
    assert DaysOf(sessions)[i] == sessions[i].day;
    SpecialOfHolds(sessions, sessions[i].day);
    forall j | 0 <= j < |sessions| && sessions[j].day == sessions[i].day ensures j == i {
      assert DaysOf(sessions)[j] == DaysOf(sessions)[i];
    }
  }

  /** A day of the coverage without a session is closed in the compacted table. */
  lemma NoSessionMeansClosed(sessions: seq<Session>, day: int)
    requires ValidSessions(sessions) && day !in DaysOf(sessions)
    requires var t := TableOf(sessions); t.first <= day < t.first + Span(t)
    ensures !IsOpen(TableOf(sessions), day)
  {
    ClosedAmongHolds(TableOf(sessions).first, Span(TableOf(sessions)), DaysOf(sessions));
  }

  /** `k` sessions fall before `day`. */
  ghost predicate SplitAt(sessions: seq<Session>, day: int, k: nat) {
    && k <= |sessions|
    && (forall i :: 0 <= i < k ==> sessions[i].day < day)
    && (forall i :: k <= i < |sessions| ==> sessions[i].day >= day)
  }

  lemma SplitEarlier(sessions: seq<Session>, day: int, k: nat)
    requires ValidSessions(sessions) && SplitAt(sessions, day + 1, k)
    ensures if k > 0 && sessions[k - 1].day == day then SplitAt(sessions, day, k - 1)
            else SplitAt(sessions, day, k) && day !in DaysOf(sessions)
  {
    var days := DaysOf(sessions);
    assert forall i :: 0 <= i < |sessions| ==> days[i] == sessions[i].day;
    assert forall i, j :: 0 <= i < j < |sessions| ==> days[i] < days[j];
  }

  /** Expanding the first n days of the compacted table gives the sessions of those days. */
  lemma {:induction false} ExpandsToPrefix(sessions: seq<Session>, n: nat, k: nat)
    requires ValidSessions(sessions) && n <= Span(TableOf(sessions)) && SplitAt(sessions, sessions[0].day + n, k)
    ensures SessionsAmong(TableOf(sessions), n) == sessions[..k]
  {
    hide IsOpen, SessionOn, ClosedAmong, SpecialOf;
    if n == 0 {
    } else {
      var day := sessions[0].day + n - 1;
      SplitEarlier(sessions, day, k);
      if k > 0 && sessions[k - 1].day == day {
        ExpandsToPrefix(sessions, n - 1, k - 1);
        SessionIsRecovered(sessions, k - 1);
        assert sessions[..k] == sessions[..k - 1] + [sessions[k - 1]];
      } else {
        ExpandsToPrefix(sessions, n - 1, k);
        NoSessionMeansClosed(sessions, day);
      }
    }
  }

  /** Expanding what was compacted gives back exactly the sessions. */
  lemma ExpandCompact(sessions: seq<Session>)
    requires Compact(sessions).Compacted?
    ensures Expand(Compact(sessions).table) == Expanded(sessions)
  {
    CompactAcceptsIff(sessions);
    var t := TableOf(sessions);
    assert forall i :: 0 <= i < |sessions| ==> DaysOf(sessions)[i] == sessions[i].day;
    forall day | day in t.special ensures t.first <= day <= t.last && IsOpen(t, day) {
      SpecialOfHolds(sessions, day);
      var i :| 0 <= i < |sessions| && sessions[i].day == day;
      SessionIsRecovered(sessions, i);
    }
    ExpandsToPrefix(sessions, Span(t), |sessions|);
    assert sessions[..|sessions|] == sessions;
  }

  /** A table without redundancy: coverage starts and ends on sessions, closures and specials are real. */
  ghost predicate Canonical(t: Table) {
    && t.open == REGULAR_OPEN && t.close == REGULAR_CLOSE
    && t.first <= t.last && IsOpen(t, t.first) && IsOpen(t, t.last)
    && StrictlyAscending(t.closed)
    && (forall day :: day in t.closed ==> t.first <= day <= t.last && Weekday(day) < 5)
    && (forall day :: day in t.special ==>
          t.first <= day <= t.last && IsOpen(t, day) && t.special[day] != (REGULAR_OPEN, REGULAR_CLOSE))
  }

  lemma {:induction false} SessionsAmongHolds(t: Table, n: nat)
    ensures var s := SessionsAmong(t, n);
      && StrictlyAscending(DaysOf(s))
      && (forall day :: day in DaysOf(s) <==> t.first <= day < t.first + n && IsOpen(t, day))
      && (forall i :: 0 <= i < |s| ==> s[i] == SessionOn(t, s[i].day))
  {
    if n == 0 {
    } else {
      SessionsAmongHolds(t, n - 1);
      var s, before, day := SessionsAmong(t, n), SessionsAmong(t, n - 1), t.first + n - 1;
      if IsOpen(t, day) {
        assert s == before + [SessionOn(t, day)] && DaysOf(s) == DaysOf(before) + [day];
        AscendingGrows(DaysOf(before), day);
      } else {
        assert s == before;
      }
    }
  }

  lemma ClosedDaysAgree(t: Table, s: seq<Session>)
    requires Canonical(t)
    requires forall day :: day in DaysOf(s) <==> t.first <= day <= t.last && IsOpen(t, day)
    ensures ClosedAmong(t.first, Span(t), DaysOf(s)) == t.closed
  {
    hide ClosedAmong;
    ClosedAmongHolds(t.first, Span(t), DaysOf(s));
    AscendingListsAgree(ClosedAmong(t.first, Span(t), DaysOf(s)), t.closed);
  }

  lemma EndsAtCoverage(t: Table, s: seq<Session>)
    requires Canonical(t) && StrictlyAscending(DaysOf(s)) && t.first in DaysOf(s) && t.last in DaysOf(s)
    requires forall day :: day in DaysOf(s) ==> t.first <= day <= t.last
    ensures s != [] && s[0].day == t.first && s[|s| - 1].day == t.last
  {
    assert DaysOf(s)[0] in DaysOf(s) && DaysOf(s)[|s| - 1] in DaysOf(s);
  }

  lemma SpecialsAgree(t: Table, s: seq<Session>)
    requires Canonical(t) && StrictlyAscending(DaysOf(s))
    requires forall day :: day in DaysOf(s) <==> t.first <= day <= t.last && IsOpen(t, day)
    requires forall i :: 0 <= i < |s| ==> s[i] == SessionOn(t, s[i].day)
    ensures SpecialOf(s) == t.special
  {
    forall day
      ensures day in SpecialOf(s) <==> day in t.special
      ensures day in t.special ==> SpecialOf(s)[day] == t.special[day]
    {
      SpecialOfHolds(s, day);
      if day in t.special {
        assert day in DaysOf(s);
        var i :| 0 <= i < |s| && DaysOf(s)[i] == day;
        assert s[i] == SessionOn(t, day);
      }
    }
  }

  /** The canonical table's own sessions compact back into it. */
  lemma CompactExpand(t: Table)
    requires Canonical(t)
    ensures Expand(t).Expanded? && Compact(Expand(t).sessions) == Compacted(t)
  {
    hide SessionsAmong, ClosedAmong, SpecialOf, SortedSet;
    var s := SessionsAmong(t, Span(t));
    SessionsAmongHolds(t, Span(t));
    var days := DaysOf(s);
    assert t.first <= t.first < t.first + Span(t) && IsOpen(t, t.first) && t.first in days;
    assert t.first <= t.last < t.first + Span(t) && IsOpen(t, t.last) && t.last in days;
    EndsAtCoverage(t, s);
    ClosedDaysAgree(t, s);
    SpecialsAgree(t, s);
    forall i | 0 <= i < |s| ensures Weekday(s[i].day) < 5 {
      assert days[i] in days;
    }
    CompactAcceptsIff(s);
  }

  lemma TableIsCanonical(sessions: seq<Session>)
    requires ValidSessions(sessions)
    ensures Canonical(TableOf(sessions))
  {
    hide SpecialOf, ClosedAmong, SortedSet;
    var t := TableOf(sessions);
    assert forall i :: 0 <= i < |sessions| ==> DaysOf(sessions)[i] == sessions[i].day;
    ClosedAmongHolds(t.first, Span(t), DaysOf(sessions));
    SessionIsRecovered(sessions, 0);
    SessionIsRecovered(sessions, |sessions| - 1);
    forall day | day in t.special
      ensures t.first <= day <= t.last && IsOpen(t, day) && t.special[day] != (REGULAR_OPEN, REGULAR_CLOSE)
    {
      SpecialOfHolds(sessions, day);
      var i :| 0 <= i < |sessions| && sessions[i].day == day && !IsRegular(sessions[i]);
      SessionIsRecovered(sessions, i);
    }
  }

  /** What compaction produces is canonical. */
  lemma CompactIsCanonical(sessions: seq<Session>)
    requires Compact(sessions).Compacted?
    ensures Canonical(Compact(sessions).table)
  {
    hide TableOf, Canonical;
    CompactAcceptsIff(sessions);
    TableIsCanonical(sessions);
  }

  // ------------------------------------------------------------------- both forms, said outright

  /** Weekdays come round every seven days, and 1 January 2024, day 738886, was a Monday. */
  lemma WeekdaysGoRound(day: int)
    ensures Weekday(738_886) == 0
    ensures 0 <= Weekday(day) < 7 && Weekday(day + 1) == if Weekday(day) == 6 then 0 else Weekday(day) + 1
  {
  }

  /** A day of the coverage that falls on Monday to Friday and is not listed as closed. */
  predicate Trades(t: Table, day: int) {
    t.first <= day <= t.last && Weekday(day) <= 4 && day !in t.closed
  }

  /** Expansion succeeds when every special day trades, and lists each trading day once with its hours. */
  lemma ExpandsExactly(t: Table)
    ensures Expand(t).Expanded? <==> forall day :: day in t.special ==> Trades(t, day)
    ensures Expand(t).Expanded? ==>
              var s := Expand(t).sessions;
              && StrictlyAscending(DaysOf(s))
              && (forall day :: day in DaysOf(s) <==> Trades(t, day))
              && (forall i :: 0 <= i < |s| ==>
                    (s[i].open, s[i].close) == if s[i].day in t.special then t.special[s[i].day] else (t.open, t.close))
  {
    hide SessionsAmong, Weekday;
    SessionsAmongHolds(t, Span(t));
  }

  /** The table of a list: its coverage, the regular hours from 9:30 to 16:00, and every exception to them. */
  ghost predicate Describes(t: Table, sessions: seq<Session>) {
    && sessions != [] && t.first == sessions[0].day && t.last == sessions[|sessions| - 1].day
    && t.open == 570 && t.close == 960
    && StrictlyAscending(t.closed)
    && (forall day :: day in t.closed <==> t.first <= day <= t.last && Weekday(day) <= 4 && day !in DaysOf(sessions))
    && (forall i :: 0 <= i < |sessions| ==>
          && (sessions[i].day in t.special <==> (sessions[i].open, sessions[i].close) != (570, 960))
          && (sessions[i].day in t.special ==> t.special[sessions[i].day] == (sessions[i].open, sessions[i].close)))
    && (forall day :: day in t.special ==> day in DaysOf(sessions))
  }

  lemma TableDescribes(sessions: seq<Session>)
    requires ValidSessions(sessions)
    ensures Describes(TableOf(sessions), sessions)
  {
    hide ClosedAmong, SpecialOf, Weekday;
    var t, days := TableOf(sessions), DaysOf(sessions);
    ClosedAmongHolds(t.first, Span(t), days);
    forall i | 0 <= i < |sessions|
      ensures sessions[i].day in t.special <==> !IsRegular(sessions[i])
      ensures sessions[i].day in t.special ==> t.special[sessions[i].day] == (sessions[i].open, sessions[i].close)
    {
      SpecialOfHolds(sessions, sessions[i].day);
      forall j | 0 <= j < |sessions| && sessions[j].day == sessions[i].day ensures j == i {
        assert days[j] == days[i];
      }
    }
    forall day | day in t.special ensures day in days {
      SpecialOfHolds(sessions, day);
      var i :| 0 <= i < |sessions| && sessions[i].day == day;
      assert days[i] == day;
    }
  }

  /** Compaction rejects a list for the first thing wrong with it, and otherwise describes it. */
  lemma CompactsExactly(sessions: seq<Session>)
    ensures Compact(sessions).NoSessions? <==> sessions == []
    ensures Compact(sessions).NotOrdered? <==> !StrictlyAscending(DaysOf(sessions))
    ensures Compact(sessions).OnWeekend? <==>
              && sessions != [] && StrictlyAscending(DaysOf(sessions))
              && exists i :: 0 <= i < |sessions| && Weekday(sessions[i].day) >= 5
    ensures Compact(sessions).Compacted? ==> Describes(Compact(sessions).table, sessions)
  {
    OwnSortedSetIff(DaysOf(sessions));
    if Compact(sessions).Compacted? {
      CompactAcceptsIff(sessions);
      TableDescribes(sessions);
    }
  }
}
