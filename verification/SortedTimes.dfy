/**
 Ascending lists without duplicates, built by insertion: what sorting a set of days or times
 gives.
 */
module SortedTimes {

  predicate StrictlyAscending(xs: seq<int>) {
    forall i, j :: 0 <= i < j < |xs| ==> xs[i] < xs[j]
  }

  function SetOf(xs: seq<int>): set<int> {
    set x | x in xs
  }

  lemma SetOfGrows(xs: seq<int>, m: int)
    ensures SetOf(xs + [m]) == SetOf(xs) + {m}
  {
  }

  /** `x` put in its place among ascending ones, once. */
  function Insert(xs: seq<int>, x: int): seq<int> {
    if xs == [] then [x]
    else
      var front, last := xs[..|xs| - 1], xs[|xs| - 1];
      if x == last then xs else if x > last then xs + [x] else Insert(front, x) + [last]
  }

  lemma {:induction false} InsertAdds(xs: seq<int>, x: int)
    ensures SetOf(Insert(xs, x)) == SetOf(xs) + {x}
  {
    SetOfGrows(xs, x);
    if xs == [] {
    } else {
      var front, last := xs[..|xs| - 1], xs[|xs| - 1];
      assert xs == front + [last];
      InsertAdds(front, x);
      SetOfGrows(front, last);
      SetOfGrows(Insert(front, x), last);
      assert x == last ==> x in SetOf(xs);
    }
  }

  lemma AscendingGrows(xs: seq<int>, m: int)
    requires StrictlyAscending(xs) && forall x :: x in SetOf(xs) ==> x < m
    ensures StrictlyAscending(xs + [m])
  {
    var ys := xs + [m];
    forall i, j | 0 <= i < j < |ys| ensures ys[i] < ys[j] {
      assert xs[i] in SetOf(xs);
      assert j < |xs| ==> xs[i] < xs[j];
    }
  }

  lemma {:induction false} InsertKeepsOrder(xs: seq<int>, x: int)
    requires StrictlyAscending(xs)
    ensures StrictlyAscending(Insert(xs, x))
  {
    if xs == [] {
    } else {
      var front, last := xs[..|xs| - 1], xs[|xs| - 1];
      if x < last {
        InsertKeepsOrder(front, x);
        InsertAdds(front, x);
        AscendingGrows(Insert(front, x), last);
      } else if x > last {
        AscendingGrows(xs, x);
      }
    }
  }

  lemma InitMembers(xs: seq<int>, z: int)
    requires StrictlyAscending(xs) && xs != []
    ensures z in xs[..|xs| - 1] <==> z in xs && z != xs[|xs| - 1]
    ensures z in xs ==> z <= xs[|xs| - 1]
  {
  }

  function AnyOf(xs: seq<int>): int {
    if xs == [] then 0 else xs[0]
  }

  lemma AnyOfIsIn(xs: seq<int>)
    ensures xs == [] || AnyOf(xs) in xs
  {
  }

  /** Ascending lists with the same members are equal. */
  lemma {:induction false} AscendingListsAgree(xs: seq<int>, ys: seq<int>)
    requires StrictlyAscending(xs) && StrictlyAscending(ys) && forall z :: z in xs <==> z in ys
    ensures xs == ys
  {
    if xs == [] || ys == [] {
      AnyOfIsIn(xs);
      AnyOfIsIn(ys);
    } else {
      var x, y, xs1, ys1 := xs[|xs| - 1], ys[|ys| - 1], xs[..|xs| - 1], ys[..|ys| - 1];
      assert x in xs && y in ys;
      InitMembers(xs, y);
      InitMembers(ys, x);
      forall z ensures z in xs1 <==> z in ys1 {
        InitMembers(xs, z);
        InitMembers(ys, z);
      }
      AscendingListsAgree(xs1, ys1);
      assert xs == xs1 + [x] && ys == ys1 + [y];
    }
  }

  /** The distinct members, sorted. */
  function SortedSet(xs: seq<int>): seq<int> {
    if xs == [] then [] else Insert(SortedSet(xs[..|xs| - 1]), xs[|xs| - 1])
  }

  lemma {:induction false} SortedSetHolds(xs: seq<int>)
    ensures StrictlyAscending(SortedSet(xs)) && SetOf(SortedSet(xs)) == SetOf(xs)
  {
    if xs == [] {
    } else {
      var front, last := xs[..|xs| - 1], xs[|xs| - 1];
      SortedSetHolds(front);
      InsertKeepsOrder(SortedSet(front), last);
      InsertAdds(SortedSet(front), last);
      SetOfGrows(front, last);
      assert xs == front + [last];
    }
  }

  /** A list is its own sorted set exactly when it is strictly ascending. */
  lemma OwnSortedSetIff(xs: seq<int>)
    ensures SortedSet(xs) == xs <==> StrictlyAscending(xs)
  {
    SortedSetHolds(xs);
    if StrictlyAscending(xs) {
      forall z ensures z in SortedSet(xs) <==> z in xs {
        assert z in SetOf(SortedSet(xs)) <==> z in SetOf(xs);
      }
      AscendingListsAgree(SortedSet(xs), xs);
    }
  }

  /** The list with `x` added. */
  method InsertTime(xs: seq<int>, x: int) returns (ys: seq<int>)
    requires StrictlyAscending(xs)
    ensures StrictlyAscending(ys) && SetOf(ys) == SetOf(xs) + {x}
  {
    InsertKeepsOrder(xs, x);
    InsertAdds(xs, x);
    ys := Insert(xs, x);
  }
}
