/** What can be said of a sorting function that is not known: that it sorts.  For arrays of
    one length it is a tree of comparisons, which ends in the order it settles. */
module Sorting {
  /** What a sorting function does with an array of a given length: it compares elements,
      goes on according to the answer, and settles the order in the end. */
  datatype Sorter = Compare(i: nat, j: nat, less: Sorter, same: Sorter, more: Sorter) | Settled(order: seq<nat>)

  function Answered(s: Sorter, r: int): Sorter
    requires s.Compare?
  {
    if r < 0 then s.less else if r == 0 then s.same else s.more
  }

  predicate InRange(s: Sorter, n: nat) {
    s.Compare? ==> s.i < n && s.j < n && InRange(s.less, n) && InRange(s.same, n) && InRange(s.more, n)
  }

  /** The order it settles for an array of numbers. */
  function Result(s: Sorter, a: seq<int>): seq<nat>
    requires InRange(s, |a|)
  {
    match s
    case Settled(order) => order
    case Compare(i, j, _, _, _) => Result(Answered(s, a[i] - a[j]), a)
  }

  /** Whether it compares equal elements on the way. */
  predicate MeetsEqual(s: Sorter, a: seq<int>)
    requires InRange(s, |a|)
  {
    s.Compare? && (a[s.i] == a[s.j] || MeetsEqual(Answered(s, a[s.i] - a[s.j]), a))
  }

  ghost predicate Permutes(order: seq<nat>, n: nat) {
    && |order| == n && (forall m :: 0 <= m < n ==> order[m] < n)
    && forall m, k :: 0 <= m < k < n ==> order[m] != order[k]
  }

  ghost predicate Ascends(order: seq<nat>, a: seq<int>)
    requires Permutes(order, |a|)
  {
    forall m, k :: 0 <= m < k < |a| ==> a[order[m]] <= a[order[k]]
  }

  ghost predicate SortsArray(s: Sorter, a: seq<int>)
    requires InRange(s, |a|)
  {
    Permutes(Result(s, a), |a|) && Ascends(Result(s, a), a)
  }

  /** It sorts every array of numbers of this length. */
  ghost predicate Sorts(s: Sorter, n: nat) {
    InRange(s, n) && forall a: seq<int> {:trigger SortsArray(s, a)} :: |a| == n ==> SortsArray(s, a)
  }

  /** For arrays of two elements one comparison is enough. */
  lemma TwoAreSorted()
    ensures Sorts(Compare(0, 1, Settled([0, 1]), Settled([0, 1]), Settled([1, 0])), 2)
  {
    var s := Compare(0, 1, Settled([0, 1]), Settled([0, 1]), Settled([1, 0]));
    forall a: seq<int> | |a| == 2 ensures SortsArray(s, a) {
      assert Result(s, a) == if a[0] > a[1] then [1, 0] else [0, 1];
    }
  }

  /** `a` with ties broken against the order given. */
  function TiesReversed(a: seq<int>, order: seq<nat>): (b: seq<int>)
    ensures |b| == |a|
  {
    seq(|a|, i requires 0 <= i < |a| => a[i] * (|order| + 1) - PlaceOf(order, i))
  }

  function PlaceOf(order: seq<nat>, i: nat): (m: nat)
    ensures m <= |order|
  {
    if order == [] || order[0] == i then 0 else 1 + PlaceOf(order[1..], i)
  }

  lemma {:induction false} PlaceIs(order: seq<nat>, m: nat)
    requires m < |order| && forall j, k :: 0 <= j < k < |order| ==> order[j] != order[k]
    ensures PlaceOf(order, order[m]) == m
  {
    if m > 0 { PlaceIs(order[1..], m - 1); }
  }

  lemma TiesKeepOrder(a: seq<int>, order: seq<nat>, i: nat, j: nat)
    requires i < |a| && j < |a| && a[i] < a[j]
    ensures TiesReversed(a, order)[i] < TiesReversed(a, order)[j]
  {
    var n := |order| + 1;
    assert a[j] * n >= (a[i] + 1) * n == a[i] * n + n;
  }

  /** Without equal elements compared, breaking the ties changes nothing. */
  lemma {:induction false} SameResult(s: Sorter, a: seq<int>, order: seq<nat>)
    requires InRange(s, |a|) && !MeetsEqual(s, a)
    ensures Result(s, TiesReversed(a, order)) == Result(s, a)
  {
    if s.Compare? {
      if a[s.i] < a[s.j] { TiesKeepOrder(a, order, s.i, s.j); } else { TiesKeepOrder(a, order, s.j, s.i); }
      SameResult(Answered(s, a[s.i] - a[s.j]), a, order);
    }
  }

  lemma TiesDescend(a: seq<int>, order: seq<nat>, m: nat)
    requires Permutes(order, |a|) && 0 < m < |a| && a[order[m - 1]] == a[order[m]]
    ensures TiesReversed(a, order)[order[m - 1]] > TiesReversed(a, order)[order[m]]
  {
    PlaceIs(order, m - 1);
    PlaceIs(order, m);
  }

  lemma AscendsAt(order: seq<nat>, a: seq<int>, m: nat)
    requires Permutes(order, |a|) && Ascends(order, a) && 0 < m < |a|
    ensures a[order[m - 1]] <= a[order[m]]
  {
  }

  /** A function that sorts compares equal elements wherever it leaves equal neighbours: if
      it did not, it would leave them in the same order when they are not equal. */
  lemma EqualNeighboursMeet(s: Sorter, a: seq<int>, m: nat)
    requires Sorts(s, |a|) && Permutes(Result(s, a), |a|)
    requires 0 < m < |a| && a[Result(s, a)[m - 1]] == a[Result(s, a)[m]]
    ensures MeetsEqual(s, a)
  {
    hide Sorts, Permutes, Ascends, TiesReversed, Result;
    ResultSorts(s, a);
    if !MeetsEqual(s, a) {
      var order := Result(s, a);
      var b := TiesReversed(a, order);
      SameResult(s, a, order);
      TiesDescend(a, order, m);
      ResultSorts(s, b);
      AscendsAt(order, b, m);
    }
  }

  /** An order that settles without repetition reaches every place. */
  lemma {:induction false} Reaches(order: seq<nat>, n: nat, i: nat)
    requires Permutes(order, n) && i < n
    ensures exists m :: 0 <= m < n && order[m] == i
  {
    if n > 0 && forall m :: 0 <= m < n ==> order[m] != i {
      var places := set m | 0 <= m < n :: order[m];
      PlacesCount(order, n);
      assert places <= Upto(n) - {i} && i in Upto(n);
      UptoCount(n);
      Subset(places, Upto(n) - {i});
    }
  }

  function Upto(n: nat): (those: set<nat>)
    ensures forall k :: k in those <==> 0 <= k < n
  {
    if n == 0 then {} else Upto(n - 1) + {n - 1}
  }

  lemma {:induction false} UptoCount(n: nat)
    ensures |Upto(n)| == n
  {
    if n > 0 {
      UptoCount(n - 1);
    }
  }

  lemma {:induction false} PlacesCount(order: seq<nat>, n: nat)
    requires n <= |order| && forall m, k :: 0 <= m < k < |order| ==> order[m] != order[k]
    ensures |set m | 0 <= m < n :: order[m]| == n
  {
    if n > 0 {
      PlacesCount(order, n - 1);
      var fewer := set m | 0 <= m < n - 1 :: order[m];
      assert order[n - 1] !in fewer;
      assert (set m | 0 <= m < n :: order[m]) == fewer + {order[n - 1]};
    }
  }

  lemma Subset(a: set<nat>, b: set<nat>)
    requires a <= b
    ensures |a| <= |b|
  {
    assert b == a + (b - a);
  }

  lemma SmallerSet(fewer: set<nat>, more: set<nat>, i: nat)
    requires fewer <= more && i in more && i !in fewer
    ensures |fewer| < |more|
  {
    var rest := more - fewer;
    assert more == fewer + rest && fewer !! rest && i in rest;
  }

  lemma SortsInRange(s: Sorter, n: nat)
    requires Sorts(s, n)
    ensures InRange(s, n)
  {
  }

  lemma ResultSorts(s: Sorter, a: seq<int>)
    requires Sorts(s, |a|)
    ensures InRange(s, |a|) && Permutes(Result(s, a), |a|) && Ascends(Result(s, a), a)
  {
    assert SortsArray(s, a);
  }
}
