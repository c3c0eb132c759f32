/** Sizzle's fallback comparator and `uniqueSort`, against document order. */
module DocumentOrder {
  import opened Wrappers
  import opened Trees
  import opened Sorting

  /** First difference decides; an ancestor comes before its descendants. */
  predicate LexBefore(a: Path, b: Path) {
    b != [] && (a == [] || a[0] < b[0] || (a[0] == b[0] && LexBefore(a[1..], b[1..])))
  }

  // ---- The order of paths is document order ----

  lemma {:induction false} LexTotal(a: Path, b: Path)
    ensures !(LexBefore(a, b) && LexBefore(b, a)) && !LexBefore(a, a)
    ensures a != b ==> LexBefore(a, b) || LexBefore(b, a)
  {
    if a != [] { 
      if b != [] {
        LexTotal(a[1..], b[1..]);
        assert a == [a[0]] + a[1..] && b == [b[0]] + b[1..];
      }
      LexTotal(a[1..], a[1..]);
    }
  }

  lemma {:induction false} LexTransitive(a: Path, b: Path, c: Path)
    requires LexBefore(a, b) && LexBefore(b, c)
    ensures LexBefore(a, c)
  {
    if a != [] && a[0] == b[0] == c[0] {
      LexTransitive(a[1..], b[1..], c[1..]);
    }
  }

  ghost predicate Increasing(ps: seq<Path>) {
    forall i, j :: 0 <= i < j < |ps| ==> LexBefore(ps[i], ps[j])
  }

  lemma {:induction false} PreorderIncreasing(t: Tree)
    ensures Increasing(Preorder(t))
    decreases t, 0
  {
    ForestIncreasing(t.children, 0);
    forall p | p in Forest(t.children, 0) ensures LexBefore([], p) { ForestStarts(t.children, 0, p); }
  }

  lemma {:induction false} ForestStarts(ts: seq<Tree>, from: nat, p: Path)
    requires p in Forest(ts, from)
    ensures p != [] && p[0] >= from
  {
    if ts != [] && p !in Below(from, Preorder(ts[0])) {
      ForestStarts(ts[1..], from + 1, p);
    }
  }

  lemma {:induction false} ForestIncreasing(ts: seq<Tree>, from: nat)
    ensures Increasing(Forest(ts, from))
    decreases ts, 1
  {
    if ts != [] {
      var first, rest := Below(from, Preorder(ts[0])), Forest(ts[1..], from + 1);
      PreorderIncreasing(ts[0]);
      ForestIncreasing(ts[1..], from + 1);
      forall i, j | 0 <= i < j < |first| ensures LexBefore(first[i], first[j]) {
        assert first[i][1..] == Preorder(ts[0])[i] && first[j][1..] == Preorder(ts[0])[j];
      }
      forall q | q in rest ensures q != [] && q[0] > from { ForestStarts(ts[1..], from + 1, q); }
    }
  }

  lemma {:induction false} PreorderNodes(t: Tree, p: Path)
    ensures p in Preorder(t) <==> Has(t, p)
    decreases t, 0
  {
    if p != [] {
      ForestNodes(t.children, 0, p);
    }
    assert Preorder(t)[0] == [];
  }

  lemma {:induction false} ForestNodes(ts: seq<Tree>, from: nat, p: Path)
    requires p != []
    ensures p in Forest(ts, from) <==> from <= p[0] < from + |ts| && Has(ts[p[0] - from], p[1..])
    decreases ts, 1
  {
    if ts != [] {
      hide Below, Preorder, Has;
      PreorderNodes(ts[0], p[1..]);
      ForestNodes(ts[1..], from + 1, p);
      BelowNodes(from, Preorder(ts[0]), p);
      if from < p[0] < from + |ts| {
        assert ts[1..][p[0] - (from + 1)] == ts[p[0] - from];
      }
    }
  }

  lemma BelowNodes(k: nat, ps: seq<Path>, p: Path)
    requires p != []
    ensures p in Below(k, ps) <==> p[0] == k && p[1..] in ps
  {
    assert p == [p[0]] + p[1..];
    if p[0] == k && p[1..] in ps {
      var i :| 0 <= i < |ps| && ps[i] == p[1..];
      assert Below(k, ps)[i] == p;
    }
    if p in Below(k, ps) {
      var i :| 0 <= i < |ps| && Below(k, ps)[i] == p;
      assert p[1..] == ps[i];
    }
  }

  /** For nodes of one tree the order of paths is exactly document order. */
  lemma LexIsDocumentOrder(t: Tree, a: Path, b: Path)
    requires Has(t, a) && Has(t, b)
    ensures LexBefore(a, b) <==> Precedes(t, a, b)
  {
    PreorderIncreasing(t);
    PreorderNodes(t, a);
    PreorderNodes(t, b);
    LexTotal(a, b);
    var i :| 0 <= i < |Preorder(t)| && Preorder(t)[i] == a;
    var j :| 0 <= j < |Preorder(t)| && Preorder(t)[j] == b;
  }

  /** `a` is an ancestor of `b`, or where their ways from the root part it keeps to the left. */
  ghost predicate IsBefore(a: Path, b: Path) {
    a < b || exists k :: PartsLeft(a, b, k)
  }

  ghost predicate PartsLeft(a: Path, b: Path, k: nat) {
    k < |a| && k < |b| && a[..k] == b[..k] && a[k] < b[k]
  }

  /** Document order, without a listing. */
  lemma PrecedesIsBefore(t: Tree, a: Path, b: Path)
    requires Has(t, a) && Has(t, b)
    ensures Precedes(t, a, b) <==> IsBefore(a, b)
  {
    hide Precedes, Has;
    LexIsDocumentOrder(t, a, b);
    LexIsBefore(a, b);
  }

  lemma {:induction false} LexIsBefore(a: Path, b: Path)
    ensures LexBefore(a, b) <==> IsBefore(a, b)
  {
    if a != [] && b != [] && a[0] == b[0] {
      LexIsBefore(a[1..], b[1..]);
      assert a == [a[0]] + a[1..] && b == [b[0]] + b[1..];
      if k: nat :| PartsLeft(a[1..], b[1..], k) {
        assert a[..k + 1] == [a[0]] + a[1..][..k] && b[..k + 1] == [b[0]] + b[1..][..k];
        assert PartsLeft(a, b, k + 1);
      }
      if k: nat :| PartsLeft(a, b, k) {
        assert a[1..][..k - 1] == a[..k][1..] && b[1..][..k - 1] == b[..k][1..];
        assert PartsLeft(a[1..], b[1..], k - 1);
      }
    } else if a != [] && b != [] {
      if a[0] < b[0] { assert PartsLeft(a, b, 0); }
      if k: nat :| PartsLeft(a, b, k) { PartsAtFirst(a, b, k); }
    }
  }

  lemma PartsAtFirst(a: Path, b: Path, k: nat)
    requires PartsLeft(a, b, k)
    ensures a != [] && b != [] && (k == 0 || a[0] == b[0])
  {
    if k > 0 { assert a[..k][0] == b[..k][0]; }
  }

  // ---- The comparator ----

  /** What the comparator computes, in terms of document order. */
  function Order(a: Path, b: Path): int {
    if a == b then 0 else if LexBefore(a, b) then -1 else 1
  }

  /** `siblingCheck`: looks for `b` to the right of `a`. */
  method SiblingCheck(t: Tree, a: Path, b: Path, ret: int) returns (r: int)
    requires Has(t, a) && Has(t, b) && (a != b ==> a != [] && b != [] && ParentNode(a) == ParentNode(b))
    ensures r == if a == b then ret else if a[|a| - 1] < b[|b| - 1] then -1 else 1
  {
    if a == b {
      return ret;
    }
    ghost var up, x, y := a[..|a| - 1], a[|a| - 1], b[|b| - 1];
    SiblingsAre(t, a, b);
    ghost var children := |At(t, up).children|;
    hide Has, At, NextSibling;
    NextIs(t, up, x);
    var cur := NextSibling(t, a);
    ghost var k := x + 1;
    while cur.Some?
      invariant k > x && cur == if k < children then Some(up + [k]) else None
      invariant x < y ==> k <= y
      decreases children - k
    {
      SameSibling(up, k, y);
      if cur.value == b {
        return -1;
      }
      NextInRow(t, up, k);
      cur := NextSibling(t, cur.value);
      k := k + 1;
    }
    return 1;
  }

  lemma NextIs(t: Tree, up: Path, k: nat)
    requires Has(t, up + [k])
    ensures Has(t, up)
    ensures NextSibling(t, up + [k]) == if k + 1 < |At(t, up).children| then Some(up + [k + 1]) else None
  {
    ChildOf(t, up, k);
    ChildOf(t, up, k + 1);
    assert (up + [k])[..|up|] == up && (up + [k])[|up|] == k;
  }

  lemma NextInRow(t: Tree, up: Path, k: nat)
    requires Has(t, up) && k < |At(t, up).children|
    ensures Has(t, up + [k])
    ensures NextSibling(t, up + [k]) == if k + 1 < |At(t, up).children| then Some(up + [k + 1]) else None
  {
    ChildOf(t, up, k);
    NextIs(t, up, k);
  }

  lemma SiblingsAre(t: Tree, a: Path, b: Path)
    requires Has(t, a) && Has(t, b) && a != [] && b != [] && ParentNode(a) == ParentNode(b)
    ensures var up := a[..|a| - 1];
      && a == up + [a[|a| - 1]] && b == up + [b[|b| - 1]] && Has(t, up)
      && a[|a| - 1] < |At(t, up).children| && b[|b| - 1] < |At(t, up).children|
  {
    ParentIn(t, a);
    ParentIn(t, b);
  }

  lemma SameSibling(up: Path, k: nat, y: nat)
    ensures up + [k] == up + [y] <==> k == y
  {
    assert (up + [k])[|up|] == k && (up + [y])[|up|] == y;
  }

  lemma {:induction false} FirstDifference(a: Path, b: Path, k: nat)
    requires k < |a| && k < |b| && a[..k] == b[..k] && a[k] != b[k]
    ensures LexBefore(a, b) <==> a[k] < b[k]
  {
    if k > 0 {
      assert a[0] == a[..k][0] == b[..k][0] == b[0];
      assert a[1..][..k - 1] == a[..k][1..] && b[1..][..k - 1] == b[..k][1..];
      FirstDifference(a[1..], b[1..], k - 1);
    }
  }

  lemma {:induction false} PrefixFirst(a: Path, b: Path)
    requires |a| < |b| && b[..|a|] == a
    ensures LexBefore(a, b) && !LexBefore(b, a)
  {
    if a != [] {
      assert a[0] == b[..|a|][0] == b[0];
      assert b[1..][..|a| - 1] == b[..|a|][1..];
      PrefixFirst(a[1..], b[1..]);
    }
  }

  lemma {:induction false} PrefixIn(t: Tree, p: Path, n: nat)
    requires Has(t, p) && n <= |p|
    ensures Has(t, p[..n])
    decreases |p|
  {
    if n < |p| {
      ParentIn(t, p);
      assert p[..|p| - 1][..n] == p[..n];
      PrefixIn(t, p[..|p| - 1], n);
    } else {
      assert p[..n] == p;
    }
  }

  /** The loop that collects the ancestors, root first. */
  method Ancestors(p: Path) returns (up: seq<Path>)
    ensures |up| == |p| && forall i :: 0 <= i < |p| ==> up[i] == p[..i]
  {
    up := [];
    var cur := ParentNode(p);
    while cur.Some?
      invariant |up| <= |p| && cur == (if |up| == |p| then None else Some(p[..|p| - |up| - 1]))
      invariant forall i :: 0 <= i < |up| ==> up[i] == p[..|p| - |up| + i]
      decreases |p| - |up|
    {
      up := [cur.value] + up;
      assert |up| < |p| ==> cur.value[..|cur.value| - 1] == p[..|p| - |up| - 1];
      cur := ParentNode(cur.value);
    }
  }

  /** The part of `sortOrder` that walks down the two lists of ancestors. */
  method WalkDown(t: Tree, a: Path, b: Path, ap: seq<Path>, bp: seq<Path>) returns (r: int)
    requires Has(t, a) && Has(t, b) && a != [] && b != [] && ParentNode(a) != ParentNode(b)
    requires |ap| == |a| && forall i :: 0 <= i < |a| ==> ap[i] == a[..i]
    requires |bp| == |b| && forall i :: 0 <= i < |b| ==> bp[i] == b[..i]
    ensures r == Order(a, b)
  {
    LexTotal(a, b);
    hide LexBefore, Has;
    var al, bl := |ap|, |bp|;
    var i := 0;
    while i < al && i < bl
      invariant 0 <= i <= al && i <= bl
      invariant i > 0 ==> a[..i - 1] == b[..i - 1]
    {
      PrefixIn(t, a, i);
      PrefixIn(t, b, i);
      if ap[i] != bp[i] {
        assert a[..i][..i - 1] == a[..i - 1] == b[..i - 1] == b[..i][..i - 1];
        r := SiblingCheck(t, ap[i], bp[i], 0);
        SiblingsDiffer(a[..i], b[..i]);
        FirstDifference(a, b, i - 1);
        return;
      }
      i := i + 1;
    }
    PrefixIn(t, a, i);
    PrefixIn(t, b, i);
    assert a[..|a|] == a && b[..|b|] == b;
    if i == al {
      assert al < bl;
      assert b[..i][..i - 1] == b[..i - 1];
      r := SiblingCheck(t, a, bp[i], -1);
      if a == bp[i] { PrefixFirst(a, b); } else { SiblingsDiffer(a, b[..i]); FirstDifference(a, b, i - 1); }
    } else {
      assert a[..i][..i - 1] == a[..i - 1];
      r := SiblingCheck(t, ap[i], b, 1);
      if ap[i] == b { PrefixFirst(b, a); } else { SiblingsDiffer(a[..i], b); FirstDifference(a, b, i - 1); }
    }
  }

  /** `sortOrder`, the branch without `sourceIndex`; `duplicate` is what it does to
      `hasDuplicate`. */
  method SortOrder(t: Tree, a: Path, b: Path) returns (r: int, duplicate: bool)
    requires Has(t, a) && Has(t, b)
    ensures r == Order(a, b) && duplicate == (a == b)
    ensures (r < 0 <==> Precedes(t, a, b)) && (r == 0 <==> a == b)
  {
    LexIsDocumentOrder(t, a, b);
    LexTotal(a, b);
    LexRoot(a, b);
    hide LexBefore, Precedes, Has;
    if a == b {
      return 0, true;
    }
    duplicate := false;
    var aup, bup := ParentNode(a), ParentNode(b);
    if aup == bup {
      r := SiblingCheck(t, a, b, 0);
      SiblingsDiffer(a, b);
      return;
    } else if aup == None {
      return -1, false;
    } else if bup == None {
      return 1, false;
    }
    var ap := Ancestors(a);
    var bp := Ancestors(b);
    r := WalkDown(t, a, b, ap, bp);
  }

  lemma LexRoot(a: Path, b: Path)
    ensures a == [] && b != [] ==> LexBefore(a, b)
    ensures b == [] ==> !LexBefore(a, b)
  {
  }

  /** Distinct children of one parent differ in their last index. */
  lemma SiblingsDiffer(a: Path, b: Path)
    requires a != b && a != [] && b != [] && a[..|a| - 1] == b[..|b| - 1]
    ensures |a| == |b| && a[|a| - 1] != b[|b| - 1]
    ensures LexBefore(a, b) <==> a[|a| - 1] < b[|b| - 1]
  {
    var n := |a| - 1;
    assert |a[..n]| == |b[..|b| - 1]|;
    assert a == a[..n] + [a[n]] && b == b[..n] + [b[n]];
    FirstDifference(a, b, n);
  }

  // ---- uniqueSort ----

  /** What the sort by the comparator leaves behind: the same nodes, in order, with the
      flag set if there are equal neighbours. */
  ghost predicate SortedBySortOrder(results: seq<Path>, sorted: seq<Path>, hasDuplicate: bool) {
    && |sorted| == |results| && (forall p :: p in sorted <==> p in results)
    && (forall i, j :: 0 <= i < j < |sorted| ==> Order(sorted[i], sorted[j]) <= 0)
    && ((exists i :: 0 < i < |sorted| && sorted[i - 1] == sorted[i]) ==> hasDuplicate)
  }

  // ---- Sorting nodes ----

  /** How many of the nodes come before `p`. */
  ghost function RankOf(results: seq<Path>, p: Path): nat {
    |Earlier(results, p)|
  }

  ghost function Earlier(results: seq<Path>, p: Path): set<nat> {
    set k: nat | k < |results| && LexBefore(results[k], p)
  }

  lemma RankLess(results: seq<Path>, i: nat, p: Path)
    requires i < |results| && LexBefore(results[i], p)
    ensures RankOf(results, results[i]) < RankOf(results, p)
  {
    var fewer, more := Earlier(results, results[i]), Earlier(results, p);
    LexTotal(results[i], results[i]);
    forall k | k in fewer ensures k in more { LexTransitive(results[k], results[i], p); }
    assert i in more && i !in fewer;
    SmallerSet(fewer, more, i);
  }

  ghost function Ranks(results: seq<Path>): (a: seq<int>)
    ensures |a| == |results|
  {
    seq(|results|, i requires 0 <= i < |results| => RankOf(results, results[i]))
  }

  /** The comparator answers as the comparison of the ranks does. */
  lemma RanksAgree(results: seq<Path>, i: nat, j: nat)
    requires i < |results| && j < |results|
    ensures var a, r := Ranks(results), Order(results[i], results[j]);
      (r < 0 <==> a[i] < a[j]) && (r == 0 <==> a[i] == a[j]) && (r == 0 <==> results[i] == results[j])
  {
    LexTotal(results[i], results[j]);
    if LexBefore(results[i], results[j]) { RankLess(results, i, results[j]); }
    if LexBefore(results[j], results[i]) { RankLess(results, j, results[i]); }
  }

  /** `results.sort(sortOrder)`, whatever the engine's way of sorting is. */
  method Sort(t: Tree, results: seq<Path>, sorter: Sorter) returns (sorted: seq<Path>, hasDuplicate: bool)
    requires forall p :: p in results ==> Has(t, p)
    requires Sorts(sorter, |results|)
    ensures SortedBySortOrder(results, sorted, hasDuplicate)
  {
    hide Has, LexBefore, Order, Ranks, Sorts;
    ghost var a := Ranks(results);
    SortsInRange(sorter, |results|);
    var s := sorter;
    hasDuplicate := false;
    while s.Compare?
      invariant InRange(s, |a|) && Result(s, a) == Result(sorter, a)
      invariant MeetsEqual(sorter, a) ==> hasDuplicate || MeetsEqual(s, a)
      decreases s
    {
      RanksAgree(results, s.i, s.j);
      var r, equal := SortOrder(t, results[s.i], results[s.j]);
      hasDuplicate := hasDuplicate || equal;
      s := Answered(s, r);
    }
    ResultSorts(sorter, a);
    SettledOrder(results, sorter);
    sorted := Placed(results, s.order);
  }

  /** The nodes in the order settled for their ranks. */
  lemma SettledOrder(results: seq<Path>, s: Sorter)
    requires Sorts(s, |results|) && InRange(s, |results|) && Permutes(Result(s, Ranks(results)), |results|)
    ensures SortedBySortOrder(results, Placed(results, Result(s, Ranks(results))), MeetsEqual(s, Ranks(results)))
  {
    hide Ranks, Result, LexBefore, Order, Sorts, MeetsEqual;
    var a, order, n := Ranks(results), Result(s, Ranks(results)), |results|;
    var sorted := Placed(results, order);
    ResultSorts(s, a);
    SamePlaced(results, order);
    forall i, j | 0 <= i < j < n ensures Order(sorted[i], sorted[j]) <= 0 {
      RanksAgree(results, order[j], order[i]);
      NotMore(sorted[i], sorted[j]);
    }
    if m :| 0 < m < n && sorted[m - 1] == sorted[m] {
      RanksAgree(results, order[m - 1], order[m]);
      NotMore(sorted[m], sorted[m]);
      EqualNeighboursMeet(s, a, m);
    }
  }

  function Placed(results: seq<Path>, order: seq<nat>): (sorted: seq<Path>)
    requires Permutes(order, |results|)
    ensures |sorted| == |order| && forall m :: 0 <= m < |order| ==> sorted[m] == results[order[m]]
  {
    seq(|order|, m requires 0 <= m < |order| => results[order[m]])
  }

  lemma SamePlaced(results: seq<Path>, order: seq<nat>)
    requires Permutes(order, |results|)
    ensures forall p :: p in Placed(results, order) <==> p in results
  {
    var n, sorted := |results|, Placed(results, order);
    forall p | p in results ensures p in sorted {
      var i :| 0 <= i < n && results[i] == p;
      Reaches(order, n, i);
      var m :| 0 <= m < n && order[m] == i;
      assert sorted[m] == p;
    }
  }

  lemma NotMore(p: Path, q: Path)
    ensures Order(p, q) > 0 ==> Order(q, p) < 0
    ensures p == q ==> Order(p, q) == 0
  {
    LexTotal(p, q);
  }

  /** `uniqueSort`. */
  method UniqueSort(t: Tree, results: seq<Path>, sorter: Sorter) returns (unique: seq<Path>)
    requires forall p :: p in results ==> Has(t, p)
    requires Sorts(sorter, |results|)
    ensures forall p :: p in unique <==> p in results
    ensures forall i, j :: 0 <= i < j < |unique| ==> Precedes(t, unique[i], unique[j])
  {
    var sorted, hasDuplicate := Sort(t, results, sorter);
    unique := sorted;
    if hasDuplicate {
      var i := 1;
      while i < |unique|
        invariant 1 <= i && (i <= |unique| || unique == [])
        invariant forall p :: p in unique <==> p in sorted
        invariant forall j, k :: 0 <= j < k < |unique| ==> Order(unique[j], unique[k]) <= 0
        invariant forall j :: 0 < j < i && j < |unique| ==> unique[j - 1] != unique[j]
        decreases |unique| - i
      {
        if unique[i] == unique[i - 1] {
          RemoveRepeated(unique, i);
          unique := unique[..i] + unique[i + 1..];
          i := i - 1;
        }
        i := i + 1;
      }
    }
    StrictlyOrdered(unique);
    forall i, j | 0 <= i < j < |unique| ensures Precedes(t, unique[i], unique[j]) {
      assert unique[i] in unique && unique[j] in unique;
      LexIsDocumentOrder(t, unique[i], unique[j]);
    }
  }

  lemma RemoveRepeated(ps: seq<Path>, i: nat)
    requires 0 < i < |ps| && ps[i] == ps[i - 1]
    ensures forall p :: p in ps[..i] + ps[i + 1..] <==> p in ps
  {
    forall p | p in ps ensures p in ps[..i] + ps[i + 1..] {
      var k :| 0 <= k < |ps| && ps[k] == p;
      if k == i { assert ps[..i][i - 1] == p; }
      else if k < i { assert ps[..i][k] == p; }
      else { assert ps[i + 1..][k - i - 1] == p; }
    }
  }

  /** In a weakly ordered sequence distinct neighbours are enough. */
  lemma StrictlyOrdered(ps: seq<Path>)
    requires forall j, k :: 0 <= j < k < |ps| ==> Order(ps[j], ps[k]) <= 0
    requires forall j :: 0 < j < |ps| ==> ps[j - 1] != ps[j]
    ensures Increasing(ps)
  {
    forall i, j | 0 <= i < j < |ps| ensures LexBefore(ps[i], ps[j]) {
      assert Order(ps[j - 1], ps[j]) <= 0;
      if i < j - 1 && ps[i] == ps[j] {
        assert Order(ps[i], ps[j - 1]) <= 0;
        LexTotal(ps[i], ps[j - 1]);
      }
    }
  }
}
