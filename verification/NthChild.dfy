/** Sizzle's `:nth-child(an+b)` test, which numbers the children of a parent once per
    selector and keeps the numbers on the nodes. */
module NthChild {
  import opened Wrappers
  import opened Trees

  /** The 1-based index of child `k` among the element children. */
  function ElementIndex(cs: seq<Tree>, k: nat): nat
    requires k <= |cs|
  {
    if k == 0 then 0 else ElementIndex(cs, k - 1) + if cs[k - 1].element then 1 else 0
  }

  /** The number `nodeIndex` is to hold; None for the root and for nodes that are no elements. */
  function TrueIndex(t: Tree, p: Path): Option<nat> {
    if p == [] || !IsElement(t, p) then None
    else
      ParentIn(t, p);
      Some(ElementIndex(At(t, p[..|p| - 1]).children, p[|p| - 1] + 1))
  }

  /** JavaScript's `%` on integers truncates. */
  function Remainder(x: int, y: int): int
    requires y != 0
  {
    var r := Abs(x) % Abs(y);
    if x < 0 then -r else r
  }

  /** The test on the coefficients, given the index. */
  predicate Passes(index: int, first: int, last: int) {
    var diff := index - last;
    if first == 0 then diff == 0
    else Remainder(diff, first) == 0 && diff as real / first as real >= 0.0
  }

  function Abs(x: int): nat { if x < 0 then -x else x }

  lemma Multiples(x: int, y: int)
    requires y != 0
    ensures Remainder(x, y) == 0 <==> exists n :: x == y * n
  {
    if Remainder(x, y) == 0 { Factor(x, y); }
    if n :| x == y * n {
      assert Abs(x) == Abs(y) * Abs(n);
      MultipleHasNoRest(Abs(y), Abs(n));
    }
  }

  lemma Factor(x: int, y: int)
    requires y != 0 && Remainder(x, y) == 0
    ensures exists n :: x == y * n
  {
    var ax, ay := Abs(x), Abs(y);
    assert ax % ay == 0;
    DividesExactly(ax, ay);
    SignedFactor(x, y, ax / ay);
  }

  lemma DividesExactly(a: nat, b: nat)
    requires b > 0 && a % b == 0
    ensures a == b * (a / b)
  {
  }

  lemma SignedFactor(x: int, y: int, q: int)
    requires q >= 0 && Abs(x) == Abs(y) * q
    ensures exists n :: x == y * n
  {
    Signs(y, q);
    var n := if (x < 0) == (y < 0) then q else -q;
    assert x == y * n;
  }

  lemma Signs(y: int, q: int)
    ensures y * -q == -(y * q) && -y * q == -(y * q)
  {
  }

  lemma {:induction false} MultipleHasNoRest(y: int, m: nat)
    requires y > 0
    ensures (y * m) % y == 0
  {
    if m > 0 {
      MultipleHasNoRest(y, m - 1);
      var x := y * (m - 1);
      assert y * m == x + y;
      AddWhole(x, y);
    }
  }

  lemma AddWhole(x: int, y: int)
    requires y > 0 && x >= 0
    ensures (x + y) % y == x % y
  {
    var q, r := x / y, x % y;
    assert x == y * q + r;
    assert x + y == y * (q + 1) + r;
    UniqueRest(x + y, y, q + 1, r);
  }

  lemma UniqueRest(x: int, y: int, q: int, r: int)
    requires y > 0 && x == y * q + r && 0 <= r < y
    ensures x % y == r
  {
    var q', r' := x / y, x % y;
    var d := q - q';
    Spread(y, q, q');
    assert x == y * q' + r';
    assert y * d == r' - r;
    if d >= 1 { AtLeast(y, d); } else if d <= -1 { AtLeast(y, -d); Spread(y, 0, d); }
  }

  lemma Spread(y: int, a: int, b: int)
    ensures y * (a - b) == y * a - y * b
  {
  }

  lemma AtLeast(y: int, d: int)
    requires y > 0 && d >= 1
    ensures y * d >= y
  {
    Spread(y, d, d - 1);
    assert y * (d - 1) >= 0;
  }

  lemma Quotient(x: int, y: int, n: int)
    requires y != 0 && x == y * n
    ensures x as real / y as real >= 0.0 <==> n >= 0
  {
    assert x as real == y as real * n as real;
    assert x as real / y as real == n as real;
  }

  /** The arithmetic is that of section 6.6.5.2 of Selectors Level 3, for all signs of the
      coefficients: the index is an+b for some n at least 0. */
  lemma PassesIffAnPlusB(index: int, a: int, b: int)
    ensures Passes(index, a, b) <==> exists n: nat :: index == a * n + b
  {
    var diff := index - b;
    if a == 0 {
      if diff == 0 { assert index == a * 0 + b; }
    } else {
      Multiples(diff, a);
      if Passes(index, a, b) {
        var n :| diff == a * n;
        Quotient(diff, a, n);
        assert index == a * n + b;
      }
      if n: nat :| index == a * n + b {
        Quotient(diff, a, n);
        assert diff == a * n;
      }
    }
  }

  /** The node is an element, and has a parent. */
  predicate IsElementChild(t: Tree, p: Path) {
    p != [] && Has(t, p) && At(t, p).element
  }

  ghost function ElementsBefore(cs: seq<Tree>, k: nat): set<nat>
    requires k <= |cs|
  {
    set j: nat | j < k && cs[j].element
  }

  /** The element children of its parent that do not come after the node. */
  ghost function UpTo(t: Tree, p: Path): set<nat>
    requires IsElementChild(t, p)
  {
    ParentIn(t, p);
    ElementsBefore(At(t, p[..|p| - 1]).children, p[|p| - 1] + 1)
  }

  /** What section 6.6.5.2 of Selectors Level 3 asks of a node that has a parent: it and the
      elements before it are an+b in number. */
  ghost predicate IsNthChild(t: Tree, p: Path, a: int, b: int) {
    IsElementChild(t, p) && exists n: nat :: |UpTo(t, p)| == a * n + b
  }

  lemma {:induction false} ElementIndexCounts(cs: seq<Tree>, k: nat)
    requires k <= |cs|
    ensures ElementIndex(cs, k) == |ElementsBefore(cs, k)|
  {
    if k > 0 {
      ElementIndexCounts(cs, k - 1);
      var before := ElementsBefore(cs, k - 1);
      assert ElementsBefore(cs, k) == if cs[k - 1].element then before + {k - 1} else before;
    }
  }

  /** The number a node is to hold is how many element children of its parent there are up
      to it. */
  lemma TrueIndexCounts(t: Tree, p: Path)
    ensures TrueIndex(t, p) == if IsElementChild(t, p) then Some(|UpTo(t, p)|) else None
  {
    if IsElementChild(t, p) {
      ParentIn(t, p);
      ElementIndexCounts(At(t, p[..|p| - 1]).children, p[|p| - 1] + 1);
    }
  }

  /** The shortcut for 1n+0. */
  lemma EveryIndexPasses(t: Tree, p: Path)
    ensures TrueIndex(t, p).Some? ==> IsNthChild(t, p, 1, 0)
  {
    TrueIndexCounts(t, p);
    if TrueIndex(t, p).Some? {
      var n: nat := TrueIndex(t, p).value;
      assert TrueIndex(t, p).value == 1 * n + 0;
    }
  }

  /** The marks on the nodes. */
  class Numbering {
    var expando: map<Path, nat>
    var nodeIndex: map<Path, nat>

    constructor ()
      ensures expando == map[] && nodeIndex == map[]
    {
      expando, nodeIndex := map[], map[];
    }

    /** Whatever number a node bears is right, whichever selector put it there. */
    ghost predicate Right(t: Tree)
      reads this
    {
      forall p :: p in nodeIndex ==> TrueIndex(t, p) == Some(nodeIndex[p])
    }

    /** The loop over the children of a parent. */
    method NumberChildren(t: Tree, parent: Path)
      requires Has(t, parent) && Right(t)
      modifies this
      ensures Right(t) && expando == old(expando)
      ensures forall p :: p in old(nodeIndex) ==> p in nodeIndex
      ensures forall k :: 0 <= k < |At(t, parent).children| && At(t, parent).children[k].element ==>
        parent + [k] in nodeIndex
    {
      var cs := At(t, parent).children;
      var count, k := 0, 0;
      while k < |cs|
        invariant 0 <= k <= |cs| && count == ElementIndex(cs, k)
        invariant Right(t) && expando == old(expando)
        invariant forall p :: p in old(nodeIndex) ==> p in nodeIndex
        invariant forall j :: 0 <= j < k && cs[j].element ==> parent + [j] in nodeIndex
      {
        if cs[k].element {
          count := count + 1;
          ChildOf(t, parent, k);
          var node := parent + [k];
          assert node[..|node| - 1] == parent && node[|node| - 1] == k;
          nodeIndex := nodeIndex[node := count];
        }
        k := k + 1;
      }
    }

    /** The `nth` case of the CHILD filter.  A node without an index compares as NaN. */
    method Nth(t: Tree, elem: Path, first: int, last: int, doneName: nat) returns (passes: bool)
      requires Has(t, elem) && Right(t)
      modifies this
      ensures Right(t)
      ensures IsElementChild(t, elem) ==> (passes <==> IsNthChild(t, elem, first, last))
      ensures !IsElementChild(t, elem) ==> (passes <==> first == 1 && last == 0)
    {
      TrueIndexCounts(t, elem);
      EveryIndexPasses(t, elem);
      if first == 1 && last == 0 {
        return true;
      }
      var parent := ParentNode(elem);
      if parent.Some? {
        ParentIn(t, elem);
        if !(parent.value in expando && expando[parent.value] == doneName) || elem !in nodeIndex {
          NumberChildren(t, parent.value);
          expando := expando[parent.value := doneName];
        }
      }
      assert elem != [] ==> elem == elem[..|elem| - 1] + [elem[|elem| - 1]];
      if elem != [] { ChildOf(t, elem[..|elem| - 1], elem[|elem| - 1]); }
      if elem !in nodeIndex {
        return false;
      }
      PassesIffAnPlusB(nodeIndex[elem], first, last);
      return Passes(nodeIndex[elem], first, last);
    }
  }
}
