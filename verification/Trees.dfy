/** Document trees.  A node is named by its path from the root: the child indices on
    the way down, so the root is the empty path. */
module Trees {
  import opened Wrappers

  datatype Tree = Tree(element: bool, children: seq<Tree>)

  type Path = seq<nat>

  predicate Has(t: Tree, p: Path) {
    p == [] || (p[0] < |t.children| && Has(t.children[p[0]], p[1..]))
  }

  function At(t: Tree, p: Path): Tree
    requires Has(t, p)
  {
    if p == [] then t else At(t.children[p[0]], p[1..])
  }

  /** `nodeType === 1` */
  predicate IsElement(t: Tree, p: Path) {
    Has(t, p) && At(t, p).element
  }

  function ParentNode(p: Path): Option<Path> {
    if p == [] then None else Some(p[..|p| - 1])
  }

  function PreviousSibling(p: Path): Option<Path> {
    if p == [] || p[|p| - 1] == 0 then None else Some(p[..|p| - 1] + [p[|p| - 1] - 1])
  }

  function NextSibling(t: Tree, p: Path): Option<Path>
    requires Has(t, p)
  {
    if p == [] then None else
    var q := p[..|p| - 1] + [p[|p| - 1] + 1];
    if Has(t, q) then Some(q) else None
  }

  lemma {:induction false} ChildOf(t: Tree, p: Path, k: nat)
    ensures Has(t, p + [k]) <==> Has(t, p) && k < |At(t, p).children|
    ensures Has(t, p + [k]) ==> At(t, p + [k]) == At(t, p).children[k]
  {
    if p != [] {
      assert (p + [k])[1..] == p[1..] + [k];
      if p[0] < |t.children| { ChildOf(t.children[p[0]], p[1..], k); }
    } else {
      assert [] + [k] == [k] && [k][1..] == [];
    }
  }

  lemma ParentIn(t: Tree, p: Path)
    requires Has(t, p) && p != []
    ensures Has(t, p[..|p| - 1]) && p[|p| - 1] < |At(t, p[..|p| - 1]).children|
  {
    assert p == p[..|p| - 1] + [p[|p| - 1]];
    ChildOf(t, p[..|p| - 1], p[|p| - 1]);
  }

  /** The nodes in document order: a node, then its children's subtrees from left to right. */
  function Preorder(t: Tree): seq<Path>
    decreases t, 0
  {
    [[]] + Forest(t.children, 0)
  }

  function Forest(ts: seq<Tree>, from: nat): seq<Path>
    decreases ts, 1
  {
    if ts == [] then [] else Below(from, Preorder(ts[0])) + Forest(ts[1..], from + 1)
  }

  function Below(k: nat, ps: seq<Path>): (qs: seq<Path>)
    ensures |qs| == |ps| && forall i :: 0 <= i < |qs| ==> qs[i] == [k] + ps[i]
  {
    seq(|ps|, i requires 0 <= i < |ps| => [k] + ps[i])
  }

  /** `a` comes before `b` in document order. */
  ghost predicate Precedes(t: Tree, a: Path, b: Path) {
    exists i, j :: 0 <= i < j < |Preorder(t)| && Preorder(t)[i] == a && Preorder(t)[j] == b
  }
}
