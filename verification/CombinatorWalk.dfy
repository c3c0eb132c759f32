/** Sizzle's memoised walk along ancestors or preceding siblings (`dirCheck` and
    `dirNodeCheck`), against the plain walk to the nearest match.

    The two functions differ only in what counts as a match and in whether a match on
    a node that is not an element is possible; both are instances of `DirWalk`. */
module CombinatorWalk {
  import opened Wrappers
  import opened Trees

  datatype Dir = ParentDir | PreviousDir

  function Step(dir: Dir, p: Path): Option<Path> {
    if dir == ParentDir then ParentNode(p) else PreviousSibling(p)
  }

  /** How far the walk can still go. */
  function Left(dir: Dir, p: Path): nat {
    if dir == ParentDir then |p| else if p == [] then 0 else p[|p| - 1]
  }

  lemma StepLess(dir: Dir, p: Path)
    ensures Step(dir, p).Some? ==> Left(dir, Step(dir, p).value) < Left(dir, p)
  {
  }

  /** An entry of `checkSet`. */
  datatype Entry = False | True | Elem(p: Path)

  /** `cur`: a node to find, a selector part to filter by, or (dirNodeCheck) a node name. */
  datatype Part = ByNode(node: Path) | ByFilter(accepts: Path -> bool) | ByName(named: Path -> bool)

  /** What a visited node sets `match` to; None if the walk goes on. */
  function Match(t: Tree, cur: Part, p: Path): Option<Entry> {
    match cur
    case ByNode(node) => if IsElement(t, p) && p == node then Some(True) else None
    case ByFilter(accepts) => if IsElement(t, p) && accepts(p) then Some(Elem(p)) else None
    case ByName(named) => if named(p) then Some(Elem(p)) else None
  }

  /** The plain walk, starting at a node or off the end. */
  function Nearest(t: Tree, dir: Dir, cur: Part, elem: Option<Path>): Entry
    decreases if elem.Some? then Left(dir, elem.value) + 1 else 0
  {
    if elem.None? then False
    else if Match(t, cur, elem.value).Some? then Match(t, cur, elem.value).value
    else
      StepLess(dir, elem.value);
      Nearest(t, dir, cur, Step(dir, elem.value))
  }

  /** The node `k` steps along the walk, if the walk gets that far. */
  function Hop(dir: Dir, start: Option<Path>, k: nat): Option<Path>
    decreases k
  {
    if k == 0 || start.None? then start else Hop(dir, Step(dir, start.value), k - 1)
  }

  ghost predicate MatchesAt(t: Tree, dir: Dir, cur: Part, start: Option<Path>, k: nat) {
    Hop(dir, start, k).Some? && Match(t, cur, Hop(dir, start, k).value).Some?
  }

  /** The plain walk finds the first match along the way, and False only if there is none. */
  lemma {:induction false} NearestIsFirstMatch(t: Tree, dir: Dir, cur: Part, start: Option<Path>, k: nat)
    requires MatchesAt(t, dir, cur, start, k) && forall j :: 0 <= j < k ==> !MatchesAt(t, dir, cur, start, j)
    ensures Nearest(t, dir, cur, start) == Match(t, cur, Hop(dir, start, k).value).value
    decreases k
  {
    if k > 0 {
      assert !MatchesAt(t, dir, cur, start, 0);
      var next := Step(dir, start.value);
      forall j | 0 <= j < k - 1 ensures !MatchesAt(t, dir, cur, next, j) {
        assert !MatchesAt(t, dir, cur, start, j + 1);
      }
      StepLess(dir, start.value);
      NearestIsFirstMatch(t, dir, cur, next, k - 1);
    }
  }

  lemma {:induction false} NearestIsFalse(t: Tree, dir: Dir, cur: Part, start: Option<Path>)
    requires forall k: nat :: !MatchesAt(t, dir, cur, start, k)
    ensures Nearest(t, dir, cur, start) == False
    decreases if start.Some? then Left(dir, start.value) + 1 else 0
  {
    if start.Some? {
      assert !MatchesAt(t, dir, cur, start, 0);
      var next := Step(dir, start.value);
      StepLess(dir, start.value);
      forall k: nat | true ensures !MatchesAt(t, dir, cur, next, k) {
        assert !MatchesAt(t, dir, cur, start, k + 1);
      }
      NearestIsFalse(t, dir, cur, next);
    }
  }

  /** What one entry is replaced by. */
  function Wanted(t: Tree, dir: Dir, cur: Part, entry: Entry): Entry {
    match entry
    case False => False
    case True => False  // `true` has no neighbours
    case Elem(p) => Nearest(t, dir, cur, Step(dir, p))
  }

  // ---- What the walk is for ----

  /** `q` is an ancestor of `p`, or a sibling before it. */
  ghost predicate OnTheWay(dir: Dir, p: Path, q: Path) {
    match dir
    case ParentDir => q < p
    case PreviousDir => exists up, j, k :: p == up + [j] && q == up + [k] && k < j
  }

  /** The node is what the selector part asks for. */
  ghost predicate Accepts(t: Tree, cur: Part, q: Path) {
    match cur
    case ByNode(node) => q == node && Has(t, q) && At(t, q).element
    case ByFilter(accepts) => Has(t, q) && At(t, q).element && accepts(q)
    case ByName(named) => named(q)
  }

  /** The nearest node on the way that is accepted, and none nearer. */
  ghost predicate IsNearest(t: Tree, dir: Dir, cur: Part, p: Path, q: Path) {
    && OnTheWay(dir, p, q) && Accepts(t, cur, q)
    && forall r :: OnTheWay(dir, p, r) && OnTheWay(dir, r, q) ==> !Accepts(t, cur, r)
  }

  /** What an entry is to become: the nearest accepted node, or `true` if a given node was
      looked for; False if there is none. */
  ghost predicate Answers(t: Tree, dir: Dir, cur: Part, entry: Entry, found: Entry) {
    if entry.Elem? && exists q :: OnTheWay(dir, entry.p, q) && Accepts(t, cur, q)
    then exists q :: IsNearest(t, dir, cur, entry.p, q) && found == if cur.ByNode? then True else Elem(q)
    else found == False
  }

  /** The node reached by a step is the first on the way; the rest are on its way. */
  lemma StepIsFirst(dir: Dir, p: Path, q: Path)
    ensures OnTheWay(dir, p, q) <==>
      Step(dir, p).Some? && (q == Step(dir, p).value || OnTheWay(dir, Step(dir, p).value, q))
  {
    match dir
    case ParentDir =>
    case PreviousDir =>
      if p != [] && p[|p| - 1] > 0 {
        var up, j := p[..|p| - 1], p[|p| - 1];
        var next := up + [j - 1];
        assert p == up + [j];
        Siblings(p, q);
        Siblings(next, q);
        assert next[..|next| - 1] == up && next[|next| - 1] == j - 1;
      } else {
        Siblings(p, q);
      }
  }

  lemma Siblings(p: Path, q: Path)
    ensures OnTheWay(PreviousDir, p, q) <==>
      p != [] && |q| == |p| && q[..|p| - 1] == p[..|p| - 1] && q[|p| - 1] < p[|p| - 1]
  {
    if p != [] && |q| == |p| && q[..|p| - 1] == p[..|p| - 1] && q[|p| - 1] < p[|p| - 1] {
      var up := p[..|p| - 1];
      assert p == up + [p[|p| - 1]] && q == up + [q[|p| - 1]];
    }
    if up, j, k :| p == up + [j] && q == up + [k] && k < j {
      assert p[..|p| - 1] == up && q[..|p| - 1] == up && p[|p| - 1] == j && q[|p| - 1] == k;
    }
  }

  lemma MatchAccepts(t: Tree, cur: Part, q: Path)
    ensures Match(t, cur, q) == if Accepts(t, cur, q) then Some(if cur.ByNode? then True else Elem(q)) else None
  {
  }

  /** The plain walk gives what an entry is to become. */
  lemma {:induction false} NearestAnswers(t: Tree, dir: Dir, cur: Part, p: Path)
    ensures Answers(t, dir, cur, Elem(p), Nearest(t, dir, cur, Step(dir, p)))
    decreases Left(dir, p)
  {
    hide OnTheWay, Accepts, Match;
    forall q | true
      ensures OnTheWay(dir, p, q) <==>
        Step(dir, p).Some? && (q == Step(dir, p).value || OnTheWay(dir, Step(dir, p).value, q))
    {
      StepIsFirst(dir, p, q);
    }
    StepLess(dir, p);
    if Step(dir, p).Some? {
      var next := Step(dir, p).value;
      MatchAccepts(t, cur, next);
      if Accepts(t, cur, next) {
        forall r | OnTheWay(dir, p, r) && OnTheWay(dir, r, next) ensures false { WayIsOneWay(dir, next, r); }
        assert IsNearest(t, dir, cur, p, next);
      } else {
        NearestAnswers(t, dir, cur, next);
        if q :| IsNearest(t, dir, cur, next, q) {
          assert IsNearest(t, dir, cur, p, q);
        }
      }
    }
  }

  lemma WayIsOneWay(dir: Dir, p: Path, q: Path)
    ensures OnTheWay(dir, p, q) ==> Left(dir, q) < Left(dir, p)
    ensures !(OnTheWay(dir, q, p) && (p == q || OnTheWay(dir, p, q)))
  {
    if dir == PreviousDir {
      Siblings(p, q);
      Siblings(q, p);
    }
  }

  /** The marks Sizzle leaves on nodes. */
  class Marks {
    var expando: map<Path, nat>
    var sizset: map<Path, nat>

    constructor ()
      ensures expando == map[] && sizset == map[]
    {
      expando, sizset := map[], map[];
    }

    predicate Marked(p: Path, doneName: nat)
      reads this
    {
      p in expando && expando[p] == doneName
    }

    /** The marks left under this name. */
    ghost function Under(doneName: nat): map<Path, nat>
      reads this
    {
      map p | p in expando && p in sizset && expando[p] == doneName :: sizset[p]
    }

    lemma UnderAt(p: Path, doneName: nat)
      requires Complete(doneName) && Marked(p, doneName)
      ensures p in sizset && p in Under(doneName) && Under(doneName)[p] == sizset[p]
    {
    }

    ghost predicate Complete(doneName: nat)
      reads this
    {
      forall p :: Marked(p, doneName) ==> p in sizset
    }

    method Mark(p: Path, doneName: nat, i: nat)
      modifies this
      ensures expando == old(expando)[p := doneName] && sizset == old(sizset)[p := i]
      ensures Under(doneName) == old(Under(doneName))[p := i] && (old(Complete(doneName)) ==> Complete(doneName))
    {
      expando := expando[p := doneName];
      sizset := sizset[p := i];
    }

    /** Filtering by a selector part may run other walks, which write marks of their own
        over these. */
    method Overwrite(nodes: set<Path>, other: nat, doneName: nat)
      requires other != doneName
      modifies this
      ensures Under(doneName) == old(Under(doneName)) - nodes && (old(Complete(doneName)) ==> Complete(doneName))
    {
      expando := map p | p in expando.Keys + nodes :: if p in nodes then other else expando[p];
      sizset := map p | p in sizset.Keys + nodes :: if p in nodes then 0 else sizset[p];
    }
  }

  /** Every mark of this walk leads to the right answer: it names an entry that is done
      (or, for the walk under way, the entry it will fill) whose value is the nearest
      match from the marked node on. */
  ghost predicate MarksRight(marks: map<Path, nat>, t: Tree, dir: Dir, cur: Part, done: seq<Entry>) {
    forall p :: p in marks ==> marks[p] < |done| && done[marks[p]] == Nearest(t, dir, cur, Some(p))
  }

  /** The marks of entry `i` lie behind `elem` on its walk. */
  ghost predicate MarksBehind(marks: map<Path, nat>, dir: Dir, i: nat, elem: Option<Path>) {
    forall p :: p in marks && marks[p] == i && elem.Some? ==> Left(dir, elem.value) < Left(dir, p)
  }

  lemma MarkedAnswer(marks: map<Path, nat>, t: Tree, dir: Dir, cur: Part, done: seq<Entry>, wanted: Entry, p: Path)
    requires MarksRight(marks, t, dir, cur, done + [wanted]) && MarksBehind(marks, dir, |done|, Some(p)) && p in marks
    ensures marks[p] < |done| && done[marks[p]] == Nearest(t, dir, cur, Some(p))
  {
  }

  lemma MarkOne(marks: map<Path, nat>, t: Tree, dir: Dir, cur: Part, done: seq<Entry>, wanted: Entry, p: Path)
    requires MarksRight(marks, t, dir, cur, done + [wanted]) && MarksBehind(marks, dir, |done|, Some(p))
    requires wanted == Nearest(t, dir, cur, Some(p))
    ensures MarksRight(marks[p := |done|], t, dir, cur, done + [wanted])
    ensures MarksBehind(marks[p := |done|], dir, |done|, Step(dir, p)) && MarksBehind(marks, dir, |done|, Step(dir, p))
  {
    StepLess(dir, p);
  }

  lemma FewerMarks(marks: map<Path, nat>, nodes: set<Path>, t: Tree, dir: Dir, cur: Part, done: seq<Entry>,
                   i: nat, elem: Option<Path>)
    requires MarksRight(marks, t, dir, cur, done) && MarksBehind(marks, dir, i, elem)
    ensures MarksRight(marks - nodes, t, dir, cur, done) && MarksBehind(marks - nodes, dir, i, elem)
  {
  }

  /** The inner loop, for entry `i`: `done` are the entries before it.  `overwritten(k)`
      are the nodes whose marks the k-th match test writes over. */
  method Walk(t: Tree, dir: Dir, cur: Part, doneName: nat, done: seq<Entry>, start: Option<Path>, isXML: bool,
              m: Marks, overwritten: nat -> set<Path>, other: nat, tests: nat) returns (found: Entry, tested: nat)
    requires m.Complete(doneName) && MarksRight(m.Under(doneName), t, dir, cur, done) && other != doneName
    modifies m
    ensures found == Nearest(t, dir, cur, start)
    ensures m.Complete(doneName) && MarksRight(m.Under(doneName), t, dir, cur, done + [found])
  {
    var i := |done|;
    ghost var wanted := Nearest(t, dir, cur, start);
    found, tested := False, tests;
    var elem := start;
    NoMarksYet(m.Under(doneName), t, dir, cur, done, wanted, start);
    hide MarksRight, MarksBehind, Marks.Under;
    while elem.Some?
      invariant m.Complete(doneName) && MarksRight(m.Under(doneName), t, dir, cur, done + [wanted])
      invariant MarksBehind(m.Under(doneName), dir, i, elem)
      invariant Nearest(t, dir, cur, elem) == wanted && found == False
      decreases if elem.Some? then Left(dir, elem.value) + 1 else 0
    {
      var p := elem.value;
      StepLess(dir, p);
      if m.Marked(p, doneName) {
        m.UnderAt(p, doneName);
        MarkedAnswer(m.Under(doneName), t, dir, cur, done, wanted, p);
        found := done[m.sizset[p]];
        break;
      }
      MarkOne(m.Under(doneName), t, dir, cur, done, wanted, p);
      if IsElement(t, p) && !isXML {
        m.Mark(p, doneName, i);
      }
      FewerMarks(m.Under(doneName), overwritten(tested), t, dir, cur, done + [wanted], i, Step(dir, p));
      m.Overwrite(overwritten(tested), other, doneName);
      tested := tested + 1;
      var hit := Match(t, cur, p);
      if hit.Some? {
        found := hit.value;
        break;
      }
      elem := Step(dir, p);
    }
  }

  lemma NoMarksYet(marks: map<Path, nat>, t: Tree, dir: Dir, cur: Part, done: seq<Entry>, wanted: Entry,
                   start: Option<Path>)
    requires MarksRight(marks, t, dir, cur, done)
    ensures MarksRight(marks, t, dir, cur, done + [wanted]) && MarksBehind(marks, dir, |done|, start)
  {
  }

  /** The loop over `checkSet`: with a fresh `doneName` the marks never change an answer. */
  method DirWalk(t: Tree, dir: Dir, cur: Part, doneName: nat, checkSet: array<Entry>, isXML: bool, m: Marks,
                 overwritten: nat -> set<Path>, other: nat)
    requires forall p :: !m.Marked(p, doneName)
    requires other != doneName
    modifies checkSet, m
    ensures forall i :: 0 <= i < checkSet.Length ==> checkSet[i] == Wanted(t, dir, cur, old(checkSet[i]))
    ensures forall i :: 0 <= i < checkSet.Length ==> Answers(t, dir, cur, old(checkSet[i]), checkSet[i])
  {
    assert forall p :: p in m.Under(doneName) ==> m.Marked(p, doneName);
    var tests := 0;
    var i := 0;
    while i < checkSet.Length
      invariant 0 <= i <= checkSet.Length
      invariant forall j :: 0 <= j < i ==> checkSet[j] == Wanted(t, dir, cur, old(checkSet[j]))
      invariant forall j :: i <= j < checkSet.Length ==> checkSet[j] == old(checkSet[j])
      invariant m.Complete(doneName) && MarksRight(m.Under(doneName), t, dir, cur, checkSet[..i])
    {
      var entry := checkSet[i];
      if entry != False {
        var start := if entry.Elem? then Step(dir, entry.p) else None;
        var found, tested := Walk(t, dir, cur, doneName, checkSet[..i], start, isXML, m, overwritten, other, tests);
        checkSet[i], tests := found, tested;
      }
      i := i + 1;
    }
    forall j | 0 <= j < checkSet.Length ensures Answers(t, dir, cur, old(checkSet[j]), checkSet[j]) {
      WantedAnswers(t, dir, cur, old(checkSet[j]));
    }
  }

  /** What the plain walk gives is what the entry is to become. */
  lemma WantedAnswers(t: Tree, dir: Dir, cur: Part, entry: Entry)
    ensures Answers(t, dir, cur, entry, Wanted(t, dir, cur, entry))
  {
    hide Answers;
    if entry.Elem? {
      NearestAnswers(t, dir, cur, entry.p);
    } else {
      NoNeighbours(t, dir, cur, entry);
    }
  }

  lemma NoNeighbours(t: Tree, dir: Dir, cur: Part, entry: Entry)
    requires !entry.Elem?
    ensures Answers(t, dir, cur, entry, False)
  {
  }
}
