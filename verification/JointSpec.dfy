/** Several callback lists used by one program, as `jQuery.Deferred` uses three.

    A function that a list applies is either user code, which may then use any of the
    lists, or one of a Deferred's own: it sets the variable `state`, disables another
    list, or locks the progress list, and returns.  The Deferred's lists are the first
    three.  A history is a sequence of single events on any of the lists. */
module JointSpec {
  import opened CallbackSpec
  import opened DeferredSpec

  datatype Happening<F, A> = OnList(k: nat, e: Event<Fn<F>, A>) | StateIs(s: State)

  /** Due: an own function has been called.  Returning: it has had its effect. */
  datatype OwnCall = NoCall | Due(k: nat, own: Own) | Returning(k: nat)

  function Place(k: Kind): (i: nat)
    ensures i < 3
  {
    match k case Done => 0 case Fail => 1 case Progress => 2
  }

  function KindAt(i: nat): (k: Kind)
    ensures i < 3 ==> Place(k) == i
  {
    if i == 0 then Done else if i == 1 then Fail else Progress
  }

  predicate Effect(own: Own, k: nat, disable: bool) {
    match own
    case SetState(_) => false
    case DisableList(j) => k == Place(j) && disable
    case LockProgress => k == Place(Progress) && !disable
  }

  /** An own function belongs to one of a Deferred's lists and acts on another. */
  predicate Aimed<F>(f: Fn<F>, k: nat, n: nat) {
    f.Own? ==> k < 3 <= n && !Effect(f.own, k, true) && !Effect(f.own, k, false)
  }

  datatype Joint<F(==,!new), A> = Joint(
    lists: seq<CbList<Fn<F>, A>>,
    state: State,
    call: OwnCall,
    hidden: nat,      // of the first so many lists user code sees only `add` and `fireWith`
    sealed: bool)     // own functions are no longer added
  {
    predicate OwnNext(k: nat) {
      k < |lists| && lists[k].Enabled(Apply) && lists[k].pending[0].fn.Own?
    }

    /** No own function waits at the head of a loop: one that does is applied at once. */
    predicate NoneWaits() {
      forall k :: 0 <= k < |lists| ==> !OwnNext(k)
    }

    predicate MayAdd(k: nat, fns: seq<Fn<F>>) {
      forall f :: f in fns ==> f.Ext? || (!sealed && Aimed(f, k, |lists|))
    }

    /** What user code may do. */
    predicate Open(k: nat, e: Event<Fn<F>, A>) {
      match e
      case Add(fns) => MayAdd(k, fns)
      case FireWith(_) => true
      case Remove(_) => k >= hidden
      case Disable => k >= hidden
      case Lock => k >= hidden
      case Empty => k >= hidden
      case _ => false
    }

    predicate Enabled(h: Happening<F, A>) {
      match h
      case StateIs(s) => call.Due? && call.own == SetState(s)
      case OnList(k, e) =>
        && k < |lists| && lists[k].Enabled(e)
        && match call
           case Due(_, own) => (e.Disable? || e.Lock?) && Effect(own, k, e.Disable?)
           case Returning(j) => k == j && e == Return(true)
           case NoCall =>
             if e.Apply? then forall j :: 0 <= j < |lists| && j != k ==> !OwnNext(j)
             else NoneWaits() && (e.Return? || e.End? || Open(k, e))
    }

    function Next(h: Happening<F, A>): Joint<F, A>
      requires Enabled(h)
    {
      match h
      case StateIs(s) => this.(state := s, call := Returning(call.k))
      case OnList(k, e) =>
        this.(lists := lists[k := lists[k].Step(e)],
              call := match call
                      case Due(j, _) => Returning(j)
                      case Returning(_) => NoCall
                      case NoCall =>
                        if e.Apply? && lists[k].pending[0].fn.Own? then Due(k, lists[k].pending[0].fn.own) else NoCall)
    }

    /** The first three lists, as a Deferred. */
    function AsDeferred(): Deferred<F, A>
      requires |lists| >= 3
    {
      Deferred(lists[0], lists[1], lists[2], state)
    }
  }

  ghost predicate AllAimed<F(!new), A>(j: Joint<F, A>) {
    forall k, r :: 0 <= k < |j.lists| && r in j.lists[k].Whole() ==> Aimed(r.fn, k, |j.lists|)
  }

  ghost predicate Started<F(!new), A>(j: Joint<F, A>) {
    j.call == NoCall && AllAimed(j)
  }

  ghost predicate LegalTrace<F(!new), A>(start: Joint<F, A>, trace: seq<Happening<F, A>>)
    decreases trace, 0
  {
    trace == [] ||
    (var n := |trace| - 1; LegalTrace(start, trace[..n]) && RunTrace(start, trace[..n]).Enabled(trace[n]))
  }

  ghost function RunTrace<F(!new), A>(start: Joint<F, A>, trace: seq<Happening<F, A>>): Joint<F, A>
    requires LegalTrace(start, trace)
    decreases trace, 1
  {
    if trace == [] then start else var n := |trace| - 1; RunTrace(start, trace[..n]).Next(trace[n])
  }

  function Unwrapped<F>(fns: seq<Fn<F>>): (exts: seq<F>)
    requires forall f :: f in fns ==> f.Ext?
    ensures |exts| == |fns| && forall i :: 0 <= i < |fns| ==> fns[i] == Ext(exts[i])
  {
    assert forall i :: 0 <= i < |fns| ==> fns[i] in fns;
    seq(|fns|, i requires 0 <= i < |fns| => fns[i].ext)
  }

  /** What a happening is to the Deferred: own functions are part of the act before. */
  ghost function ActsFor<F(!new), A>(j: Joint<F, A>, h: Happening<F, A>): seq<Act<F, A>> {
    if h.StateIs? || h.k >= 3 || j.call != NoCall then [] else
    var k := KindAt(h.k);
    match h.e
    case Add(fns) => if forall f :: f in fns ==> f.Ext? then [Register(k, Unwrapped(fns))] else []
    case FireWith(a) => [Trigger(k, a)]
    case Apply => if j.OwnNext(h.k) then [] else [ApplyNext(k)]
    case Return(result) => [ReturnFrom(k, result)]
    case End => [EndLoop(k)]
    case _ => []
  }

  ghost function ActsOf<F(!new), A>(start: Joint<F, A>, trace: seq<Happening<F, A>>): seq<Act<F, A>>
    requires LegalTrace(start, trace)
  {
    if trace == [] then [] else
    var n := |trace| - 1;
    ActsOf(start, trace[..n]) + ActsFor(RunTrace(start, trace[..n]), trace[n])
  }
}
