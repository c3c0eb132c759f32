/** Proofs about several lists used together: what they do is a run of a Deferred. */
module JointRuns {
  import opened CallbackSpec
  import opened DeferredSpec
  import opened DeferredRuns
  import opened JointSpec

  /** A step puts nothing into a list but what it adds. */
  lemma StepWhole<F(!new), A>(l: CbList<F, A>, e: Event<F, A>)
    requires l.Enabled(e)
    ensures forall r :: r in l.Step(e).Whole() ==> r in l.Whole() || (e.Add? && r.fn in e.fns)
  {
    if e.Add? { AddWhole(l, e.fns); }
  }

  lemma AddWhole<F(!new), A>(l: CbList<F, A>, fns: seq<F>)
    ensures forall r :: r in l.DoAdd(fns).Whole() ==> r in l.Whole() || r.fn in fns
  {
    FreshFrom(fns, Fns(l.Whole()));
  }

  lemma {:induction false} FreshFrom<F(!new)>(fns: seq<F>, present: seq<F>)
    ensures forall f :: f in Fresh(fns, present) ==> f in fns
  {
    if fns != [] {
      FreshFrom(fns[1..], present);
      FreshFrom(fns[1..], present + [fns[0]]);
    }
  }

  // ---- Own functions stay where they belong ----

  ghost predicate CallOk<F(!new), A>(j: Joint<F, A>) {
    match j.call
    case NoCall => true
    case Due(k, own) => k < |j.lists| && j.lists[k].phase == Running && Aimed<F>(Own(own), k, |j.lists|)
    case Returning(k) => k < 3 && k < |j.lists| && j.lists[k].phase == Running
  }

  lemma NextAimed<F(!new), A>(j: Joint<F, A>, h: Happening<F, A>)
    requires AllAimed(j) && CallOk(j) && j.Enabled(h)
    ensures AllAimed(j.Next(h)) && CallOk(j.Next(h)) && |j.Next(h).lists| == |j.lists|
  {
    hide CbList.Step, CbList.Whole;
    if h.OnList? {
      hide CallOk;
      StepWhole(j.lists[h.k], h.e);
      NextCall(j, h.k, h.e);
    }
  }

  lemma NextCall<F(!new), A>(j: Joint<F, A>, k: nat, e: Event<Fn<F>, A>)
    requires AllAimed(j) && CallOk(j) && j.Enabled(OnList(k, e))
    ensures CallOk(j.Next(OnList(k, e)))
  {
    if e.Apply? {
      assert j.lists[k].pending[0] in j.lists[k].Whole();
    }
  }

  lemma StartedOk<F(!new), A>(start: Joint<F, A>)
    requires Started(start)
    ensures AllAimed(start) && CallOk(start)
  {
  }

  lemma NextFlags<F(!new), A>(j: Joint<F, A>, h: Happening<F, A>)
    requires j.Enabled(h)
    ensures j.Next(h).hidden == j.hidden && j.Next(h).sealed == j.sealed
  {
  }

  lemma {:induction false} RunAimed<F(!new), A>(start: Joint<F, A>, trace: seq<Happening<F, A>>)
    requires Started(start) && LegalTrace(start, trace)
    ensures var j := RunTrace(start, trace);
      AllAimed(j) && CallOk(j) && |j.lists| == |start.lists| && j.hidden == start.hidden && j.sealed == start.sealed
  {
    hide AllAimed, CallOk, Started, Joint.Enabled, Joint.Next;
    if trace == [] {
      StartedOk(start);
    } else {
      var n := |trace| - 1;
      RunAimed(start, trace[..n]);
      NextAimed(RunTrace(start, trace[..n]), trace[n]);
      NextFlags(RunTrace(start, trace[..n]), trace[n]);
    }
  }

  // ---- The three lists of a Deferred ----

  /** The Deferred once own functions waiting at the head of a loop are applied. */
  ghost function Drained<F(!new), A>(j: Joint<F, A>): Deferred<F, A>
    requires |j.lists| >= 3
  {
    var d := j.AsDeferred();
    if j.OwnNext(0) then d.Drain(Done) else if j.OwnNext(1) then d.Drain(Fail)
    else if j.OwnNext(2) then d.Drain(Progress) else d
  }

  /** When the function now running in list `k` has returned. */
  ghost function Returned<F(!new), A>(d: Deferred<F, A>, k: Kind): Deferred<F, A> {
    d.Put(k, d.Get(k).DoReturn(true))
  }

  /** `d` is what the lists amount to between two acts. */
  ghost predicate Tracks<F(!new), A>(d: Deferred<F, A>, j: Joint<F, A>)
    requires |j.lists| >= 3
  {
    && (forall i, k :: j.OwnNext(i) && j.OwnNext(k) ==> i == k)
    && (j.call != NoCall ==> j.NoneWaits())
    && match j.call
       case NoCall => d == Drained(j)
       case Due(k, own) => d == Returned(j.AsDeferred(), KindAt(k)).Perform(own).Drain(KindAt(k))
       case Returning(k) => d == Returned(j.AsDeferred(), KindAt(k)).Drain(KindAt(k))
  }

  /** The lists of a Deferred that only its own functions can disable or lock. */
  ghost predicate Guarded<F(!new), A>(j: Joint<F, A>) {
    |j.lists| >= 3 && j.hidden >= 3 && j.sealed && AllAimed(j) && CallOk(j)
  }

  lemma OwnIsOurs<F(!new), A>(j: Joint<F, A>, k: nat)
    requires AllAimed(j) && j.OwnNext(k)
    ensures k < 3
  {
    assert j.lists[k].pending[0] in j.lists[k].Whole();
  }

  lemma SameOwnNext<F(!new), A>(j: Joint<F, A>, k: nat)
    requires |j.lists| >= 3 && k < 3
    ensures j.OwnNext(k) == j.AsDeferred().OwnIsNext(KindAt(k))
    ensures j.AsDeferred().Get(KindAt(k)) == j.lists[k]
  {
  }

  lemma DrainedOnly<F(!new), A>(j: Joint<F, A>, k: nat)
    requires |j.lists| >= 3 && k < 3 && forall i :: j.OwnNext(i) ==> i == k
    ensures Drained(j) == j.AsDeferred().Drain(KindAt(k))
  {
    hide Joint.OwnNext, Deferred.OwnIsNext;
    SameOwnNext(j, k);
  }

  /** One list makes a step. */
  lemma NextLists<F(!new), A>(j: Joint<F, A>, k: nat, e: Event<Fn<F>, A>)
    requires j.Enabled(OnList(k, e)) && |j.lists| >= 3
    ensures var t := j.Next(OnList(k, e));
      && |t.lists| == |j.lists|
      && (k < 3 ==> t.AsDeferred() == j.AsDeferred().Put(KindAt(k), j.lists[k].Step(e)))
      && (k >= 3 ==> t.AsDeferred() == j.AsDeferred())
      && (forall i :: i != k ==> t.OwnNext(i) == j.OwnNext(i))
  {
    hide CbList.Step, CbList.Enabled;
  }

  /** An own function is called. */
  lemma TracksOwn<F(!new), A>(d: Deferred<F, A>, j: Joint<F, A>, k: nat)
    requires Guarded(j) && Tracks(d, j) && j.call.NoCall? && j.Enabled(OnList(k, Apply)) && j.OwnNext(k)
    ensures Tracks(d, j.Next(OnList(k, Apply)))
  {
    hide AllAimed, CallOk;
    assert k < 3 by { OwnIsOurs(j, k); }
    var t := j.Next(OnList(k, Apply));
    NextLists(j, k, Apply);
    DrainedOnly(j, k);
    SameOwnNext(j, k);
    hide Joint.Enabled, Joint.OwnNext;
    NotOwnNext(t, k);
    var l := j.lists[k];
    assert Returned(t.AsDeferred(), KindAt(k)) == j.AsDeferred().Put(KindAt(k), l.DoApply().DoReturn(true));
  }

  lemma NotOwnNext<F(!new), A>(j: Joint<F, A>, k: nat)
    requires k < |j.lists| ==> j.lists[k].phase != AtHead
    ensures !j.OwnNext(k)
  {
  }

  lemma ShutNotNext<F(!new), A>(j: Joint<F, A>, k: nat, e: Event<Fn<F>, A>)
    requires j.Enabled(OnList(k, e)) && (e.Disable? || e.Lock?) && !j.OwnNext(k)
    ensures !j.Next(OnList(k, e)).OwnNext(k)
  {
  }

  lemma ReturnedLater<F(!new), A>(d: Deferred<F, A>, k: nat, own: Own)
    requires Aimed<F>(Own(own), k, 3)
    ensures Returned(d.Perform(own), KindAt(k)) == Returned(d, KindAt(k)).Perform(own)
  {
    hide CbList.DoReturn;
  }

  /** It has its effect. */
  lemma TracksEffect<F(!new), A>(d: Deferred<F, A>, j: Joint<F, A>, h: Happening<F, A>)
    requires Guarded(j) && Tracks(d, j) && j.call.Due? && j.Enabled(h)
    ensures Tracks(d, j.Next(h))
  {
    hide AllAimed, Deferred.Drain, CbList.DoReturn;
    var t := j.Next(h);
    EffectWaits(j, h);
    if h.OnList? { NextLists(j, h.k, h.e); }
    assert t.AsDeferred() == j.AsDeferred().Perform(j.call.own);
    ReturnedLater(j.AsDeferred(), j.call.k, j.call.own);
    hide Joint.OwnNext, Joint.Enabled, Deferred.Perform;
  }

  lemma EffectWaits<F(!new), A>(j: Joint<F, A>, h: Happening<F, A>)
    requires |j.lists| >= 3 && j.call.Due? && j.Enabled(h) && j.NoneWaits()
    ensures forall i :: !j.Next(h).OwnNext(i)
  {
    hide CbList.Step, CbList.Enabled;
    if h.OnList? {
      NextLists(j, h.k, h.e);
      ShutNotNext(j, h.k, h.e);
    } else {
      assert forall i :: j.Next(h).OwnNext(i) == j.OwnNext(i);
    }
  }

  /** It returns. */
  lemma TracksReturn<F(!new), A>(d: Deferred<F, A>, j: Joint<F, A>, h: Happening<F, A>)
    requires Guarded(j) && Tracks(d, j) && j.call.Returning? && j.Enabled(h)
    ensures Tracks(d, j.Next(h))
  {
    hide AllAimed, Deferred.Drain, CbList.DoReturn;
    var t := j.Next(h);
    NextLists(j, h.k, h.e);
    hide Joint.OwnNext, Joint.Enabled;
    DrainedOnly(t, h.k);
  }

  /** Everything else is an act of the Deferred, or none of its business. */
  lemma TracksAct<F(!new), A>(d: Deferred<F, A>, j: Joint<F, A>, k: nat, e: Event<Fn<F>, A>)
    requires Guarded(j) && Tracks(d, j) && j.call.NoCall? && j.Enabled(OnList(k, e)) && j.NoneWaits() && k < 3
    ensures var acts := ActsFor(j, OnList(k, e));
      |acts| == 1 && d.Possible(acts[0]) && Tracks(d.Do(acts[0]), j.Next(OnList(k, e)))
  {
    hide AllAimed, CallOk, Deferred.Drain;
    var t := j.Next(OnList(k, e));
    NextLists(j, k, e);
    NoneDrained(j);
    ActOnList(j, k, e);
    assert t.call == NoCall;
    hide Joint.OwnNext, Joint.Enabled;
    DrainedOnly(t, k);
  }

  lemma NoneDrained<F(!new), A>(j: Joint<F, A>)
    requires |j.lists| >= 3 && j.NoneWaits()
    ensures Drained(j) == j.AsDeferred()
  {
  }

  lemma ActOnList<F(!new), A>(j: Joint<F, A>, k: nat, e: Event<Fn<F>, A>)
    requires Guarded(j) && j.call.NoCall? && j.Enabled(OnList(k, e)) && j.NoneWaits() && k < 3
    ensures var d, acts := j.AsDeferred(), ActsFor(j, OnList(k, e));
      && |acts| == 1 && d.Possible(acts[0])
      && d.Do(acts[0]) == d.Put(KindAt(k), j.lists[k].Step(e)).Drain(KindAt(k))
  {
    hide AllAimed, CallOk, Deferred.Drain;
    match e
    case Add(fns) => assert Exts(Unwrapped(fns)) == fns;
    case Apply => DrainNothingOwn(j.AsDeferred().Put(KindAt(k), j.lists[k].DoApply()), KindAt(k));
    case _ =>
  }

  lemma DrainNothingOwn<F(!new), A>(d: Deferred<F, A>, k: Kind)
    requires !d.OwnIsNext(k)
    ensures d.Drain(k) == d
  {
  }

  /** Where the record of a new Deferred begins. */
  ghost predicate FreshDeferred<F(!new), A>(start: Joint<F, A>) {
    && Started(start) && start.NoneWaits() && start.hidden >= 3 && start.sealed
    && |start.lists| >= 3 && start.AsDeferred() == NewDeferred<F, A>()
  }

  lemma TracksNext<F(!new), A>(d: Deferred<F, A>, j: Joint<F, A>, h: Happening<F, A>)
    requires Guarded(j) && Tracks(d, j) && j.Enabled(h)
    ensures ActsFor(j, h) == [] ==> |j.Next(h).lists| >= 3 && Tracks(d, j.Next(h))
    ensures ActsFor(j, h) != [] ==>
      && |ActsFor(j, h)| == 1 && d.Possible(ActsFor(j, h)[0])
      && |j.Next(h).lists| >= 3 && Tracks(d.Do(ActsFor(j, h)[0]), j.Next(h))
  {
    StaysThree(j, h);
    hide Guarded, Tracks, CbList.Step, CbList.Enabled, Deferred.Do, Deferred.Possible;
    match j.call
    case Due(_, _) => TracksEffect(d, j, h);
    case Returning(_) => TracksReturn(d, j, h);
    case NoCall =>
      if j.OwnNext(h.k) {
        OwnAlone(j, h.k, h.e);
        TracksOwn(d, j, h.k);
      } else {
        OthersWait(j, h.k, h.e);
        if h.k < 3 { TracksAct(d, j, h.k, h.e); } else { TracksOther(d, j, h.k, h.e); }
      }
  }

  lemma StaysThree<F(!new), A>(j: Joint<F, A>, h: Happening<F, A>)
    requires Guarded(j) && j.Enabled(h)
    ensures |j.Next(h).lists| >= 3
  {
    NextAimed(j, h);
  }

  /** An own function at the head of a loop is applied next. */
  lemma OwnAlone<F(!new), A>(j: Joint<F, A>, k: nat, e: Event<Fn<F>, A>)
    requires j.call.NoCall? && j.Enabled(OnList(k, e)) && j.OwnNext(k)
    ensures e == Apply
  {
  }

  lemma OthersWait<F(!new), A>(j: Joint<F, A>, k: nat, e: Event<Fn<F>, A>)
    requires j.call.NoCall? && j.Enabled(OnList(k, e)) && !j.OwnNext(k)
    ensures j.NoneWaits()
  {
  }

  /** What happens to other lists does not concern the Deferred. */
  lemma TracksOther<F(!new), A>(d: Deferred<F, A>, j: Joint<F, A>, k: nat, e: Event<Fn<F>, A>)
    requires Guarded(j) && Tracks(d, j) && j.call.NoCall? && j.Enabled(OnList(k, e)) && j.NoneWaits() && k >= 3
    ensures ActsFor(j, OnList(k, e)) == [] && Tracks(d, j.Next(OnList(k, e)))
  {
    var t := j.Next(OnList(k, e));
    NextLists(j, k, e);
    NextAimed(j, OnList(k, e));
    if t.OwnNext(k) { OwnIsOurs(t, k); }
    NoneDrained(j);
    hide Guarded, CallOk, AllAimed, Joint.Enabled;
    assert forall i :: !t.OwnNext(i);
    NoneDrained(t);
  }

  /** The history of the three lists of a Deferred, own functions and all, is a run of
      the Deferred of `DeferredSpec`. */
  lemma {:induction false} ListsAreADeferred<F(!new), A>(start: Joint<F, A>, trace: seq<Happening<F, A>>)
    requires FreshDeferred(start) && LegalTrace(start, trace)
    ensures LegalActs(ActsOf(start, trace)) && Guarded(RunTrace(start, trace))
    ensures Tracks(RunActs(ActsOf(start, trace)), RunTrace(start, trace))
  {
    hide Tracks, Joint.Next, Joint.Enabled, Deferred.Do, Deferred.Possible, ActsFor;
    FreshIsStarted(start);
    RunAimed(start, trace);
    hide AllAimed, CallOk;
    if trace == [] {
      StartTracks(start);
    } else {
      hide FreshDeferred;
      var n := |trace| - 1;
      ListsAreADeferred(start, trace[..n]);
      var acts, j := ActsOf(start, trace[..n]), RunTrace(start, trace[..n]);
      TracksNext(RunActs(acts), j, trace[n]);
      if ActsFor(j, trace[n]) != [] {
        OneMoreAct(acts, ActsFor(j, trace[n])[0]);
        assert ActsFor(j, trace[n]) == [ActsFor(j, trace[n])[0]];
      } else {
        assert acts + [] == acts;
      }
    }
  }

  lemma FreshIsStarted<F(!new), A>(start: Joint<F, A>)
    requires FreshDeferred(start)
    ensures Started(start)
  {
  }

  lemma StartTracks<F(!new), A>(start: Joint<F, A>)
    requires FreshDeferred(start)
    ensures Tracks(RunActs<F, A>([]), start)
  {
    hide Joint.OwnNext;
    NoOwnNext(start);
    NoneDrained(start);
  }

  lemma NoOwnNext<F(!new), A>(j: Joint<F, A>)
    requires j.NoneWaits()
    ensures forall i :: !j.OwnNext(i)
  {
  }

  /** Whenever no own function is being called or about to be, the lists and the variable
      `state` are exactly the Deferred its acts have made. */
  lemma BetweenActs<F(!new), A>(start: Joint<F, A>, trace: seq<Happening<F, A>>)
    requires FreshDeferred(start) && LegalTrace(start, trace)
    requires RunTrace(start, trace).call.NoCall? && RunTrace(start, trace).NoneWaits()
    ensures LegalActs(ActsOf(start, trace)) && |RunTrace(start, trace).lists| >= 3
    ensures RunActs(ActsOf(start, trace)) == RunTrace(start, trace).AsDeferred()
  {
    hide Joint.OwnNext, AllAimed, CallOk;
    ListsAreADeferred(start, trace);
    NoneDrained(RunTrace(start, trace));
  }
}
