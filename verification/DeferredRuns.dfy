/** Proofs about every run of a Deferred. */
module DeferredRuns {
  import opened Wrappers
  import opened CallbackSpec
  import opened DeferredSpec

  // ---- One list at a time ----

  lemma AddToUntouched<F(!new), A>(l: CbList<Fn<F>, A>, k: Kind, fns: seq<F>)
    requires l.flags == ONCE_MEMORY && OwnFirst(l, k) && Untouched(l)
    ensures var t := l.DoAdd(Exts(fns)); t.flags == ONCE_MEMORY && OwnFirst(t, k) && Untouched(t)
  {
  }

  lemma AddToSettled<F(!new), A>(l: CbList<Fn<F>, A>, k: Kind, a: A, fns: seq<F>)
    requires l.flags == ONCE_MEMORY && OwnFirst(l, k) && Settled(l, a)
    ensures var t := l.DoAdd(Exts(fns)); t.flags == ONCE_MEMORY && OwnFirst(t, k) && Settled(t, a)
  {
    var added := Number(Exts(fns), |l.registered|);
    assert Regs(l.log) + (l.pending + added) == (Regs(l.log) + l.pending) + added;
    assert [] + added == added;
  }

  lemma StepSettled<F(!new), A>(l: CbList<Fn<F>, A>, k: Kind, a: A, e: Event<Fn<F>, A>)
    requires l.flags == ONCE_MEMORY && OwnFirst(l, k) && Settled(l, a) && l.Enabled(e)
    requires e.FireWith? || e.Apply? || e.Return? || e.End?
    ensures var t := l.Step(e); t.flags == ONCE_MEMORY && OwnFirst(t, k) && Settled(t, a)
  {
    if e.Apply? {
      var t := l.Step(e);
      assert Regs(t.log) == Regs(l.log) + [l.pending[0]];
      assert l.pending == [l.pending[0]] + t.pending;
      assert Regs(t.log) + t.pending == l.registered;
    }
  }

  /** Past the Deferred's own functions only outside functions wait. */
  lemma SettledWaitsExt<F(!new), A>(l: CbList<Fn<F>, A>, k: Kind, a: A)
    requires OwnFirst(l, k) && Settled(l, a) && k != Progress
    ensures forall r :: r in l.pending ==> r.fn.Ext?
  {
    forall i | 0 <= i < |l.pending| ensures l.pending[i].fn.Ext? {
      assert l.registered[|l.log| + i] == l.pending[i];
    }
  }

  lemma ProgressStep<F(!new), A>(l: CbList<Fn<F>, A>, e: Event<Fn<F>, A>)
    requires GoodProgress(l) && l.Enabled(e) && !e.Remove? && !e.Disable? && !e.Empty?
    requires e.Add? ==> forall f :: f in e.fns ==> f.Ext?
    ensures GoodProgress(l.Step(e))
    ensures l.queue.None? ==> l.Step(e).queue.None?
    ensures l.live && l.queue.Some? && !e.Lock? ==> l.Step(e).live && l.Step(e).queue.Some?
  {
  }

  lemma DrainNothing<F(!new), A>(d: Deferred<F, A>, k: Kind)
    requires forall r :: r in d.Get(k).pending ==> r.fn.Ext?
    ensures d.Drain(k) == d
  {
  }

  // ---- Settling ----

  /** In its first firing, with `a`, and `m` turns into it. */
  ghost predicate Turned<F(!new), A>(t: CbList<Fn<F>, A>, k: Kind, a: A, m: nat) {
    && t.flags == ONCE_MEMORY && OwnFirst(t, k) && m <= |t.registered|
    && t.phase == AtHead && t.live && t.memory == Saved(a) && t.current == Some(a)
    && t.pending == t.registered[m..] && Regs(t.log) == t.registered[..m]
    && (forall c :: c in t.log ==> c.args == a)
  }

  lemma FirstFiring<F(!new), A>(l: CbList<Fn<F>, A>, k: Kind, a: A)
    requires Untouched(l) && l.flags == ONCE_MEMORY && OwnFirst(l, k)
    ensures Turned(l.DoFireWith(a), k, a, 0)
  {
    assert l.kept + [] == l.kept;
  }

  lemma NextTurn<F(!new), A>(t: CbList<Fn<F>, A>, k: Kind, a: A, m: nat)
    requires Turned(t, k, a, m) && m < |t.registered|
    ensures t.Enabled(Apply) && t.pending[0] == t.registered[m]
    ensures Turned(t.DoApply().DoReturn(true), k, a, m + 1)
  {
    var u := t.DoApply().DoReturn(true);
    assert Regs(u.log) == Regs(t.log) + [t.registered[m]];
    assert t.registered[..m + 1] == t.registered[..m] + [t.registered[m]];
    assert t.pending[1..] == t.registered[m + 1..];
  }

  /** One of the own functions is applied and returns. */
  lemma DrainTurn<F(!new), A>(d: Deferred<F, A>, k: Kind, a: A, m: nat)
    requires k != Progress && Turned(d.Get(k), k, a, m) && m < 3
    ensures d.Get(k).pending != [] && d.Get(k).current.Some?
    ensures Turned(d.Get(k).DoApply().DoReturn(true), k, a, m + 1)
    ensures d.Drain(k) == d.Put(k, d.Get(k).DoApply().DoReturn(true)).Perform(OwnOf(k)[m]).Drain(k)
  {
    NextTurn(d.Get(k), k, a, m);
  }

  lemma TurnedIsSettled<F(!new), A>(t: CbList<Fn<F>, A>, k: Kind, a: A)
    requires Turned(t, k, a, 3)
    ensures Settled(t, a) && t.flags == ONCE_MEMORY && OwnFirst(t, k)
  {
  }

  lemma LockedQueue<F(!new), A>(l: CbList<Fn<F>, A>)
    ensures l.DoLock().queue.None?
  {
  }

  lemma DisabledOwn<F(!new), A>(l: CbList<Fn<F>, A>, k: Kind)
    requires OwnFirst(l, k)
    ensures OwnFirst(l.DoDisable(), k) && l.DoDisable().flags == l.flags
    ensures Untouched(l) ==> Dead(l.DoDisable())
  {
  }

  function Opposite(k: Kind): Kind
    requires k != Progress
  {
    if k == Done then Fail else Done
  }

  /** Resolving a pending Deferred, or rejecting it, has this effect at once: the state
      is set, the opposite list is disabled, the progress list locked. */
  lemma Settling<F(!new), A>(d: Deferred<F, A>, k: Kind, a: A)
    requires Good(d) && d.state == Pending && k != Progress
    ensures var t := d.Do(Act.Trigger(k, a));
      && Good(t) && t.state == (if k == Done then Resolved else Rejected) && t.Outcome() == Some(a)
      && Turned(t.Get(k), k, a, 3) && t.progress == d.progress.DoLock()
  {
    hide Deferred.Drain, OwnFirst, Turned, GoodProgress;
    hide CbList.DoLock, CbList.DoApply, CbList.DoReturn, CbList.DoFireWith, CbList.DoDisable;
    var d0 := d.Put(k, d.Get(k).DoFireWith(a));
    FirstFiring(d.Get(k), k, a);
    DrainTurn(d0, k, a, 0);
    var d1 := d0.Put(k, d0.Get(k).DoApply().DoReturn(true)).Perform(OwnOf(k)[0]);
    DrainTurn(d1, k, a, 1);
    var d2 := d1.Put(k, d1.Get(k).DoApply().DoReturn(true)).Perform(OwnOf(k)[1]);
    DrainTurn(d2, k, a, 2);
    var d3 := d2.Put(k, d2.Get(k).DoApply().DoReturn(true)).Perform(OwnOf(k)[2]);
    TurnedIsSettled(d3.Get(k), k, a);
    SettledWaitsExt(d3.Get(k), k, a);
    DrainNothing(d3, k);
    assert d3.Get(Opposite(k)) == d.Get(Opposite(k)).DoDisable();
    ProgressStep(d.progress, Lock);
    LockedQueue(d.progress);
    assert d3.progress == d.progress.DoLock();
    DisabledOwn(d.Get(Opposite(k)), Opposite(k));
  }

  // ---- Every step ----

  lemma StaysDead<F(!new), A>(l: CbList<Fn<F>, A>, k: Kind, act: Act<F, A>)
    requires Dead(l) && OwnFirst(l, k) && l.flags == ONCE_MEMORY
    requires act.Register? || act.Trigger?
    ensures var t := if act.Register? then l.DoAdd(Exts(act.fns)) else l.DoFireWith(act.args);
      Dead(t) && OwnFirst(t, k) && t.flags == ONCE_MEMORY && t.pending == l.pending && t.registered == l.registered
  {
  }

  function Winner(d: State): Kind
    requires d != Pending
  {
    if d == Resolved then Done else Fail
  }

  /** What one step does, before the own functions are drained, to the list it is about. */
  ghost function Touched<F(!new), A>(l: CbList<Fn<F>, A>, act: Act<F, A>): CbList<Fn<F>, A>
    requires act.ApplyNext? ==> l.Enabled(Apply)
  {
    match act
    case Register(_, fns) => l.DoAdd(Exts(fns))
    case Trigger(_, a) => l.DoFireWith(a)
    case ApplyNext(_) => l.DoApply()
    case ReturnFrom(_, result) => l.DoReturn(result)
    case EndLoop(_) => l.DoEnd()
  }

  lemma ProgressAct<F(!new), A>(d: Deferred<F, A>, act: Act<F, A>)
    requires Good(d) && d.Possible(act) && act.k == Progress
    ensures d.Do(act) == d.(progress := Touched(d.progress, act)) && Good(d.Do(act))
  {
    hide OwnFirst;
    match act
    case Register(_, fns) => ProgressStep(d.progress, Add(Exts(fns)));
    case Trigger(_, a) => ProgressStep(d.progress, FireWith(a));
    case ApplyNext(_) => ProgressStep(d.progress, Apply);
    case ReturnFrom(_, result) => ProgressStep(d.progress, Return(result));
    case EndLoop(_) => ProgressStep(d.progress, End);
    WaitsExt(Touched(d.progress, act));
    DrainNothing(d.(progress := Touched(d.progress, act)), Progress);
  }

  lemma WaitsExt<F(!new), A>(l: CbList<Fn<F>, A>)
    requires GoodProgress(l)
    ensures forall r :: r in l.pending ==> r.fn.Ext?
  {
    assert forall r :: r in l.pending ==> r in l.Whole();
  }

  /** A settled Deferred: only the winning list ever changes. */
  lemma SettledAct<F(!new), A>(d: Deferred<F, A>, act: Act<F, A>)
    requires Good(d) && d.state != Pending && d.Possible(act) && act.k != Progress
    ensures var t := d.Do(act);
      && Good(t) && t.state == d.state && t.Outcome() == d.Outcome() && t.progress == d.progress
      && t == d.Put(act.k, Touched(d.Get(act.k), act))
  {
    hide OwnFirst, Deferred.Drain;
    var k := act.k;
    var l := d.Get(k);
    if k == Winner(d.state) {
      var a := l.memory.args;
      match act {
        case Register(_, fns) => AddToSettled(l, k, a, fns);
        case Trigger(_, b) => StepSettled(l, k, a, FireWith(b));
        case ApplyNext(_) => StepSettled(l, k, a, Apply);
        case ReturnFrom(_, result) => StepSettled(l, k, a, Return(result));
        case EndLoop(_) => StepSettled(l, k, a, End);
      }
      SettledWaitsExt(Touched(l, act), k, a);
    } else {
      StaysDead(l, k, act);
    }
    DrainNothing(d.Put(k, Touched(l, act)), k);
  }

  lemma PendingRegister<F(!new), A>(d: Deferred<F, A>, k: Kind, fns: seq<F>)
    requires Good(d) && d.state == Pending && k != Progress
    ensures d.Do(Register(k, fns)) == d.Put(k, d.Get(k).DoAdd(Exts(fns))) && Good(d.Do(Register(k, fns)))
  {
    hide OwnFirst, Deferred.Drain;
    AddToUntouched(d.Get(k), k, fns);
    DrainNothing(d.Put(k, d.Get(k).DoAdd(Exts(fns))), k);
  }

  lemma GoodAct<F(!new), A>(d: Deferred<F, A>, act: Act<F, A>)
    requires Good(d) && d.Possible(act)
    ensures Good(d.Do(act))
    ensures d.state != Pending ==> d.Do(act).state == d.state && d.Do(act).Outcome() == d.Outcome()
    ensures d.state == Pending ==>
      d.Do(act).state ==
        if act.Trigger? && act.k != Progress then (if act.k == Done then Resolved else Rejected) else Pending
  {
    hide Good, Deferred.Do;
    if act.k == Progress {
      ProgressAct(d, act);
    } else if d.state != Pending {
      SettledAct(d, act);
    } else {
      OnlyOutside(d, act);
      if act.Register? {
        PendingRegister(d, act.k, act.fns);
      } else {
        Settling(d, act.k, act.args);
      }
    }
  }

  lemma OnlyOutside<F(!new), A>(d: Deferred<F, A>, act: Act<F, A>)
    requires Good(d) && d.state == Pending && d.Possible(act) && act.k != Progress
    ensures act.Register? || act.Trigger?
  {
  }

  lemma OneMoreAct<F(!new), A>(acts: seq<Act<F, A>>, act: Act<F, A>)
    requires LegalActs(acts) && RunActs(acts).Possible(act)
    ensures LegalActs(acts + [act]) && RunActs(acts + [act]) == RunActs(acts).Do(act)
  {
    hide Deferred.Do, Deferred.Possible;
    assert (acts + [act])[..|acts + [act]| - 1] == acts;
  }

  lemma NewIsGood<F(!new), A>()
    ensures Good(NewDeferred<F, A>()) && NewDeferred<F, A>().state == Pending
  {
  }

  lemma {:induction false} RunGood<F(!new), A>(acts: seq<Act<F, A>>)
    requires LegalActs(acts)
    ensures Good(RunActs(acts))
  {
    hide Good;
    if acts == [] {
      NewIsGood<F, A>();
    } else {
      var n := |acts| - 1;
      RunGood(acts[..n]);
      GoodAct(RunActs(acts[..n]), acts[n]);
    }
  }

  // ---- Main results ----

  /** The first resolve or reject of a run. */
  function FirstSettling<F, A>(acts: seq<Act<F, A>>): Option<(State, A)> {
    if acts == [] then None else
    var n := |acts| - 1;
    var earlier := FirstSettling(acts[..n]);
    if earlier.Some? || !acts[n].Trigger? || acts[n].k == Progress then earlier
    else Some((if acts[n].k == Done then Resolved else Rejected, acts[n].args))
  }

  /** The state and the outcome are decided by the first resolve or reject of the run
      and by nothing else, whatever callbacks do in between or afterwards. */
  lemma {:induction false} FirstSettlingDecides<F(!new), A>(acts: seq<Act<F, A>>)
    requires LegalActs(acts)
    ensures var d := RunActs(acts);
      match FirstSettling(acts)
      case None => d.state == Pending && d.Outcome() == None
      case Some((s, a)) => d.state == s && d.Outcome() == Some(a)
  {
    hide Good, Deferred.Do;
    if acts != [] {
      var n := |acts| - 1;
      var d, act := RunActs(acts[..n]), acts[n];
      FirstSettlingDecides(acts[..n]);
      RunGood(acts[..n]);
      GoodAct(d, act);
      if d.state == Pending && act.Trigger? && act.k != Progress {
        Settling(d, act.k, act.args);
      }
    }
  }

  lemma {:induction false} FirstSettlingStays<F(!new), A>(acts: seq<Act<F, A>>, more: seq<Act<F, A>>)
    requires LegalActs(acts + more)
    ensures LegalActs(acts)
    ensures FirstSettling(acts).Some? ==> FirstSettling(acts + more) == FirstSettling(acts)
  {
    if more == [] {
      assert acts + more == acts;
    } else {
      var n := |more| - 1;
      assert (acts + more)[..|acts + more| - 1] == acts + more[..n];
      FirstSettlingStays(acts, more[..n]);
    }
  }

  /** Once settled, a Deferred keeps its state and its outcome in every continuation. */
  lemma StateIsFinal<F(!new), A>(acts: seq<Act<F, A>>, more: seq<Act<F, A>>)
    requires LegalActs(acts + more)
    ensures LegalActs(acts)
    ensures RunActs(acts).state != Pending ==>
      RunActs(acts + more).state == RunActs(acts).state && RunActs(acts + more).Outcome() == RunActs(acts).Outcome()
  {
    FirstSettlingStays(acts, more);
    FirstSettlingDecides(acts);
    FirstSettlingDecides(acts + more);
  }

  /** Every function ever passed to `done` (or `fail`, `progress`) in a run, in order. */
  function AllRegistered<F, A>(acts: seq<Act<F, A>>, k: Kind): seq<F> {
    if acts == [] then [] else
    var n := |acts| - 1;
    AllRegistered(acts[..n], k) + (if acts[n].Register? && acts[n].k == k then acts[n].fns else [])
  }

  ghost predicate Loses(s: State, k: Kind) {
    (s == Resolved && k == Fail) || (s == Rejected && k == Done)
  }

  lemma ActRegisters<F(!new), A>(d: Deferred<F, A>, act: Act<F, A>, k: Kind)
    requires Good(d) && d.Possible(act) && k != Progress && !Loses(d.Do(act).state, k)
    ensures !Loses(d.state, k)
    ensures Fns(d.Do(act).Get(k).registered)
         == Fns(d.Get(k).registered) + (if act.Register? && act.k == k then Exts(act.fns) else [])
  {
    hide Deferred.Do, Good, OwnFirst;
    GoodAct(d, act);
    GoodLists(d, k);
    if act.k == Progress {
      ProgressAct(d, act);
    } else if d.state != Pending {
      SettledAct(d, act);
      if act.k == k { TouchedRegisters(d.Get(k), act); }
    } else if act.Register? {
      PendingRegister(d, act.k, act.fns);
      if act.k == k { TouchedRegisters(d.Get(k), act); }
    } else {
      OnlyOutside(d, act);
      SettlingRegisters(d, act.k, act.args);
    }
  }

  lemma GoodLists<F(!new), A>(d: Deferred<F, A>, k: Kind)
    requires Good(d) && k != Progress
    ensures d.Get(k).flags == ONCE_MEMORY
    ensures !Loses(d.state, k) ==> d.Get(k).live
    ensures d.state != Pending && k == Winner(d.state) ==>
      && d.Outcome().Some? && Settled(d.Get(k), d.Outcome().value) && Dead(d.Get(Opposite(k)))
  {
  }

  lemma TouchedRegisters<F(!new), A>(l: CbList<Fn<F>, A>, act: Act<F, A>)
    requires l.flags == ONCE_MEMORY && l.live && (act.ApplyNext? ==> l.Enabled(Apply))
    ensures Fns(Touched(l, act).registered) == Fns(l.registered) + (if act.Register? then Exts(act.fns) else [])
  {
  }

  lemma {:induction false} DrainRegisters<F(!new), A>(d: Deferred<F, A>, k: Kind, j: Kind)
    ensures d.Drain(k).Get(j).registered == d.Get(j).registered
    decreases |d.Get(k).pending|
  {
    if d.OwnIsNext(k) {
      var l := d.Get(k);
      DrainRegisters(d.Put(k, l.DoApply().DoReturn(true)).Perform(l.pending[0].fn.own), k, j);
    }
  }

  lemma SettlingRegisters<F(!new), A>(d: Deferred<F, A>, k: Kind, a: A)
    ensures forall j :: d.Do(Act.Trigger(k, a)).Get(j).registered == d.Get(j).registered
  {
    hide Deferred.Drain;
    forall j | true ensures d.Do(Act.Trigger(k, a)).Get(j).registered == d.Get(j).registered {
      DrainRegisters(d.Put(k, d.Get(k).DoFireWith(a)), k, j);
    }
  }

  lemma {:induction false} RunRegisters<F(!new), A>(acts: seq<Act<F, A>>, k: Kind)
    requires LegalActs(acts) && k != Progress && !Loses(RunActs(acts).state, k)
    ensures Fns(RunActs(acts).Get(k).registered) == Owns(OwnOf(k)) + Exts(AllRegistered(acts, k))
  {
    hide Good, Deferred.Do;
    if acts == [] {
      NewRegisters<F, A>(k);
    } else {
      var n := |acts| - 1;
      RunGood(acts[..n]);
      ActRegisters(RunActs(acts[..n]), acts[n], k);
      RunRegisters(acts[..n], k);
    }
  }

  lemma NewRegisters<F(!new), A>(k: Kind)
    requires k != Progress
    ensures Fns(NewDeferred<F, A>().Get(k).registered) == Owns(OwnOf(k)) + Exts([])
  {
  }

  /** The functions a list has applied, in order, without the Deferred's own. */
  ghost function Called<F(!new), A>(l: CbList<Fn<F>, A>): seq<Fn<F>> {
    if |l.log| < 3 then [] else Fns(Regs(l.log))[3..]
  }

  /** Exactly the done callbacks, exactly once: a resolved Deferred has called the first
      so many of all functions ever registered with `done` (before, during or after the
      resolution), in the order of registration, each with the resolving arguments; when
      its done list is idle it has called all of them.  It never calls a fail callback.
      The same holds of a rejected one with the roles exchanged. */
  lemma SettledCallsEveryCallbackOnce<F(!new), A>(acts: seq<Act<F, A>>)
    requires LegalActs(acts) && RunActs(acts).state != Pending
    ensures var d, k := RunActs(acts), Winner(RunActs(acts).state);
      && Called(d.Get(k)) <= Exts(AllRegistered(acts, k))
      && (d.Get(k).phase == Idle ==> Called(d.Get(k)) == Exts(AllRegistered(acts, k)))
      && (forall c :: c in d.Get(k).log ==> Some(c.args) == d.Outcome())
      && d.Get(Opposite(k)).log == []
  {
    hide Good, Called;
    RunGood(acts);
    var d, k := RunActs(acts), Winner(RunActs(acts).state);
    GoodLists(d, k);
    RunRegisters(acts, k);
    CalledSplit(d.Get(k), d.Outcome().value, OwnOf(k), AllRegistered(acts, k));
  }

  /** A settled list has first called the Deferred's own functions. */
  lemma SettledCallsOwnFirst<F(!new), A>(acts: seq<Act<F, A>>)
    requires LegalActs(acts) && RunActs(acts).state != Pending
    ensures var d, k := RunActs(acts), Winner(RunActs(acts).state);
      Fns(Regs(d.Get(k).log)) == Owns(OwnOf(k)) + Called(d.Get(k))
  {
    hide Good, Called, Settled, Fns, Regs;
    RunGood(acts);
    var d, k := RunActs(acts), Winner(RunActs(acts).state);
    GoodLists(d, k);
    RunRegisters(acts, k);
    OwnCalledFirst(d.Get(k), d.Outcome().value, OwnOf(k), AllRegistered(acts, k));
  }

  lemma OwnCalledFirst<F(!new), A>(l: CbList<Fn<F>, A>, a: A, own: seq<Own>, fns: seq<F>)
    requires Settled(l, a) && |own| == 3 && Fns(l.registered) == Owns(own) + Exts(fns)
    ensures Fns(Regs(l.log)) == Owns(own) + Called(l)
  {
    var called := Fns(Regs(l.log));
    assert |called| >= 3;
    forall i | 0 <= i < 3 ensures called[i] == Owns<F>(own)[i] {
      assert (Regs(l.log) + l.pending)[i] == l.registered[i];
      assert Fns(l.registered)[i] == (Owns<F>(own) + Exts(fns))[i];
    }
    hide Settled;
    assert called[..3] == Owns<F>(own) && called == called[..3] + called[3..];
  }

  lemma CalledSplit<F(!new), A>(l: CbList<Fn<F>, A>, a: A, own: seq<Own>, fns: seq<F>)
    requires Settled(l, a) && |own| == 3 && Fns(l.registered) == Owns(own) + Exts(fns)
    ensures Called(l) + Fns(l.pending) == Exts(fns)
    ensures l.phase == Idle ==> Called(l) == Exts(fns)
  {
    assert Fns(l.registered) == Fns(Regs(l.log)) + Fns(l.pending);
    assert Called(l) + Fns(l.pending) == Fns(l.registered)[3..];
    if l.phase == Idle { assert Called(l) + [] == Called(l); }
  }

  /** The arguments of the notify calls made before the first resolve or reject. */
  function NotifiesBefore<F, A>(acts: seq<Act<F, A>>): seq<A> {
    if acts == [] then [] else
    var n := |acts| - 1;
    NotifiesBefore(acts[..n]) +
      if acts[n].Trigger? && acts[n].k == Progress && FirstSettling(acts[..n]).None? then [acts[n].args] else []
  }

  ghost predicate ArgsFrom<F(!new), A>(l: CbList<Fn<F>, A>, allowed: seq<A>) {
    && (l.current.Some? ==> l.current.value in allowed)
    && (l.memory.Saved? ==> l.memory.args in allowed)
    && (l.queue.Some? ==> forall a :: a in l.queue.value ==> a in allowed)
    && (forall c :: c in l.log ==> c.args in allowed)
  }

  lemma TouchedArgs<F(!new), A>(l: CbList<Fn<F>, A>, act: Act<F, A>, allowed: seq<A>)
    requires GoodProgress(l) && ArgsFrom(l, allowed) && (act.ApplyNext? ==> l.Enabled(Apply))
    ensures ArgsFrom(Touched(l, act), if act.Trigger? && l.queue.Some? then allowed + [act.args] else allowed)
  {
  }

  lemma {:induction false} DrainArgs<F(!new), A>(d: Deferred<F, A>, k: Kind, allowed: seq<A>)
    requires k != Progress && ArgsFrom(d.progress, allowed)
    ensures ArgsFrom(d.Drain(k).progress, allowed)
    decreases |d.Get(k).pending|
  {
    if d.OwnIsNext(k) {
      var l := d.Get(k);
      DrainArgs(d.Put(k, l.DoApply().DoReturn(true)).Perform(l.pending[0].fn.own), k, allowed);
    }
  }

  /** No notify issued after settling reaches a progress callback: every application of
      one carries the arguments of a notify made before the first resolve or reject. */
  lemma {:induction false} NotifyAfterSettlingIsIgnored<F(!new), A>(acts: seq<Act<F, A>>)
    requires LegalActs(acts)
    ensures ArgsFrom(RunActs(acts).progress, NotifiesBefore(acts))
    ensures forall c :: c in RunActs(acts).progress.log ==> c.args in NotifiesBefore(acts)
  {
    hide Good, Deferred.Do, Deferred.Drain;
    if acts != [] {
      var n := |acts| - 1;
      var d, act := RunActs(acts[..n]), acts[n];
      NotifyAfterSettlingIsIgnored(acts[..n]);
      RunGood(acts[..n]);
      FirstSettlingDecides(acts[..n]);
      GoodQueue(d);
      if act.k == Progress {
        ProgressAct(d, act);
        TouchedArgs(d.progress, act, NotifiesBefore(acts[..n]));
      } else {
        ActArgs(d, act, NotifiesBefore(acts[..n]));
      }
    }
  }

  lemma GoodQueue<F(!new), A>(d: Deferred<F, A>)
    requires Good(d)
    ensures GoodProgress(d.progress) && (d.progress.queue.Some? <==> d.state == Pending)
  {
  }

  lemma ActArgs<F(!new), A>(d: Deferred<F, A>, act: Act<F, A>, allowed: seq<A>)
    requires d.Possible(act) && act.k != Progress && ArgsFrom(d.progress, allowed)
    ensures ArgsFrom(d.Do(act).progress, allowed)
  {
    hide Deferred.Drain;
    if !act.ApplyNext? {
      DrainArgs(d.Put(act.k, Touched(d.Get(act.k), act)), act.k, allowed);
    }
  }

  // ---- What one step registers and applies ----

  lemma TouchedAdds<F(!new), A>(l: CbList<Fn<F>, A>, act: Act<F, A>)
    requires !l.flags.unique && (act.ApplyNext? ==> l.Enabled(Apply))
    ensures Touched(l, act).registered ==
      l.registered + if act.Register? && l.live then Number(Exts(act.fns), |l.registered|) else []
    ensures forall r :: r in Touched(l, act).Whole() ==> r in l.Whole() || (act.Register? && r.fn in Exts(act.fns))
  {
    hide Exts;
  }

  lemma NoneUnique<F(!new), A>(d: Deferred<F, A>, k: Kind)
    requires Good(d)
    ensures !d.Get(k).flags.unique
  {
  }

  lemma ActRegistered<F(!new), A>(d: Deferred<F, A>, act: Act<F, A>, j: Kind)
    requires Good(d) && d.Possible(act)
    ensures d.Do(act).Get(j).registered == d.Get(j).registered +
      if act.Register? && act.k == j && d.Get(j).live then Number(Exts(act.fns), |d.Get(j).registered|) else []
  {
    hide Deferred.Drain, Good, CbList.DoAdd, CbList.DoFireWith, CbList.DoApply, CbList.DoReturn, CbList.DoEnd;
    NoneUnique(d, act.k);
    TouchedAdds(d.Get(act.k), act);
    if !act.ApplyNext? {
      DrainRegisters(d.Put(act.k, Touched(d.Get(act.k), act)), act.k, j);
    }
  }

  lemma AppliedMore<F(!new), A>(l: CbList<Fn<F>, A>, f: F)
    requires l.Enabled(Apply)
    ensures Applied(l.DoApply(), f) <==> Applied(l, f) || l.pending[0].fn == Ext(f)
  {
    var t := l.DoApply();
    assert t.log[..|l.log|] == l.log && t.log[|l.log|].reg == l.pending[0];
    if Applied(l, f) {
      var j :| 0 <= j < |l.log| && l.log[j].reg.fn == Ext(f);
      assert t.log[j].reg.fn == Ext(f);
    }
  }

  lemma {:induction false} DrainApplies<F(!new), A>(d: Deferred<F, A>, k: Kind, j: Kind, f: F)
    ensures Applied(d.Drain(k).Get(j), f) <==> Applied(d.Get(j), f)
    decreases |d.Get(k).pending|
  {
    hide Applied;
    if d.OwnIsNext(k) {
      var l := d.Get(k);
      AppliedMore(l, f);
      var next := d.Put(k, l.DoApply().DoReturn(true)).Perform(l.pending[0].fn.own);
      AppliedByLog(next.Get(j), if j == k then l.DoApply() else d.Get(j), f);
      DrainApplies(next, k, j, f);
    }
  }

  lemma AppliedByLog<F(!new), A>(l: CbList<Fn<F>, A>, t: CbList<Fn<F>, A>, f: F)
    requires l.log == t.log
    ensures Applied(l, f) <==> Applied(t, f)
  {
  }

  lemma ActApplies<F(!new), A>(d: Deferred<F, A>, act: Act<F, A>, j: Kind, f: F)
    requires d.Possible(act)
    ensures Applied(d.Do(act).Get(j), f) <==>
      Applied(d.Get(j), f) || (act == Act.ApplyNext(j) && d.Get(j).pending[0].fn == Ext(f))
  {
    hide Applied, Deferred.Drain;
    var l := d.Get(act.k);
    if act.ApplyNext? {
      AppliedMore(l, f);
    } else {
      var t := d.Put(act.k, Touched(l, act));
      AppliedByLog(t.Get(j), d.Get(j), f);
      DrainApplies(t, act.k, j, f);
    }
  }

  lemma {:induction false} DrainProgress<F(!new), A>(d: Deferred<F, A>, k: Kind)
    requires k != Progress
    ensures forall r :: r in d.Drain(k).progress.Whole() ==> r in d.progress.Whole()
    decreases |d.Get(k).pending|
  {
    if d.OwnIsNext(k) {
      var l := d.Get(k);
      DrainProgress(d.Put(k, l.DoApply().DoReturn(true)).Perform(l.pending[0].fn.own), k);
    }
  }

  /** Only functions just registered are new on the progress list. */
  lemma ActProgress<F(!new), A>(d: Deferred<F, A>, act: Act<F, A>)
    requires Good(d) && d.Possible(act)
    ensures forall r :: r in d.Do(act).progress.Whole() ==>
      r in d.progress.Whole() || (act.Register? && act.k == Progress && r.fn in Exts(act.fns))
  {
    hide Deferred.Drain, Good, CbList.DoAdd, CbList.DoFireWith, CbList.DoApply, CbList.DoReturn, CbList.DoEnd,
      CbList.Whole;
    NoneUnique(d, act.k);
    TouchedAdds(d.Get(act.k), act);
    if act.k == Progress {
      ProgressAct(d, act);
    } else if !act.ApplyNext? {
      DrainProgress(d.Put(act.k, Touched(d.Get(act.k), act)), act.k);
    }
  }

  /** Only the winning list of a settled Deferred applies anything: its next registration. */
  lemma WhoApplies<F(!new), A>(d: Deferred<F, A>, k: Kind)
    requires Good(d) && d.Possible(Act.ApplyNext(k)) && k != Progress
    ensures d.state != Pending && k == Winner(d.state)
    ensures var l := d.Get(k);
      && d.Outcome() == l.current && |l.log| < |l.registered| && l.pending[0] == l.registered[|l.log|]
      && forall j :: 0 <= j < |l.log| ==> l.log[j].reg == l.registered[j]
  {
    var l := d.Get(k);
    assert (Regs(l.log) + l.pending)[|l.log|] == l.pending[0];
    assert forall j :: 0 <= j < |l.log| ==> (Regs(l.log) + l.pending)[j] == l.log[j].reg;
  }

  /** What has been applied was registered, and settles which list won. */
  lemma AppliedWasRegistered<F(!new), A>(d: Deferred<F, A>, k: Kind, f: F)
    requires Good(d) && k != Progress && Applied(d.Get(k), f)
    ensures d.state != Pending && k == Winner(d.state) && IsRegistered(d.Get(k), f)
  {
    var l := d.Get(k);
    var j :| 0 <= j < |l.log| && l.log[j].reg.fn == Ext(f);
    assert (Regs(l.log) + l.pending)[j] == l.log[j].reg;
  }

  /** An idle winning list has applied everything registered. */
  lemma IdleAppliedAll<F(!new), A>(d: Deferred<F, A>, k: Kind, f: F)
    requires Good(d) && d.state != Pending && k == Winner(d.state) && d.Get(k).phase == Idle
    requires IsRegistered(d.Get(k), f)
    ensures Applied(d.Get(k), f)
  {
    var l := d.Get(k);
    var j :| 0 <= j < |l.registered| && l.registered[j].fn == Ext(f);
    assert l.registered == Regs(l.log) + [];
    assert l.log[j].reg.fn == Ext(f);
  }
}
