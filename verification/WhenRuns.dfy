/** Proofs about every run of `jQuery.when`. */
module WhenRuns {
  import opened Wrappers
  import opened DeferredSpec
  import opened DeferredRuns
  import opened WhenSpec

  // ---- Counting ----

  lemma {:induction false} CountSame(w: World, v: World, n: nat)
    requires n <= |w.given| && w.given == v.given
    requires forall i :: 0 <= i < n ==> (Fulfilled(w, i) <==> Fulfilled(v, i))
    ensures Unfulfilled(w, n) == Unfulfilled(v, n)
  {
    if n > 0 { CountSame(w, v, n - 1); }
  }

  lemma {:induction false} CountOneLess(w: World, v: World, n: nat, i: nat)
    requires i < n <= |w.given| && w.given == v.given && !Fulfilled(w, i) && Fulfilled(v, i)
    requires forall j :: 0 <= j < n && j != i ==> (Fulfilled(w, j) <==> Fulfilled(v, j))
    ensures Unfulfilled(v, n) == Unfulfilled(w, n) - 1
  {
    if i == n - 1 { CountSame(w, v, n - 1); } else { CountOneLess(w, v, n - 1, i); }
  }

  lemma {:induction false} CountZero(w: World, n: nat)
    requires n <= |w.given|
    ensures Unfulfilled(w, n) == 0 <==> forall i :: 0 <= i < n ==> Fulfilled(w, i)
  {
    if n > 0 { CountZero(w, n - 1); }
  }

  lemma {:induction false} CountAll(w: World, n: nat)
    requires n <= |w.given| && w.scanned == 0 && w.part == 0
    ensures Unfulfilled(w, n) == n
  {
    if n > 0 { CountAll(w, n - 1); }
  }

  // ---- One input makes a step ----

  ghost predicate AllUsers(act: Act<Fun, Args>) {
    act.Register? ==> forall f :: f in act.fns ==> f.User?
  }

  lemma InputDone(w: World, k: nat, d: Input, act: Act<Fun, Args>)
    requires Good(d) && d.Possible(act) && AllUsers(act) && DoneFns(w, k, d)
    ensures DoneFns(w, k, d.Do(act))
  {
    hide Good, Deferred.Do;
    ActRegistered(d, act, Done);
    GoodAct(d, act);
    var d' := d.Do(act);
    var n := |d.done.registered|;
    forall j | n <= j < |d'.done.registered|
      ensures d'.done.registered[j].fn.Ext? && d'.done.registered[j].fn.ext.User?
    {
      assert d'.done.registered[j].fn == Ext(act.fns[j - n]) && act.fns[j - n] in act.fns;
    }
    forall i | 0 <= i < w.DoneUpTo() && i < |w.given| && w.given[i] == PromiseOf(k) && d'.state != Rejected
      ensures IsRegistered(d'.done, ResolveFunc(i))
    {
      var j :| 0 <= j < |d.done.registered| && d.done.registered[j].fn == Ext(ResolveFunc(i));
      assert d'.done.registered[j] == d.done.registered[j];
    }
  }

  lemma InputFail(w: World, k: nat, d: Input, act: Act<Fun, Args>)
    requires Good(d) && d.Possible(act) && AllUsers(act) && FailFns(w, k, d)
    ensures FailFns(w, k, d.Do(act))
  {
    hide Good, Deferred.Do, Listens;
    ActRegistered(d, act, Fail);
    GoodAct(d, act);
    var d' := d.Do(act);
    if d'.state != Resolved && Listens(w, k) {
      var j :| 0 <= j < |d.fail.registered| && d.fail.registered[j].fn == Ext(RejectMain);
      assert d'.fail.registered[j] == d.fail.registered[j];
    }
  }

  lemma InputProgress(d: Input, act: Act<Fun, Args>)
    requires Good(d) && d.Possible(act) && AllUsers(act) && ProgressFns(d)
    ensures ProgressFns(d.Do(act))
  {
    hide Good, Deferred.Do;
    ActProgress(d, act);
  }

  lemma InputKeeps(w: World, k: nat, act: Act<Fun, Args>)
    requires Shape(w) && Registrations(w) && k < |w.inputs| && w.inputs[k].Possible(act) && AllUsers(act)
    ensures Shape(w.OnInput(k, act)) && Registrations(w.OnInput(k, act))
  {
    hide Good, Deferred.Do, DoneFns, FailFns, ProgressFns;
    var d, v := w.inputs[k], w.OnInput(k, act);
    GoodAct(d, act);
    InputDone(w, k, d, act);
    InputFail(w, k, d, act);
    InputProgress(d, act);
    forall j | 0 <= j < |v.inputs|
      ensures DoneFns(v, j, v.inputs[j]) && FailFns(v, j, v.inputs[j]) && ProgressFns(v.inputs[j])
    {
      SameFns(w, v, j, v.inputs[j]);
    }
  }

  /** Only what has been scanned matters to the registrations. */
  lemma SameFns(w: World, v: World, k: nat, d: Input)
    requires v.given == w.given && v.scanned == w.scanned && v.part == w.part
    ensures DoneFns(w, k, d) == DoneFns(v, k, d)
    ensures FailFns(w, k, d) == FailFns(v, k, d)
  {
    assert Listens(w, k) == Listens(v, k);
  }

  ghost predicate ResolvesNow(w: World, k: nat, act: Act<Fun, Args>, i: nat)
    requires k < |w.inputs| && w.inputs[k].Possible(act) && i < |w.given|
  {
    w.given[i] == PromiseOf(k) && act == Act.ApplyNext(Done) && w.inputs[k].done.pending[0].fn == Ext(ResolveFunc(i))
  }

  /** A fulfilled input keeps its outcome. */
  lemma InputFulfilled(w: World, k: nat, act: Act<Fun, Args>, i: nat)
    requires Shape(w) && k < |w.inputs| && w.inputs[k].Possible(act) && i < |w.given|
    ensures Fulfilled(w.OnInput(k, act), i) <==> Fulfilled(w, i) || (i < w.DoneUpTo() && ResolvesNow(w, k, act, i))
    ensures Fulfilled(w, i) ==> Slot(w.OnInput(k, act), i) == Slot(w, i)
  {
    hide Good, Deferred.Do, Applied;
    ActApplies(w.inputs[k], act, Done, ResolveFunc(i));
    if w.given[i] == PromiseOf(k) && Fulfilled(w, i) {
      AppliedWasRegistered(w.inputs[k], Done, ResolveFunc(i));
      GoodAct(w.inputs[k], act);
    }
  }

  lemma InputCounting(w: World, k: nat, act: Act<Fun, Args>)
    requires Shape(w) && Registrations(w) && Counting(w) && k < |w.inputs| && w.inputs[k].Possible(act) && AllUsers(act)
    requires act.ApplyNext? ==> !w.inputs[k].Get(act.k).pending[0].fn.ext.ResolveFunc?
    ensures Shape(w.OnInput(k, act)) && Counting(w.OnInput(k, act))
  {
    hide Good, Deferred.Do, Fulfilled, Registrations, Unfulfilled;
    var v := w.OnInput(k, act);
    InputKeeps(w, k, act);
    forall i | 0 <= i < |w.given| ensures (Fulfilled(v, i) <==> Fulfilled(w, i)) && Slot(v, i) == Slot(w, i) {
      InputFulfilled(w, k, act, i);
    }
    CountSame(w, v, |w.given|);
  }

  lemma InputRejections(w: World, k: nat, act: Act<Fun, Args>)
    requires Shape(w) && RejectionsOk(w) && k < |w.inputs| && w.inputs[k].Possible(act)
    requires !(act == Act.ApplyNext(Fail) && w.inputs[k].fail.pending[0].fn == Ext(RejectMain))
    ensures RejectionsOk(w.OnInput(k, act))
  {
    hide Good, Deferred.Do, Applied;
    var v := w.OnInput(k, act);
    GoodAct(w.inputs[k], act);
    ActApplies(w.inputs[k], act, Fail, RejectMain);
    KeepsRejections(w, v);
  }

  /** Rejected inputs stay rejected, with the same arguments. */
  lemma KeepsRejections(w: World, v: World)
    requires |w.inputs| == |v.inputs| && w.given == v.given && w.FailUpTo() <= v.FailUpTo()
    requires forall k :: 0 <= k < |w.inputs| && w.inputs[k].state == Rejected ==>
      v.inputs[k].state == Rejected && v.inputs[k].Outcome() == w.inputs[k].Outcome()
    ensures forall a :: SomeRejectedWith(w, a) ==> SomeRejectedWith(v, a)
  {
    forall a, k | RejectedWith(w, k, a) ensures RejectedWith(v, k, a) {
      var i :| 0 <= i < w.FailUpTo() && i < |w.given| && w.given[i] == PromiseOf(k);
    }
  }

  // ---- Settling the returned Deferred ----

  lemma ToMainSettles(w: World, kind: Kind, a: Args)
    requires Good(w.main)
    ensures var m := w.ToMain(kind, a).main;
      && Good(m)
      && (w.main.state != Pending ==> m.state == w.main.state && m.Outcome() == w.main.Outcome())
      && (w.main.state == Pending && kind == Progress ==> m.state == Pending)
      && (w.main.state == Pending && kind != Progress ==>
            m.state == (if kind == Done then Resolved else Rejected) && m.Outcome() == Some(a))
  {
    hide Good, Deferred.Do;
    GoodAct(w.main, Act.Trigger(kind, a));
    if w.main.state == Pending && kind != Progress {
      Settling(w.main, kind, a);
    }
  }

  /** While an input that `when` waits for is rejected, the count stays positive. */
  lemma RejectedBlocks(w: World, k: nat)
    requires Shape(w) && k < |w.inputs| && Listens(w, k) && w.inputs[k].state == Rejected
    ensures Unfulfilled(w, |w.given|) > 0
  {
    hide Good;
    var i :| 0 <= i < w.FailUpTo() && i < |w.given| && w.given[i] == PromiseOf(k);
    if Fulfilled(w, i) {
      AppliedWasRegistered(w.inputs[k], Done, ResolveFunc(i));
    }
    CountZero(w, |w.given|);
  }

  lemma NoneRejected(w: World)
    requires Shape(w) && RejectionsOk(w) && Unfulfilled(w, |w.given|) == 0
    ensures w.rejections == [] && w.main.state != Rejected
  {
    hide Good, Unfulfilled, Listens;
    if w.rejections != [] {
      var a := w.rejections[0];
      assert SomeRejectedWith(w, a);
      var k :| RejectedWith(w, k, a);
      RejectedBlocks(w, k);
    }
  }

  /** `when`'s functions are only ever applied by the lists they were registered with. */
  lemma OwnFunctions(w: World, k: nat, kind: Kind)
    requires Shape(w) && Registrations(w) && k < |w.inputs| && w.inputs[k].Possible(Act.ApplyNext(kind))
    ensures var d := w.inputs[k]; var f := d.Get(kind).pending[0].fn.ext;
      && (f.ResolveFunc? ==> kind == Done && f.i < w.DoneUpTo() && f.i < |w.given| && w.given[f.i] == PromiseOf(k)
                             && !Applied(d.done, f))
      && (f.RejectMain? ==> kind == Fail && Listens(w, k))
      && (kind != Progress ==> d.state != Pending && kind == Winner(d.state) && d.Outcome() == d.Get(kind).current)
  {
    hide Good, Listens, Deferred.Outcome;
    var d := w.inputs[k];
    if kind == Progress {
      assert d.progress.pending[0] in d.progress.Whole();
    } else {
      WhoApplies(d, kind);
    }
  }

  ghost predicate SameInputs(w: World, v: World) {
    && v.inputs == w.inputs && v.given == w.given && v.scanned == w.scanned && v.part == w.part
    && |v.args| == |w.args| && |v.pValues| == |w.pValues| && Good(v.main)
  }

  /** What depends on the inputs alone. */
  lemma Carry(w: World, v: World)
    requires Shape(w) && SameInputs(w, v) && (v.returned ==> v.scanned == |v.given|)
    ensures Shape(v) && (Registrations(w) ==> Registrations(v))
    ensures Unfulfilled(v, |v.given|) == Unfulfilled(w, |w.given|)
    ensures forall i :: 0 <= i < |w.given| ==> Slot(v, i) == Slot(w, i) && (Fulfilled(v, i) <==> Fulfilled(w, i))
    ensures forall a :: SomeRejectedWith(w, a) ==> SomeRejectedWith(v, a)
  {
    hide Good, DoneFns, FailFns, ProgressFns, Unfulfilled;
    forall i | 0 <= i < |w.given| ensures Fulfilled(v, i) <==> Fulfilled(w, i) {}
    CountSame(w, v, |w.given|);
    KeepsRejections(w, v);
    if Registrations(w) {
      forall k | 0 <= k < |v.inputs|
        ensures DoneFns(v, k, v.inputs[k]) && FailFns(v, k, v.inputs[k]) && ProgressFns(v.inputs[k])
      {
        SameFns(w, v, k, v.inputs[k]);
      }
    }
  }

  /** The counter goes down by one exactly when one more input is fulfilled. */
  lemma ResolveCounts(w: World, k: nat, kind: Kind)
    requires WhenInv(w) && w.Possible(Step.ApplyNext(k, kind)) && w.inputs[k].Get(kind).pending[0].fn.ext.ResolveFunc?
    ensures var v := w.OnInput(k, Act.ApplyNext(kind));
      var i, a := w.inputs[k].Get(kind).pending[0].fn.ext.i, w.inputs[k].Get(kind).current.value;
      && i < |w.args| && Unfulfilled(v, |w.given|) == w.count - 1
      && (forall j :: 0 <= j < |w.given| ==> Slot(v, j) == w.args[i := Single(a)][j])
      && StandsFor(Slot(v, i), a) && forall j :: 0 <= j < |w.given| && j != i ==> Slot(v, j) == w.args[j]
  {
    hide Good, Deferred.Do, Applied, Listens, Unfulfilled, DoneFns, FailFns, ProgressFns, Deferred.Outcome;
    var act: Act<Fun, Args> := Act.ApplyNext(kind);
    var d, v := w.inputs[k], w.OnInput(k, act);
    var i, a := d.Get(kind).pending[0].fn.ext.i, d.Get(kind).current.value;
    OwnFunctions(w, k, kind);
    GoodAct(d, act);
    ActApplies(d, act, Done, ResolveFunc(i));
    forall j | 0 <= j < |w.given|
      ensures (Fulfilled(v, j) <==> Fulfilled(w, j) || j == i) && (j != i ==> Slot(v, j) == Slot(w, j))
    {
      InputFulfilled(w, k, act, j);
    }
    CountOneLess(w, v, |w.given|, i);
  }

  /** At zero the returned Deferred is resolved, with the values in argument order. */
  lemma ResolveStep(w: World, k: nat, kind: Kind)
    requires WhenInv(w) && w.Possible(Step.ApplyNext(k, kind)) && w.inputs[k].Get(kind).pending[0].fn.ext.ResolveFunc?
    ensures WhenInv(w.Take(Step.ApplyNext(k, kind)))
  {
    hide Good, Deferred.Do, Applied, Listens, Registrations, Unfulfilled, Slot, SomeRejectedWith;
    var act: Act<Fun, Args> := Act.ApplyNext(kind);
    var i, a := w.inputs[k].Get(kind).pending[0].fn.ext.i, w.inputs[k].Get(kind).current.value;
    var v := w.OnInput(k, act);
    ResolveCounts(w, k, kind);
    OwnFunctions(w, k, kind);
    InputKeeps(w, k, act);
    InputRejections(w, k, act);
    var u := v.(args := v.args[i := Single(a)], count := v.count - 1);
    Carry(v, u);
    if u.count == 0 {
      NoneRejected(u);
      ToMainSettles(u, Done, u.args);
      Carry(u, u.ToMain(Done, u.args));
    }
  }

  lemma RejectStep(w: World, k: nat, kind: Kind)
    requires WhenInv(w) && w.Possible(Step.ApplyNext(k, kind)) && w.inputs[k].Get(kind).pending[0].fn.ext.RejectMain?
    ensures WhenInv(w.Take(Step.ApplyNext(k, kind)))
  {
    hide Good, Deferred.Do, Registrations, Unfulfilled, Slot, Applied;
    var act: Act<Fun, Args> := Act.ApplyNext(kind);
    var d, a := w.inputs[k], w.inputs[k].Get(kind).current.value;
    var v := w.OnInput(k, act);
    OwnFunctions(w, k, kind);
    GoodAct(d, act);
    InputKeeps(w, k, act);
    InputCounting(w, k, act);
    assert Listens(v, k) && RejectedWith(v, k, a);
    RejectedBlocks(v, k);
    var u := v.(rejections := v.rejections + [a]);
    ToMainSettles(u, Fail, a);
    var t := u.ToMain(Fail, a);
    Carry(v, t);
    KeepsRejections(w, v);
    assert SomeRejectedWith(v, a);
  }

  lemma OtherApply(w: World, k: nat, kind: Kind)
    requires WhenInv(w) && w.Possible(Step.ApplyNext(k, kind))
    requires var f := w.inputs[k].Get(kind).pending[0].fn.ext; f.User? || f.ProgressFunc?
    ensures WhenInv(w.Take(Step.ApplyNext(k, kind)))
  {
    hide Good, Deferred.Do, Registrations, Unfulfilled, Slot, Applied, SomeRejectedWith;
    var act: Act<Fun, Args> := Act.ApplyNext(kind);
    var v := w.OnInput(k, act);
    InputKeeps(w, k, act);
    InputCounting(w, k, act);
    InputRejections(w, k, act);
    var f, a := w.inputs[k].Get(kind).pending[0].fn.ext, w.inputs[k].Get(kind).current.value;
    if f.ProgressFunc? && f.i < |v.pValues| {
      var u := v.(pValues := v.pValues[f.i := Single(a)]);
      ToMainSettles(u, Progress, u.pValues);
      Carry(v, u.ToMain(Progress, u.pValues));
    }
  }

  /** User code settles an input or registers with it, or a firing loop goes on. */
  lemma OutsideStep(w: World, k: nat, act: Act<Fun, Args>)
    requires WhenInv(w) && k < |w.inputs| && w.inputs[k].Possible(act) && AllUsers(act) && !act.ApplyNext?
    ensures WhenInv(w.OnInput(k, act))
  {
    hide Good, Deferred.Do, Registrations, Unfulfilled, Slot, Applied, SomeRejectedWith;
    InputKeeps(w, k, act);
    InputCounting(w, k, act);
    InputRejections(w, k, act);
  }

  lemma MainStep(w: World, act: Act<nat, Args>)
    requires WhenInv(w) && !act.Trigger? && w.main.Possible(act)
    ensures WhenInv(w.Take(OnMain(act)))
  {
    hide Good, Deferred.Do, Registrations, Unfulfilled, Slot, Applied, SomeRejectedWith;
    GoodAct(w.main, act);
    Carry(w, w.Take(OnMain(act)));
  }

  lemma FinishStep(w: World)
    requires WhenInv(w) && w.Possible(Finish)
    ensures WhenInv(w.Take(Finish))
  {
    hide Good, Deferred.Do, Registrations, Unfulfilled, Slot, Applied, SomeRejectedWith;
    var v := w.(returned := true);
    Carry(w, v);
    if w.count == 0 {
      NoneRejected(w);
      ToMainSettles(v, Done, v.args);
      Carry(v, v.ToMain(Done, v.args));
    }
  }

  // ---- The scan ----

  /** What a registration does to an input, as far as the count and the rejections go. */
  lemma RegisterKeeps(d: Input, kind: Kind, f: Fun)
    requires Good(d)
    ensures var t := d.Do(Register(kind, [f]));
      && Good(t) && t.state == d.state && (d.state != Pending ==> t.Outcome() == d.Outcome())
      && (forall g :: Applied(t.done, g) <==> Applied(d.done, g))
      && (forall g :: Applied(t.fail, g) <==> Applied(d.fail, g))
      && (ProgressFns(d) && (kind == Progress ==> f.ProgressFunc?) ==> ProgressFns(t))
  {
    hide Good, Deferred.Do, Applied, Deferred.Outcome;
    var act: Act<Fun, Args> := Register(kind, [f]);
    GoodAct(d, act);
    forall g: Fun | true
      ensures Applied(d.Do(act).done, g) <==> Applied(d.done, g)
      ensures Applied(d.Do(act).fail, g) <==> Applied(d.fail, g)
    {
      ActApplies(d, act, Done, g);
      ActApplies(d, act, Fail, g);
    }
    ActProgress(d, act);
  }

  /** One more registration by `then`, with input `k`. */
  ghost predicate ScanOfPromise(w: World, v: World, k: nat) {
    && w.part <= 2 && w.scanned < |w.given| && w.given[w.scanned] == PromiseOf(k) && k < |w.inputs|
    && v.given == w.given && v.DoneUpTo() == w.scanned + 1 && v.FailUpTo() == w.scanned + if w.part == 0 then 0 else 1
  }

  lemma ScanDone(w: World, v: World, k: nat)
    requires ScanOfPromise(w, v, k) && Good(w.inputs[k]) && DoneFns(w, k, w.inputs[k])
    ensures DoneFns(v, k, w.inputs[k].Do(ThenAct(w.scanned, w.part)))
  {
    hide Good, Deferred.Do;
    var d, i, act := w.inputs[k], w.scanned, ThenAct(w.scanned, w.part);
    var t := d.Do(act);
    ActRegistered(d, act, Done);
    GoodAct(d, act);
    GoodLists(d, Done);
    if t.state != Rejected {
      forall m | 0 <= m < v.DoneUpTo() && m < |v.given| && v.given[m] == PromiseOf(k)
        ensures IsRegistered(t.done, ResolveFunc(m))
      {
        if m < w.DoneUpTo() {
          var j :| 0 <= j < |d.done.registered| && d.done.registered[j].fn == Ext(ResolveFunc(m));
          assert t.done.registered[j] == d.done.registered[j];
        } else {
          assert t.done.registered[|d.done.registered|].fn == Ext(ResolveFunc(i));
        }
      }
    }
  }

  lemma ScanFail(w: World, v: World, k: nat)
    requires ScanOfPromise(w, v, k) && Good(w.inputs[k]) && FailFns(w, k, w.inputs[k])
    ensures FailFns(v, k, w.inputs[k].Do(ThenAct(w.scanned, w.part)))
  {
    hide Good, Deferred.Do;
    var d, act := w.inputs[k], ThenAct(w.scanned, w.part);
    var t := d.Do(act);
    ActRegistered(d, act, Fail);
    GoodAct(d, act);
    GoodLists(d, Fail);
    assert w.part > 0 ==> Listens(v, k);
    if t.state != Resolved && Listens(v, k) {
      if w.part == 1 {
        assert t.fail.registered[|d.fail.registered|].fn == Ext(RejectMain);
      } else {
        assert Listens(w, k);
        var j :| 0 <= j < |d.fail.registered| && d.fail.registered[j].fn == Ext(RejectMain);
        assert t.fail.registered[j] == d.fail.registered[j];
      }
    }
  }

  /** Going on with the scan says nothing new about the other inputs. */
  lemma ScanOthers(w: World, v: World, k: nat, d: Input)
    requires v.given == w.given && w.scanned < |w.given| && w.given[w.scanned] != PromiseOf(k)
    requires w.scanned <= v.DoneUpTo() <= w.scanned + 1 && w.scanned <= v.FailUpTo() <= w.scanned + 1
    requires DoneFns(w, k, d) && FailFns(w, k, d)
    ensures DoneFns(v, k, d) && FailFns(v, k, d)
  {
    assert Listens(w, k) == Listens(v, k);
  }

  /** The argument under the scan, even if its place holds its value already. */
  lemma ScansGiven(w: World)
    requires WhenInv(w) && w.Possible(Scan)
    ensures w.scanned < |w.given| && (w.ScansPromise() <==> w.given[w.scanned].PromiseOf?)
    ensures !w.ScansPromise() ==> w.part == 0 && w.args[w.scanned] == w.given[w.scanned]
    ensures w.part == 0 ==> w.args[w.scanned] == w.given[w.scanned]
  {
    hide Good, Registrations, Unfulfilled, Applied;
    if w.part == 0 {
      assert w.args[w.scanned] == Slot(w, w.scanned) == w.given[w.scanned];
    }
  }

  lemma ScanPromise(w: World)
    requires WhenInv(w) && w.Possible(Scan) && w.ScansPromise()
    ensures WhenInv(w.Take(Scan))
  {
    hide Good, Deferred.Do, DoneFns, FailFns, ProgressFns, Unfulfilled, Applied, SomeRejectedWith;
    ScansGiven(w);
    var v, i := w.Take(Scan), w.scanned;
    var k := w.given[i].k;
    var d, t := w.inputs[k], v.inputs[k];
    RegisterKeeps(d, ThenAct(i, w.part).k, ThenAct(i, w.part).fns[0]);
    assert ThenAct(i, w.part) == Register(ThenAct(i, w.part).k, [ThenAct(i, w.part).fns[0]]);
    ScanDone(w, v, k);
    ScanFail(w, v, k);
    forall j | 0 <= j < |v.inputs|
      ensures DoneFns(v, j, v.inputs[j]) && FailFns(v, j, v.inputs[j]) && ProgressFns(v.inputs[j])
    {
      if j != k { ScanOthers(w, v, j, w.inputs[j]); }
    }
    forall j | 0 <= j < |w.given| ensures (Fulfilled(v, j) <==> Fulfilled(w, j)) && Slot(v, j) == Slot(w, j) {
      if w.part == 0 && j == i && Applied(d.done, ResolveFunc(i)) {
        NotYetRegistered(w, k, i);
      } else if w.given[j] == PromiseOf(k) && Fulfilled(w, j) {
        AppliedWasRegistered(d, Done, ResolveFunc(j));
      }
    }
    CountSame(w, v, |w.given|);
    KeepsRejections(w, v);
  }

  lemma NotYetRegistered(w: World, k: nat, i: nat)
    requires Shape(w) && Registrations(w) && k < |w.inputs| && w.DoneUpTo() <= i
    ensures !Applied(w.inputs[k].done, ResolveFunc(i))
  {
    hide Good;
    assert DoneFns(w, k, w.inputs[k]);
    if Applied(w.inputs[k].done, ResolveFunc(i)) {
      AppliedWasRegistered(w.inputs[k], Done, ResolveFunc(i));
    }
  }

  lemma ScanValue(w: World)
    requires WhenInv(w) && w.Possible(Scan) && !w.ScansPromise()
    ensures WhenInv(w.Take(Scan))
  {
    hide Good, Deferred.Do, DoneFns, FailFns, ProgressFns, Unfulfilled, Applied, SomeRejectedWith;
    ScansGiven(w);
    var v, i := w.Take(Scan), w.scanned;
    forall k | 0 <= k < |v.inputs|
      ensures DoneFns(v, k, v.inputs[k]) && FailFns(v, k, v.inputs[k]) && ProgressFns(v.inputs[k])
    {
      ScanOthers(w, v, k, w.inputs[k]);
    }
    forall j | 0 <= j < |w.given|
      ensures (Fulfilled(v, j) <==> Fulfilled(w, j) || j == i) && Slot(v, j) == Slot(w, j)
    {
    }
    CountOneLess(w, v, |w.given|, i);
    KeepsRejections(w, v);
    UnscannedBlocks(w);
  }

  lemma UnscannedBlocks(w: World)
    requires Shape(w) && w.scanned < |w.given| && w.part == 0
    ensures Unfulfilled(w, |w.given|) > 0
  {
    hide Good;
    CountZero(w, |w.given|);
    assert !Fulfilled(w, w.scanned);
  }

  // ---- Every run ----

  lemma TakeInv(w: World, s: Step)
    requires WhenInv(w) && w.Possible(s)
    ensures WhenInv(w.Take(s))
  {
    hide Good, Deferred.Do, Registrations, Unfulfilled, Slot, Applied, SomeRejectedWith;
    match s
    case Attach(k, kind, ids) => OutsideStep(w, k, Register(kind, Users(ids)));
    case Settle(k, kind, a) => OutsideStep(w, k, Act.Trigger(kind, a));
    case ReturnFrom(k, kind, r) => OutsideStep(w, k, Act.ReturnFrom(kind, r));
    case EndLoop(k, kind) => OutsideStep(w, k, Act.EndLoop(kind));
    case OnMain(act) => MainStep(w, act);
    case Finish => FinishStep(w);
    case Scan => if w.ScansPromise() { ScanPromise(w); } else { ScanValue(w); }
    case ApplyNext(k, kind) =>
      var f := w.inputs[k].Get(kind).pending[0].fn.ext;
      if f.ResolveFunc? { ResolveStep(w, k, kind); }
      else if f.RejectMain? { RejectStep(w, k, kind); }
      else { OtherApply(w, k, kind); }
  }

  ghost predicate UserFns(d: Input) {
    && (forall j :: 0 <= j < |d.done.registered| && d.done.registered[j].fn.Ext? ==> d.done.registered[j].fn.ext.User?)
    && (forall j :: 0 <= j < |d.fail.registered| && d.fail.registered[j].fn.Ext? ==> d.fail.registered[j].fn.ext.User?)
    && ProgressFns(d)
  }

  lemma {:induction false} UserRuns(acts: seq<Act<Fun, Args>>)
    requires LegalActs(acts) && OnlyUsers(acts)
    ensures Good(RunActs(acts)) && UserFns(RunActs(acts))
  {
    hide Good, Deferred.Do;
    if acts == [] {
      NewIsGood<Fun, Args>();
    } else {
      var n := |acts| - 1;
      var d := RunActs(acts[..n]);
      UserRuns(acts[..n]);
      assert acts[n] in acts;
      GoodAct(d, acts[n]);
      ActRegistered(d, acts[n], Done);
      ActRegistered(d, acts[n], Fail);
      InputProgress(d, acts[n]);
    }
  }

  lemma UsersOnly(w: World, k: nat, d: Input)
    requires w.scanned == 0 && w.part == 0 && UserFns(d)
    ensures DoneFns(w, k, d) && FailFns(w, k, d) && ProgressFns(d)
  {
    forall j | 0 <= j < |d.done.registered| && d.done.registered[j].fn.Ext?
      ensures !d.done.registered[j].fn.ext.ResolveFunc?
    {
    }
  }

  lemma StartInv(w: World)
    requires Start(w)
    ensures WhenInv(w)
  {
    hide Good, Applied;
    NewIsGood<nat, Args>();
    forall k | 0 <= k < |w.inputs| ensures Good(w.inputs[k]) && UserFns(w.inputs[k]) {
      var acts :| LegalActs(acts) && RunActs(acts) == w.inputs[k] && OnlyUsers(acts);
      UserRuns(acts);
    }
    CountAll(w, |w.given|);
    forall k | 0 <= k < |w.inputs| ensures !Applied(w.inputs[k].fail, RejectMain) {
      if Applied(w.inputs[k].fail, RejectMain) {
        AppliedWasRegistered(w.inputs[k], Fail, RejectMain);
      }
    }
    forall i | 0 <= i < |w.given| && w.given[i].PromiseOf? ensures w.given[i].k < |w.inputs| {
      assert w.given[i] in w.given;
    }
    forall k | 0 <= k < |w.inputs|
      ensures DoneFns(w, k, w.inputs[k]) && FailFns(w, k, w.inputs[k]) && ProgressFns(w.inputs[k])
    {
      UsersOnly(w, k, w.inputs[k]);
    }
  }

  lemma {:induction false} RunWhenInv(w: World, steps: seq<Step>)
    requires Start(w) && LegalSteps(w, steps)
    ensures WhenInv(RunSteps(w, steps)) && RunSteps(w, steps).given == w.given
    ensures |RunSteps(w, steps).inputs| == |w.inputs|
  {
    hide WhenInv, World.Take, Start;
    if steps == [] {
      StartInv(w);
    } else {
      var n := |steps| - 1;
      RunWhenInv(w, steps[..n]);
      TakeInv(RunSteps(w, steps[..n]), steps[n]);
      TakeSame(RunSteps(w, steps[..n]), steps[n]);
    }
  }

  lemma TakeSame(w: World, s: Step)
    requires w.Possible(s)
    ensures w.Take(s).given == w.given && |w.Take(s).inputs| == |w.inputs|
  {
    hide Deferred.Do, Deferred.Possible;
  }

  // ---- Main results ----

  /** The counter is the number of inputs not yet fulfilled, in every reachable state. */
  lemma CountIsUnfulfilled(w: World, steps: seq<Step>)
    requires Start(w) && LegalSteps(w, steps)
    ensures var v := RunSteps(w, steps); |v.given| == |w.given| && v.count == Unfulfilled(v, |v.given|)
  {
    hide Good, Registrations, Start;
    RunWhenInv(w, steps);
  }

  lemma TakeFinal(w: World, s: Step)
    requires Good(w.main) && w.Possible(s) && w.main.state != Pending
    ensures w.Take(s).main.state == w.main.state && w.Take(s).main.Outcome() == w.main.Outcome()
  {
    hide Good, Deferred.Do, Deferred.Outcome;
    match s
    case OnMain(act) => GoodAct(w.main, act);
    case Finish => ToMainSettles(w, Done, w.args);
    case ApplyNext(k, kind) =>
      var f, a := w.inputs[k].Get(kind).pending[0].fn.ext, w.inputs[k].Get(kind).current.value;
      match f {
        case ResolveFunc(i) => if i < |w.args| { GoodAct(w.main, Act.Trigger(Done, w.args[i := Single(a)])); }
        case RejectMain => GoodAct(w.main, Act.Trigger(Fail, a));
        case ProgressFunc(i) =>
          if i < |w.pValues| { GoodAct(w.main, Act.Trigger(Progress, w.pValues[i := Single(a)])); }
        case User(_) =>
      }
    case _ =>
  }

  /** `when` settles at most once: in every continuation the returned promise keeps its
      state and its outcome. */
  lemma {:induction false} WhenSettlesOnce(w: World, steps: seq<Step>, more: seq<Step>)
    requires Start(w) && LegalSteps(w, steps + more)
    ensures LegalSteps(w, steps)
    ensures RunSteps(w, steps).main.state != Pending ==>
      && RunSteps(w, steps + more).main.state == RunSteps(w, steps).main.state
      && RunSteps(w, steps + more).main.Outcome() == RunSteps(w, steps).main.Outcome()
  {
    hide World.Take, Start, Deferred.Outcome, Good;
    if more == [] {
      assert steps + more == steps;
    } else {
      var n := |more| - 1;
      assert (steps + more)[..|steps + more| - 1] == steps + more[..n];
      WhenSettlesOnce(w, steps, more[..n]);
      var v := RunSteps(w, steps + more[..n]);
      RunWhenInv(w, steps + more[..n]);
      if v.main.state != Pending { TakeFinal(v, more[n]); }
    }
  }

  ghost predicate InputResolved(v: World, i: nat)
    requires i < |v.given|
  {
    v.given[i].PromiseOf? && v.given[i].k < |v.inputs| ==> v.inputs[v.given[i].k].state == Resolved
  }

  /** Input `i` contributes `x`: a promise what it was resolved with, anything else itself. */
  ghost predicate Contributes(v: World, i: nat, x: Value)
    requires i < |v.given|
  {
    match v.given[i]
    case PromiseOf(k) => k < |v.inputs| && v.inputs[k].Outcome().Some? && StandsFor(x, v.inputs[k].Outcome().value)
    case plain => x == plain
  }

  /** `when` never resolves early: if the promise it returned is resolved, so is every
      input, and the values are theirs, in argument order. */
  lemma ResolvedMeansAllResolved(w: World, steps: seq<Step>)
    requires Start(w) && LegalSteps(w, steps) && RunSteps(w, steps).main.state == Resolved
    ensures var v := RunSteps(w, steps);
      && v.given == w.given && v.main.Outcome() == Some(v.args) && |v.args| == |v.given|
      && forall i :: 0 <= i < |v.given| ==> InputResolved(v, i) && Contributes(v, i, v.args[i])
  {
    hide Good, Registrations, Start, Applied, Unfulfilled;
    RunWhenInv(w, steps);
    var v := RunSteps(w, steps);
    CountZero(v, |v.given|);
    forall i | 0 <= i < |v.given| ensures InputResolved(v, i) && Contributes(v, i, v.args[i]) {
      assert Fulfilled(v, i) && v.args[i] == Slot(v, i);
      if v.given[i].PromiseOf? {
        AppliedWasRegistered(v.inputs[v.given[i].k], Done, ResolveFunc(i));
        GoodLists(v.inputs[v.given[i].k], Done);
      }
    }
  }

  /** `when` misses nothing: once it has returned and no input is firing, it has resolved
      if and only if all inputs have; it has rejected if and only if some input it waits
      for has, and then with the arguments of the first rejection it was told of. */
  lemma WhenSettlesExactly(w: World, steps: seq<Step>)
    requires Start(w) && LegalSteps(w, steps) && RunSteps(w, steps).returned && RunSteps(w, steps).Quiet()
    ensures var v := RunSteps(w, steps);
      && v.given == w.given
      && (v.main.state == Resolved <==> forall i :: 0 <= i < |v.given| ==> InputResolved(v, i))
      && (v.main.state == Rejected <==>
            exists k :: 0 <= k < |v.inputs| && Listens(v, k) && v.inputs[k].state == Rejected)
      && (v.main.state == Rejected ==>
            v.rejections != [] && v.main.Outcome() == Some(v.rejections[0]) && SomeRejectedWith(v, v.rejections[0]))
  {
    hide Good, Registrations, Start, Applied, Unfulfilled, Deferred.Outcome;
    RunWhenInv(w, steps);
    var v := RunSteps(w, steps);
    if v.main.state == Resolved {
      ResolvedMeansAllResolved(w, steps);
    }
    if forall i :: 0 <= i < |v.given| ==> InputResolved(v, i) {
      forall i | 0 <= i < |v.given| ensures Fulfilled(v, i) { QuietFulfils(v, i); }
      CountZero(v, |v.given|);
    }
    if k :| 0 <= k < |v.inputs| && Listens(v, k) && v.inputs[k].state == Rejected {
      QuietTells(v, k);
    }
    if v.main.state == Rejected {
      assert v.rejections[0] in v.rejections;
    }
  }

  lemma QuietFulfils(v: World, i: nat)
    requires Shape(v) && Registrations(v) && v.scanned == |v.given| && v.Quiet() && i < |v.given| && InputResolved(v, i)
    ensures Fulfilled(v, i)
  {
    hide Good;
    if v.given[i].PromiseOf? {
      var k := v.given[i].k;
      assert DoneFns(v, k, v.inputs[k]);
      IdleAppliedAll(v.inputs[k], Done, ResolveFunc(i));
    }
  }

  lemma QuietTells(v: World, k: nat)
    requires Shape(v) && Registrations(v) && RejectionsOk(v) && v.Quiet()
    requires k < |v.inputs| && Listens(v, k) && v.inputs[k].state == Rejected
    ensures v.main.state == Rejected
  {
    hide Good, Applied;
    assert FailFns(v, k, v.inputs[k]);
    IdleAppliedAll(v.inputs[k], Fail, RejectMain);
  }
}
