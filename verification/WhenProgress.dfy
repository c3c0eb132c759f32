/** What `jQuery.when` makes of notifications: each input whose progress list can still
    fire has its `progressFunc`, once, and every notification that reaches it is passed on
    with the latest values of all inputs. */
module WhenProgress {
  import opened Wrappers
  import opened CallbackSpec
  import opened CallbackRuns
  import opened CallbackLaws
  import opened DeferredSpec
  import opened DeferredRuns
  import opened DeferredProgress
  import opened WhenSpec
  import opened WhenRuns

  ghost predicate Tidy<F(!new), A>(l: CbList<F, A>) {
    l.flags == MEMORY && (l.phase == Idle ==> l.pending == []) && (!l.live ==> l.Whole() == [])
  }

  /** Argument `i` is input `k`, and `then` has been called on it. */
  ghost predicate Passed(w: World, k: nat, i: nat) {
    i < w.scanned && i < |w.given| && w.given[i] == PromiseOf(k)
  }

  /** The progress list of input `k` has the `progressFunc`s of its arguments, each once. */
  ghost predicate Hears(w: World, k: nat, l: CbList<Fn<Fun>, Args>) {
    && Tidy(l)
    && (forall r :: r in l.Whole() && r.fn.Ext? && r.fn.ext.ProgressFunc? ==> Passed(w, k, r.fn.ext.i))
    && (forall r, s ::
          r in l.Whole() && s in l.Whole() && r.fn == s.fn && r.fn.Ext? && r.fn.ext.ProgressFunc? ==> r == s)
    && (l.live ==> forall i :: Passed(w, k, i) ==> exists r :: r in l.Whole() && r.fn == Ext(ProgressFunc(i)))
  }

  ghost predicate ProgressHeard(w: World) {
    forall k :: 0 <= k < |w.inputs| ==> Hears(w, k, w.inputs[k].progress)
  }

  // ---- One list ----

  lemma PartKeeps<F(!new), A>(l: CbList<F, A>, e: Event<F, A>)
    requires Tidy(l) && l.Enabled(e)
    requires e.Add? || e.FireWith? || e.Apply? || e.Return? || e.End? || e.Lock?
    ensures var t := l.Step(e);
      && Tidy(t) && (t.live ==> l.live)
      && (t.live ==> forall r :: r in t.Whole() <==>
            r in l.Whole() || (e.Add? && r in Number(e.fns, |l.registered|)))
  {
    if e.Add? && l.live {
      AddAppends(l, e.fns);
    }
  }

  /** An act that adds no function of `when`'s changes nothing about them. */
  lemma UsersKeep(w: World, k: nat, d: Input, act: Act<Fun, Args>)
    requires Good(d) && d.Possible(act) && AllUsers(act) && Hears(w, k, d.progress)
    ensures Hears(w, k, d.Do(act).progress)
  {
    hide Good, Deferred.Do, Deferred.Possible, CbList.Step, CbList.Enabled, CbList.Whole, ProgressPart, Tidy, Passed;
    PartStep(d, act);
    var part := ProgressPart(act, d.state != Pending);
    PartIs(act, d.state != Pending);
    if part != [] {
      PartKeeps(d.progress, part[0]);
      var l, t := d.progress, d.Do(act).progress;
      forall r | r in t.Whole() && r.fn.Ext? && r.fn.ext.ProgressFunc? ensures r in l.Whole() && t.live {
        LiveWhole(t, r);
        if r !in l.Whole() {
          AddsUsers(act.fns, |l.registered|, r);
        }
      }
    }
  }

  lemma LiveWhole<F(!new), A>(l: CbList<F, A>, r: Reg<F>)
    requires Tidy(l) && r in l.Whole()
    ensures l.live
  {
  }

  lemma AddsUsers(fns: seq<Fun>, n: nat, r: Reg<Fn<Fun>>)
    requires (forall f :: f in fns ==> f.User?) && r in Number(Exts(fns), n)
    ensures r.fn.Ext? && r.fn.ext.User?
  {
    var i :| 0 <= i < |fns| && Number(Exts(fns), n)[i] == r;
    assert fns[i] in fns;
  }

  /** `then` registers the `progressFunc` of the argument under the scan. */
  lemma ScanHears(w: World, v: World, k: nat, d: Input)
    requires Good(d) && Hears(w, k, d.progress) && w.scanned < |w.given| && w.given[w.scanned] == PromiseOf(k)
    requires v.given == w.given && v.scanned == w.scanned + 1
    ensures Hears(v, k, d.Do(Register(Progress, [ProgressFunc(w.scanned)])).progress)
  {
    hide Good, Deferred.Do, CbList.Step, CbList.Enabled, CbList.Whole, ProgressPart, Tidy;
    var f := ProgressFunc(w.scanned);
    var act: Act<Fun, Args> := Register(Progress, [f]);
    PartStep(d, act);
    PartIs(act, d.state != Pending);
    var l, t := d.progress, d.Do(act).progress;
    assert ProgressPart(act, d.state != Pending) == [Add(Exts([f]))] by {
      PartOfRegister<Fun, Args>([f], d.state != Pending);
    }
    PartKeeps(l, Add(Exts([f])));
    var added := Number(Exts([f]), |l.registered|);
    assert added == [Reg(Ext(f), |l.registered|)];
    forall r | r in t.Whole() ensures t.live && (r in l.Whole() || r == added[0]) {
      LiveWhole(t, r);
    }
    if t.live {
      forall i | Passed(v, k, i) ensures exists r :: r in t.Whole() && r.fn == Ext(ProgressFunc(i)) {
        if i == w.scanned {
          assert added[0] in t.Whole();
        } else {
          assert Passed(w, k, i);
          var r :| r in l.Whole() && r.fn == Ext(ProgressFunc(i));
          assert r in t.Whole();
        }
      }
    }
  }

  /** Nothing new has been passed for this input. */
  lemma SamePassed(w: World, v: World, k: nat, l: CbList<Fn<Fun>, Args>)
    requires Hears(w, k, l) && forall i :: Passed(v, k, i) <==> Passed(w, k, i)
    ensures Hears(v, k, l)
  {
    hide Passed, CbList.Whole, Tidy;
  }

  lemma InputHears(w: World, k: nat, act: Act<Fun, Args>)
    requires Shape(w) && ProgressHeard(w) && k < |w.inputs| && w.inputs[k].Possible(act) && AllUsers(act)
    ensures ProgressHeard(w.OnInput(k, act))
  {
    hide Good, Deferred.Do, Deferred.Possible, Hears, AllUsers;
    var v := w.OnInput(k, act);
    UsersKeep(w, k, w.inputs[k], act);
    forall j | 0 <= j < |v.inputs| ensures Hears(v, j, v.inputs[j].progress) {
      SamePassed(w, v, j, v.inputs[j].progress);
    }
  }

  lemma SameInputsHear(w: World, v: World)
    requires ProgressHeard(w) && v.inputs == w.inputs && v.given == w.given && v.scanned == w.scanned
    ensures ProgressHeard(v)
  {
    hide Hears;
    forall j | 0 <= j < |v.inputs| ensures Hears(v, j, v.inputs[j].progress) {
      SamePassed(w, v, j, v.inputs[j].progress);
    }
  }

  /** What the scan does to the inputs. */
  lemma ScanTakes(w: World)
    requires w.Possible(Scan)
    ensures var v := w.Take(Scan);
      && v.given == w.given && |v.inputs| == |w.inputs|
      && v.scanned == (if w.ScansPromise() && w.part < 2 then w.scanned else w.scanned + 1)
      && forall j :: 0 <= j < |w.inputs| ==>
        v.inputs[j] == if w.ScansPromise() && w.given[w.scanned] == PromiseOf(j)
                       then w.inputs[j].Do(ThenAct(w.scanned, w.part)) else w.inputs[j]
  {
    hide Deferred.Do, Deferred.Possible;
  }

  lemma ScanKeepsHeard(w: World)
    requires WhenInv(w) && ProgressHeard(w) && w.Possible(Scan)
    ensures ProgressHeard(w.Take(Scan))
  {
    GoodInputs(w);
    ScansGiven(w);
    ScanTakes(w);
    hide Good, Deferred.Do, Deferred.Possible, Hears, WhenInv, Shape, World.Take, World.Possible, ThenAct,
      World.ScansPromise, Passed;
    var v := w.Take(Scan);
    forall j | 0 <= j < |v.inputs| ensures Hears(v, j, v.inputs[j].progress) {
      if w.given[w.scanned] == PromiseOf(j) {
        ScanOfHears(w, v, j, w.inputs[j]);
      } else {
        PassesOthers(w, v, j);
        SamePassed(w, v, j, v.inputs[j].progress);
      }
    }
  }

  lemma PassesOthers(w: World, v: World, k: nat)
    requires v.given == w.given && w.scanned <= v.scanned <= w.scanned + 1 && w.scanned < |w.given|
    requires w.given[w.scanned] != PromiseOf(k) || v.scanned == w.scanned
    ensures forall i :: Passed(v, k, i) <==> Passed(w, k, i)
  {
  }

  lemma ScanOfHears(w: World, v: World, k: nat, d: Input)
    requires Good(d) && Hears(w, k, d.progress) && w.scanned < |w.given| && w.given[w.scanned] == PromiseOf(k)
    requires v.given == w.given && w.part <= 2 && v.scanned == if w.part < 2 then w.scanned else w.scanned + 1
    ensures Hears(v, k, d.Do(ThenAct(w.scanned, w.part)).progress)
  {
    hide Good, Deferred.Do, Hears, Passed;
    if w.part == 2 {
      ScanHears(w, v, k, d);
    } else {
      OtherKinds(w, k, d, ThenAct(w.scanned, w.part));
      PassesOthers(w, v, k);
      SamePassed(w, v, k, d.Do(ThenAct(w.scanned, w.part)).progress);
    }
  }

  lemma GoodInputs(w: World)
    requires WhenInv(w)
    ensures w.part <= 2 && Shape(w) && forall k :: 0 <= k < |w.inputs| ==> Good(w.inputs[k])
  {
  }

  /** Registering with another list does not concern the progress list. */
  lemma OtherKinds(w: World, k: nat, d: Input, act: Act<Fun, Args>)
    requires Good(d) && Hears(w, k, d.progress) && act.Register? && act.k != Progress
    ensures Hears(w, k, d.Do(act).progress)
  {
    hide Good, Deferred.Do, Hears;
    PartStep(d, act);
  }

  lemma ApplyHears(w: World, k: nat, kind: Kind)
    requires Shape(w) && ProgressHeard(w) && w.Possible(Step.ApplyNext(k, kind))
    ensures ProgressHeard(w.Take(Step.ApplyNext(k, kind)))
  {
    hide Good, Deferred.Do, ProgressHeard;
    InputHears(w, k, Act.ApplyNext(kind));
    SameInputsHear(w.OnInput(k, Act.ApplyNext(kind)), w.Take(Step.ApplyNext(k, kind)));
  }

  lemma StepHears(w: World, s: Step)
    requires WhenInv(w) && ProgressHeard(w) && w.Possible(s)
    ensures ProgressHeard(w.Take(s))
  {
    GoodInputs(w);
    hide Good, Deferred.Do, Deferred.Possible, WhenInv, Shape, ProgressHeard, World.Perform;
    match s
    case Attach(k, kind, ids) => InputHears(w, k, Register(kind, Users(ids)));
    case Settle(k, kind, a) => InputHears(w, k, Act.Trigger(kind, a));
    case ReturnFrom(k, kind, r) => InputHears(w, k, Act.ReturnFrom(kind, r));
    case EndLoop(k, kind) => InputHears(w, k, Act.EndLoop(kind));
    case OnMain(_) => SameInputsHear(w, w.Take(s));
    case Finish => SameInputsHear(w, w.Take(s));
    case Scan => ScanKeepsHeard(w);
    case ApplyNext(k, kind) => ApplyHears(w, k, kind);
  }

  // ---- Every run ----

  lemma {:induction false} OnlyUsersGiven(acts: seq<Act<Fun, Args>>)
    requires OnlyUsers(acts)
    ensures forall f :: f in AllRegistered(acts, Progress) ==> f.User?
  {
    if acts != [] {
      var n := |acts| - 1;
      assert acts[n] in acts;
      OnlyUsersGiven(acts[..n]);
    }
  }

  lemma NoneHears(w: World, k: nat, acts: seq<Act<Fun, Args>>)
    requires LegalActs(acts) && OnlyUsers(acts) && w.scanned == 0
    ensures Hears(w, k, RunActs(acts).progress)
  {
    hide LegalActs, RunActs, Legal, Replay, Ascending;
    var l := RunActs(acts).progress;
    RunComplete(acts);
    ProgressIsARun(acts);
    RunInv(MEMORY, ProgressEvents(acts));
    OnlyUsersGiven(acts);
    forall r | r in l.Whole() ensures r.fn.Ext? && r.fn.ext.User? {
      var i :| 0 <= i < |l.registered| && l.registered[i] == r;
      assert Fns(l.registered)[i] == Exts(AllRegistered(acts, Progress))[i];
      assert AllRegistered(acts, Progress)[i] in AllRegistered(acts, Progress);
    }
  }

  /** In every run the progress list of an input has the `progressFunc` of every argument
      scanned that is this input, once, and no other. */
  lemma {:induction false} RunHearsProgress(w: World, steps: seq<Step>)
    requires Start(w) && LegalSteps(w, steps)
    ensures ProgressHeard(RunSteps(w, steps))
  {
    hide World.Take, World.Possible, WhenInv, Start, Hears;
    if steps == [] {
      assert ProgressHeard(w) by { StartHears(w); }
    } else {
      var n := |steps| - 1;
      RunHearsProgress(w, steps[..n]);
      RunWhenInv(w, steps[..n]);
      StepHears(RunSteps(w, steps[..n]), steps[n]);
    }
  }

  lemma StartHears(w: World)
    requires Start(w)
    ensures ProgressHeard(w)
  {
    hide Hears, LegalActs, RunActs;
    forall k | 0 <= k < |w.inputs| ensures Hears(w, k, w.inputs[k].progress) {
      var acts :| LegalActs(acts) && RunActs(acts) == w.inputs[k] && OnlyUsers(acts);
      NoneHears(w, k, acts);
    }
  }

  /** Applying a `progressFunc` puts its value in its argument's place, and in no other, and
      notifies with the values of all. */
  lemma ProgressNotifies(w: World, steps: seq<Step>, k: nat, kind: Kind)
    requires Start(w) && LegalSteps(w, steps) && RunSteps(w, steps).Possible(Step.ApplyNext(k, kind))
    requires RunSteps(w, steps).inputs[k].Get(kind).pending[0].fn.ext.ProgressFunc?
    ensures var v := RunSteps(w, steps);
      var i, a := v.inputs[k].Get(kind).pending[0].fn.ext.i, v.inputs[k].Get(kind).current.value;
      var t := v.Take(Step.ApplyNext(k, kind));
      && kind == Progress && i < |v.given| == |t.pValues| == |v.pValues| && v.given[i] == PromiseOf(k)
      && StandsFor(t.pValues[i], a) && (forall j :: 0 <= j < |t.pValues| && j != i ==> t.pValues[j] == v.pValues[j])
      && t.main == v.main.Do(Act.Trigger(Progress, t.pValues)) && t.args == v.args && t.count == v.count
  {
    hide Deferred.Do, Start, LegalSteps, RunSteps, Tidy, Good;
    RunHearsProgress(w, steps);
    RunWhenInv(w, steps);
    var v := RunSteps(w, steps);
    var l := v.inputs[k].Get(kind);
    OnlyProgress(v, k, kind);
    assert l.pending[0] in l.Whole();
    assert Hears(v, k, l);
  }

  lemma OnlyProgress(v: World, k: nat, kind: Kind)
    requires WhenInv(v) && v.Possible(Step.ApplyNext(k, kind))
    requires v.inputs[k].Get(kind).pending[0].fn.ext.ProgressFunc?
    ensures kind == Progress
  {
    hide Good, Counting;
    var d := v.inputs[k];
    if kind != Progress {
      WhoApplies(d, kind);
      NotWithOthers(v, k, kind, |d.Get(kind).log|);
    }
  }

  lemma NotWithOthers(v: World, k: nat, kind: Kind, j: nat)
    requires Registrations(v) && k < |v.inputs| && kind != Progress && j < |v.inputs[k].Get(kind).registered|
    requires v.inputs[k].Get(kind).registered[j].fn.Ext?
    ensures !v.inputs[k].Get(kind).registered[j].fn.ext.ProgressFunc?
  {
    assert DoneFns(v, k, v.inputs[k]) && FailFns(v, k, v.inputs[k]);
  }
}
