/** Which rejection `jQuery.when` reports.  It reports the one it is told of first, which
    need not be the one that came first: an input is rejected before its functions are
    called, and an earlier one of them may reject another input, whose functions are then
    called at once.  Here: the input rejected first, and runs in which it does win. */
module WhenOrder {
  import opened Wrappers
  import opened CallbackSpec
  import opened DeferredSpec
  import opened DeferredRuns
  import opened WhenSpec
  import opened WhenRuns

  /** `when` waits for input `k`, and it is rejected. */
  ghost predicate Heard(v: World, k: nat) {
    k < |v.inputs| && Listens(v, k) && v.inputs[k].state == Rejected
  }

  /** The input that this step rejects, or finds rejected. */
  ghost function Rejects(v: World, s: Step): Option<nat>
    requires v.Possible(s)
  {
    match s
    case Settle(k, kind, _) =>
      if kind == Fail && Listens(v, k) && v.inputs[k].state == Pending then Some(k) else None
    case Scan =>
      if v.ScansPromise() && v.part == 1 && v.inputs[v.given[v.scanned].k].state == Rejected
      then Some(v.given[v.scanned].k) else None
    case _ => None
  }

  /** The first input of the call that was rejected, or found rejected by the scan. */
  ghost function FirstRejected(w: World, steps: seq<Step>): Option<nat>
    requires LegalSteps(w, steps)
  {
    if steps == [] then None else
    var n := |steps| - 1;
    var earlier := FirstRejected(w, steps[..n]);
    if earlier.Some? then earlier else Rejects(RunSteps(w, steps[..n]), steps[n])
  }

  // ---- One step ----

  /** From `v` to `t` input `extra` has been rejected or found rejected, and no other. */
  ghost predicate HeardAlso(v: World, t: World, extra: Option<nat>) {
    && |t.inputs| == |v.inputs|
    && (forall j: nat :: Heard(t, j) <==> Heard(v, j) || extra == Some(j))
    && (forall j: nat :: Heard(v, j) ==> j < |v.inputs| && t.inputs[j].Outcome() == v.inputs[j].Outcome())
  }

  lemma InputHeard(v: World, k: nat, act: Act<Fun, Args>)
    requires Shape(v) && k < |v.inputs| && v.inputs[k].Possible(act)
    ensures HeardAlso(v, v.OnInput(k, act),
      if act.Trigger? && act.k == Fail && Listens(v, k) && v.inputs[k].state == Pending then Some(k) else None)
  {
    hide Good, Deferred.Do, Deferred.Outcome;
    GoodAct(v.inputs[k], act);
    assert forall j: nat :: Listens(v.OnInput(k, act), j) == Listens(v, j);
  }

  lemma ScanHeard(v: World)
    requires Shape(v) && v.Possible(Scan) && (v.ScansPromise() <==> v.given[v.scanned].PromiseOf?)
    ensures HeardAlso(v, v.Take(Scan), Rejects(v, Scan))
  {
    hide Good, Deferred.Do, Deferred.Outcome;
    var t := v.Take(Scan);
    if v.ScansPromise() {
      GoodAct(v.inputs[v.given[v.scanned].k], ThenAct(v.scanned, v.part));
    }
    forall j: nat | true
      ensures Listens(t, j) <==> Listens(v, j) || (v.part == 1 && v.given[v.scanned] == PromiseOf(j))
    {
      if Listens(v, j) {
        var i :| 0 <= i < v.FailUpTo() && i < |v.given| && v.given[i] == PromiseOf(j);
        assert i < t.FailUpTo() && t.given[i] == PromiseOf(j);
      }
      if v.part == 1 && v.given[v.scanned] == PromiseOf(j) {
        assert t.given[v.scanned] == PromiseOf(j);
      }
    }
  }

  /** What the rest of the state does is no concern of the inputs. */
  lemma SameHeard(v: World, t: World)
    requires t.inputs == v.inputs && t.given == v.given && t.FailUpTo() == v.FailUpTo()
    ensures forall u, extra :: HeardAlso(u, v, extra) ==> HeardAlso(u, t, extra)
    ensures HeardAlso(v, t, None)
  {
    assert forall j: nat :: Listens(t, j) == Listens(v, j);
  }

  lemma StepHeard(v: World, s: Step)
    requires WhenInv(v) && v.Possible(s)
    ensures HeardAlso(v, v.Take(s), Rejects(v, s))
  {
    hide Good, Deferred.Do, Deferred.Outcome, Registrations, Heard, HeardAlso, Listens, RejectionsOk, ResolvedOk,
      Unfulfilled;
    var t := v.Take(s);
    match s
    case Attach(k, kind, ids) => InputHeard(v, k, Register(kind, Users(ids)));
    case Settle(k, kind, a) => InputHeard(v, k, Act.Trigger(kind, a));
    case ReturnFrom(k, kind, r) => InputHeard(v, k, Act.ReturnFrom(kind, r));
    case EndLoop(k, kind) => InputHeard(v, k, Act.EndLoop(kind));
    case ApplyNext(k, kind) =>
      InputHeard(v, k, Act.ApplyNext(kind));
      SameHeard(v.OnInput(k, Act.ApplyNext(kind)), t);
    case OnMain(_) => SameHeard(v, t);
    case Finish => SameHeard(v, t);
    case Scan =>
      ScansGiven(v);
      ScanHeard(v);
  }

  // ---- Every run ----

  lemma OneMoreStep(w: World, steps: seq<Step>, s: Step)
    requires LegalSteps(w, steps) && RunSteps(w, steps).Possible(s)
    ensures LegalSteps(w, steps + [s]) && RunSteps(w, steps + [s]) == RunSteps(w, steps).Take(s)
  {
    hide World.Take, World.Possible;
    assert (steps + [s])[..|steps + [s]| - 1] == steps;
  }

  /** `FirstRejected` is what its name says: an input that has been rejected, and none has
      been when there is no such input. */
  lemma {:induction false} FirstRejectedIsHeard(w: World, steps: seq<Step>)
    requires Start(w) && LegalSteps(w, steps)
    ensures match FirstRejected(w, steps)
      case Some(k) => Heard(RunSteps(w, steps), k)
      case None => forall k: nat :: !Heard(RunSteps(w, steps), k)
  {
    hide World.Take, Start, WhenInv, Rejects, Deferred.Outcome;
    if steps == [] {
      NothingHeard(w);
    } else {
      var n := |steps| - 1;
      FirstRejectedIsHeard(w, steps[..n]);
      RunWhenInv(w, steps[..n]);
      hide Heard;
      StepHeard(RunSteps(w, steps[..n]), steps[n]);
    }
  }

  lemma NothingHeard(w: World)
    requires Start(w)
    ensures forall k: nat :: !Heard(w, k)
  {
  }

  /** Only the application of `deferred.reject` counts as telling `when`. */
  lemma OnlyApplyTells(v: World, s: Step)
    requires v.Possible(s)
    ensures v.Take(s).rejections == v.rejections || (s.ApplyNext? && Rejects(v, s) == None)
  {
    hide Deferred.Do;
  }

  /** Two inputs have been rejected, with different arguments. */
  ghost predicate Rivals(v: World) {
    exists j: nat, k: nat :: Heard(v, j) && Heard(v, k) && v.inputs[j].Outcome() != v.inputs[k].Outcome()
  }

  ghost predicate ContestedAt(w: World, steps: seq<Step>, n: nat) {
    && n <= |steps| && LegalSteps(w, steps[..n])
    && RunSteps(w, steps[..n]).rejections == [] && Rivals(RunSteps(w, steps[..n]))
  }

  /** At some moment of the run, before `when` has been told of any rejection, inputs are
      rejected with different arguments. */
  ghost predicate Contested(w: World, steps: seq<Step>) {
    exists n: nat :: ContestedAt(w, steps, n)
  }

  lemma ContestedLonger(w: World, steps: seq<Step>)
    requires steps != [] && Contested(w, steps[..|steps| - 1])
    ensures Contested(w, steps)
  {
    var n: nat :| ContestedAt(w, steps[..|steps| - 1], n);
    assert steps[..|steps| - 1][..n] == steps[..n];
    assert ContestedAt(w, steps, n);
  }

  /** In every run without such a moment `when` rejects with the arguments of the input
      that was rejected first. */
  lemma {:induction false} FirstRejectionWins(w: World, steps: seq<Step>)
    requires Start(w) && LegalSteps(w, steps) && !Contested(w, steps) && RunSteps(w, steps).main.state == Rejected
    ensures FirstRejected(w, steps).Some?
    ensures var v, k := RunSteps(w, steps), FirstRejected(w, steps).value;
      Heard(v, k) && v.main.Outcome() == v.inputs[k].Outcome()
  {
    hide World.Take, Start, WhenInv, Rejects, Deferred.Outcome, Heard, Contested;
    FirstRejectedIsHeard(w, steps);
    RunWhenInv(w, steps);
    if steps == [] {
      NotRejectedYet(w);
    } else {
      var n := |steps| - 1;
      var v, s := RunSteps(w, steps[..n]), steps[n];
      if Contested(w, steps[..n]) { ContestedLonger(w, steps); }
      RunWhenInv(w, steps[..n]);
      StepHeard(v, s);
      FirstRejectedIsHeard(w, steps[..n]);
      if v.main.state == Rejected {
        FirstRejectionWins(w, steps[..n]);
        StaysRejected(v, s);
      } else {
        FirstTold(v, s);
        assert !ContestedAt(w, steps, n) by { NotContestedAt(w, steps, n); }
        var j: nat :| Heard(v, j) && v.Take(s).main.Outcome() == v.inputs[j].Outcome();
        var k := FirstRejected(w, steps[..n]).value;
        assert v.inputs[j].Outcome() == v.inputs[k].Outcome();
      }
    }
  }

  lemma NotContestedAt(w: World, steps: seq<Step>, n: nat)
    requires !Contested(w, steps)
    ensures !ContestedAt(w, steps, n)
  {
  }

  lemma NotRejectedYet(w: World)
    requires Start(w)
    ensures w.main.state == Pending
  {
  }

  lemma StaysRejected(v: World, s: Step)
    requires WhenInv(v) && v.Possible(s) && v.main.state == Rejected
    ensures v.Take(s).main.state == Rejected && v.Take(s).main.Outcome() == v.main.Outcome()
  {
    hide Good, Deferred.Outcome;
    TakeFinal(v, s);
  }

  /** The rejection `when` is told of first is the outcome. */
  lemma FirstTold(v: World, s: Step)
    requires WhenInv(v) && v.Possible(s) && v.main.state != Rejected && v.Take(s).main.state == Rejected
    ensures v.rejections == [] && s.ApplyNext? && Rejects(v, s) == None
    ensures exists j: nat :: Heard(v, j) && v.Take(s).main.Outcome() == v.inputs[j].Outcome()
  {
    TakeInv(v, s);
    StepHeard(v, s);
    OnlyApplyTells(v, s);
    var t := v.Take(s);
    hide Good, World.Take, Shape, Registrations, Counting, Rejects, Deferred.Outcome;
    assert t.rejections[0] in t.rejections;
    var j: nat :| RejectedWith(t, j, t.rejections[0]);
    assert Heard(t, j);
  }

  /** A rejected input that `when` has not been told of is on its way to telling it. */
  lemma StillToTell(v: World, k: nat)
    requires WhenInv(v) && v.rejections == [] && Heard(v, k)
    ensures k < |v.inputs|
    ensures var l := v.inputs[k].fail;
      && l.pending != [] && l.phase in {AtHead, Running} && l.live && l.current.Some?
      && l.current == v.inputs[k].Outcome()
      && l.pending[0].fn.Ext? && (l.pending[0].fn.ext.User? || l.pending[0].fn.ext.RejectMain?)
  {
    var d := v.inputs[k];
    var l := d.fail;
    assert !Applied(l, RejectMain) && FailFns(v, k, d);
    var j :| 0 <= j < |l.registered| && l.registered[j].fn == Ext(RejectMain);
    assert l.registered == Regs(l.log) + l.pending;
    assert l.registered[|l.log|] == l.pending[0];
  }

  lemma GoodInput(v: World, k: nat)
    requires WhenInv(v) && Heard(v, k)
    ensures k < |v.inputs| && Good(v.inputs[k]) && v.inputs[k].state == Rejected
  {
  }

  lemma ToldInv(v: World)
    requires WhenInv(v) && v.rejections != []
    ensures v.main.state == Rejected && v.main.Outcome() == Some(v.rejections[0])
  {
    hide Good, Shape, Registrations, Counting, ResolvedOk, Deferred.Outcome;
  }
}
