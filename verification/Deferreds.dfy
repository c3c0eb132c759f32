/** `jQuery.Deferred` as the source builds it: three callback lists and the variable
    `state`, wired by functions registered with the lists.  Whatever the callbacks do to
    any of the lists while they run, the object's history is a run of the Deferred of
    `DeferredSpec`, so the results about all runs apply to it. */
module Deferreds {
  import opened Wrappers
  import opened CallbackSpec
  import opened DeferredSpec
  import opened DeferredRuns
  import opened JointSpec
  import opened JointRuns
  import opened Callbacks

  function Funcs<F>(own: seq<Own>): (args: seq<Arg<Fn<F>>>)
    ensures |args| == |own|
  {
    seq(|own|, i requires 0 <= i < |own| => Func(Own(own[i])))
  }

  lemma {:induction false} FlattenFuncs<F>(own: seq<Own>)
    ensures Flatten(Funcs<F>(own)) == Owns<F>(own)
  {
    if own != [] {
      var n := |own| - 1;
      FlattenFuncs<F>(own[..n]);
      assert Funcs<F>(own)[..n] == Funcs<F>(own[..n]);
      assert Owns<F>(own) == Owns<F>(own[..n]) + [Own(own[n])];
    }
  }

  // ---- Acts and histories ----

  lemma {:induction false} ActsGrow<F(!new), A>(
      start: Joint<F, A>, trace: seq<Happening<F, A>>, more: seq<Happening<F, A>>)
    requires trace <= more && LegalTrace(start, more)
    ensures LegalTrace(start, trace) && ActsOf(start, trace) <= ActsOf(start, more)
  {
    hide Joint.Enabled, Joint.Next, ActsFor;
    if more == trace {
    } else {
      ActsGrow(start, trace, more[..|more| - 1]);
    }
  }

  /** An act of user code is an act of the Deferred. */
  lemma UserActs<F(!new), A>(start: Joint<F, A>, trace: seq<Happening<F, A>>, more: seq<Happening<F, A>>,
                             k: Kind, e: Event<Fn<F>, A>, act: Act<F, A>)
    requires LegalTrace(start, more) && trace + [OnList(Place(k), e)] <= more
    requires LegalTrace(start, trace) ==> RunTrace(start, trace).call.NoCall?
    requires act.Register? ==> act == Register(k, act.fns) && e == Add(Exts(act.fns))
    requires act.Trigger? ==> act == Trigger(k, act.args) && e == FireWith(act.args)
    requires act.Register? || act.Trigger?
    ensures LegalTrace(start, trace) && ActsOf(start, trace) + [act] <= ActsOf(start, more)
  {
    hide Joint.Enabled, Joint.Next;
    var h := OnList(Place(k), e);
    var one := trace + [h];
    ActsGrow(start, one, more);
    assert one[..|one| - 1] == trace;
    if act.Register? {
      assert Unwrapped(Exts(act.fns)) == act.fns;
    }
    assert ActsFor(RunTrace(start, trace), h) == [act];
  }

  class DeferredObject<F(==,!new), A> {
    const program: Program<F, A>

    ghost predicate Valid()
      reads program, program.lists
    {
      program.Calm() && |program.lists| == 3 && FreshDeferred(program.start)
    }

    /** What has been done to the Deferred, from its creation on. */
    ghost function Acts(): seq<Act<F, A>>
      requires Valid()
      reads program, program.lists
    {
      ActsOf(program.start, program.trace)
    }

    ghost function View(): Deferred<F, A>
      requires Valid()
      reads program, program.lists
    {
      program.now.AsDeferred()
    }

    /** The object's history is a run, and the object is what the run has made it. */
    lemma HistoryIsARun()
      requires Valid()
      ensures LegalActs(Acts()) && RunActs(Acts()) == View() && View().state == program.state
      ensures LegalTrace(program.start, program.trace) && RunTrace(program.start, program.trace).call.NoCall?
    {
      hide FreshDeferred, Joint.OwnNext;
      NothingDue();
      BetweenActs(program.start, program.trace);
    }

    lemma NothingDue()
      requires Valid()
      ensures program.now.NoneWaits()
    {
    }

    /** Once settled and not firing, it has called all callbacks of its kind (after its own
        functions), exactly once, in the order of registration, with the settling arguments,
        and none of the other kind.  `called` is what has really been called. */
    lemma AllCalled(k: Kind)
      requires Valid() && program.state != Pending && k == Winner(program.state)
      requires !program.lists[Place(k)].firing
      ensures var called := program.lists[Place(k)].called;
        && Fns(Regs(called)) == Owns(OwnOf(k)) + Exts(AllRegistered(Acts(), k))
        && forall c :: c in called ==> Some(c.args) == View().Outcome()
      ensures program.lists[Place(Opposite(k))].called == []
    {
      HistoryIsARun();
      SettledCallsEveryCallbackOnce(Acts());
      SettledCallsOwnFirst(Acts());
      NothingUntold(Place(k));
      NothingUntold(Place(Opposite(k)));
    }

    /** What has been called is what the history records as applied. */
    lemma NothingUntold(i: nat)
      requires Valid() && i < 3
      ensures program.lists[i].called == program.now.lists[i].log
      ensures !program.lists[i].firing ==> program.now.lists[i].phase == Idle
    {
      assert program.lists[i].Ready();
    }

    /** `script` is what the functions registered from outside do when they are called; they
        have only the methods of the Deferred to do it with. */
    constructor (script: seq<Body<F, A>>)
      requires PermittedBodies(script, 3, 3)
      ensures Valid() && fresh(program) && fresh(program.lists) && program.script == script
      ensures Acts() == [] && View() == NewDeferred() && program.state == Pending
    {
      hide Program.Linked, Program.ReadyBut, FreshDeferred, Unwired;
      var p := NewLists(script);
      program := p;
      new;
      Wire();
    }

    /** `deferred.done(...).fail(...)` with the Deferred's own functions. */
    method Wire()
      requires program.Calm() && |program.lists| == 3 && program.now == Unwired<F, A>()
      modifies program`pos, program`state, program`trace, program`now, program`start, program.lists
      ensures Valid() && Acts() == [] && View() == NewDeferred() && program.state == Pending
    {
      hide Joint.Enabled, Joint.Next, CbList.DoAdd, Program.Linked, Program.ReadyBut, FreshDeferred, AllAimed, Funcs,
        Owns, Unwired;
      var doneList, failList := program.lists[0], program.lists[1];
      FlattenFuncs<F>(OwnOf(Done));
      FlattenFuncs<F>(OwnOf(Fail));
      Wiring<F, A>();
      program.Here(0);
      program.Takes(doneList);
      doneList.Add(program, Funcs(OwnOf(Done)));
      program.Here(1);
      program.Takes(failList);
      failList.Add(program, Funcs(OwnOf(Fail)));
      program.Here(1);
      program.Seal();
    }

    /** `done`, `fail` and `progress`.  Callbacks may run before it returns. */
    method Register(k: Kind, args: seq<Arg<Fn<F>>>)
      requires Valid() && forall f :: f in Flatten(args) ==> f.Ext?
      modifies program`pos, program`state, program`trace, program`now, program.lists
      ensures Valid() && old(Acts()) + [Act.Register(k, Unwrapped(Flatten(args)))] <= Acts()
      ensures old(program.state) != Pending ==>
        program.state == old(program.state) && View().Outcome() == old(View().Outcome())
      ensures forall i :: 0 <= i < 3 ==> program.lists[i].firing == old(program.lists[i].firing)
    {
      hide Flatten, FreshDeferred, Program.Linked, Program.ReadyBut, Program.Snap, Onward, Deferred.Outcome,
        LegalTrace, RunTrace, LegalActs, RunActs, ActsOf;
      ghost var acts, trace := Acts(), program.trace;
      HistoryIsARun();
      ghost var s := program.Snap();
      program.Firings();
      ghost var fns := Flatten(args);
      program.Here(Place(k));
      program.lists[Place(k)].Add(program, args);
      assert Exts(Unwrapped(fns)) == fns;
      HistoryIsARun();
      UserActs(program.start, trace, program.trace, k, Event.Add(fns), Act.Register(k, Unwrapped(fns)));
      Settles(acts, Act.Register(k, Unwrapped(fns)), Acts());
      program.SameFirings(s);
    }

    /** `resolveWith`, `rejectWith` and `notifyWith`.  When it returns, the Deferred is
        settled, by this call or by an earlier one, unless it was a notification. */
    method Trigger(k: Kind, args: A)
      requires Valid()
      modifies program`pos, program`state, program`trace, program`now, program.lists
      ensures Valid() && old(Acts()) + [Act.Trigger(k, args)] <= Acts()
      ensures old(program.state) != Pending ==>
        program.state == old(program.state) && View().Outcome() == old(View().Outcome())
      ensures old(program.state) == Pending && k != Progress ==>
        program.state == (if k == Done then Resolved else Rejected) && View().Outcome() == Some(args)
      ensures forall i :: 0 <= i < 3 ==> program.lists[i].firing == old(program.lists[i].firing)
    {
      hide FreshDeferred, Program.Linked, Program.ReadyBut, Program.Snap, Onward, Deferred.Outcome,
        LegalTrace, RunTrace, LegalActs, RunActs, ActsOf;
      ghost var acts, trace := Acts(), program.trace;
      HistoryIsARun();
      ghost var s := program.Snap();
      program.Firings();
      program.Here(Place(k));
      program.lists[Place(k)].FireWith(program, args);
      HistoryIsARun();
      UserActs(program.start, trace, program.trace, k, Event.FireWith(args), Act.Trigger(k, args));
      Settles(acts, Act.Trigger(k, args), Acts());
      program.SameFirings(s);
    }

    /** `state` tells which of the acts settled the Deferred. */
    method State() returns (state: State)
      requires Valid()
      ensures match FirstSettling(Acts()) case None => state == Pending case Some((s, _)) => state == s
    {
      HistoryIsARun();
      FirstSettlingDecides(Acts());
      return program.state;
    }
  }

  /** What any further acts leave as it is, and what the first settling decides. */
  lemma Settles<F(!new), A>(before: seq<Act<F, A>>, act: Act<F, A>, after: seq<Act<F, A>>)
    requires before + [act] <= after && LegalActs(before) && LegalActs(after)
    ensures RunActs(before).state != Pending ==>
      RunActs(after).state == RunActs(before).state && RunActs(after).Outcome() == RunActs(before).Outcome()
    ensures RunActs(before).state == Pending && act.Trigger? && act.k != Progress ==>
      && RunActs(after).state == (if act.k == Done then Resolved else Rejected)
      && RunActs(after).Outcome() == Some(act.args)
  {
    hide Deferred.Do;
    var one := before + [act];
    assert after == one + after[|one|..] && after == before + after[|before|..];
    assert one[..|one| - 1] == before && one[|one| - 1] == act;
    StateIsFinal(before, after[|before|..]);
    FirstSettlingStays(one, after[|one|..]);
    FirstSettlingDecides(before);
    FirstSettlingDecides(after);
  }

  method NewLists<F(!new), A>(script: seq<Body<F, A>>) returns (p: Program<F, A>)
    requires PermittedBodies(script, 3, 3)
    ensures fresh(p) && fresh(p.lists) && p.Calm() && |p.lists| == 3 && p.script == script && p.now == Unwired<F, A>()
  {
    hide Program.Linked, Program.ReadyBut, CallbackList.Recorded, Unwired;
    var doneList := new CallbackList(ONCE_MEMORY, 0);
    var failList := new CallbackList(ONCE_MEMORY, 1);
    var progressList := new CallbackList(MEMORY, 2);
    p := new Program([doneList, failList, progressList], script, 3);
    ThreeLists(p.now);
  }

  /** The three lists as they are created. */
  ghost function Unwired<F(!new), A>(): Joint<F, A> {
    Joint([NewList(ONCE_MEMORY), NewList(ONCE_MEMORY), NewList(MEMORY)], Pending, NoCall, 3, false)
  }

  lemma ThreeLists<F(!new), A>(j: Joint<F, A>)
    requires |j.lists| == 3 && j.state == Pending && j.call == NoCall && j.hidden == 3 && !j.sealed
    requires j.lists[0] == NewList(ONCE_MEMORY) && j.lists[1] == NewList(ONCE_MEMORY) && j.lists[2] == NewList(MEMORY)
    ensures j == Unwired<F, A>()
  {
    assert j.lists == [j.lists[0], j.lists[1], j.lists[2]];
  }

  /** A list of the Deferred with its own functions. */
  lemma WiredList<F(!new), A>(k: Kind)
    requires k != Progress
    ensures var fns := Owns<F>(OwnOf(k));
      && (forall f :: f in fns ==> Aimed(f, Place(k), 3))
      && var l := NewList<Fn<F>, A>(ONCE_MEMORY).DoAdd(fns);
      l.phase == Idle && forall r :: r in l.Whole() ==> Aimed(r.fn, Place(k), 3)
  {
  }

  lemma WiredJoint<F(!new), A>(j: Joint<F, A>)
    requires j.lists == [NewList(ONCE_MEMORY).DoAdd(Owns(OwnOf(Done))), NewList(ONCE_MEMORY).DoAdd(Owns(OwnOf(Fail))),
                         NewList(MEMORY)]
    requires j.state == Pending && j.call == NoCall && j.hidden == 3
    ensures FreshDeferred(j.(sealed := true)) && j.AsDeferred() == NewDeferred()
  {
    WiredList<F, A>(Done);
    WiredList<F, A>(Fail);
    hide CbList.DoAdd, Owns, Aimed;
  }

  /** Adding the own functions makes them the lists of a new Deferred. */
  lemma Wiring<F(!new), A>()
    ensures var done: Happening<F, A> := OnList(0, Add(Owns(OwnOf(Done))));
      var fail: Happening<F, A> := OnList(1, Add(Owns(OwnOf(Fail))));
      && Unwired<F, A>().MayAdd(0, Owns(OwnOf(Done))) && Unwired<F, A>().Enabled(done)
      && !Unwired<F, A>().lists[0].memory.Saved?
      && var one := Unwired<F, A>().Next(done);
      && one.MayAdd(1, Owns(OwnOf(Fail))) && one.Enabled(fail) && !one.lists[1].memory.Saved?
      && FreshDeferred(one.Next(fail).(sealed := true))
      && one.Next(fail).AsDeferred() == NewDeferred() && one.Next(fail).state == Pending
  {
    hide CbList.DoAdd, Owns, Aimed, FreshDeferred, Joint.AsDeferred, NewDeferred, Joint.Enabled, Joint.Next,
      Joint.MayAdd, Unwired, HalfWired, NewList;
    WiresDone<F, A>();
    WiresFail<F, A>();
    WiredJoint(HalfWired<F, A>().Next(OnList(1, Add(Owns(OwnOf(Fail))))));
  }

  ghost function HalfWired<F(!new), A>(): Joint<F, A> {
    Joint([NewList(ONCE_MEMORY).DoAdd(Owns(OwnOf(Done))), NewList(ONCE_MEMORY), NewList(MEMORY)],
          Pending, NoCall, 3, false)
  }

  lemma WiresDone<F(!new), A>()
    ensures var done: Happening<F, A>, j := OnList(0, Add(Owns(OwnOf(Done)))), Unwired<F, A>();
      && j.MayAdd(0, Owns(OwnOf(Done))) && j.Enabled(done) && !j.lists[0].memory.Saved?
      && j.Next(done) == HalfWired<F, A>()
  {
    WiredList<F, A>(Done);
    hide CbList.DoAdd, Owns, Aimed;
  }

  lemma WiresFail<F(!new), A>()
    ensures var fail: Happening<F, A>, j := OnList(1, Add(Owns(OwnOf(Fail)))), HalfWired<F, A>();
      && |j.lists| == 3 && j.MayAdd(1, Owns(OwnOf(Fail))) && j.Enabled(fail) && !j.lists[1].memory.Saved?
      && var t := j.Next(fail);
      && t.lists == [NewList(ONCE_MEMORY).DoAdd(Owns(OwnOf(Done))), NewList(ONCE_MEMORY).DoAdd(Owns(OwnOf(Fail))),
                     NewList(MEMORY)]
      && t.state == Pending && t.call == NoCall && t.hidden == 3
  {
    WiredList<F, A>(Done);
    WiredList<F, A>(Fail);
    hide CbList.DoAdd, Owns, Aimed;
  }
}
