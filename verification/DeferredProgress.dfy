/** The progress list of a Deferred.  What happens to it in a run of the Deferred is a run
    of a callback list with memory, which is locked when the Deferred is settled. */
module DeferredProgress {
  import opened Wrappers
  import opened CallbackSpec
  import opened CallbackRuns
  import opened CallbackLaws
  import opened DeferredSpec
  import opened DeferredRuns

  /** What an act is to the progress list. */
  function ProgressPart<F, A>(act: Act<F, A>, settled: bool): seq<Event<Fn<F>, A>> {
    if act.k != Progress then (if act.Trigger? && !settled then [Lock] else [])
    else
      match act
      case Register(_, fns) => [Add(Exts(fns))]
      case Trigger(_, a) => [FireWith(a)]
      case ApplyNext(_) => [Apply]
      case ReturnFrom(_, result) => [Return(result)]
      case EndLoop(_) => [End]
  }

  function ProgressEvents<F, A>(acts: seq<Act<F, A>>): seq<Event<Fn<F>, A>> {
    if acts == [] then [] else
    var n := |acts| - 1;
    ProgressEvents(acts[..n]) + ProgressPart(acts[n], FirstSettling(acts[..n]).Some?)
  }

  lemma PartStep<F(!new), A>(d: Deferred<F, A>, act: Act<F, A>)
    requires Good(d) && d.Possible(act)
    ensures var part := ProgressPart(act, d.state != Pending);
      && |part| <= 1 && (part == [] ==> d.Do(act).progress == d.progress)
      && (part != [] ==> d.progress.Enabled(part[0]) && d.Do(act).progress == d.progress.Step(part[0]))
  {
    hide Good, Deferred.Do;
    if act.k == Progress {
      ProgressAct(d, act);
    } else if d.state != Pending {
      SettledAct(d, act);
    } else {
      OnlyOutside(d, act);
      if act.Register? { PendingRegister(d, act.k, act.fns); } else { Settling(d, act.k, act.args); }
    }
  }

  /** The progress list of a Deferred is a callback list like any other. */
  lemma {:induction false} ProgressIsARun<F(!new), A>(acts: seq<Act<F, A>>)
    requires LegalActs(acts)
    ensures Legal(MEMORY, ProgressEvents(acts)) && Replay(MEMORY, ProgressEvents(acts)) == RunActs(acts).progress
  {
    hide Good, Deferred.Do, Deferred.Possible, CbList.Step, CbList.Enabled, ProgressPart;
    if acts == [] {
      NewProgress<F, A>();
    } else {
      var n := |acts| - 1;
      var d, events := RunActs(acts[..n]), ProgressEvents(acts[..n]);
      ProgressIsARun(acts[..n]);
      RunGood(acts[..n]);
      FirstSettlingDecides(acts[..n]);
      PartStep(d, acts[n]);
      var part := ProgressPart(acts[n], d.state != Pending);
      if part == [] {
        assert events + part == events;
      } else {
        assert part == [part[0]];
        OneMoreEvent(MEMORY, events, part[0]);
      }
    }
  }

  lemma NewProgress<F(!new), A>()
    ensures Replay<Fn<F>, A>(MEMORY, []) == NewDeferred<F, A>().progress
  {
  }

  // ---- Every progress callback ----

  /** The events of a progress list, and all it has ever been given. */
  ghost predicate Complete<F(!new), A>(l: CbList<Fn<F>, A>, fns: seq<F>) {
    && l.flags == MEMORY && l.phase != Broken && (l.queue.Some? ==> l.live)
    && (l.phase != Idle ==> l.live && l.memory.Saved?)
    && (l.live ==> l.Whole() == l.registered && Fns(l.registered) == Exts(fns))
  }

  lemma CompleteStep<F(!new), A>(l: CbList<Fn<F>, A>, fns: seq<F>, e: Event<Fn<F>, A>, more: seq<F>)
    requires Complete(l, fns) && l.Enabled(e) && (l.phase == Idle ==> l.pending == [])
    requires if e.Add? then e.fns == Exts(more) else more == []
    requires e.Add? || e.FireWith? || e.Apply? || e.Return? || e.End? || e.Lock?
    ensures Complete(l.Step(e), fns + more)
  {
    assert fns + [] == fns;
    if e.Add? && l.live {
      AddAppends(l, Exts(more));
      AddRegisters(l, Exts(more));
    } else if e.Apply? {
      assert (l.kept + [l.pending[0]]) + l.pending[1..] == l.Whole();
    } else if e.End? || e.FireWith? {
      assert l.Whole() + [] == l.Whole() && [] + l.Whole() == l.Whole();
    }
  }

  lemma PartIs<F(!new), A>(act: Act<F, A>, settled: bool)
    ensures var part := ProgressPart(act, settled);
      && (part == [] ==> !(act.Register? && act.k == Progress))
      && (part != [] ==>
            var e := part[0];
            && (e.Add? || e.FireWith? || e.Apply? || e.Return? || e.End? || e.Lock?)
            && (e.Add? <==> act.Register? && act.k == Progress) && (e.Add? ==> e.fns == Exts(act.fns))
            && (e == End ==> act == EndLoop(Progress)))
  {
  }

  lemma {:induction false} RunComplete<F(!new), A>(acts: seq<Act<F, A>>)
    requires LegalActs(acts)
    ensures Complete(RunActs(acts).progress, AllRegistered(acts, Progress))
  {
    hide Good, Deferred.Do, Deferred.Possible, CbList.Step, CbList.Enabled, ProgressPart, Complete, CbList.Inv;
    if acts == [] {
      NewIsComplete<F, A>();
    } else {
      var n := |acts| - 1;
      var d, act := RunActs(acts[..n]), acts[n];
      RunComplete(acts[..n]);
      RunGood(acts[..n]);
      PartStep(d, act);
      var part := ProgressPart(act, d.state != Pending);
      PartIs(act, d.state != Pending);
      if part == [] {
        assert AllRegistered(acts[..n], Progress) + [] == AllRegistered(acts[..n], Progress);
      } else {
        ProgressIsARun(acts[..n]);
        RunInv(MEMORY, ProgressEvents(acts[..n]));
        IdleWaitsNot(d.progress);
        CompleteStep(d.progress, AllRegistered(acts[..n], Progress), part[0], if part[0].Add? then act.fns else []);
      }
    }
  }

  lemma IdleWaitsNot<F(!new), A>(l: CbList<F, A>)
    requires l.Inv()
    ensures l.phase == Idle ==> l.pending == []
  {
  }

  lemma NewIsComplete<F(!new), A>()
    ensures Complete(NewDeferred<F, A>().progress, [])
  {
  }

  lemma {:induction false} EventsGrow<F(!new), A>(acts: seq<Act<F, A>>, more: seq<Act<F, A>>)
    ensures ProgressEvents(acts) <= ProgressEvents(acts + more)
    ensures forall e :: e in ProgressEvents(acts + more)[|ProgressEvents(acts)|..] ==> !e.Remove?
    ensures EndLoop(Progress) !in more ==> End !in ProgressEvents(acts + more)[|ProgressEvents(acts)|..]
  {
    hide ProgressPart;
    if more == [] {
      assert acts + more == acts;
    } else {
      var n := |more| - 1;
      assert (acts + more)[..|acts + more| - 1] == acts + more[..n];
      EventsGrow(acts, more[..n]);
      var settled := FirstSettling(acts + more[..n]).Some?;
      PartIs(more[n], settled);
      var m, part := |ProgressEvents(acts)|, ProgressPart(more[n], settled);
      assert |part| <= 1 by { PartShort(more[n], settled); }
      assert ProgressEvents(acts + more)[m..] == ProgressEvents(acts + more[..n])[m..] + part;
    }
  }

  lemma PartShort<F(!new), A>(act: Act<F, A>, settled: bool)
    ensures |ProgressPart(act, settled)| <= 1
  {
  }

  lemma {:induction false} ActsPrefix<F(!new), A>(acts: seq<Act<F, A>>, more: seq<Act<F, A>>)
    requires LegalActs(acts + more)
    ensures LegalActs(acts)
  {
    FirstSettlingStays(acts, more);
  }

  lemma EventsOfOne<F(!new), A>(acts: seq<Act<F, A>>, act: Act<F, A>, e: Event<Fn<F>, A>)
    requires act.k == Progress && ((act.Trigger? && e == FireWith(act.args)) || (act.EndLoop? && e == End))
    ensures ProgressEvents(acts + [act]) == ProgressEvents(acts) + [e]
  {
    assert (acts + [act])[..|acts + [act]| - 1] == acts;
  }

  lemma NoneDropped<F(!new), A>(events: seq<Event<F, A>>, more: seq<Event<F, A>>, rs: seq<Reg<F>>, dropped: set<Reg<F>>)
    requires Legal(MEMORY, events + more) && forall e :: e in more ==> !e.Remove?
    requires forall r :: r in dropped <==> RemovedWaiting(MEMORY, events, more, r)
    ensures Without(rs, dropped) == rs
  {
    hide Legal, Replay;
    forall r, k | 0 <= k < |more| ensures !RemovedAt(MEMORY, events, more, r, k) {
      assert more[k] in more;
    }
    WithoutNone(rs, dropped);
  }

  /** The firing a notify begins, at its end. */
  lemma NotifyBatch<F(!new), A>(acts: seq<Act<F, A>>, all: seq<Act<F, A>>, a: A, rest: seq<Event<Fn<F>, A>>)
    requires LegalActs(acts) && RunActs(acts).state == Pending && RunActs(acts).progress.phase == Idle
    requires LegalActs(all) && ProgressEvents(all) == ProgressEvents(acts) + [FireWith(a)] + rest
    requires Legal(MEMORY, ProgressEvents(acts) + [FireWith(a)] + rest + [End])
    requires End !in rest && forall e :: e in rest ==> !e.Remove?
    ensures var s, t := RunActs(acts).progress, RunActs(all).progress;
      && s.log <= t.log && Fns(Regs(t.log[|s.log|..])) == Exts(AllRegistered(all, Progress))
      && forall c :: c in t.log[|s.log|..] ==> c.args == a
  {
    hide LegalActs, RunActs, Legal, Replay, ProgressEvents, RemovedWaiting, CbList.Step, Deferred.Do, Without,
      AllRegistered;
    ProgressIsARun(acts);
    ProgressIsARun(all);
    RunComplete(acts);
    RunComplete(all);
    RunGood(acts);
    GoodQueue(RunActs(acts));
    hide Good;
    var events := ProgressEvents(acts);
    var s, t := RunActs(acts).progress, RunActs(all).progress;
    RunRemembers(MEMORY, events);
    LastEvent(MEMORY, events + [FireWith(a)] + rest, End);
    FireWithAppliesEachOnce(MEMORY, events, a, rest);
    NoneDropped(events + [FireWith(a)], rest, s.Whole() + t.registered[|s.registered|..], t.dropped);
    assert s.registered + t.registered[|s.registered|..] == t.registered;
  }

  /** A notify on a pending Deferred whose progress list is idle calls every progress
      callback registered before, and every one registered before its firing ends, once
      each, in the order of registration, with its arguments. */
  lemma NotifyCallsEveryProgressCallback<F(!new), A>(acts: seq<Act<F, A>>, a: A, more: seq<Act<F, A>>)
    requires LegalActs(acts + [Act.Trigger(Progress, a)] + more + [EndLoop(Progress)]) && EndLoop(Progress) !in more
    requires LegalActs(acts) && RunActs(acts).state == Pending && RunActs(acts).progress.phase == Idle
    ensures LegalActs(acts + [Act.Trigger(Progress, a)] + more)
    ensures var all := acts + [Act.Trigger(Progress, a)] + more;
      var s, t := RunActs(acts).progress, RunActs(all).progress;
      && s.log <= t.log && Fns(Regs(t.log[|s.log|..])) == Exts(AllRegistered(all, Progress))
      && forall c :: c in t.log[|s.log|..] ==> c.args == a
  {
    hide LegalActs, RunActs, Legal, Replay, ProgressEvents, Complete, RemovedWaiting, CbList.Step, CbList.Enabled,
      Deferred.Do, Good;
    var fired := acts + [Act.Trigger(Progress, a)];
    var all := fired + more;
    var done := all + [EndLoop(Progress)];
    ActsPrefix(all, [EndLoop(Progress)]);
    ProgressIsARun(acts);
    ProgressIsARun(all);
    ProgressIsARun(done);
    EventsOfOne(acts, Act.Trigger(Progress, a), FireWith(a));
    EventsOfOne(all, EndLoop(Progress), End);
    EventsGrow(fired, more);
    var events := ProgressEvents(acts);
    var rest := ProgressEvents(all)[|events| + 1..];
    assert ProgressEvents(all) == events + [FireWith(a)] + rest;
    NotifyBatch(acts, all, a, rest);
  }

  /** The arguments of the notify calls, in order. */
  function Notifies<F, A>(acts: seq<Act<F, A>>): seq<A> {
    if acts == [] then [] else
    var n := |acts| - 1;
    Notifies(acts[..n]) + if acts[n].Trigger? && acts[n].k == Progress then [acts[n].args] else []
  }

  lemma {:induction false} NotifiesAreFired<F(!new), A>(acts: seq<Act<F, A>>)
    ensures FireArgs(ProgressEvents(acts)) == Notifies(acts)
  {
    if acts != [] {
      var n := |acts| - 1;
      NotifiesAreFired(acts[..n]);
      var events, part := ProgressEvents(acts[..n]), ProgressPart(acts[n], FirstSettling(acts[..n]).Some?);
      PartFires(acts[n], FirstSettling(acts[..n]).Some?);
      hide ProgressPart;
      if part != [] {
        assert (events + part)[..|events + part| - 1] == events;
      } else {
        assert events + part == events;
      }
    }
  }

  lemma PartFires<F, A>(act: Act<F, A>, settled: bool)
    ensures var part := ProgressPart(act, settled);
      && |part| <= 1 && (part != [] && part[0].FireWith? <==> act.Trigger? && act.k == Progress)
      && (part != [] && part[0].FireWith? ==> part[0].args == act.args)
  {
  }

  /** A progress callback registered after a notify, on a pending Deferred whose progress
      list is idle, is called at once with the arguments of the last notify. */
  lemma LateProgressCallbackIsCalled<F(!new), A>(acts: seq<Act<F, A>>, fns: seq<F>)
    requires LegalActs(acts) && RunActs(acts).state == Pending && RunActs(acts).progress.phase == Idle
    requires Notifies(acts) != []
    ensures LegalActs(acts + [Register(Progress, fns)])
    ensures var t := RunActs(acts + [Register(Progress, fns)]).progress;
      && t.phase == AtHead && Fns(t.pending) == Exts(fns)
      && t.current == Some(Notifies(acts)[|Notifies(acts)| - 1])
  {
    hide LegalActs, RunActs, Legal, Replay, CbList.Step, CbList.Enabled, Deferred.Do, Good, ProgressPart,
      CbList.Inv;
    var act: Act<F, A> := Register(Progress, fns);
    OneMoreAct(acts, act);
    ProgressIsARun(acts);
    ProgressIsARun(acts + [act]);
    assert ProgressEvents(acts + [act]) == ProgressEvents(acts) + [Add(Exts(fns))] by {
      assert (acts + [act])[..|acts + [act]| - 1] == acts;
      PartOfRegister<F, A>(fns, FirstSettling(acts).Some?);
    }
    RunGood(acts);
    PendingQueue(RunActs(acts));
    NotifiesAreFired(acts);
    RunLatest(MEMORY, ProgressEvents(acts));
    LateAddFires(MEMORY, ProgressEvents(acts), Exts(fns));
    AddAppendsAll(MEMORY, ProgressEvents(acts), Exts(fns));
    RunInv(MEMORY, ProgressEvents(acts));
    var s, t := RunActs(acts).progress, RunActs(acts + [act]).progress;
    assert Fns(t.Whole())[|s.Whole()|..] == Exts(fns);
  }

  lemma PartOfRegister<F(!new), A>(fns: seq<F>, settled: bool)
    ensures ProgressPart<F, A>(Register(Progress, fns), settled) == [Add(Exts(fns))]
  {
  }

  lemma PendingQueue<F(!new), A>(d: Deferred<F, A>)
    requires Good(d) && d.state == Pending
    ensures d.progress.live && d.progress.queue.Some?
  {
  }
}
