/** What single operations on a callback list promise, at any point of any run. */
module CallbackLaws {
  import opened Wrappers
  import opened CallbackSpec
  import opened CallbackRuns

  lemma LastEvent<F(!new), A>(flags: Flags, events: seq<Event<F, A>>, e: Event<F, A>)
    requires Legal(flags, events + [e])
    ensures Legal(flags, events) && Replay(flags, events).Enabled(e) && Replay(flags, events).Inv()
    ensures Replay(flags, events).flags == flags
    ensures Replay(flags, events + [e]) == Replay(flags, events).Step(e) && Replay(flags, events + [e]).Inv()
  {
    hide CbList.Enabled, CbList.Step, CbList.Inv;
    assert (events + [e])[..|events + [e]| - 1] == events;
    RunInv(flags, events);
    RunInv(flags, events + [e]);
  }

  // ---- add ----

  lemma {:induction false} FreshAll<F(!new)>(fs: seq<F>, present: seq<F>)
    ensures forall f :: f in fs ==> f in present || f in Fresh(fs, present)
  {
    if fs != [] {
      FreshAll(fs[1..], present);
      FreshAll(fs[1..], present + [fs[0]]);
    }
  }

  /** `add` puts its functions behind those in the list: all of them, or in unique mode
      those it lacks.  A disabled list takes nothing. */
  lemma AddAppendsAll<F(!new), A>(flags: Flags, events: seq<Event<F, A>>, fns: seq<F>)
    requires Legal(flags, events + [Add(fns)])
    ensures Legal(flags, events)
    ensures var s, t := Replay(flags, events), Replay(flags, events + [Add(fns)]);
      && t.live == s.live && (!s.live ==> t.Whole() == [])
      && (s.live ==> s.Whole() <= t.Whole() && s.registered + t.Whole()[|s.Whole()|..] == t.registered)
      && (s.live && !flags.unique ==> Fns(t.Whole()) == Fns(s.Whole()) + fns)
      && (s.live && flags.unique ==>
            Distinct(t.Whole()) && forall f :: f in Fns(t.Whole()) <==> f in Fns(s.Whole()) || f in fns)
  {
    hide CbList.Step, CbList.FiringExact, CbList.FiringsInOrder, Ascending, Fresh;
    LastEvent(flags, events, Add(fns));
    var s := Replay(flags, events);
    if s.live {
      hide CbList.DoAdd;
      AddStep(s, fns);
      AddAppends(s, fns);
      AddRegisters(s, fns);
      FnsConcat(s.Whole(), Number(AddedFns(s, fns), |s.registered|));
      FreshAll(fns, Fns(s.Whole()));
      FreshDistinct(fns, Fns(s.Whole()));
    } else {
      AddStep(s, fns);
    }
  }

  lemma AddStep<F(!new), A>(s: CbList<F, A>, fns: seq<F>)
    ensures s.Step(Add(fns)) == s.DoAdd(fns) && s.DoAdd(fns).live == s.live && (!s.live ==> s.DoAdd(fns) == s)
  {
  }

  lemma AddRegisters<F(!new), A>(s: CbList<F, A>, fns: seq<F>)
    requires s.live
    ensures s.DoAdd(fns).registered == s.registered + Number(AddedFns(s, fns), |s.registered|)
  {
  }

  lemma FnsConcat<F>(a: seq<Reg<F>>, b: seq<Reg<F>>)
    ensures Fns(a + b) == Fns(a) + Fns(b)
  {
  }

  // ---- Answers ----

  /** What the functions of a run have returned, in order. */
  function Results<F, A>(events: seq<Event<F, A>>): seq<bool> {
    if events == [] then [] else
    var n := |events| - 1;
    Results(events[..n]) + if events[n].Return? then [events[n].result] else []
  }

  /** Each function applied returns once, all but the one that is running. */
  lemma {:induction false} EachReturnsOnce<F(!new), A>(flags: Flags, events: seq<Event<F, A>>)
    requires Legal(flags, events)
    ensures var l := Replay(flags, events);
      && l.answers == Results(events)
      && |l.log| == |l.answers| + if l.phase == Running then 1 else 0
  {
    hide CbList.Step, CbList.Enabled;
    if events != [] {
      var n := |events| - 1;
      EachReturnsOnce(flags, events[..n]);
      StepReturns(Replay(flags, events[..n]), events[n]);
    } else {
      NothingYet<F, A>(flags);
    }
  }

  lemma NothingYet<F(!new), A>(flags: Flags)
    ensures Replay<F, A>(flags, []) == NewList(flags)
  {
  }

  lemma StepReturns<F(!new), A>(l: CbList<F, A>, e: Event<F, A>)
    requires l.Enabled(e)
    ensures l.Step(e).answers == l.answers + if e.Return? then [e.result] else []
    ensures |l.Step(e).log| == |l.log| + if e.Apply? then 1 else 0
    ensures (e.Apply? ==> l.phase != Running) && (e.Return? ==> l.phase == Running)
    ensures l.Step(e).phase == Running <==> e.Apply? || (l.phase == Running && !e.Return?)
  {
    hide Without, Fresh;
  }

  // ---- Memory ----

  /** The last function to return in the latest firing has returned false, and that halts it. */
  ghost predicate Halted<F(!new), A>(l: CbList<F, A>) {
    l.flags.stopOnFalse && |l.answers| > l.start && !l.answers[|l.answers| - 1]
  }

  /** What a list not locked or disabled remembers: whether it has fired and, if it is to
      have a memory, the arguments of the latest firing, but not if that was halted. */
  ghost predicate Remembers<F(!new), A>(l: CbList<F, A>) {
    && (l.live && l.phase != Idle ==> l.memory != Unset)
    && (l.queue.Some? ==> l.live && (l.current.None? <==> l.memory == Unset))
    && (l.queue.Some? && l.current.Some? ==>
          l.memory == if l.flags.memory && !Halted(l) then Saved(l.current.value) else True)
    && (l.phase in {AtHead, Running} ==> !Halted(l)) && (l.phase == Running ==> l.start < |l.log|)
  }

  lemma StepRemembers<F(!new), A>(l: CbList<F, A>, e: Event<F, A>)
    requires l.Inv() && Remembers(l) && l.Enabled(e) && |l.log| == |l.answers| + if l.phase == Running then 1 else 0
    ensures Remembers(l.Step(e))
  {
    hide Ascending, Distinct, Without, Fresh, AllBelow;
  }

  lemma {:induction false} RunRemembers<F(!new), A>(flags: Flags, events: seq<Event<F, A>>)
    requires Legal(flags, events)
    ensures Remembers(Replay(flags, events))
  {
    hide CbList.Step, CbList.Enabled, CbList.Inv;
    if events != [] {
      var n := |events| - 1;
      RunRemembers(flags, events[..n]);
      RunInv(flags, events[..n]);
      EachReturnsOnce(flags, events[..n]);
      StepRemembers(Replay(flags, events[..n]), events[n]);
    } else {
      hide Replay;
      assert Replay<F, A>(flags, []) == NewList(flags);
    }
  }

  ghost predicate LatestBegun<F(!new), A>(l: CbList<F, A>) {
    l.queue.Some? ==> l.current == if l.begun == [] then None else Some(l.begun[|l.begun| - 1])
  }

  lemma StepLatest<F(!new), A>(l: CbList<F, A>, e: Event<F, A>)
    requires l.Inv() && Remembers(l) && LatestBegun(l) && l.Enabled(e)
    ensures LatestBegun(l.Step(e))
  {
    hide Ascending, Distinct, Without, Fresh, AllBelow;
  }

  /** The latest firing of a list not locked or disabled has the arguments of the latest
      fireWith it has carried out: of the last of all, on an idle repeatable list. */
  lemma {:induction false} RunLatest<F(!new), A>(flags: Flags, events: seq<Event<F, A>>)
    requires Legal(flags, events)
    ensures LatestBegun(Replay(flags, events))
    ensures var l := Replay(flags, events);
      l.queue.Some? && l.phase == Idle && !flags.once ==>
        FireArgs(events) == l.begun && l.current == if FireArgs(events) == [] then None
                                                    else Some(FireArgs(events)[|FireArgs(events)| - 1])
  {
    hide CbList.Step, CbList.Enabled;
    RunInv(flags, events);
    AskedIsFireArgs(flags, events);
    if events != [] {
      var n := |events| - 1;
      RunLatest(flags, events[..n]);
      RunInv(flags, events[..n]);
      RunRemembers(flags, events[..n]);
      StepLatest(Replay(flags, events[..n]), events[n]);
    } else {
      NothingYet<F, A>(flags);
    }
  }

  /** A list with memory calls functions added after it has fired at once: exactly those,
      with the arguments of the latest firing.  Otherwise, also when that was halted, `add`
      calls nothing. */
  lemma LateAddFires<F(!new), A>(flags: Flags, events: seq<Event<F, A>>, fns: seq<F>)
    requires Legal(flags, events + [Add(fns)]) && Legal(flags, events)
    requires Replay(flags, events).phase == Idle && Replay(flags, events).queue.Some?
    ensures var s, t := Replay(flags, events), Replay(flags, events + [Add(fns)]);
      && t.log == s.log
      && (flags.memory && s.current.Some? && !Halted(s) ==>
            && t.phase == AtHead && t.current == s.current
            && t.kept == s.Whole() && t.pending == t.Whole()[|s.Whole()|..] == t.batch)
      && (!flags.memory || s.current.None? || Halted(s) ==> t.phase == Idle)
  {
    hide CbList.FiringExact, CbList.FiringsInOrder, Ascending, Distinct, Fresh, Halted;
    LastEvent(flags, events, Add(fns));
    RunRemembers(flags, events);
  }

  // ---- fireWith ----

  /** On an idle list that is neither locked nor, if it is to fire once, spent, `fireWith`
      begins a firing of the whole list with its arguments. */
  lemma FireWithBegins<F(!new), A>(flags: Flags, events: seq<Event<F, A>>, a: A)
    requires Legal(flags, events + [FireWith(a)]) && Legal(flags, events)
    requires Replay(flags, events).phase == Idle
    ensures var s, t := Replay(flags, events), Replay(flags, events + [FireWith(a)]);
      && t.log == s.log && t.Whole() == s.Whole()
      && (s.queue.Some? && !(flags.once && s.current.Some?) ==>
            && t.phase == AtHead && t.kept == [] && t.pending == s.Whole() == t.batch && t.current == Some(a))
      && (s.queue.None? || (flags.once && s.current.Some?) ==> t.phase == Idle)
  {
    hide CbList.FiringExact, CbList.FiringsInOrder, Ascending, Distinct, Halted;
    LastEvent(flags, events, FireWith(a));
    RunRemembers(flags, events);
    var s := Replay(flags, events);
    assert [] + s.Whole() == s.Whole();
  }

  // ---- remove ----

  /** `remove` takes its functions out of the list, in every phase, and nothing else; what
      is left keeps its order and its side of the loop's place. */
  lemma RemoveTakesOut<F(!new), A>(flags: Flags, events: seq<Event<F, A>>, fns: seq<F>)
    requires Legal(flags, events + [Remove(fns)])
    ensures Legal(flags, events)
    ensures var s, t := Replay(flags, events), Replay(flags, events + [Remove(fns)]);
      && (forall r :: r in t.Whole() <==> r in s.Whole() && r.fn !in fns)
      && (forall r :: r in t.kept <==> r in s.kept && r.fn !in fns)
      && (forall r :: r in t.pending <==> r in s.pending && r.fn !in fns)
      && Ascending(t.Whole()) && t.phase == s.phase && t.log == s.log
  {
    hide Ascending, Distinct, CbList.FiringExact, CbList.FiringsInOrder;
    LastEvent(flags, events, Remove(fns));
  }

  /** It was registered, it is not in the list, and so never will be. */
  ghost predicate Gone<F(!new), A>(l: CbList<F, A>, r: Reg<F>) {
    r.id < |l.registered| && r !in l.Whole()
  }

  lemma GoneStep<F(!new), A>(l: CbList<F, A>, e: Event<F, A>, r: Reg<F>)
    requires Gone(l, r) && l.Enabled(e)
    ensures Gone(l.Step(e), r) && l.log <= l.Step(e).log
    ensures l.Step(e).log != l.log ==> |l.Step(e).log| == |l.log| + 1 && l.Step(e).log[|l.log|].reg != r
  {
    hide Fresh;
    if e.Add? && l.live && (l.phase == Idle ==> l.pending == []) { AddAppends(l, e.fns); }
  }

  /** After `remove` no registration made before of one of its functions is ever applied,
      neither by the firing under way nor by a later one. */
  lemma {:induction false} RemovedForGood<F(!new), A>(
      flags: Flags, events: seq<Event<F, A>>, fns: seq<F>, more: seq<Event<F, A>>, r: Reg<F>)
    requires Legal(flags, events + [Remove(fns)] + more)
    ensures Legal(flags, events)
    ensures r in Replay(flags, events).registered && r.fn in fns ==>
      var s, t := Replay(flags, events), After(flags, events + [Remove(fns)], more);
      Gone(t, r) && s.log <= t.log && forall i :: |s.log| <= i < |t.log| ==> t.log[i].reg != r
  {
    hide CbList.Step, CbList.Enabled, CbList.Inv, Gone;
    var removed := events + [Remove(fns)];
    LegalPrefix(flags, removed, more);
    LegalPrefix(flags, events, [Remove(fns)]);
    if r in Replay(flags, events).registered && r.fn in fns {
      if more == [] {
        assert removed + more == removed;
        RemoveTakesOut(flags, events, fns);
        LastEvent(flags, events, Remove(fns));
        RemovedIsGone(Replay(flags, events), fns, r);
      } else {
        var n := |more| - 1;
        assert (removed + more)[..|removed + more| - 1] == removed + more[..n];
        RemovedForGood(flags, events, fns, more[..n], r);
        GoneStep(After(flags, removed, more[..n]), more[n], r);
      }
    }
  }

  lemma RemovedIsGone<F(!new), A>(s: CbList<F, A>, fns: seq<F>, r: Reg<F>)
    requires s.Inv() && r in s.registered && r !in s.Step(Remove(fns)).Whole()
    ensures Gone(s.Step(Remove(fns)), r)
  {
    hide CbList.FiringExact, CbList.FiringsInOrder, Ascending, Distinct, CbList.Whole;
  }

  // ---- The loop ----

  /** A firing that is broken off has no more answers either. */
  lemma {:induction false} BrokenAnswersNothing<F(!new), A>(
      flags: Flags, events: seq<Event<F, A>>, more: seq<Event<F, A>>)
    requires Legal(flags, events + [Return(false)] + more) && flags.stopOnFalse && End !in more
    ensures Results(events + [Return(false)] + more) == Results(events) + [false]
  {
    hide CbList.Step, CbList.Enabled;
    var stopped := events + [Return(false)];
    if more == [] {
      assert stopped + more == stopped && stopped[..|stopped| - 1] == events;
    } else {
      var n := |more| - 1;
      assert (stopped + more)[..|stopped + more| - 1] == stopped + more[..n];
      BrokenAnswersNothing(flags, events, more[..n]);
      FalseStopsTheFiring(flags, events, more[..n]);
      StepReturns(Replay(flags, stopped + more[..n]), more[n]);
    }
  }

  /** The loop is left at once only after a false, and only if that is asked for. */
  lemma ReturnDecides<F(!new), A>(flags: Flags, events: seq<Event<F, A>>, result: bool)
    requires Legal(flags, events + [Return(result)])
    ensures Legal(flags, events)
    ensures var s, t := Replay(flags, events), Replay(flags, events + [Return(result)]);
      && t.phase == (if flags.stopOnFalse && !result then Broken else AtHead)
      && t.answers == s.answers + [result] && t.Whole() == s.Whole() && t.pending == s.pending && t.log == s.log
  {
    hide CbList.Inv;
    LastEvent(flags, events, Return(result));
  }

  /** Between a false and the next application there is the end of a firing. */
  lemma NothingAfterFalse<F(!new), A>(flags: Flags, events: seq<Event<F, A>>, a: nat, b: nat)
    requires Legal(flags, events) && flags.stopOnFalse
    requires a < b < |events| && events[a] == Return(false) && events[b] == Apply
    ensures exists c :: a < c < b && events[c] == End
  {
    hide Legal, Replay, CbList.Step, CbList.Enabled, CbList.Inv;
    var before, more := events[..a], events[a + 1..b];
    assert events == events[..b + 1] + events[b + 1..];
    LegalPrefix(flags, events[..b + 1], events[b + 1..]);
    assert events[..b + 1] == before + [Return(false)] + more + [Apply];
    EndsBetween(flags, before, more);
    var i :| 0 <= i < |more| && more[i] == End;
    assert events[a + 1 + i] == End;
  }

  lemma EndsBetween<F(!new), A>(flags: Flags, before: seq<Event<F, A>>, more: seq<Event<F, A>>)
    requires Legal(flags, before + [Return(false)] + more + [Apply]) && flags.stopOnFalse
    ensures End in more
  {
    hide CbList.Step, CbList.Inv;
    LastEvent(flags, before + [Return(false)] + more, Apply);
    if End !in more {
      FalseStopsTheFiring(flags, before, more);
    }
  }

  /** What follows the loop.  A repeatable list keeps its functions, and the firing that has
      waited longest begins, of the whole list.  One that fires once is empty then, and
      disabled if it was halted or has no memory. */
  lemma EndDecides<F(!new), A>(flags: Flags, events: seq<Event<F, A>>)
    requires Legal(flags, events + [End])
    ensures Legal(flags, events)
    ensures var s, t := Replay(flags, events), Replay(flags, events + [End]);
      && t.log == s.log
      && (s.live && !flags.once && s.queue.Some? && s.queue.value != [] ==>
            && t.phase == AtHead && t.kept == [] && t.pending == s.Whole() == t.batch
            && t.current == Some(s.queue.value[0]) && t.queue == Some(s.queue.value[1..]))
      && (!(s.live && !flags.once && s.queue.Some? && s.queue.value != []) ==> t.phase == Idle)
      && (s.live && !flags.once ==> t.live && t.Whole() == s.Whole())
      && (s.live && flags.once ==> t.Whole() == [] && (t.live <==> s.memory.Saved?))
  {
    hide CbList.FiringExact, Ascending, Distinct;
    LastEvent(flags, events, End);
    var s := Replay(flags, events);
    assert s.Whole() + [] == s.Whole() && [] + s.Whole() == s.Whole();
    RunRemembers(flags, events);
  }
}
