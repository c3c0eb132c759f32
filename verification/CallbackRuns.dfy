/** Proofs about every run of a callback list. */
module CallbackRuns {
  import opened Wrappers
  import opened CallbackSpec

  // ---- Filtering registrations ----

  lemma {:induction false} WithoutConcat<F(!new)>(a: seq<Reg<F>>, b: seq<Reg<F>>, gone: set<Reg<F>>)
    ensures Without(a + b, gone) == Without(a, gone) + Without(b, gone)
  {
    if b == [] {
      assert a + b == a;
    } else {
      var n := |b| - 1;
      assert (a + b)[..|a + b| - 1] == a + b[..n];
      WithoutConcat(a, b[..n], gone);
    }
  }

  lemma {:induction false} WithoutNone<F(!new)>(rs: seq<Reg<F>>, gone: set<Reg<F>>)
    requires forall r :: r in rs ==> r !in gone
    ensures Without(rs, gone) == rs
  {
    if rs != [] {
      var n := |rs| - 1;
      WithoutNone(rs[..n], gone);
      assert rs[n] in rs && rs[..n] + [rs[n]] == rs;
    }
  }

  lemma {:induction false} WithoutTwice<F(!new)>(rs: seq<Reg<F>>, first: set<Reg<F>>, second: set<Reg<F>>)
    ensures Without(Without(rs, first), second) == Without(rs, first + second)
  {
    if rs != [] {
      var last := rs[|rs| - 1];
      WithoutTwice(rs[..|rs| - 1], first, second);
      WithoutConcat(Without(rs[..|rs| - 1], first), if last in first then [] else [last], second);
      assert last !in first ==> Without([last], second) == if last in second then [] else [last];
    }
  }

  /** Only membership in `rs` matters. */
  lemma {:induction false} WithoutSame<F(!new)>(rs: seq<Reg<F>>, gone: set<Reg<F>>, other: set<Reg<F>>)
    requires forall r :: r in rs ==> (r in gone <==> r in other)
    ensures Without(rs, gone) == Without(rs, other)
  {
    if rs != [] {
      WithoutSame(rs[..|rs| - 1], gone, other);
    }
  }

  lemma {:induction false} WithoutAscending<F(!new)>(rs: seq<Reg<F>>, gone: set<Reg<F>>)
    requires Ascending(rs)
    ensures Ascending(Without(rs, gone))
  {
    if rs != [] {
      var n := |rs| - 1;
      WithoutAscending(rs[..n], gone);
      forall r | r in Without(rs[..n], gone) ensures r.id < rs[n].id {
        var i :| 0 <= i < n && rs[i] == r;
      }
    }
  }

  lemma {:induction false} WithoutDistinct<F(!new)>(rs: seq<Reg<F>>, gone: set<Reg<F>>)
    requires Distinct(rs)
    ensures Distinct(Without(rs, gone))
  {
    if rs != [] {
      var n := |rs| - 1;
      var left := Without(rs[..n], gone);
      WithoutDistinct(rs[..n], gone);
      forall i | 0 <= i < |left| ensures left[i].fn != rs[n].fn {
        assert left[i] in rs[..n];
        var k :| 0 <= k < n && rs[k] == left[i];
      }
    }
  }

  ghost predicate NoRepeats<F>(fs: seq<F>) {
    forall i, j :: 0 <= i < j < |fs| ==> fs[i] != fs[j]
  }

  lemma {:induction false} FreshDistinct<F(!new)>(fs: seq<F>, present: seq<F>)
    ensures var added := Fresh(fs, present);
      && (forall f :: f in added ==> f !in present && f in fs)
      && NoRepeats(added)
  {
    if fs != [] {
      if fs[0] in present {
        FreshDistinct(fs[1..], present);
      } else {
        var rest := Fresh(fs[1..], present + [fs[0]]);
        FreshDistinct(fs[1..], present + [fs[0]]);
        forall f | f in rest ensures f !in present && f != fs[0] {
          assert f !in present + [fs[0]];
        }
        assert forall f :: f in rest ==> f in fs[1..];
      }
    }
  }

  // ---- Every step keeps the invariant ----

  lemma NumberAbove<F(!new)>(whole: seq<Reg<F>>, fs: seq<F>, n: nat)
    requires Ascending(whole) && AllBelow(whole, n)
    ensures Ascending(whole + Number(fs, n)) && AllBelow(whole + Number(fs, n), n + |fs|)
  {
    var all := whole + Number(fs, n);
    forall i, j | 0 <= i < j < |all| ensures all[i].id < all[j].id {
      if i < |whole| <= j {
        assert whole[i] in whole;
      }
    }
  }

  lemma WholeBelow<F(!new), A>(l: CbList<F, A>)
    requires l.ListOk()
    ensures AllBelow(l.Whole(), |l.registered|)
  {
    forall r | r in l.Whole() ensures r.id < |l.registered| {
      var i :| 0 <= i < |l.registered| && l.registered[i] == r;
    }
  }

  lemma DistinctAppend<F(!new)>(rs: seq<Reg<F>>, fs: seq<F>, n: nat)
    requires Distinct(rs)
    requires NoRepeats(fs)
    requires forall f :: f in fs ==> f !in Fns(rs)
    ensures Distinct(rs + Number(fs, n))
  {
    var all := rs + Number(fs, n);
    forall i, j | 0 <= i < j < |all| ensures all[i].fn != all[j].fn {
      if i < |rs| <= j {
        assert Fns(rs)[i] in Fns(rs);
        assert fs[j - |rs|] in fs;
      }
    }
  }

  lemma FreshAppended<F(!new)>(rs: seq<Reg<F>>, fs: seq<F>, n: nat)
    requires Distinct(rs)
    ensures Distinct(rs + Number(Fresh(fs, Fns(rs)), n))
  {
    hide Fresh;
    var added := Fresh(fs, Fns(rs));
    FreshDistinct(fs, Fns(rs));
    hide NoRepeats, Distinct;
    DistinctAppend(rs, added, n);
  }

  function AddedFns<F(!new), A>(l: CbList<F, A>, fns: seq<F>): seq<F> {
    if l.flags.unique then Fresh(fns, Fns(l.Whole())) else fns
  }

  lemma AddAppends<F(!new), A>(l: CbList<F, A>, fns: seq<F>)
    requires (l.phase == Idle ==> l.pending == []) && l.live
    ensures l.DoAdd(fns).Whole() == l.Whole() + Number(AddedFns(l, fns), |l.registered|)
  {
    hide Fresh, Fns, Number;
  }

  lemma AddKeepsWhole<F(!new), A>(l: CbList<F, A>, fns: seq<F>)
    requires l.ListOk() && l.live
    ensures var l' := l.DoAdd(fns);
      && l'.Whole() == l.Whole() + Number(AddedFns(l, fns), |l.registered|)
      && Ascending(l'.Whole())
      && (l.flags.unique ==> Distinct(l'.Whole()))
  {
    hide CbList.DoAdd, Fresh, Number, Fns, CbList.Whole, Ascending, Distinct;
    WholeBelow(l);
    AddAppends(l, fns);
    NumberAbove(l.Whole(), AddedFns(l, fns), |l.registered|);
    if l.flags.unique {
      FreshAppended(l.Whole(), fns, |l.registered|);
    }
  }

  lemma AddList<F(!new), A>(l: CbList<F, A>, fns: seq<F>)
    requires l.ListOk()
    ensures l.DoAdd(fns).ListOk()
  {
    if l.live {
      AddKeepsWhole(l, fns);
    }
  }

  /** A firing that has just begun. */
  lemma BeginExact<F(!new), A>(l: CbList<F, A>, a: A)
    requires Ascending(l.pending) && AllBelow(l.pending, |l.registered|)
    ensures l.Begin(a).FiringExact()
  {
    WithoutNone(l.pending, {});
  }

  lemma AddExact<F(!new), A>(l: CbList<F, A>, fns: seq<F>)
    requires l.ListOk() && l.FiringExact()
    ensures l.DoAdd(fns).FiringExact()
  {
    hide Without, Fresh, Fns;
    if l.live {
      var fs := AddedFns(l, fns);
      var added := Number(fs, |l.registered|);
      if l.phase == Idle && l.memory.Saved? {
        BeginExact(l.(registered := l.registered + added, pending := added), l.memory.args);
      } else if l.phase != Idle {
        NumberAbove(l.batch, fs, |l.registered|);
        WithoutConcat(l.batch, added, l.dropped);
        WithoutNone(added, l.dropped);
        assert l.Applied() + (l.pending + added) == (l.Applied() + l.pending) + added;
      }
    }
  }

  lemma AscendingDisjoint<F(!new)>(a: seq<Reg<F>>, b: seq<Reg<F>>)
    requires Ascending(a + b)
    ensures forall r :: r in a ==> r !in b
  {
    forall i, j | 0 <= i < |a| && 0 <= j < |b| ensures a[i] != b[j] {
      assert (a + b)[i].id < (a + b)[|a| + j].id;
    }
  }

  lemma RemoveList<F(!new), A>(l: CbList<F, A>, fns: seq<F>)
    requires l.ListOk()
    ensures l.DoRemove(fns).ListOk()
  {
    hide Without;
    var gone := Matching(l.Whole(), fns);
    WithoutConcat(l.kept, l.pending, gone);
    WithoutAscending(l.Whole(), gone);
    if l.flags.unique { WithoutDistinct(l.Whole(), gone); }
  }

  lemma RemoveExact<F(!new), A>(l: CbList<F, A>, fns: seq<F>)
    requires l.ListOk() && l.FiringExact()
    ensures l.DoRemove(fns).FiringExact()
  {
    hide Without;
    var gone, turn := Matching(l.Whole(), fns), Matching(l.pending, fns);
    if l.live && l.phase != Idle {
      var applied := l.Applied();
      WithoutTwice(l.batch, l.dropped, turn);
      WithoutAscending(l.batch, l.dropped);
      WithoutConcat(applied, l.pending, turn);
      AscendingDisjoint(applied, l.pending);
      WithoutNone(applied, turn);
      WithoutSame(l.pending, gone, turn);
      assert forall r :: r in l.pending ==> r in applied + l.pending;
    } else {
      assert l.dropped + turn == l.dropped;
    }
  }

  lemma TriggerList<F(!new), A>(l: CbList<F, A>, a: A)
    requires l.ListOk()
    ensures l.Trigger(a).ListOk()
  {
    hide Without;
    assert l.Trigger(a).Whole() == l.Whole();
  }

  lemma TriggerExact<F(!new), A>(l: CbList<F, A>, a: A)
    requires l.ListOk() && l.FiringExact()
    ensures l.Trigger(a).FiringExact()
  {
    hide Without;
    WholeBelow(l);
    if l.phase == Idle {
      BeginExact(l.(kept := [], pending := l.Whole(), begun := l.begun + [a]), a);
    }
  }

  lemma ApplyInv<F(!new), A>(l: CbList<F, A>)
    requires l.Inv() && l.Enabled(Apply)
    ensures l.DoApply().Inv()
  {
    hide Without;
    var l' := l.DoApply();
    assert l'.Whole() == l.Whole();
    assert l'.log[l.start..] == l.log[l.start..] + [Application(l.pending[0], l.current.value)];
    assert l'.Applied() + l'.pending == l.Applied() + l.pending;
    assert l'.Applied() <= l'.Applied() + l'.pending;
  }

  lemma EndedInv<F(!new), A>(l: CbList<F, A>)
    requires l.Inv() && l.Enabled(End)
    ensures var l' := l.(kept := l.Whole(), pending := [], phase := Idle); l'.ListOk() && l'.FiringExact()
  {
    hide Without;
    var l' := l.(kept := l.Whole(), pending := [], phase := Idle);
    assert l'.Whole() == l.Whole();
  }

  /** `DoEnd` begins the next queued firing exactly as `fireWith` would. */
  lemma EndRefires<F(!new), A>(l: CbList<F, A>)
    requires l.live && !l.flags.once && l.queue.Some? && l.queue.value != []
    ensures var a := l.queue.value[0];
      l.DoEnd() == l.(kept := [], pending := l.Whole(), queue := Some(l.queue.value[1..]),
                      memory := Saved(a), begun := l.begun + [a]).Begin(a)
  {
    hide Without;
    assert l.(kept := l.Whole(), pending := []).Whole() == l.Whole();
  }

  lemma EndList<F(!new), A>(l: CbList<F, A>)
    requires l.Inv() && l.Enabled(End)
    ensures l.DoEnd().ListOk()
  {
    hide Without;
    if l.live && !l.flags.once && l.queue.Some? && l.queue.value != [] {
      EndRefires(l);
      assert l.DoEnd().Whole() == l.Whole();
    } else {
      EndedInv(l);
    }
  }

  lemma EndExact<F(!new), A>(l: CbList<F, A>)
    requires l.Inv() && l.Enabled(End)
    ensures l.DoEnd().FiringExact()
  {
    hide Without;
    if l.live && !l.flags.once && l.queue.Some? && l.queue.value != [] {
      var a := l.queue.value[0];
      EndRefires(l);
      WholeBelow(l);
      BeginExact(l.(kept := [], pending := l.Whole(), queue := Some(l.queue.value[1..]),
                    memory := Saved(a), begun := l.begun + [a]), a);
    } else {
      EndedInv(l);
    }
  }

  lemma EndOrder<F(!new), A>(l: CbList<F, A>)
    requires l.Inv() && l.Enabled(End)
    ensures l.DoEnd().FiringsInOrder()
  {
    if !l.flags.once && l.queue.Some? && l.queue.value != [] {
      assert l.begun + l.queue.value == (l.begun + [l.queue.value[0]]) + l.queue.value[1..];
    }
  }

  lemma ControlList<F(!new), A>(l: CbList<F, A>, e: Event<F, A>)
    requires l.ListOk() && l.Enabled(e) && (e.Disable? || e.Lock? || e.Empty? || e.Return?)
    ensures l.Step(e).ListOk()
  {
    hide Without, Matching;
    assert e.Return? ==> l.Step(e).Whole() == l.Whole();
    assert e.Lock? ==> l.(queue := None).Whole() == l.Whole();
  }

  lemma StepList<F(!new), A>(l: CbList<F, A>, e: Event<F, A>)
    requires l.Inv() && l.Enabled(e)
    ensures l.Step(e).ListOk()
  {
    hide CbList.DoAdd, CbList.DoRemove, CbList.Trigger, CbList.DoApply, CbList.DoEnd, CbList.DoDisable, CbList.DoLock;
    match e
    case Add(fns) => AddList(l, fns);
    case Remove(fns) => RemoveList(l, fns);
    case FireWith(a) => TriggerList(l.(asked := l.asked + [a]), a);
    case Apply => ApplyInv(l);
    case End => EndList(l);
    case _ => ControlList(l, e);
  }

  lemma ControlExact<F(!new), A>(l: CbList<F, A>, e: Event<F, A>)
    requires l.FiringExact() && l.Enabled(e) && (e.Disable? || e.Lock? || e.Empty? || e.Return?)
    ensures l.Step(e).FiringExact()
  {
    hide Without, Ascending, AllBelow, Regs;
  }

  lemma StepExact<F(!new), A>(l: CbList<F, A>, e: Event<F, A>)
    requires l.Inv() && l.Enabled(e)
    ensures l.Step(e).FiringExact()
  {
    hide CbList.DoAdd, CbList.DoRemove, CbList.Trigger, CbList.DoApply, CbList.DoEnd, CbList.DoDisable, CbList.DoLock;
    match e
    case Add(fns) => AddExact(l, fns);
    case Remove(fns) => RemoveExact(l, fns);
    case FireWith(a) => TriggerExact(l.(asked := l.asked + [a]), a);
    case Apply => ApplyInv(l);
    case End => EndExact(l);
    case _ => ControlExact(l, e);
  }

  lemma StepOrder<F(!new), A>(l: CbList<F, A>, e: Event<F, A>)
    requires l.Inv() && l.Enabled(e)
    ensures l.Step(e).FiringsInOrder()
  {
    if e == End { EndOrder(l); }
  }

  lemma StepInv<F(!new), A>(l: CbList<F, A>, e: Event<F, A>)
    requires l.Inv() && l.Enabled(e)
    ensures l.Step(e).Inv()
  {
    StepList(l, e);
    StepExact(l, e);
    StepOrder(l, e);
  }

  /** Every run, of any length and with any re-entrant calls, keeps the invariant. */
  lemma {:induction false} RunInv<F(!new), A>(flags: Flags, events: seq<Event<F, A>>)
    requires Legal(flags, events)
    ensures Replay(flags, events).Inv() && Replay(flags, events).flags == flags
  {
    if events != [] {
      var n := |events| - 1;
      RunInv(flags, events[..n]);
      StepInv(Replay(flags, events[..n]), events[n]);
    }
  }

  // ---- Main results ----

  ghost function After<F(!new), A>(flags: Flags, events: seq<Event<F, A>>, more: seq<Event<F, A>>): CbList<F, A>
    requires Legal(flags, events + more)
  {
    Replay(flags, events + more)
  }

  lemma {:induction false} LegalPrefix<F(!new), A>(flags: Flags, events: seq<Event<F, A>>, more: seq<Event<F, A>>)
    requires Legal(flags, events + more)
    ensures Legal(flags, events)
  {
    if more == [] {
      assert events + more == events;
    } else {
      var n := |more| - 1;
      assert (events + more)[..|events + more| - 1] == events + more[..n];
      LegalPrefix(flags, events, more[..n]);
    }
  }

  /** The removal that took `r` away before its turn, somewhere in `more`. */
  ghost predicate RemovedWaiting<F(!new), A>(flags: Flags, events: seq<Event<F, A>>, more: seq<Event<F, A>>, r: Reg<F>)
    requires Legal(flags, events + more)
  {
    exists k :: 0 <= k < |more| && RemovedAt(flags, events, more, r, k)
  }

  ghost predicate RemovedAt<F(!new), A>(
      flags: Flags, events: seq<Event<F, A>>, more: seq<Event<F, A>>, r: Reg<F>, k: nat)
    requires Legal(flags, events + more) && k < |more|
  {
    && more[k].Remove? && r.fn in more[k].fns
    && Legal(flags, events + more[..k]) && r in After(flags, events, more[..k]).pending
  }

  lemma StepSchedule<F(!new), A>(l: CbList<F, A>, e: Event<F, A>)
    requires l.phase != Idle && e != End && l.Enabled(e)
    ensures var t := l.Step(e);
      && t.phase != Idle && t.start == l.start && t.current == l.current
      && l.registered <= t.registered && l.log <= t.log
      && t.batch == l.batch + t.registered[|l.registered|..]
      && t.dropped == l.dropped + if e.Remove? then Matching(l.pending, e.fns) else {}
  {
  }

  lemma RemovedSplit<F(!new), A>(flags: Flags, events: seq<Event<F, A>>, more: seq<Event<F, A>>, r: Reg<F>)
    requires Legal(flags, events + more) && more != []
    requires Legal(flags, events + more[..|more| - 1])
    ensures var n := |more| - 1; RemovedWaiting(flags, events, more, r) <==>
        RemovedWaiting(flags, events, more[..n], r) || RemovedAt(flags, events, more, r, n)
  {
    hide RemovedAt, Legal;
    var n := |more| - 1;
    forall k | 0 <= k < n
      ensures RemovedAt(flags, events, more, r, k) == RemovedAt(flags, events, more[..n], r, k)
    {
      RemovedBefore(flags, events, more, r, k);
    }
  }

  lemma RemovedBefore<F(!new), A>(flags: Flags, events: seq<Event<F, A>>, more: seq<Event<F, A>>, r: Reg<F>, k: nat)
    requires Legal(flags, events + more) && k < |more| - 1
    requires Legal(flags, events + more[..|more| - 1])
    ensures RemovedAt(flags, events, more, r, k) == RemovedAt(flags, events, more[..|more| - 1], r, k)
  {
    hide Legal, Replay;
    assert more[..|more| - 1][..k] == more[..k];
  }

  /** What one firing schedules and drops: the list it began with, then every
      registration accepted while it runs; minus what was removed while still waiting. */
  lemma {:induction false} FiringSchedule<F(!new), A>(flags: Flags, events: seq<Event<F, A>>, more: seq<Event<F, A>>)
    requires Legal(flags, events + more) && End !in more
    requires Legal(flags, events) && Replay(flags, events).phase != Idle
    ensures var s, t := Replay(flags, events), After(flags, events, more);
      && t.phase != Idle && t.start == s.start && t.current == s.current
      && s.registered <= t.registered && s.log <= t.log
      && t.batch == s.batch + t.registered[|s.registered|..]
      && forall r :: r in t.dropped <==> r in s.dropped || RemovedWaiting(flags, events, more, r)
  {
    hide CbList.Step, CbList.Enabled;
    if more == [] {
      assert events + more == events;
    } else {
      var n := |more| - 1;
      assert (events + more)[..|events + more| - 1] == events + more[..n];
      FiringSchedule(flags, events, more[..n]);
      StepSchedule(After(flags, events, more[..n]), more[n]);
      forall r | true
        ensures RemovedWaiting(flags, events, more, r) <==>
          RemovedWaiting(flags, events, more[..n], r) || RemovedAt(flags, events, more, r, n)
      {
        RemovedSplit(flags, events, more, r);
      }
    }
  }

  /** Exactly once and in list order, whatever the callbacks do to the list while it fires:
      a firing that leaves its loop in the normal way has applied the registrations it
      scheduled, minus those removed before their turn, each once and in order. */
  lemma FiringExactlyOnce<F(!new), A>(flags: Flags, events: seq<Event<F, A>>)
    requires Legal(flags, events + [End])
    ensures Legal(flags, events)
    ensures var s := Replay(flags, events);
      s.phase == AtHead && s.live ==>
        && s.start <= |s.log| && s.Applied() == Without(s.batch, s.dropped)
        && Ascending(s.batch) && Ascending(s.Applied())
        && forall c :: c in s.log[s.start..] ==> Some(c.args) == s.current
  {
    hide Without;
    LegalPrefix(flags, events, [End]);
    RunInv(flags, events);
    var s := Replay(flags, events);
    assert (events + [End])[..|events + [End]| - 1] == events;
    if s.phase == AtHead && s.live {
      assert s.Applied() + [] == s.Applied();
      WithoutAscending(s.batch, s.dropped);
    }
  }

  lemma OneMoreEvent<F(!new), A>(flags: Flags, events: seq<Event<F, A>>, e: Event<F, A>)
    requires Legal(flags, events) && Replay(flags, events).Enabled(e)
    ensures Legal(flags, events + [e]) && Replay(flags, events + [e]) == Replay(flags, events).Step(e)
  {
    hide CbList.Enabled, CbList.Step;
    assert (events + [e])[..|events + [e]| - 1] == events;
  }

  lemma FireBegins<F(!new), A>(s: CbList<F, A>, a: A)
    requires s.phase == Idle && s.queue.Some? && !(s.flags.once && s.memory != Unset)
    ensures var t := s.DoFireWith(a);
      && t.phase == AtHead && t.batch == s.Whole() && t.dropped == {} && t.start == |s.log| && t.current == Some(a)
      && t.registered == s.registered && t.log == s.log
  {
  }

  /** The whole of it: `fireWith(a)` on an idle list that may fire, then anything, until the
      loop of this firing is left in the normal way.  What has been applied since is the
      list as it was, followed by all registrations accepted meanwhile, minus those that
      were removed while they waited: each once, in the order of registration, with `a`. */
  lemma FireWithAppliesEachOnce<F(!new), A>(flags: Flags, events: seq<Event<F, A>>, a: A, more: seq<Event<F, A>>)
    requires Legal(flags, events + [FireWith(a)] + more + [End]) && End !in more
    ensures Legal(flags, events) && Legal(flags, events + [FireWith(a)]) && Legal(flags, events + [FireWith(a)] + more)
    ensures var s, t := Replay(flags, events), Replay(flags, events + [FireWith(a)] + more);
      s.phase == Idle && s.queue.Some? && !(flags.once && s.memory != Unset) && t.phase == AtHead && t.live ==>
        && s.log <= t.log && s.registered <= t.registered
        && Regs(t.log[|s.log|..]) == Without(s.Whole() + t.registered[|s.registered|..], t.dropped)
        && (forall r :: r in t.dropped <==> RemovedWaiting(flags, events + [FireWith(a)], more, r))
        && Ascending(s.Whole() + t.registered[|s.registered|..])
        && forall c :: c in t.log[|s.log|..] ==> c.args == a
  {
    hide Without, CbList.DoFireWith, CbList.DoEnd, RemovedWaiting, Ascending, CbList.Whole, Legal, Replay, CbList.Inv;
    var fired := events + [FireWith(a)];
    LegalPrefix(flags, fired + more, [End]);
    LegalPrefix(flags, fired, more);
    LegalPrefix(flags, events, [FireWith(a)]);
    RunInv(flags, events);
    OneMoreEvent(flags, events, FireWith(a));
    var s := Replay(flags, events);
    if s.phase == Idle && s.queue.Some? && !(flags.once && s.memory != Unset) {
      FireBegins(s, a);
      FiringSchedule(flags, fired, more);
      FiringExactlyOnce(flags, fired + more);
    }
  }

  /** The arguments of the fireWith calls of a run, in order. */
  function FireArgs<F, A>(events: seq<Event<F, A>>): seq<A> {
    if events == [] then [] else
    var n := |events| - 1;
    FireArgs(events[..n]) + (if events[n].FireWith? then [events[n].args] else [])
  }

  lemma StepAsked<F(!new), A>(l: CbList<F, A>, e: Event<F, A>)
    requires l.Enabled(e)
    ensures l.Step(e).asked == l.asked + (if e.FireWith? then [e.args] else [])
    ensures l.queue.Some? && !l.flags.once && e != Disable && e != Lock ==> l.Step(e).queue.Some?
  {
  }

  lemma {:induction false} AskedIsFireArgs<F(!new), A>(flags: Flags, events: seq<Event<F, A>>)
    requires Legal(flags, events)
    ensures Replay(flags, events).asked == FireArgs(events)
    ensures Disable !in events && Lock !in events && !flags.once ==> Replay(flags, events).queue.Some?
  {
    if events != [] {
      var n := |events| - 1;
      AskedIsFireArgs(flags, events[..n]);
      RunInv(flags, events[..n]);
      StepAsked(Replay(flags, events[..n]), events[n]);
    }
  }

  /** On a repeatable list that nobody locks or disables, each fireWith call is carried
      out by a firing of its own, in the order of the calls: while one firing runs the
      others wait, and none waits once the list is idle. */
  lemma EveryFireWithIsCarriedOut<F(!new), A>(flags: Flags, events: seq<Event<F, A>>)
    requires Legal(flags, events) && !flags.once
    requires Disable !in events && Lock !in events
    ensures var s := Replay(flags, events);
      && s.queue.Some? && FireArgs(events) == s.begun + s.queue.value
      && (s.phase == Idle ==> FireArgs(events) == s.begun)
  {
    RunInv(flags, events);
    AskedIsFireArgs(flags, events);
  }

  /** A list with the once flag begins at most one firing by fireWith. */
  lemma OnceFiresOnce<F(!new), A>(flags: Flags, events: seq<Event<F, A>>)
    requires Legal(flags, events) && flags.once
    ensures |Replay(flags, events).begun| <= 1
  {
    RunInv(flags, events);
  }

  /** In unique mode a list never holds a function twice. */
  lemma UniqueHoldsEachOnce<F(!new), A>(flags: Flags, events: seq<Event<F, A>>)
    requires Legal(flags, events) && flags.unique
    ensures Distinct(Replay(flags, events).Whole())
  {
    RunInv(flags, events);
  }

  /** With stopOnFalse a callback that returns false is the last its firing applies. */
  lemma {:induction false} FalseStopsTheFiring<F(!new), A>(
      flags: Flags, events: seq<Event<F, A>>, more: seq<Event<F, A>>)
    requires Legal(flags, events + [Return(false)] + more) && flags.stopOnFalse && End !in more
    ensures Legal(flags, events) && After(flags, events + [Return(false)], more).phase == Broken
    ensures After(flags, events + [Return(false)], more).log == Replay(flags, events).log
  {
    hide CbList.Step, CbList.Enabled, CbList.Inv;
    var stopped := events + [Return(false)];
    LegalPrefix(flags, stopped, more);
    LegalPrefix(flags, events, [Return(false)]);
    RunInv(flags, events);
    if more == [] {
      assert stopped + more == stopped && stopped[..|stopped| - 1] == events;
      FalseBreaks(Replay(flags, events));
    } else {
      var n := |more| - 1;
      assert (stopped + more)[..|stopped + more| - 1] == stopped + more[..n];
      FalseStopsTheFiring(flags, events, more[..n]);
      BrokenStep(After(flags, stopped, more[..n]), more[n]);
    }
  }

  lemma FalseBreaks<F(!new), A>(l: CbList<F, A>)
    requires l.flags.stopOnFalse && l.Enabled(Return(false))
    ensures l.Step(Return(false)).phase == Broken && l.Step(Return(false)).log == l.log
  {
  }

  lemma BrokenStep<F(!new), A>(l: CbList<F, A>, e: Event<F, A>)
    requires l.phase == Broken && l.Enabled(e) && e != End
    ensures l.Step(e).phase == Broken && l.Step(e).log == l.log
  {
  }

  ghost predicate ShutDown<F(!new), A>(l: CbList<F, A>) {
    l.queue.None? && !l.memory.Saved? && (l.live ==> l.phase == Idle)
  }

  lemma ShutDownStep<F(!new), A>(l: CbList<F, A>, e: Event<F, A>)
    requires ShutDown(l) && l.Enabled(e)
    ensures ShutDown(l.Step(e)) && l.Step(e).log == l.log
  {
  }

  /** A disabled list applies nothing any more, in the firing under way or later. */
  lemma {:induction false} DisabledForGood<F(!new), A>(flags: Flags, events: seq<Event<F, A>>, more: seq<Event<F, A>>)
    requires Legal(flags, events + [Disable] + more)
    ensures Legal(flags, events) && ShutDown(After(flags, events + [Disable], more))
    ensures After(flags, events + [Disable], more).log == Replay(flags, events).log
  {
    hide ShutDown, CbList.Step, CbList.Enabled;
    var disabled := events + [Disable];
    LegalPrefix(flags, disabled, more);
    LegalPrefix(flags, events, [Disable]);
    if more == [] {
      assert disabled + more == disabled && disabled[..|disabled| - 1] == events;
      DisableShutsDown(Replay(flags, events));
    } else {
      var n := |more| - 1;
      assert (disabled + more)[..|disabled + more| - 1] == disabled + more[..n];
      DisabledForGood(flags, events, more[..n]);
      ShutDownStep(After(flags, disabled, more[..n]), more[n]);
    }
  }

  lemma DisableShutsDown<F(!new), A>(l: CbList<F, A>)
    ensures l.Enabled(Disable) && ShutDown(l.Step(Disable)) && l.Step(Disable).log == l.log
  {
  }

  lemma LockStep<F(!new), A>(l: CbList<F, A>, e: Event<F, A>)
    requires l.Enabled(e) && (l.queue.None? || e == Lock)
    ensures l.Step(e).queue.None? && l.Step(e).begun == l.begun
  {
  }

  /** After lock no fireWith begins a firing, not even one that was waiting. */
  lemma {:induction false} LockedForGood<F(!new), A>(flags: Flags, events: seq<Event<F, A>>, more: seq<Event<F, A>>)
    requires Legal(flags, events + [Lock] + more)
    ensures Legal(flags, events) && After(flags, events + [Lock], more).queue.None?
    ensures After(flags, events + [Lock], more).begun == Replay(flags, events).begun
  {
    hide CbList.Step, CbList.Enabled;
    var locked := events + [Lock];
    LegalPrefix(flags, locked, more);
    LegalPrefix(flags, events, [Lock]);
    if more == [] {
      assert locked + more == locked && locked[..|locked| - 1] == events;
      LockStep(Replay(flags, events), Lock);
    } else {
      var n := |more| - 1;
      assert (locked + more)[..|locked + more| - 1] == locked + more[..n];
      LockedForGood(flags, events, more[..n]);
      LockStep(After(flags, locked, more[..n]), more[n]);
    }
  }
}
