/** A run of `jQuery.when` that the code really has, in which the first rejection is not the
    one reported: two promises, a fail callback of the first that rejects the second. */
module WhenStory {
  import opened Wrappers
  import opened CallbackSpec
  import opened DeferredSpec
  import opened DeferredRuns
  import opened WhenSpec
  import opened WhenOrder
  import opened WhenNesting

  /** The first input has a fail function of the user's, number 7; the second has none. */
  const FIRST: seq<Act<Fun, Args>> := [Register(Fail, [User(7)])]

  ghost function TwoInputs(): World
    requires LegalActs(FIRST)
  {
    var given := [PromiseOf(0), PromiseOf(1)];
    World([RunActs(FIRST), NewDeferred()], NewDeferred<nat, Args>(), given, given, [Undefined, Undefined], 2, 0, 0,
          false, [])
  }

  /** User code rejects the first input with `a`; its function rejects the second with `b`. */
  function Story(a: Args, b: Args): seq<Step> {
    [Scan, Scan, Scan] + [Scan, Scan, Scan] + [Finish]
    + [Settle(0, Fail, a), Step.ApplyNext(0, Fail)] + [Settle(1, Fail, b), Step.ApplyNext(1, Fail)]
  }

  // ---- One input ----

  /** Not settled, not firing, never notified; `fns` are its fail functions. */
  ghost predicate Calm(d: Input, fns: seq<Fun>) {
    && Good(d) && d.state == Pending && d.progress.phase == Idle && d.progress.memory == Unset
    && Fns(d.fail.registered) == Owns(OwnOf(Fail)) + Exts(fns)
  }

  lemma CalmRegister(d: Input, fns: seq<Fun>, kind: Kind, f: Fun)
    requires Calm(d, fns)
    ensures Calm(d.Do(Register(kind, [f])), fns + if kind == Fail then [f] else [])
  {
    var act: Act<Fun, Args> := Register(kind, [f]);
    GoodAct(d, act);
    ActRegistered(d, act, Fail);
    GoodLists(d, Fail);
    if kind == Progress { ProgressAct(d, act); } else { PendingRegister(d, kind, [f]); }
    hide Good, Deferred.Do;
    assert Exts(fns + [f]) == Exts(fns) + Exts([f]) && Exts(fns) + [] == Exts(fns) && fns + [] == fns;
  }

  lemma NewIsCalm()
    ensures Calm(NewDeferred(), [])
  {
    NewIsGood<Fun, Args>();
    NewRegisters<Fun, Args>(Fail);
  }

  lemma FirstIsCalm()
    ensures LegalActs(FIRST) && Calm(RunActs(FIRST), [User(7)])
  {
    assert FIRST[..0] == [];
    NewIsCalm();
    CalmRegister(NewDeferred(), [], Fail, User(7));
    assert [] + [User(7)] == [User(7)];
  }

  /** It has been rejected with `a`; the first function is about to be called. */
  ghost predicate Struck(d: Input, a: Args, f: Fun) {
    && Good(d) && d.state == Rejected && d.Outcome() == Some(a)
    && d.done.phase == Idle && d.progress.phase == Idle && d.fail.phase == AtHead
    && d.Possible(Act.ApplyNext(Fail)) && d.fail.current == Some(a) && d.fail.pending[0].fn == Ext(f)
  }

  lemma Strikes(d: Input, fns: seq<Fun>, a: Args)
    requires Calm(d, fns) && fns != []
    ensures Struck(d.Do(Act.Trigger(Fail, a)), a, fns[0])
  {
    hide Good, Deferred.Do, Deferred.Outcome, Turned;
    var act: Act<Fun, Args> := Act.Trigger(Fail, a);
    PendingIdle(d);
    ActPhase(d, act, Done);
    ActPhase(d, act, Progress);
    ActRegistered(d, act, Fail);
    Settling(d, Fail, a);
    assert d.fail.registered + [] == d.fail.registered;
    StruckList(d.Do(act).fail, fns, a);
  }

  lemma PendingIdle(d: Input)
    requires Good(d) && d.state == Pending
    ensures d.done.phase == Idle
  {
  }

  lemma StruckList(l: CbList<Fn<Fun>, Args>, fns: seq<Fun>, a: Args)
    requires Turned(l, Fail, a, 3) && Fns(l.registered) == Owns(OwnOf(Fail)) + Exts(fns) && fns != []
    ensures l.Enabled(Apply) && l.current == Some(a) && l.pending[0].fn == Ext(fns[0])
  {
    assert Fns(l.registered)[3] == Ext(fns[0]);
  }

  /** That function has been called. */
  ghost predicate InFirst(d: Input, a: Args, f: Fun) {
    && Good(d) && d.state == Rejected && d.Outcome() == Some(a)
    && d.done.phase == Idle && d.progress.phase == Idle && d.fail.phase == Running
    && d.fail.log != [] && d.fail.log[|d.fail.log| - 1].reg.fn == Ext(f)
  }

  lemma StruckCalls(d: Input, a: Args, f: Fun)
    requires Struck(d, a, f)
    ensures InFirst(d.Do(Act.ApplyNext(Fail)), a, f)
  {
    hide Good, Deferred.Outcome;
    GoodAct(d, Act.ApplyNext(Fail));
  }

  // ---- The run ----

  /** After `steps` the state is `v`, `first` was rejected first, and `stack` are the loops. */
  ghost predicate Reached(w: World, steps: seq<Step>, v: World, first: Option<nat>, stack: seq<Loop>) {
    && LegalSteps(w, steps) && RunSteps(w, steps) == v && FirstRejected(w, steps) == first
    && Nested(w, [], steps) && Stack(w, [], steps) == stack && StackOk(v, stack)
  }

  /** From `v` to `t` no loop ends and at most one begins. */
  ghost predicate Grows(stack: seq<Loop>, v: World, t: World, stack': seq<Loop>) {
    || (stack' == stack && Active(t) == Active(v))
    || exists x :: stack' == stack + [x] && x !in Active(v) && Active(t) == Active(v) + {x}
  }

  lemma ReachedNext(w: World, steps: seq<Step>, v: World, first: Option<nat>, stack: seq<Loop>, s: Step,
                    stack': seq<Loop>)
    requires Reached(w, steps, v, first, stack) && v.Possible(s) && MayGo(v, [], stack, s)
    requires |v.Take(s).inputs| == |v.inputs|
    requires Grows(stack, v, v.Take(s), stack')
    ensures Reached(w, steps + [s], v.Take(s), if first.Some? then first else Rejects(v, s), stack')
  {
    hide World.Take, World.Possible, Rejects, Active, MayGo, StackOk, Grows;
    OneMoreStep(w, steps, s);
    assert (steps + [s])[..|steps + [s]| - 1] == steps;
    AfterOk(stack, v, v.Take(s));
    AfterIs(stack, v, v.Take(s), stack');
  }

  lemma AfterIs(stack: seq<Loop>, v: World, t: World, stack': seq<Loop>)
    requires StackOk(v, stack) && |t.inputs| == |v.inputs|
    requires Grows(stack, v, t, stack')
    ensures After(stack, v, t) == stack'
  {
    StackIs(v, stack);
    OnlyAll(stack, Active(t));
    LoopsOnce(|t.inputs|);
    if stack' == stack && Active(t) == Active(v) {
      assert Active(t) - Active(v) == {};
      OnlyNone(LoopsOf(|t.inputs|), {});
    } else {
      var x :| stack' == stack + [x] && x !in Active(v) && Active(t) == Active(v) + {x};
      assert Active(t) - Active(v) == {x} && x in LoopsOf(|t.inputs|);
      OnlyOne(LoopsOf(|t.inputs|), x);
    }
  }

  /** Nothing is settled or firing; `fails` are the fail functions of the inputs. */
  ghost predicate AllCalm(v: World, fails: seq<seq<Fun>>) {
    && |fails| == |v.inputs| && (forall k :: 0 <= k < |fails| ==> Calm(v.inputs[k], fails[k]))
    && v.main.Quiet() && v.rejections == []
  }

  lemma CalmIsQuiet(v: World, fails: seq<seq<Fun>>)
    requires AllCalm(v, fails)
    ensures Active(v) == {}
  {
    ActiveIsFiring(v);
    forall x | x in Active(v) ensures false {
      assert Firing(v, x);
      if x.OfInput? { CalmInput(v.inputs[x.k], fails[x.k]); }
      match x.kind { case Done => case Fail => case Progress => }
    }
  }

  lemma CalmInput(d: Input, fns: seq<Fun>)
    requires Calm(d, fns)
    ensures d.Quiet()
  {
  }

  /** One registration by `then`. */
  lemma StoryPart(w: World, steps: seq<Step>, v: World, fails: seq<seq<Fun>>, k: nat)
    requires Reached(w, steps, v, None, []) && AllCalm(v, fails) && k < |fails| && v.part <= 2
    requires v.Possible(Scan) && v.ScansPromise() && v.given[v.scanned] == PromiseOf(k)
    ensures var t := v.Take(Scan);
      && Reached(w, steps + [Scan], t, None, [])
      && AllCalm(t, fails[k := fails[k] + if v.part == 1 then [RejectMain] else []])
      && t == v.(inputs := t.inputs, scanned := t.scanned, part := t.part)
  {
    hide Reached, Calm, StackOk, Deferred.Do, Deferred.Quiet;
    var t := v.Take(Scan);
    CalmRegister(v.inputs[k], fails[k], ThenAct(v.scanned, v.part).k, ThenAct(v.scanned, v.part).fns[0]);
    assert v.inputs[k].state == Pending by { CalmPending(v.inputs[k], fails[k]); }
    CalmIsQuiet(v, fails);
    CalmIsQuiet(t, fails[k := fails[k] + if v.part == 1 then [RejectMain] else []]);
    ReachedNext(w, steps, v, None, [], Scan, []);
  }

  lemma CalmPending(d: Input, fns: seq<Fun>)
    requires Calm(d, fns)
    ensures d.state == Pending
  {
  }

  /** One argument, a promise that is pending. */
  lemma StoryArgument(w: World, steps: seq<Step>, v: World, fails: seq<seq<Fun>>, k: nat) returns (t: World)
    requires Reached(w, steps, v, None, []) && AllCalm(v, fails) && k < |fails| && v.part == 0
    requires v.scanned < |v.given| == |v.args| && v.args[v.scanned] == PromiseOf(k) == v.given[v.scanned]
    ensures Reached(w, steps + [Scan, Scan, Scan], t, None, []) && AllCalm(t, fails[k := fails[k] + [RejectMain]])
    ensures t == v.(inputs := t.inputs, scanned := v.scanned + 1)
  {
    hide Reached, Calm, Deferred.Do, Deferred.Quiet;
    StoryPart(w, steps, v, fails, k);
    var t1 := v.Take(Scan);
    assert fails[k] + [] == fails[k] && fails[k := fails[k]] == fails;
    StoryPart(w, steps + [Scan], t1, fails, k);
    var t2, fails2 := t1.Take(Scan), fails[k := fails[k] + [RejectMain]];
    StoryPart(w, steps + [Scan] + [Scan], t2, fails2, k);
    assert fails2[k] + [] == fails2[k] && fails2[k := fails2[k]] == fails2;
    t := t2.Take(Scan);
    assert steps + [Scan] + [Scan] + [Scan] == steps + [Scan, Scan, Scan];
  }

  /** User code rejects an input that nobody has rejected, and its first function is called. */
  lemma StoryRejects(w: World, steps: seq<Step>, v: World, first: Option<nat>, stack: seq<Loop>,
                     k: nat, fns: seq<Fun>, a: Args) returns (t: World)
    requires Reached(w, steps, v, first, stack) && k < |v.inputs| && Calm(v.inputs[k], fns) && fns != []
    requires Listens(v, k) && UserMayAct(v, [], stack) && v.returned
    ensures t.Possible(Step.ApplyNext(k, Fail)) && t == v.(inputs := t.inputs) && |t.inputs| == |v.inputs|
    ensures t.inputs == v.inputs[k := t.inputs[k]] && Struck(t.inputs[k], a, fns[0])
    ensures Reached(w, steps + [Settle(k, Fail, a)], t, if first.Some? then first else Some(k),
                    stack + [OfInput(k, Fail)])
  {
    hide Reached, Good, Deferred.Do, Deferred.Outcome, Listens, UserMayAct;
    t := v.Take(Settle(k, Fail, a));
    CalmPending(v.inputs[k], fns);
    CalmInput(v.inputs[k], fns);
    Strikes(v.inputs[k], fns, a);
    ActiveIsFiring(v);
    ActiveIsFiring(t);
    var x := OfInput(k, Fail);
    forall y | true ensures y in Active(t) <==> y in Active(v) || y == x {
      if y.OfInput? && y.k == k { match y.kind { case Done => case Fail => case Progress => } }
    }
    assert Active(t) == Active(v) + {x} && x !in Active(v);
    ReachedNext(w, steps, v, first, stack, Settle(k, Fail, a), stack + [x]);
  }

  /** The function called is user code: nothing else changes. */
  lemma StoryCalls(w: World, steps: seq<Step>, v: World, first: Option<nat>, stack: seq<Loop>, k: nat, a: Args, f: Fun)
    returns (t: World)
    requires Reached(w, steps, v, first, stack) && k < |v.inputs| && Struck(v.inputs[k], a, f) && f.User?
    requires stack != [] && stack[|stack| - 1] == OfInput(k, Fail) && v.returned && first.Some?
    ensures t == v.(inputs := t.inputs) && |t.inputs| == |v.inputs|
    ensures t.inputs == v.inputs[k := t.inputs[k]] && InFirst(t.inputs[k], a, f)
    ensures Reached(w, steps + [Step.ApplyNext(k, Fail)], t, first, stack)
  {
    hide Reached, Good, Deferred.Do, Deferred.Outcome;
    t := v.Take(Step.ApplyNext(k, Fail));
    StruckCalls(v.inputs[k], a, f);
    ActiveIsFiring(v);
    ActiveIsFiring(t);
    forall y | true ensures y in Active(t) <==> y in Active(v) {
      if y.OfInput? && y.k == k { match y.kind { case Done => case Fail => case Progress => } }
    }
    assert Active(t) == Active(v);
    ReachedNext(w, steps, v, first, stack, Step.ApplyNext(k, Fail), stack);
  }

  /** The function called is `when`'s: it rejects. */
  lemma StoryTells(w: World, steps: seq<Step>, v: World, first: Option<nat>, stack: seq<Loop>, k: nat, a: Args)
    returns (t: World)
    requires Reached(w, steps, v, first, stack) && k < |v.inputs| && Struck(v.inputs[k], a, RejectMain)
    requires stack != [] && stack[|stack| - 1] == OfInput(k, Fail) && v.returned && first.Some?
    requires v.main == NewDeferred<nat, Args>()
    ensures |t.inputs| == |v.inputs| && t.inputs == v.inputs[k := t.inputs[k]]
    ensures t.main.state == Rejected && t.main.Outcome() == Some(a)
    ensures Reached(w, steps + [Step.ApplyNext(k, Fail)], t, first, stack + [OfMain(Fail)])
  {
    hide Reached, Good, Deferred.Do, Deferred.Outcome, NewDeferred, Struck, MayGo, Active;
    MainRejects(v.main, a);
    StruckMay(v.inputs[k], a, RejectMain);
    t := v.Take(Step.ApplyNext(k, Fail));
    ActiveIsFiring(v);
    ActiveIsFiring(t);
    var x := OfMain(Fail);
    forall y | true ensures y in Active(t) <==> y in Active(v) || y == x {
      if y.OfMain? || y.k == k { match y.kind { case Done => case Fail => case Progress => } }
    }
    assert Active(t) == Active(v) + {x} && x !in Active(v);
    LastMayGo(v, stack, k);
    ReachedNext(w, steps, v, first, stack, Step.ApplyNext(k, Fail), stack + [x]);
  }

  lemma LastMayGo(v: World, stack: seq<Loop>, k: nat)
    requires stack != [] && stack[|stack| - 1] == OfInput(k, Fail) && v.returned
    ensures MayGo(v, [], stack, Step.ApplyNext(k, Fail))
  {
  }

  lemma StruckMay(d: Input, a: Args, f: Fun)
    requires Struck(d, a, f)
    ensures d.Possible(Act.ApplyNext(Fail)) && d.fail.pending[0].fn == Ext(f) && d.fail.current == Some(a)
    ensures d.done.phase == Idle && d.progress.phase == Idle && d.fail.phase == AtHead
    ensures var t := d.Do(Act.ApplyNext(Fail));
      t.done.phase == Idle && t.progress.phase == Idle && t.fail.phase == Running
  {
  }

  lemma MainRejects(d: Deferred<nat, Args>, a: Args)
    requires d == NewDeferred<nat, Args>()
    ensures d.Quiet()
    ensures var t := d.Do(Act.Trigger(Fail, a));
      && t.state == Rejected && t.Outcome() == Some(a)
      && t.done.phase == Idle && t.progress.phase == Idle && t.fail.phase == AtHead
  {
    var act: Act<nat, Args> := Act.Trigger(Fail, a);
    NewIsGood<nat, Args>();
    Settling(d, Fail, a);
    ActPhase(d, act, Done);
    ActPhase(d, act, Progress);
    hide Good, Deferred.Do, Deferred.Outcome;
  }


  lemma StoryReturns(w: World, steps: seq<Step>, v: World, fails: seq<seq<Fun>>) returns (t: World)
    requires Reached(w, steps, v, None, []) && AllCalm(v, fails) && v.Possible(Finish) && v.count != 0
    ensures t == v.(returned := true) && Reached(w, steps + [Finish], t, None, [])
  {
    hide Reached, Calm;
    t := v.Take(Finish);
    CalmIsQuiet(v, fails);
    CalmIsQuiet(t, fails);
    ReachedNext(w, steps, v, None, [], Finish, []);
  }

  lemma NoActs()
    ensures LegalActs<Fun, Args>([]) && RunActs<Fun, Args>([]) == NewDeferred() && NewDeferred<nat, Args>().Quiet()
  {
  }

  lemma StoryStarts()
    requires LegalActs(FIRST)
    ensures Start(TwoInputs())
  {
    hide RunActs, LegalActs, NewDeferred;
    NoActs();
    var none: seq<Act<Fun, Args>> := [];
    assert OnlyUsers(FIRST) && OnlyUsers(none);
    assert UserOnly(RunActs(FIRST)) && UserOnly(RunActs(none));
  }

  lemma StoryBegins()
    ensures LegalActs(FIRST) && AllCalm(TwoInputs(), [[User(7)], []]) && CalledIn(TwoInputs(), [])
    ensures Reached(TwoInputs(), [], TwoInputs(), None, [])
  {
    hide Calm, RunActs, LegalActs, NewDeferred, Deferred.Quiet, Active, Start;
    FirstIsCalm();
    NewIsCalm();
    NoActs();
    StoryStarts();
    var w := TwoInputs();
    CalmIsQuiet(w, [[User(7)], []]);
    ActiveIsFiring(w);
    assert StackOk(w, []);
    NothingReached(w);
  }

  lemma NothingReached(w: World)
    requires StackOk(w, [])
    ensures Reached(w, [], w, None, [])
  {
  }

  /** In this run, nested as the code's, `when` rejects with another rejection than the first. */
  lemma FirstRejectionCanLose(a: Args, b: Args)
    requires a != b
    ensures LegalActs(FIRST) && CalledIn(TwoInputs(), []) && LegalSteps(TwoInputs(), Story(a, b))
    ensures Nested(TwoInputs(), [], Story(a, b)) && FirstRejected(TwoInputs(), Story(a, b)) == Some(0)
    ensures var v := RunSteps(TwoInputs(), Story(a, b));
      && |v.inputs| == 2 && v.inputs[0].Outcome() == Some(a) && v.main.state == Rejected
      && v.main.Outcome() == Some(b) != v.inputs[0].Outcome()
  {
    hide LegalActs, RunActs, CalledIn, Reached, Calm, Struck, InFirst, Good, Deferred.Outcome, NewDeferred, World.Take;
    StoryBegins();
    var w := TwoInputs();
    var scan := [Scan, Scan, Scan];
    var v1 := StoryArgument(w, [], w, [[User(7)], []], 0);
    assert [] + scan == scan && [User(7)] + [RejectMain] == [User(7), RejectMain];
    var fails := [[User(7), RejectMain], []];
    assert [[User(7)], []][0 := [User(7), RejectMain]] == fails;
    var v2 := StoryArgument(w, scan, v1, fails, 1);
    assert fails[1] + [RejectMain] == [RejectMain] && fails[1 := [RejectMain]] == [[User(7), RejectMain], [RejectMain]];
    var v3 := StoryReturns(w, scan + scan, v2, [[User(7), RejectMain], [RejectMain]]);
    StoryEnds(w, v3, a, b);
  }

  lemma StoryEnds(w: World, v: World, a: Args, b: Args)
    requires Reached(w, [Scan, Scan, Scan] + [Scan, Scan, Scan] + [Finish], v, None, [])
    requires AllCalm(v, [[User(7), RejectMain], [RejectMain]]) && v.main == NewDeferred<nat, Args>() && v.returned
    requires v.given == [PromiseOf(0), PromiseOf(1)] && v.scanned == 2
    ensures LegalSteps(w, Story(a, b)) && Nested(w, [], Story(a, b)) && FirstRejected(w, Story(a, b)) == Some(0)
    ensures var t := RunSteps(w, Story(a, b));
      && |t.inputs| == 2 && t.inputs[0].Outcome() == Some(a) && t.main.state == Rejected && t.main.Outcome() == Some(b)
  {
    hide Reached, Calm, Struck, Good, Deferred.Outcome, NewDeferred, World.Take;
    var steps := [Scan, Scan, Scan] + [Scan, Scan, Scan] + [Finish];
    assert v.given[0] == PromiseOf(0) && v.given[1] == PromiseOf(1);
    assert Listens(v, 0);
    var v1 := StoryRejects(w, steps, v, None, [], 0, [User(7), RejectMain], a);
    var stack := [OfInput(0, Fail)];
    assert [] + stack == stack;
    var v2 := StoryCalls(w, steps + [Settle(0, Fail, a)], v1, Some(0), stack, 0, a, User(7));
    var more := steps + [Settle(0, Fail, a), Step.ApplyNext(0, Fail)];
    assert steps + [Settle(0, Fail, a)] + [Step.ApplyNext(0, Fail)] == more;
    assert v2.inputs[1] == v.inputs[1];
    assert v2.given[1] == PromiseOf(1) && Listens(v2, 1);
    var v3 := StoryRejects(w, more, v2, Some(0), stack, 1, [RejectMain], b);
    var v4 := StoryTells(w, more + [Settle(1, Fail, b)], v3, Some(0), stack + [OfInput(1, Fail)], 1, b);
    assert more + [Settle(1, Fail, b)] + [Step.ApplyNext(1, Fail)] == Story(a, b);
    ReachedIs(w, Story(a, b), v4, Some(0), stack + [OfInput(1, Fail)] + [OfMain(Fail)]);
  }

  lemma ReachedIs(w: World, steps: seq<Step>, v: World, first: Option<nat>, stack: seq<Loop>)
    requires Reached(w, steps, v, first, stack)
    ensures LegalSteps(w, steps) && RunSteps(w, steps) == v && FirstRejected(w, steps) == first && Nested(w, [], steps)
  {
  }
}
