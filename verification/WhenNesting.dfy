/** How the firing loops of a run of `jQuery.when` are nested.  JavaScript calls are
    synchronous: a loop that a function has begun ends before that function goes on.  So
    the active loops form a stack, only the innermost one moves, and user code runs only
    inside the function it has called.  In such runs the rejection that is reported is
    that of the input whose fail loop is innermost. */
module WhenNesting {
  import opened Wrappers
  import opened CallbackSpec
  import opened DeferredSpec
  import opened DeferredRuns
  import opened WhenSpec
  import opened WhenRuns
  import opened WhenOrder

  /** The firing loop of one list. */
  datatype Loop = OfInput(k: nat, kind: Kind) | OfMain(kind: Kind)

  function LoopsOf(n: nat): seq<Loop> {
    if n == 0 then [OfMain(Done), OfMain(Fail), OfMain(Progress)]
    else LoopsOf(n - 1) + [OfInput(n - 1, Done), OfInput(n - 1, Fail), OfInput(n - 1, Progress)]
  }

  predicate Firing(v: World, x: Loop) {
    match x
    case OfInput(k, kind) => k < |v.inputs| && v.inputs[k].Get(kind).phase != Idle
    case OfMain(kind) => v.main.Get(kind).phase != Idle
  }

  ghost function Active(v: World): set<Loop> {
    set x | x in LoopsOf(|v.inputs|) && Firing(v, x)
  }

  /** The elements of `xs` that are in `those`, in order. */
  function Only(xs: seq<Loop>, those: set<Loop>): (ys: seq<Loop>)
    ensures forall x :: x in ys <==> x in xs && x in those
  {
    if xs == [] then [] else
    var last := xs[|xs| - 1];
    Only(xs[..|xs| - 1], those) + if last in those then [last] else []
  }

  /** The stack after a step: loops that have ended are gone, one that has begun is innermost. */
  ghost function After(stack: seq<Loop>, v: World, t: World): seq<Loop> {
    Only(stack, Active(t)) + Only(LoopsOf(|t.inputs|), Active(t) - Active(v))
  }

  /** The loop is the innermost one, and the call of `when` is not waiting above it. */
  predicate Innermost(v: World, base: seq<Loop>, stack: seq<Loop>, x: Loop) {
    stack != [] && stack[|stack| - 1] == x && (v.returned || |stack| > |base|)
  }

  /** The function that loop `x` has called, and that has not returned, is user code. */
  predicate CallsUser(v: World, x: Loop) {
    match x
    case OfInput(k, kind) =>
      && k < |v.inputs|
      && var l := v.inputs[k].Get(kind);
      l.phase == Running && l.log != [] && l.log[|l.log| - 1].reg.fn.Ext? && l.log[|l.log| - 1].reg.fn.ext.User?
    case OfMain(kind) => v.main.Get(kind).phase == Running
  }

  /** User code runs: outside every loop, or in a function the innermost one has called. */
  predicate UserMayAct(v: World, base: seq<Loop>, stack: seq<Loop>) {
    (v.returned || |stack| > |base|) && (stack == [] || CallsUser(v, stack[|stack| - 1]))
  }

  /** What can happen next, when `stack` are the loops active now and `base` those that
      were active when `when` was called. */
  predicate MayGo(v: World, base: seq<Loop>, stack: seq<Loop>, s: Step) {
    match s
    case ApplyNext(k, kind) => Innermost(v, base, stack, OfInput(k, kind))
    case ReturnFrom(k, kind, _) => Innermost(v, base, stack, OfInput(k, kind))
    case EndLoop(k, kind) => Innermost(v, base, stack, OfInput(k, kind))
    case OnMain(act) => if act.Register? then UserMayAct(v, base, stack) else Innermost(v, base, stack, OfMain(act.k))
    case Attach(_, _, _) => UserMayAct(v, base, stack)
    case Settle(_, _, _) => UserMayAct(v, base, stack)
    case Scan => stack == base
    case Finish => stack == base
  }

  ghost function Stack(w: World, base: seq<Loop>, steps: seq<Step>): seq<Loop>
    requires LegalSteps(w, steps)
  {
    if steps == [] then base else
    var n := |steps| - 1;
    After(Stack(w, base, steps[..n]), RunSteps(w, steps[..n]), RunSteps(w, steps))
  }

  ghost predicate Nested(w: World, base: seq<Loop>, steps: seq<Step>)
    requires LegalSteps(w, steps)
  {
    steps == [] ||
    (var n := |steps| - 1;
     Nested(w, base, steps[..n]) && MayGo(RunSteps(w, steps[..n]), base, Stack(w, base, steps[..n]), steps[n]))
  }

  predicate Once(xs: seq<Loop>) {
    forall i, j :: 0 <= i < j < |xs| ==> xs[i] != xs[j]
  }

  /** The stack holds the active loops, each once. */
  ghost predicate StackOk(v: World, stack: seq<Loop>) {
    Once(stack) && forall x :: x in stack <==> Firing(v, x)
  }

  /** `when` is called by user code, in a function of the innermost of the loops `base`. */
  ghost predicate CalledIn(w: World, base: seq<Loop>) {
    Start(w) && StackOk(w, base) && forall x :: x in base ==> CallsUser(w, x)
  }

  // ---- The stack ----

  lemma {:induction false} LoopsAll(n: nat)
    ensures forall x :: x in LoopsOf(n) <==> x.OfMain? || x.k < n
  {
    if n > 0 { LoopsAll(n - 1); }
    forall x | true ensures x in LoopsOf(n) <==> x.OfMain? || x.k < n {
      match x.kind { case Done => case Fail => case Progress => }
      if n > 0 && x == OfInput(n - 1, x.kind) {
        assert x in [OfInput(n - 1, Done), OfInput(n - 1, Fail), OfInput(n - 1, Progress)];
      }
      if n == 0 && x.OfMain? {
        assert x in [OfMain(Done), OfMain(Fail), OfMain(Progress)];
      }
    }
  }

  lemma ActiveIsFiring(v: World)
    ensures forall x :: x in Active(v) <==> Firing(v, x)
  {
    LoopsAll(|v.inputs|);
  }

  lemma {:induction false} LoopsOnce(n: nat)
    ensures Once(LoopsOf(n))
  {
    if n > 0 {
      LoopsOnce(n - 1);
      LoopsAll(n - 1);
      OnceMore(LoopsOf(n - 1), [OfInput(n - 1, Done), OfInput(n - 1, Fail), OfInput(n - 1, Progress)]);
    }
  }

  lemma OnceMore(xs: seq<Loop>, ys: seq<Loop>)
    requires Once(xs) && Once(ys) && forall x :: x in xs ==> x !in ys
    ensures Once(xs + ys)
  {
    forall i, j | 0 <= i < j < |xs + ys| ensures (xs + ys)[i] != (xs + ys)[j] {
      if i < |xs| <= j { assert xs[i] in xs && ys[j - |xs|] in ys; }
    }
  }

  lemma {:induction false} OnlyOnce(xs: seq<Loop>, those: set<Loop>)
    requires Once(xs)
    ensures Once(Only(xs, those))
  {
    if xs != [] {
      var n := |xs| - 1;
      OnlyOnce(xs[..n], those);
      var ys := Only(xs[..n], those);
      forall i | 0 <= i < |ys| ensures ys[i] != xs[n] {
        assert ys[i] in xs[..n];
      }
    }
  }

  lemma {:induction false} OnlyAll(xs: seq<Loop>, those: set<Loop>)
    requires forall x :: x in xs ==> x in those
    ensures Only(xs, those) == xs
  {
    if xs != [] { OnlyAll(xs[..|xs| - 1], those); }
  }

  lemma {:induction false} OnlyNone(xs: seq<Loop>, those: set<Loop>)
    requires forall x :: x in xs ==> x !in those
    ensures Only(xs, those) == []
  {
    if xs != [] { OnlyNone(xs[..|xs| - 1], those); }
  }

  lemma {:induction false} OnlyOne(xs: seq<Loop>, x: Loop)
    requires Once(xs) && x in xs
    ensures Only(xs, {x}) == [x]
  {
    var n := |xs| - 1;
    if xs[n] == x {
      OnlyNone(xs[..n], {x});
    } else {
      assert x in xs[..n];
      OnlyOne(xs[..n], x);
    }
  }

  lemma AfterOk(stack: seq<Loop>, v: World, t: World)
    requires StackOk(v, stack) && |t.inputs| == |v.inputs|
    ensures StackOk(t, After(stack, v, t))
  {
    ActiveIsFiring(v);
    ActiveIsFiring(t);
    hide Firing;
    var still, begun := Only(stack, Active(t)), Only(LoopsOf(|t.inputs|), Active(t) - Active(v));
    OnlyOnce(stack, Active(t));
    LoopsOnce(|t.inputs|);
    OnlyOnce(LoopsOf(|t.inputs|), Active(t) - Active(v));
    OnceMore(still, begun);
  }

  lemma {:induction false} RunStack(w: World, base: seq<Loop>, steps: seq<Step>)
    requires CalledIn(w, base) && LegalSteps(w, steps)
    ensures StackOk(RunSteps(w, steps), Stack(w, base, steps))
  {
    hide World.Take, World.Possible, Start, After, StackOk, WhenInv;
    if steps != [] {
      var n := |steps| - 1;
      RunStack(w, base, steps[..n]);
      RunWhenInv(w, steps[..n]);
      RunWhenInv(w, steps);
      AfterOk(Stack(w, base, steps[..n]), RunSteps(w, steps[..n]), RunSteps(w, steps));
    } else {
      BaseOk(w, base);
    }
  }

  lemma BaseOk(w: World, base: seq<Loop>)
    requires CalledIn(w, base)
    ensures StackOk(w, base)
  {
  }

  /** The one loop that a step can begin. */
  function MayBegin(v: World, s: Step): Loop
    requires v.Possible(s)
  {
    match s
    case Attach(k, kind, _) => OfInput(k, kind)
    case Settle(k, kind, _) => OfInput(k, kind)
    case ReturnFrom(k, kind, _) => OfInput(k, kind)
    case EndLoop(k, kind) => OfInput(k, kind)
    case OnMain(act) => OfMain(act.k)
    case Scan => if v.ScansPromise() then OfInput(v.given[v.scanned].k, ThenAct(v.scanned, v.part).k) else OfMain(Done)
    case Finish => OfMain(Done)
    case ApplyNext(k, kind) =>
      match v.inputs[k].Get(kind).pending[0].fn.ext
      case RejectMain => OfMain(Fail)
      case ProgressFunc(_) => OfMain(Progress)
      case _ => OfMain(Done)
  }

  lemma {:induction false} DrainPhase<F(!new), A>(d: Deferred<F, A>, k: Kind, j: Kind)
    requires j != k
    ensures d.Drain(k).Get(j).phase == d.Get(j).phase
    decreases |d.Get(k).pending|
  {
    if d.OwnIsNext(k) {
      var l := d.Get(k);
      DrainPhase(d.Put(k, l.DoApply().DoReturn(true)).Perform(l.pending[0].fn.own), k, j);
    }
  }

  lemma ActPhase<F(!new), A>(d: Deferred<F, A>, act: Act<F, A>, j: Kind)
    requires d.Possible(act) && j != act.k
    ensures d.Do(act).Get(j).phase == d.Get(j).phase
  {
    hide Deferred.Drain;
    if !act.ApplyNext? {
      DrainPhase(d.Put(act.k, Touched(d.Get(act.k), act)), act.k, j);
    }
  }

  lemma MainBegins(v: World, act: Act<nat, Args>, x: Loop)
    requires v.main.Possible(act) && Firing(v.(main := v.main.Do(act)), x) && !Firing(v, x)
    ensures x == OfMain(act.k)
  {
    hide Deferred.Do;
    if x.OfMain? && x.kind != act.k { ActPhase(v.main, act, x.kind); }
  }

  lemma InputBegins(v: World, k: nat, act: Act<Fun, Args>, x: Loop)
    requires k < |v.inputs| && v.inputs[k].Possible(act) && Firing(v.OnInput(k, act), x) && !Firing(v, x)
    ensures x == OfInput(k, act.k)
  {
    hide Deferred.Do;
    if x.OfInput? && x.k == k && x.kind != act.k { ActPhase(v.inputs[k], act, x.kind); }
  }

  /** A step begins one loop at most, so it is clear which loop is innermost. */
  lemma OneBegins(v: World, s: Step, x: Loop)
    requires v.Possible(s) && Firing(v.Take(s), x) && !Firing(v, x)
    ensures x == MayBegin(v, s)
  {
    hide Deferred.Do;
    match s
    case Attach(k, kind, ids) => InputBegins(v, k, Register(kind, Users(ids)), x);
    case Settle(k, kind, a) => InputBegins(v, k, Act.Trigger(kind, a), x);
    case ReturnFrom(k, kind, r) => InputBegins(v, k, Act.ReturnFrom(kind, r), x);
    case EndLoop(k, kind) => InputBegins(v, k, Act.EndLoop(kind), x);
    case OnMain(act) => MainBegins(v, act, x);
    case Scan => if v.ScansPromise() { InputBegins(v, v.given[v.scanned].k, ThenAct(v.scanned, v.part), x); }
    case Finish => if v.count == 0 { MainBegins(v, Act.Trigger(Done, v.args), x); }
    case ApplyNext(k, kind) => ApplyBegins(v, k, kind, x);
  }

  lemma ApplyBegins(v: World, k: nat, kind: Kind, x: Loop)
    requires v.Possible(Step.ApplyNext(k, kind)) && Firing(v.Take(Step.ApplyNext(k, kind)), x) && !Firing(v, x)
    ensures x == MayBegin(v, Step.ApplyNext(k, kind))
  {
    hide Deferred.Do;
    var act: Act<Fun, Args> := Act.ApplyNext(kind);
    var f, a := v.inputs[k].Get(kind).pending[0].fn.ext, v.inputs[k].Get(kind).current.value;
    var u := v.OnInput(k, act);
    if Firing(u, x) {
      InputBegins(v, k, act, x);
      AtHeadFires(v, k, kind);
    } else {
      PerformBegins(u, f, a, x);
    }
  }

  lemma AtHeadFires(v: World, k: nat, kind: Kind)
    requires v.Possible(Step.ApplyNext(k, kind))
    ensures Firing(v, OfInput(k, kind))
  {
  }

  lemma PerformBegins(v: World, f: Fun, a: Args, x: Loop)
    requires Firing(v.Perform(f, a), x) && !Firing(v, x)
    ensures x == match f case RejectMain => OfMain(Fail) case ProgressFunc(_) => OfMain(Progress) case _ => OfMain(Done)
  {
    hide Deferred.Do;
    match f
    case RejectMain => MainBegins(v, Act.Trigger(Fail, a), x);
    case ProgressFunc(i) => if i < |v.pValues| { MainBegins(v, Act.Trigger(Progress, v.pValues[i := Single(a)]), x); }
    case ResolveFunc(i) => if i < |v.args| { MainBegins(v, Act.Trigger(Done, v.args[i := Single(a)]), x); }
    case User(_) =>
  }

  // ---- It is a stack ----

  /** The loop whose list makes this step by itself. */
  function LoopOf(s: Step): Option<Loop> {
    match s
    case ApplyNext(k, kind) => Some(OfInput(k, kind))
    case ReturnFrom(k, kind, _) => Some(OfInput(k, kind))
    case EndLoop(k, kind) => Some(OfInput(k, kind))
    case OnMain(act) => if act.Register? || act.Trigger? then None else Some(OfMain(act.k))
    case _ => None
  }

  /** Where loop `x` is, and what it has called, is the same. */
  ghost predicate SameLoop(v: World, t: World, x: Loop) {
    match x
    case OfInput(k, kind) =>
      && k < |v.inputs| && k < |t.inputs|
      && t.inputs[k].Get(kind).phase == v.inputs[k].Get(kind).phase
      && t.inputs[k].Get(kind).log == v.inputs[k].Get(kind).log
    case OfMain(kind) =>
      && t.main.Get(kind).phase == v.main.Get(kind).phase && t.main.Get(kind).log == v.main.Get(kind).log
  }

  lemma {:induction false} DrainLog<F(!new), A>(d: Deferred<F, A>, k: Kind, j: Kind)
    requires j != k
    ensures d.Drain(k).Get(j).log == d.Get(j).log
    decreases |d.Get(k).pending|
  {
    if d.OwnIsNext(k) {
      var l := d.Get(k);
      DrainLog(d.Put(k, l.DoApply().DoReturn(true)).Perform(l.pending[0].fn.own), k, j);
    }
  }

  /** Registering with a firing list, or firing it again, does not move its loop. */
  lemma FiringKept<F(!new), A>(d: Deferred<F, A>, act: Act<F, A>, j: Kind)
    requires Good(d) && d.Possible(act) && d.Get(j).phase != Idle
    requires j == act.k ==> act.Register? || act.Trigger?
    ensures d.Do(act).Get(j).phase == d.Get(j).phase && d.Do(act).Get(j).log == d.Get(j).log
  {
    if j != act.k {
      ActPhase(d, act, j);
      hide Deferred.Drain;
      if !act.ApplyNext? { DrainLog(d.Put(act.k, Touched(d.Get(act.k), act)), act.k, j); }
    } else {
      WaitingIsOutside(d, j);
      if j == Progress { ProgressAct(d, act); } else { SettledAct(d, act); }
      hide Good, Deferred.Do;
    }
  }

  /** A step leaves all active loops alone, but the one that makes it. */
  lemma StepSame(v: World, s: Step, x: Loop)
    requires Shape(v) && v.Possible(s) && Firing(v, x) && LoopOf(s) != Some(x)
    ensures SameLoop(v, v.Take(s), x)
  {
    hide Good, Deferred.Do;
    match s
    case Attach(k, kind, ids) => InputSame(v, k, Register(kind, Users(ids)), x);
    case Settle(k, kind, a) => InputSame(v, k, Act.Trigger(kind, a), x);
    case ReturnFrom(k, kind, r) => InputSame(v, k, Act.ReturnFrom(kind, r), x);
    case EndLoop(k, kind) => InputSame(v, k, Act.EndLoop(kind), x);
    case OnMain(act) => MainSame(v, act, x);
    case Scan => if v.ScansPromise() { InputSame(v, v.given[v.scanned].k, ThenAct(v.scanned, v.part), x); }
    case Finish => if v.count == 0 { MainSame(v, Act.Trigger(Done, v.args), x); }
    case ApplyNext(k, kind) =>
      InputSame(v, k, Act.ApplyNext(kind), x);
      PerformSame(v.OnInput(k, Act.ApplyNext(kind)), v.inputs[k].Get(kind).pending[0].fn.ext,
                  v.inputs[k].Get(kind).current.value, x);
  }

  lemma InputSame(v: World, k: nat, act: Act<Fun, Args>, x: Loop)
    requires Shape(v) && k < |v.inputs| && v.inputs[k].Possible(act) && Firing(v, x)
    requires x == OfInput(k, act.k) ==> act.Register? || act.Trigger?
    ensures SameLoop(v, v.OnInput(k, act), x)
  {
    hide Good, Deferred.Do;
    if x.OfInput? && x.k == k { FiringKept(v.inputs[k], act, x.kind); }
  }

  lemma MainSame(v: World, act: Act<nat, Args>, x: Loop)
    requires Good(v.main) && v.main.Possible(act) && Firing(v, x)
    requires x == OfMain(act.k) ==> act.Register? || act.Trigger?
    ensures SameLoop(v, v.(main := v.main.Do(act)), x)
  {
    hide Good, Deferred.Do;
    if x.OfMain? { FiringKept(v.main, act, x.kind); }
  }

  lemma PerformSame(v: World, f: Fun, a: Args, x: Loop)
    requires Good(v.main) && (x.OfMain? ==> Firing(v, x)) && (x.OfInput? ==> x.k < |v.inputs|)
    ensures SameLoop(v, v.Perform(f, a), x)
  {
    hide Good, Deferred.Do;
    if x.OfMain? {
      match f
      case RejectMain => MainSame(v, Act.Trigger(Fail, a), x);
      case ProgressFunc(i) => if i < |v.pValues| { MainSame(v, Act.Trigger(Progress, v.pValues[i := Single(a)]), x); }
      case ResolveFunc(i) => if i < |v.args| { MainSame(v, Act.Trigger(Done, v.args[i := Single(a)]), x); }
      case User(_) =>
    }
  }

  /** What is left of the stack when the innermost loop, if any, has made its step. */
  function Rest(stack: seq<Loop>, t: World): seq<Loop> {
    if stack != [] && !Firing(t, stack[|stack| - 1]) then stack[..|stack| - 1] else stack
  }

  /** A step takes the innermost loop off the stack, if that ends, and puts on it the loop it
      begins, if it begins one. */
  lemma StackStep(v: World, base: seq<Loop>, stack: seq<Loop>, s: Step)
    requires WhenInv(v) && v.Possible(s) && StackOk(v, stack) && MayGo(v, base, stack, s)
    ensures var t, y := v.Take(s), MayBegin(v, s);
      After(stack, v, t) == Rest(stack, t) + if Firing(t, y) && !Firing(v, y) then [y] else []
  {
    hide WhenInv, World.Take, World.Possible, StackOk, MayBegin, MayGo, Firing, Active;
    TakeSame(v, s);
    ActiveIsFiring(v.Take(s));
    StackKeeps(v, base, stack, s);
    StackBegins(v, s);
  }

  lemma StackKeeps(v: World, base: seq<Loop>, stack: seq<Loop>, s: Step)
    requires WhenInv(v) && v.Possible(s) && StackOk(v, stack) && MayGo(v, base, stack, s)
    ensures Only(stack, Active(v.Take(s))) ==
      if stack != [] && stack[|stack| - 1] !in Active(v.Take(s)) then stack[..|stack| - 1] else stack
  {
    var t := v.Take(s);
    assert Shape(v);
    hide WhenInv, Shape, World.Take, World.Possible, StackOk, MayGo, Active, Firing, LoopOf;
    StackIs(v, stack);
    ActiveIsFiring(v);
    ActiveIsFiring(t);
    MovesInnermost(v, base, stack, s);
    forall x | x in stack && LoopOf(s) != Some(x) ensures x in Active(t) { StepFires(v, s, x); }
    StillThere(stack, Active(t));
  }

  lemma StepFires(v: World, s: Step, x: Loop)
    requires Shape(v) && v.Possible(s) && Firing(v, x) && LoopOf(s) != Some(x)
    ensures Firing(v.Take(s), x)
  {
    hide Shape, World.Take, World.Possible, LoopOf;
    StepSame(v, s, x);
  }

  lemma StackBegins(v: World, s: Step)
    requires v.Possible(s) && |v.Take(s).inputs| == |v.inputs|
    ensures var t, y := v.Take(s), MayBegin(v, s);
      Only(LoopsOf(|t.inputs|), Active(t) - Active(v)) == if Firing(t, y) && !Firing(v, y) then [y] else []
  {
    var t, y := v.Take(s), MayBegin(v, s);
    hide World.Take, World.Possible, MayBegin, Active;
    ActiveIsFiring(v);
    ActiveIsFiring(t);
    LoopsOnce(|t.inputs|);
    LoopsAll(|t.inputs|);
    forall x | x in Active(t) - Active(v) ensures x == y { OneBegins(v, s, x); }
    hide Firing, LoopsOf;
    if Firing(t, y) && !Firing(v, y) {
      assert Active(t) - Active(v) == {y};
      assert y in LoopsOf(|t.inputs|) by { FiringIsLoop(t, y); }
      OnlyOne(LoopsOf(|t.inputs|), y);
    } else {
      assert Active(t) - Active(v) == {};
      OnlyNone(LoopsOf(|t.inputs|), {});
    }
  }

  lemma FiringIsLoop(v: World, x: Loop)
    requires Firing(v, x)
    ensures x in LoopsOf(|v.inputs|)
  {
    LoopsAll(|v.inputs|);
  }

  lemma StackIs(v: World, stack: seq<Loop>)
    requires StackOk(v, stack)
    ensures Once(stack) && forall x :: x in stack <==> x in Active(v)
  {
    ActiveIsFiring(v);
  }

  lemma MovesInnermost(v: World, base: seq<Loop>, stack: seq<Loop>, s: Step)
    requires v.Possible(s) && MayGo(v, base, stack, s)
    ensures LoopOf(s).Some? ==> stack != [] && stack[|stack| - 1] == LoopOf(s).value
  {
  }

  lemma StillThere(stack: seq<Loop>, kept: set<Loop>)
    requires Once(stack) && forall x :: x in stack && x != stack[|stack| - 1] ==> x in kept
    ensures Only(stack, kept) == if stack != [] && stack[|stack| - 1] !in kept then stack[..|stack| - 1] else stack
  {
    if stack != [] {
      var n := |stack| - 1;
      forall x | x in stack[..n] ensures x in kept {
        var i :| 0 <= i < n && stack[i] == x;
        assert stack[i] != stack[n];
      }
      OnlyAll(stack[..n], kept);
      assert stack == stack[..n] + [stack[n]];
    }
  }

  // ---- Whose rejection is reported ----

  ghost function HeardSet(v: World): set<nat> {
    set k | 0 <= k < |v.inputs| && Heard(v, k)
  }

  /** The input of `those` whose fail loop is innermost. */
  function LastFail(stack: seq<Loop>, those: set<nat>): Option<nat> {
    if stack == [] then None else
    var x := stack[|stack| - 1];
    if x.OfInput? && x.kind == Fail && x.k in those then Some(x.k) else LastFail(stack[..|stack| - 1], those)
  }

  /** The rejected input whose fail loop is innermost. */
  ghost function InnermostHeard(v: World, stack: seq<Loop>): Option<nat> {
    LastFail(stack, HeardSet(v))
  }

  lemma {:induction false} LastFailIs(stack: seq<Loop>, those: set<nat>)
    ensures match LastFail(stack, those)
      case Some(k) => k in those && OfInput(k, Fail) in stack
      case None => forall k :: k in those ==> OfInput(k, Fail) !in stack
  {
    if stack != [] {
      LastFailIs(stack[..|stack| - 1], those);
      assert stack == stack[..|stack| - 1] + [stack[|stack| - 1]];
    }
  }

  lemma {:induction false} LastFailOnly(stack: seq<Loop>, those: set<nat>, kept: set<Loop>)
    requires forall k :: k in those && OfInput(k, Fail) in stack ==> OfInput(k, Fail) in kept
    ensures LastFail(Only(stack, kept), those) == LastFail(stack, those)
  {
    if stack != [] {
      var n := |stack| - 1;
      var ys := Only(stack[..n], kept);
      LastFailOnly(stack[..n], those, kept);
      assert (ys + [stack[n]])[..|ys|] == ys && ys + [] == ys;
    }
  }

  lemma {:induction false} LastFailMore(stack: seq<Loop>, those: set<nat>, more: seq<Loop>)
    requires forall k :: k in those ==> OfInput(k, Fail) !in more
    ensures LastFail(stack + more, those) == LastFail(stack, those)
  {
    if more == [] {
      assert stack + more == stack;
    } else {
      var n := |more| - 1;
      assert (stack + more)[..|stack + more| - 1] == stack + more[..n];
      LastFailMore(stack, those, more[..n]);
    }
  }

  /** Until `when` is told, the fail loops of rejected inputs are active. */
  lemma HeardFires(v: World)
    requires WhenInv(v) && v.rejections == []
    ensures forall k :: k in HeardSet(v) ==> OfInput(k, Fail) in Active(v)
  {
    hide WhenInv, Heard, Active;
    ActiveIsFiring(v);
    forall k | k in HeardSet(v) ensures OfInput(k, Fail) in Active(v) {
      StillToTell(v, k);
    }
  }

  lemma HeardSame(v: World, t: World)
    requires HeardAlso(v, t, None)
    ensures HeardSet(t) == HeardSet(v)
    ensures forall k :: k in HeardSet(v) ==>
      k < |v.inputs| && k < |t.inputs| && t.inputs[k].Outcome() == v.inputs[k].Outcome()
  {
    hide Heard, Deferred.Outcome;
    forall k: nat | true ensures k in HeardSet(t) <==> k in HeardSet(v) {
      assert Heard(t, k) <==> Heard(v, k) || None == Some(k);
    }
  }

  /** As long as no other input is rejected and `when` is not told, the innermost one stays so. */
  lemma InnermostStays(v: World, stack: seq<Loop>, s: Step)
    requires WhenInv(v) && v.Possible(s) && StackOk(v, stack)
    requires Rejects(v, s) == None && v.rejections == [] && v.Take(s).rejections == []
    ensures var t := v.Take(s);
      HeardSet(t) == HeardSet(v) && InnermostHeard(t, After(stack, v, t)) == InnermostHeard(v, stack)
  {
    hide WhenInv, World.Take, World.Possible, Rejects, HeardSet, Active, Only, LastFail;
    var t := v.Take(s);
    StepHeard(v, s);
    HeardSame(v, t);
    TakeInv(v, s);
    HeardFires(v);
    HeardFires(t);
    var those := HeardSet(v);
    LastFailOnly(stack, those, Active(t));
    LastFailMore(Only(stack, Active(t)), those, Only(LoopsOf(|t.inputs|), Active(t) - Active(v)));
  }

  /** Who tells `when` is the input whose fail loop is innermost. */
  lemma InnermostTells(v: World, base: seq<Loop>, stack: seq<Loop>, s: Step)
    requires WhenInv(v) && v.Possible(s) && MayGo(v, base, stack, s)
    requires v.rejections == [] && v.Take(s).rejections != []
    ensures InnermostHeard(v, stack).Some? && Rejects(v, s) == None
    ensures var t, k := v.Take(s), InnermostHeard(v, stack).value;
      k < |v.inputs| && t.main.state == Rejected && t.main.Outcome() == v.inputs[k].Outcome()
  {
    hide WhenInv, World.Take, World.Possible, Good, Deferred.Outcome, Rejects;
    OnlyApplyTells(v, s);
    TellsByReject(v, s);
    TellerIsHeard(v, s);
    TakeInv(v, s);
    ToldInv(v.Take(s));
    TellsOutcome(v, s);
    hide Heard;
    assert s.k in HeardSet(v) && LastFail(stack, HeardSet(v)) == Some(s.k);
  }

  lemma TellerIsHeard(v: World, s: Step)
    requires WhenInv(v) && v.Possible(s) && s.ApplyNext?
    requires v.inputs[s.k].Get(s.kind).pending[0].fn.ext.RejectMain?
    ensures s.kind == Fail && s.k < |v.inputs| && Heard(v, s.k)
    ensures v.inputs[s.k].Outcome() == v.inputs[s.k].Get(s.kind).current && v.inputs[s.k].Get(s.kind).current.Some?
  {
    hide Counting, ResolvedOk, RejectionsOk, Good, Deferred.Outcome, Listens;
    OwnFunctions(v, s.k, s.kind);
  }

  lemma TellsByReject(v: World, s: Step)
    requires v.Possible(s) && s.ApplyNext? && v.Take(s).rejections != v.rejections
    ensures v.inputs[s.k].Get(s.kind).pending[0].fn.ext.RejectMain?
  {
    hide Deferred.Do;
  }

  lemma TellsOutcome(v: World, s: Step)
    requires v.Possible(s) && s.ApplyNext? && v.rejections == []
    requires v.inputs[s.k].Get(s.kind).pending[0].fn.ext.RejectMain?
    ensures v.Take(s).rejections == [v.inputs[s.k].Get(s.kind).current.value]
  {
    hide Deferred.Do;
  }

  /** From `steps` on, and until `when` is told, no other input is rejected or found rejected. */
  ghost predicate NoOtherRejected(w: World, steps: seq<Step>, more: seq<Step>)
    requires LegalSteps(w, steps + more)
  {
    more == [] ||
    (var n := |more| - 1;
     && LegalSteps(w, steps + more[..n]) && NoOtherRejected(w, steps, more[..n])
     && var v := RunSteps(w, steps + more[..n]);
     && v.Possible(more[n]) && (v.rejections == [] ==> Rejects(v, more[n]) == None))
  }

  lemma NestedSplit(w: World, base: seq<Loop>, steps: seq<Step>, more: seq<Step>)
    requires more != [] && LegalSteps(w, steps + more)
    ensures var n := |more| - 1;
      && LegalSteps(w, steps + more[..n]) && RunSteps(w, steps + more[..n]).Possible(more[n])
      && RunSteps(w, steps + more) == RunSteps(w, steps + more[..n]).Take(more[n])
      && Stack(w, base, steps + more) ==
           After(Stack(w, base, steps + more[..n]), RunSteps(w, steps + more[..n]), RunSteps(w, steps + more))
      && (Nested(w, base, steps + more) <==>
            && Nested(w, base, steps + more[..n])
            && MayGo(RunSteps(w, steps + more[..n]), base, Stack(w, base, steps + more[..n]), more[n]))
  {
    hide World.Take, World.Possible, After, MayGo;
    assert (steps + more)[..|steps + more| - 1] == steps + more[..|more| - 1];
  }

  /** In every nested run: if inputs are rejected and `when` has not been told, and no other
      input is rejected before it is, it rejects with what the one whose fail loop is
      innermost was rejected with. */
  lemma {:induction false} InnermostIsReported(w: World, base: seq<Loop>, steps: seq<Step>, more: seq<Step>)
    requires CalledIn(w, base) && LegalSteps(w, steps + more) && Nested(w, base, steps + more)
    requires LegalSteps(w, steps) && RunSteps(w, steps).rejections == [] && NoOtherRejected(w, steps, more)
    ensures var v, t := RunSteps(w, steps), RunSteps(w, steps + more);
      var j := InnermostHeard(v, Stack(w, base, steps));
      && (t.rejections == [] ==>
            HeardSet(t) == HeardSet(v) && InnermostHeard(t, Stack(w, base, steps + more)) == j
            && forall k :: k in HeardSet(v) ==> k < |v.inputs| && k < |t.inputs|
                                                && t.inputs[k].Outcome() == v.inputs[k].Outcome())
      && (t.rejections != [] ==>
            && j.Some? && j.value < |v.inputs| && t.main.state == Rejected
            && t.main.Outcome() == v.inputs[j.value].Outcome())
  {
    hide CalledIn, World.Take, World.Possible, WhenInv, After, StackOk, Rejects, Heard, Deferred.Outcome, HeardSet,
      LastFail, InnermostHeard, MayGo;
    CalledStarts(w, base);
    if more == [] {
      assert steps + more == steps;
      HeardInRange(RunSteps(w, steps));
    } else {
      var n := |more| - 1;
      NestedSplit(w, base, steps, more);
      InnermostIsReported(w, base, steps, more[..n]);
      var u, s, stack := RunSteps(w, steps + more[..n]), more[n], Stack(w, base, steps + more[..n]);
      RunWhenInv(w, steps + more[..n]);
      if u.rejections != [] {
        ToldForGood(u, s);
      } else if u.Take(s).rejections == [] {
        RunStack(w, base, steps + more[..n]);
        InnermostStays(u, stack, s);
        StepHeard(u, s);
        HeardSame(u, u.Take(s));
      } else {
        InnermostTells(u, base, stack, s);
        InnermostIsHeard(u, stack);
      }
    }
  }

  lemma CalledStarts(w: World, base: seq<Loop>)
    requires CalledIn(w, base)
    ensures Start(w)
  {
  }

  lemma HeardInRange(v: World)
    ensures forall k :: k in HeardSet(v) ==> k < |v.inputs|
  {
  }

  lemma InnermostIsHeard(v: World, stack: seq<Loop>)
    ensures InnermostHeard(v, stack).Some? ==> InnermostHeard(v, stack).value in HeardSet(v)
  {
    LastFailIs(stack, HeardSet(v));
  }

  lemma ToldForGood(v: World, s: Step)
    requires WhenInv(v) && v.Possible(s) && v.rejections != []
    ensures v.Take(s).rejections != []
    ensures v.Take(s).main.state == v.main.state && v.Take(s).main.Outcome() == v.main.Outcome()
  {
    hide Good, Deferred.Do, Deferred.Outcome;
    ToldInv(v);
    TakeFinal(v, s);
  }

  // ---- Firings come to an end ----

  function PhaseWork(p: Phase): nat {
    match p case Idle => 0 case AtHead => 1 case Running => 2 case Broken => 1
  }

  function Times(n: nat, m: nat): nat {
    if n == 0 then 0 else m + Times(n - 1, m)
  }

  /** A bound on what a list can still do by itself: the firing under way and those waiting. */
  function ListWork<F(==,!new), A>(l: CbList<F, A>): nat {
    var waiting := if l.queue.Some? && !l.flags.once then |l.queue.value| else 0;
    Times(waiting, 2 * |l.Whole()| + 2) + 2 * |l.pending| + PhaseWork(l.phase)
  }

  lemma ListGoes<F(!new), A>(l: CbList<F, A>, e: Event<F, A>)
    requires l.Enabled(e) && (e.Apply? || e.Return? || e.End?)
    ensures ListWork(l.Step(e)) < ListWork(l)
  {
    match e
    case Apply => assert l.DoApply().Whole() == l.Whole();
    case Return(_) => assert |l.Step(e).Whole()| == |l.Whole()|;
    case End => EndGoes(l);
  }

  lemma EndGoes<F(!new), A>(l: CbList<F, A>)
    requires l.Enabled(End)
    ensures ListWork(l.DoEnd()) < ListWork(l)
  {
    assert [] + l.Whole() == l.Whole() && l.Whole() + [] == l.Whole();
  }

  function DeferredWork<F(==,!new), A>(d: Deferred<F, A>): nat {
    ListWork(d.done) + ListWork(d.fail) + ListWork(d.progress)
  }

  /** What an active loop does next. */
  function LoopAct<F(==,!new), A>(l: CbList<Fn<F>, A>, kind: Kind): Act<F, A> {
    if l.phase == Running then Act.ReturnFrom(kind, true)
    else if l.phase == AtHead && l.live && l.pending != [] then Act.ApplyNext(kind)
    else Act.EndLoop(kind)
  }

  lemma LoopGoes<F(!new), A>(d: Deferred<F, A>, kind: Kind)
    requires Good(d) && d.Get(kind).phase != Idle
    ensures d.Possible(LoopAct(d.Get(kind), kind))
    ensures ListWork(Touched(d.Get(kind), LoopAct(d.Get(kind), kind))) < ListWork(d.Get(kind))
    ensures d.Do(LoopAct(d.Get(kind), kind)) == d.Put(kind, Touched(d.Get(kind), LoopAct(d.Get(kind), kind)))
  {
    var l := d.Get(kind);
    var act: Act<F, A> := LoopAct(l, kind);
    WaitingIsOutside(d, kind);
    hide OwnFirst, ListWork, Deferred.Drain;
    ListGoes(l, if act.ReturnFrom? then Return(true) else if act.ApplyNext? then Apply else End);
    if kind == Progress { ProgressAct(d, act); } else { SettledAct(d, act); }
  }

  lemma WaitingIsOutside<F(!new), A>(d: Deferred<F, A>, kind: Kind)
    requires Good(d) && d.Get(kind).phase != Idle
    ensures kind != Progress ==> d.state != Pending
    ensures forall r :: r in d.Get(kind).pending ==> r.fn.Ext?
    ensures d.Get(kind).phase in {AtHead, Running} && d.Get(kind).current.Some?
  {
    if kind == Progress {
      WaitsExt(d.progress);
    } else {
      SettledWaitsExt(d.Get(kind), kind, d.Get(kind).memory.args);
    }
  }

  lemma DeferredGoes<F(!new), A>(d: Deferred<F, A>, kind: Kind)
    requires Good(d) && d.Get(kind).phase != Idle
    ensures d.Possible(LoopAct(d.Get(kind), kind))
    ensures DeferredWork(d.Do(LoopAct(d.Get(kind), kind))) < DeferredWork(d)
  {
    hide Good, Deferred.Do, Deferred.Possible, LoopAct, Touched, ListWork;
    LoopGoes(d, kind);
  }

  function InputsWork(inputs: seq<Input>): nat {
    if inputs == [] then 0 else InputsWork(inputs[..|inputs| - 1]) + DeferredWork(inputs[|inputs| - 1])
  }

  lemma {:induction false} InputGoes(inputs: seq<Input>, k: nat, d: Input)
    requires k < |inputs| && DeferredWork(d) < DeferredWork(inputs[k])
    ensures InputsWork(inputs[k := d]) < InputsWork(inputs)
  {
    hide DeferredWork;
    var n := |inputs| - 1;
    if k == n {
      assert inputs[k := d][..n] == inputs[..n];
    } else {
      assert inputs[k := d][..n] == inputs[..n][k := d];
      InputGoes(inputs[..n], k, d);
    }
  }

  /** What an active loop of the world does next. */
  function LoopStep(v: World, x: Loop): Step
    requires Firing(v, x)
  {
    match x
    case OfInput(k, kind) =>
      (match LoopAct(v.inputs[k].Get(kind), kind)
       case ApplyNext(_) => Step.ApplyNext(k, kind)
       case ReturnFrom(_, r) => Step.ReturnFrom(k, kind, r)
       case _ => Step.EndLoop(k, kind))
    case OfMain(kind) => OnMain(LoopAct(v.main.Get(kind), kind))
  }

  predicate IsFiring(s: Step) {
    s.ApplyNext? || s.ReturnFrom? || s.EndLoop? || (s.OnMain? && !s.act.Register?)
  }

  /** The step of a loop: less is left to do. */
  ghost predicate Goes(v: World, s: Step) {
    && v.Possible(s) && IsFiring(s) && Rejects(v, s) == None && v.Take(s).returned == v.returned
    && (InputsWork(v.Take(s).inputs) < InputsWork(v.inputs)
        || (v.Take(s).inputs == v.inputs && DeferredWork(v.Take(s).main) < DeferredWork(v.main)))
  }

  lemma PerformKeeps(v: World, f: Fun, a: Args)
    ensures v.Perform(f, a).inputs == v.inputs && v.Perform(f, a).returned == v.returned
  {
    hide Deferred.Do;
  }

  lemma InputLoopGoes(v: World, k: nat, kind: Kind)
    requires k < |v.inputs| && Good(v.inputs[k]) && Firing(v, OfInput(k, kind))
    ensures Goes(v, LoopStep(v, OfInput(k, kind)))
  {
    hide Good, Deferred.Do, Deferred.Possible, DeferredWork, InputsWork, World.Perform;
    var d := v.inputs[k];
    DeferredGoes(d, kind);
    var act: Act<Fun, Args> := LoopAct(d.Get(kind), kind);
    InputGoes(v.inputs, k, d.Do(act));
    if act.ApplyNext? {
      WaitingIsOutside(d, kind);
      PerformKeeps(v.OnInput(k, act), d.Get(kind).pending[0].fn.ext, d.Get(kind).current.value);
    }
  }

  lemma WorldGoes(v: World, x: Loop)
    requires WhenInv(v) && Firing(v, x)
    ensures Goes(v, LoopStep(v, x))
  {
    assert Shape(v);
    hide WhenInv, Good, Goes, LoopStep;
    match x
    case OfMain(kind) => MainLoopGoes(v, kind);
    case OfInput(k, kind) => InputLoopGoes(v, k, kind);
  }

  lemma MainLoopGoes(v: World, kind: Kind)
    requires Good(v.main) && Firing(v, OfMain(kind))
    ensures Goes(v, LoopStep(v, OfMain(kind)))
  {
    hide Good, Deferred.Do, Deferred.Possible, DeferredWork, InputsWork;
    DeferredGoes(v.main, kind);
  }

  predicate OnlyFirings(steps: seq<Step>) {
    forall s :: s in steps ==> IsFiring(s)
  }

  /** The moves of the loops alone, in a nested run. */
  ghost predicate FiringsFrom(w: World, base: seq<Loop>, steps: seq<Step>, more: seq<Step>) {
    && OnlyFirings(more) && LegalSteps(w, steps) && LegalSteps(w, steps + more)
    && Nested(w, base, steps + more) && NoOtherRejected(w, steps, more)
  }

  lemma OneMoreFiring(w: World, base: seq<Loop>, steps: seq<Step>, more: seq<Step>, s: Step)
    requires CalledIn(w, base) && FiringsFrom(w, base, steps, more)
    requires var v := RunSteps(w, steps + more);
      Goes(v, s) && MayGo(v, base, Stack(w, base, steps + more), s)
    ensures FiringsFrom(w, base, steps, more + [s])
    ensures RunSteps(w, steps + (more + [s])) == RunSteps(w, steps + more).Take(s)
  {
    hide World.Take, World.Possible, MayGo, CalledIn, After, Rejects;
    assert steps + (more + [s]) == (steps + more) + [s] && (more + [s])[..|more|] == more;
    OneMoreStep(w, steps + more, s);
    assert ((steps + more) + [s])[..|steps + more|] == steps + more;
  }

  lemma InnermostGoes(v: World, base: seq<Loop>, stack: seq<Loop>)
    requires WhenInv(v) && v.returned && StackOk(v, stack) && stack != []
    ensures var x := stack[|stack| - 1];
      Firing(v, x) && Goes(v, LoopStep(v, x)) && MayGo(v, base, stack, LoopStep(v, x))
  {
    hide WhenInv, Goes, Active;
    ActiveIsFiring(v);
    WorldGoes(v, stack[|stack| - 1]);
  }

  /** Once `when` has returned, a rejected input makes it reject: it is enough that user code
      stays quiet and the loops, innermost first, go on.  They come to an end. */
  lemma {:induction false} FiringsTell(w: World, base: seq<Loop>, steps: seq<Step>, k: nat, sofar: seq<Step>)
    returns (more: seq<Step>)
    requires CalledIn(w, base) && FiringsFrom(w, base, steps, sofar)
    requires RunSteps(w, steps + sofar).returned && Heard(RunSteps(w, steps + sofar), k)
    ensures FiringsFrom(w, base, steps, more) && RunSteps(w, steps + more).rejections != []
    decreases InputsWork(RunSteps(w, steps + sofar).inputs), DeferredWork(RunSteps(w, steps + sofar).main)
  {
    hide CalledIn, FiringsFrom, WhenInv, StackOk, Goes, MayGo, World.Take, World.Possible, Heard, LoopStep, InputsWork,
      DeferredWork, Active;
    FiringsLegal(w, base, steps, sofar);
    CalledStarts(w, base);
    var v := RunSteps(w, steps + sofar);
    more := sofar;
    if v.rejections == [] {
      RunWhenInv(w, steps + sofar);
      RunStack(w, base, steps + sofar);
      var stack := Stack(w, base, steps + sofar);
      StackIsNotEmpty(v, stack, k);
      InnermostGoes(v, base, stack);
      var s := LoopStep(v, stack[|stack| - 1]);
      OneMoreFiring(w, base, steps, sofar, s);
      GoesLess(v, s);
      StillHeard(v, s, k);
      more := FiringsTell(w, base, steps, k, sofar + [s]);
    }
  }

  lemma FiringsLegal(w: World, base: seq<Loop>, steps: seq<Step>, more: seq<Step>)
    requires FiringsFrom(w, base, steps, more)
    ensures LegalSteps(w, steps) && LegalSteps(w, steps + more)
  {
  }

  lemma StackIsNotEmpty(v: World, stack: seq<Loop>, k: nat)
    requires WhenInv(v) && StackOk(v, stack) && v.rejections == [] && Heard(v, k)
    ensures stack != []
  {
    hide WhenInv, Active, Firing;
    HeardFires(v);
    ActiveIsFiring(v);
    assert k in HeardSet(v);
  }

  lemma StillHeard(v: World, s: Step, k: nat)
    requires WhenInv(v) && v.Possible(s) && Heard(v, k)
    ensures Heard(v.Take(s), k)
  {
    hide WhenInv, World.Take, World.Possible, Heard, Rejects;
    StepHeard(v, s);
  }

  lemma GoesLess(v: World, s: Step)
    requires Goes(v, s)
    ensures v.Possible(s) && v.Take(s).returned == v.returned
    ensures InputsWork(v.Take(s).inputs) < InputsWork(v.inputs)
      || (v.Take(s).inputs == v.inputs && DeferredWork(v.Take(s).main) < DeferredWork(v.main))
  {
  }

  /** So a rejection is always reported in the end, and it is the innermost one. */
  lemma InnermostWillBeReported(w: World, base: seq<Loop>, steps: seq<Step>, k: nat) returns (more: seq<Step>)
    requires CalledIn(w, base) && LegalSteps(w, steps) && Nested(w, base, steps)
    requires RunSteps(w, steps).returned && RunSteps(w, steps).rejections == [] && Heard(RunSteps(w, steps), k)
    ensures OnlyFirings(more) && LegalSteps(w, steps + more) && Nested(w, base, steps + more)
    ensures var v, t := RunSteps(w, steps), RunSteps(w, steps + more);
      var j := InnermostHeard(v, Stack(w, base, steps));
      && j.Some? && Heard(v, j.value)
      && t.main.state == Rejected && t.main.Outcome() == v.inputs[j.value].Outcome()
  {
    hide CalledIn, World.Take, WhenInv, Deferred.Outcome, LastFail, Stack, Nested, NoOtherRejected, LegalSteps,
      RunSteps;
    NoFiringYet(w, base, steps);
    assert steps + [] == steps;
    more := FiringsTell(w, base, steps, k, []);
    InnermostIsReported(w, base, steps, more);
    InnermostIsHeard(RunSteps(w, steps), Stack(w, base, steps));
  }

  lemma NoFiringYet(w: World, base: seq<Loop>, steps: seq<Step>)
    requires LegalSteps(w, steps) && Nested(w, base, steps)
    ensures FiringsFrom(w, base, steps, [])
  {
    hide LegalSteps, Nested;
    assert steps + [] == steps;
  }

  // ---- When the first rejection wins ----

  /** Before `when` has been told, and as long as no other input is rejected: when it is told
      in the end, it reports the first rejection if and only if the input whose fail loop is
      innermost now was rejected with the same arguments. */
  lemma FirstRejectionWinsExactly(w: World, base: seq<Loop>, steps: seq<Step>, more: seq<Step>, k: nat)
    requires CalledIn(w, base) && LegalSteps(w, steps + more) && Nested(w, base, steps + more)
    requires LegalSteps(w, steps) && RunSteps(w, steps).rejections == [] && NoOtherRejected(w, steps, more)
    requires FirstRejected(w, steps) == Some(k) && RunSteps(w, steps + more).rejections != []
    ensures var v, t := RunSteps(w, steps), RunSteps(w, steps + more);
      var j := InnermostHeard(v, Stack(w, base, steps));
      && Heard(v, k) && j.Some? && Heard(v, j.value) && t.main.state == Rejected
      && (t.main.Outcome() == v.inputs[k].Outcome() <==> v.inputs[j.value].Outcome() == v.inputs[k].Outcome())
  {
    hide CalledIn, World.Take, WhenInv, Deferred.Outcome, LastFail, Stack, FirstRejected, Nested, NoOtherRejected;
    CalledStarts(w, base);
    FirstRejectedIsHeard(w, steps);
    InnermostIsReported(w, base, steps, more);
    InnermostIsHeard(RunSteps(w, steps), Stack(w, base, steps));
  }
}
