/** `jQuery.when` as code: the variables its closures share, the loop over its arguments,
    the functions it registers, and the firing loops as JavaScript runs them: a loop that a
    call begins ends before that call returns.  So what happens is a nested run. */
module Whens {
  import opened Wrappers
  import opened CallbackSpec
  import opened DeferredSpec
  import opened DeferredRuns
  import opened WhenSpec
  import opened WhenRuns
  import opened WhenNesting

  /** One thing user code does when one of its functions is called. */
  datatype Deed =
    | DoAttach(k: nat, kind: Kind, ids: seq<nat>)   // registers functions with an input
    | DoSettle(k: nat, kind: Kind, args: Args)      // resolves, rejects or notifies an input
    | DoAttachMain(kind: Kind, ids: seq<nat>)       // registers functions with the promise
  {
    /** There is such an input. */
    predicate Meant(inputs: nat) {
      !DoAttachMain? ==> k < inputs
    }
  }

  /** What one call of a user function does. */
  type Body = seq<Deed>

  function StepFor(deed: Deed): Step {
    match deed
    case DoAttach(k, kind, ids) => Attach(k, kind, ids)
    case DoSettle(k, kind, args) => Settle(k, kind, args)
    case DoAttachMain(kind, ids) => OnMain(Act.Register(kind, ids))
  }

  /** From place `from` on the history has all these deeds, in their order. */
  ghost predicate Carried(body: Body, inputs: nat, from: nat, steps: seq<Step>) {
    body == [] ||
    (var n := |body| - 1;
     if !body[n].Meant(inputs) then Carried(body[..n], inputs, from, steps)
     else exists j :: from <= j < |steps| && steps[j] == StepFor(body[n])
                      && Carried(body[..n], inputs, from, steps[..j]))
  }

  lemma CarriedNone(body: Body, inputs: nat, from: nat, steps: seq<Step>)
    ensures Carried(body[..0], inputs, from, steps)
  {
  }

  lemma {:induction false} CarriedLonger(body: Body, inputs: nat, from: nat, before: seq<Step>, after: seq<Step>)
    requires Carried(body, inputs, from, before) && before <= after
    ensures Carried(body, inputs, from, after)
  {
    if body != [] {
      var n := |body| - 1;
      if !body[n].Meant(inputs) {
        CarriedLonger(body[..n], inputs, from, before, after);
      } else {
        var j :| from <= j < |before| && before[j] == StepFor(body[n]) && Carried(body[..n], inputs, from, before[..j]);
        assert after[..j] == before[..j] && after[j] == before[j];
      }
    }
  }

  lemma CarriedMore(body: Body, n: nat, inputs: nat, from: nat, before: seq<Step>, after: seq<Step>)
    requires n < |body| && from <= |before| <= |after| && before <= after && Carried(body[..n], inputs, from, before)
    requires body[n].Meant(inputs) ==> before + [StepFor(body[n])] <= after
    ensures Carried(body[..n + 1], inputs, from, after)
  {
    hide StepFor;
    assert body[..n + 1][..n] == body[..n];
    if body[n].Meant(inputs) {
      assert after[..|before|] == before && after[|before|] == StepFor(body[n]);
    } else {
      CarriedLonger(body[..n], inputs, from, before, after);
    }
  }

  function StartOf(inputs: seq<Input>, args: Args): World {
    World(inputs, NewDeferred<nat, Args>(), args, args, seq(|args|, _ => Undefined), |args|, 0, 0, false, [])
  }

  /** The scan stands where it stood, and the loops `below` have not moved. */
  ghost predicate Kept(v: World, t: World, below: seq<Loop>) {
    && t.scanned == v.scanned && t.part == v.part && t.returned == v.returned
    && t.given == v.given && |t.args| == |v.args| && |t.inputs| == |v.inputs|
    && forall z :: z in below ==> SameLoop(v, t, z)
  }

  /** User code has gone on, or the loops have less left to do. */
  ghost predicate Lighter(l: nat, v: World, m: nat, t: World) {
    m < l ||
    (m == l && (InputsWork(t.inputs) < InputsWork(v.inputs) ||
                (InputsWork(t.inputs) == InputsWork(v.inputs) && DeferredWork(t.main) <= DeferredWork(v.main))))
  }

  /** The same, strictly. */
  ghost predicate Less(l: nat, v: World, m: nat, t: World) {
    m < l ||
    (m == l && (InputsWork(t.inputs) < InputsWork(v.inputs) ||
                (InputsWork(t.inputs) == InputsWork(v.inputs) && DeferredWork(t.main) < DeferredWork(v.main))))
  }

  /** The next turn of this loop calls a user function. */
  predicate EntersUser(v: World, x: Loop) {
    match x
    case OfInput(k, kind) =>
      && k < |v.inputs| && LoopAct<Fun, Args>(v.inputs[k].Get(kind), kind).ApplyNext?
      && v.inputs[k].Get(kind).pending != [] && v.inputs[k].Get(kind).pending[0].fn.Ext?
      && v.inputs[k].Get(kind).pending[0].fn.ext.User?
    case OfMain(kind) => LoopAct<nat, Args>(v.main.Get(kind), kind).ApplyNext?
  }

  lemma EntersInput(v: World, k: nat, kind: Kind)
    requires k < |v.inputs|
    ensures EntersUser(v, OfInput(k, kind)) ==>
      LoopAct<Fun, Args>(v.inputs[k].Get(kind), kind).ApplyNext? && v.inputs[k].Get(kind).pending != []
      && v.inputs[k].Get(kind).pending[0].fn.Ext? && v.inputs[k].Get(kind).pending[0].fn.ext.User?
  {
  }

  class WhenCall {
    var inputs: seq<Input>
    var deferred: Deferred<nat, Args>
    var args: Args
    var pValues: Args
    var count: int
    var i: nat
    var returned: bool

    /** What user code does, call by call, in the order the calls begin.  When it is used up,
        functions return at once. */
    const script: seq<Body>
    var pos: nat

    ghost var part: nat
    ghost var rejections: seq<Args>
    ghost const start: World
    ghost const base: seq<Loop>   // the loops active when `when` is called
    ghost var steps: seq<Step>
    ghost var stack: seq<Loop>
    ghost var now: World

    ghost function View(): World
      reads this
    {
      World(inputs, deferred, start.given, args, pValues, count, i, part, returned, rejections)
    }

    /** The call's history is a nested run that has led to `v`. */
    ghost predicate Went(v: World)
      reads `steps, `stack
    {
      && CalledIn(start, base) && LegalSteps(start, steps) && RunSteps(start, steps) == v
      && Nested(start, base, steps) && stack == Stack(start, base, steps)
    }

    /** The variables say what the history says. */
    ghost predicate Valid()
      reads this
    {
      Went(now) && now == View()
    }

    constructor (inputs: seq<Input>, args: Args, script: seq<Body>, ghost base: seq<Loop>)
      requires CalledIn(StartOf(inputs, args), base)
      ensures Valid() && steps == [] && stack == base == this.base && View() == StartOf(inputs, args)
      ensures this.script == script && pos == 0
    {
      this.inputs, this.args := inputs, args;
      pValues := seq(|args|, _ => Undefined);
      deferred := NewDeferred<nat, Args>();
      count, i, returned := |args|, 0, false;
      this.script, pos := script, 0;
      part, rejections, steps, stack := 0, [], [], base;
      start, this.base, now := StartOf(inputs, args), base, StartOf(inputs, args);
    }

    function Left(): nat
      reads `pos
    {
      if pos <= |script| then |script| - pos else 0
    }

    predicate Fires(x: Loop)
      reads `inputs, `deferred
    {
      match x
      case OfInput(k, kind) => k < |inputs| && inputs[k].Get(kind).phase != Idle
      case OfMain(kind) => deferred.Get(kind).phase != Idle
    }

    lemma Known()
      requires Valid()
      ensures WhenInv(View()) && StackOk(View(), stack) && |start.given| == |args|
    {
      hide WhenInv, Start, StackOk;
      CalledStarts(start, base);
      RunWhenInv(start, steps);
      RunStack(start, base, steps);
      GivenLength(View());
    }

    ghost method Record(s: Step, before: World)
      requires Went(before) && before.Possible(s) && MayGo(before, base, stack, s) && View() == before.Take(s)
      modifies `steps, `stack, `now
      ensures Valid() && steps == old(steps) + [s] && stack == After(old(stack), before, View())
    {
      hide CalledIn, World.Possible, World.Take, MayGo, After;
      var longer := steps + [s];
      assert longer[..|longer| - 1] == steps;
      steps := longer;
      stack := After(stack, before, View());
      now := View();
    }

    /** The loop `x` goes on until it ends. */
    method RunLoop(x: Loop, ghost below: seq<Loop>)
      requires Valid() && stack == below + [x] && (returned || |below| >= |base|)
      modifies this
      ensures Valid() && stack == below && old(steps) <= steps
      ensures Kept(old(View()), View(), below) && returned == old(returned)
      ensures Lighter(old(Left()), old(View()), Left(), View())
      decreases Left(), InputsWork(inputs), DeferredWork(deferred), 3
    {
      hide Went, Kept, SameLoop, InputsWork, DeferredWork;
      ghost var v := View();
      TopFires(below, x);
      while Fires(x)
        invariant Valid() && stack == below + if Fires(x) then [x] else []
        invariant old(steps) <= steps && returned == old(returned)
        invariant Kept(v, View(), below) && Lighter(old(Left()), v, Left(), View())
        decreases Left(), InputsWork(inputs), DeferredWork(deferred)
      {
        ghost var u := View();
        Turn(x, below);
        KeptTwice(v, u, View(), below);
      }
    }

    lemma TopFires(below: seq<Loop>, x: Loop)
      requires Valid() && stack == below + [x]
      ensures Fires(x) && Kept(View(), View(), below)
    {
      hide WhenInv, StackOk, Went;
      Known();
      AllFire(View(), stack);
      assert x in stack && forall z :: z in below ==> z in stack;
      KeptSame(View(), below);
    }

    /** One turn of the innermost loop: what its function does happens before it returns. */
    method Turn(x: Loop, ghost below: seq<Loop>)
      requires Valid() && stack == below + [x] && (returned || |below| >= |base|)
      modifies this
      ensures Valid() && stack == below + (if Fires(x) then [x] else []) && old(steps) <= steps
      ensures Kept(old(View()), View(), below) && returned == old(returned)
      ensures Less(old(Left()), old(View()), Left(), View())
      ensures EntersUser(old(View()), x) && old(pos) < |script| ==>
        pos > old(pos) && Carried(script[old(pos)], |old(inputs)|, |old(steps)| + 1, steps)
      decreases Left(), InputsWork(inputs), DeferredWork(deferred), 2
    {
      match x {
        case OfMain(kind) => MainCalls(kind, below);
        case OfInput(k, kind) => InputTakesTurn(k, kind, below);
      }
    }

    method MainCalls(kind: Kind, ghost below: seq<Loop>)
      requires Valid() && stack == below + [OfMain(kind)] && (returned || |below| >= |base|)
      modifies this
      ensures Valid() && stack == below + (if Fires(OfMain(kind)) then [OfMain(kind)] else []) && old(steps) <= steps
      ensures Kept(old(View()), View(), below) && returned == old(returned)
      ensures Less(old(Left()), old(View()), Left(), View())
      ensures EntersUser(old(View()), OfMain(kind)) && old(pos) < |script| ==>
        pos > old(pos) && Carried(script[old(pos)], |old(inputs)|, |old(steps)| + 1, steps)
      decreases Left(), InputsWork(inputs), DeferredWork(deferred), 1
    {
      hide Went, WhenInv, StackOk, Kept, Goes, MayGo, After, SameLoop, InputsWork, DeferredWork, World.Take,
        World.Possible, Deferred.Do, Deferred.Possible, LoopAct;
      ghost var x, v := OfMain(kind), View();
      Known();
      LoopTurn(v, base, below, x);
      MainTurn(v, kind);
      GoesLess(v, LoopStep(v, x));
      var act := LoopAct(deferred.Get(kind), kind);
      deferred := deferred.Do(act);
      Record(OnMain(act), v);
      if act.ApplyNext? {
        ghost var t := View();
        RunUser(below + [x]);
        StillFires(t, View(), below, x);
        KeptTwice(v, t, View(), below);
      }
    }

    method InputTakesTurn(k: nat, kind: Kind, ghost below: seq<Loop>)
      requires Valid() && stack == below + [OfInput(k, kind)] && (returned || |below| >= |base|)
      modifies this
      ensures Valid() && stack == below + if Fires(OfInput(k, kind)) then [OfInput(k, kind)] else []
      ensures old(steps) <= steps
      ensures Kept(old(View()), View(), below) && returned == old(returned)
      ensures Less(old(Left()), old(View()), Left(), View())
      ensures EntersUser(old(View()), OfInput(k, kind)) && old(pos) < |script| ==>
        pos > old(pos) && Carried(script[old(pos)], |old(inputs)|, |old(steps)| + 1, steps)
      decreases Left(), InputsWork(inputs), DeferredWork(deferred), 1
    {
      hide Went, WhenInv, StackOk, Kept, Goes, MayGo, After, SameLoop, InputsWork, DeferredWork, World.Take,
        World.Possible, Deferred.Do, Deferred.Possible, LoopAct, EntersUser, Carried;
      ghost var x, v := OfInput(k, kind), View();
      if k < |inputs| { EntersInput(v, k, kind); }
      Known();
      LoopTurn(v, base, below, x);
      InputTurn(v, k, kind);
      GoesLess(v, LoopStep(v, x));
      var act := LoopAct(inputs[k].Get(kind), kind);
      if act.ApplyNext? {
        InputApplies(v, k, kind);
        var f := inputs[k].Get(kind).pending[0].fn.ext;
        var y := MainLoopOf(f);
        var was := Fires(y);
        InputCalls(k, kind);
        ghost var t := View();
        Meanwhile(f, y, was, x, below);
        KeptTwice(v, t, View(), below);
      } else {
        inputs := inputs[k := inputs[k].Do(act)];
        Record(LoopStep(v, x), v);
      }
    }

    /** Before the function that loop `x` has called returns: user code goes on, or the loop of
        the promise that it has begun runs to its end. */
    method Meanwhile(f: Fun, y: Loop, was: bool, ghost x: Loop, ghost below: seq<Loop>)
      requires Valid() && (returned || |below| >= |base|) && Firing(View(), x)
      requires stack == below + [x] + if Fires(y) && !was then [y] else []
      requires f.User? ==> (Fires(y) ==> was) && UserMayAct(View(), base, below + [x])
      modifies this
      ensures Valid() && stack == below + [x] && Firing(View(), x) && old(steps) <= steps
      ensures Kept(old(View()), View(), below) && returned == old(returned)
      ensures Lighter(old(Left()), old(View()), Left(), View())
      ensures f.User? && old(pos) < |script| ==>
        pos > old(pos) && Carried(script[old(pos)], |old(inputs)|, |old(steps)|, steps)
      decreases Left(), InputsWork(inputs), DeferredWork(deferred), 5
    {
      hide Went, WhenInv, StackOk, Kept, SameLoop, InputsWork, DeferredWork, UserMayAct, Carried;
      ghost var t := View();
      assert Kept(t, t, below + [x]) by { HereFires(); KeptPart(t, below + [x], stack); }
      if f.User? {
        RunUser(below + [x]);
      } else if Fires(y) && !was {
        RunLoop(y, below + [x]);
      }
      StillFires(t, View(), below, x);
    }

    /** A firing loop of input `k` calls its next function; `when`'s own have their effect. */
    method InputCalls(k: nat, kind: Kind)
      requires Valid() && View().Possible(Step.ApplyNext(k, kind))
      requires MayGo(View(), base, stack, Step.ApplyNext(k, kind))
      modifies this
      ensures Valid() && steps == old(steps) + [Step.ApplyNext(k, kind)] && pos == old(pos)
      ensures View() == old(View()).Take(Step.ApplyNext(k, kind))
      ensures stack == After(old(stack), old(View()), View())
    {
      hide Went, MayGo, After, Deferred.Do;
      ghost var before := View();
      KnownIndices(k, kind);
      var l := inputs[k].Get(kind);
      inputs := inputs[k := inputs[k].Do(Act.ApplyNext(kind))];
      match l.pending[0].fn.ext {
        case User(_) =>
        case ResolveFunc(n) => ResolveFunc(n, l.current.value);
        case RejectMain => Reject(l.current.value);
        case ProgressFunc(n) => if n < |pValues| { ProgressFunc(n, l.current.value); }
      }
      Record(Step.ApplyNext(k, kind), before);
    }

    lemma KnownIndices(k: nat, kind: Kind)
      requires Valid() && View().Possible(Step.ApplyNext(k, kind))
      ensures var f := inputs[k].Get(kind).pending[0].fn.ext; f.ResolveFunc? ==> f.i < |args|
    {
      hide Good, Registrations, Applied, Listens, Went;
      Known();
      OwnFunctions(View(), k, kind);
    }

    /** The function `resolveFunc(n)` returns. */
    method ResolveFunc(n: nat, a: Args)
      requires n < |args|
      modifies `args, `count, `deferred
      ensures View() == old(View()).Perform(Fun.ResolveFunc(n), a)
      ensures |args| == |old(args)| && (forall j :: 0 <= j < |args| && j != n ==> args[j] == old(args)[j])
      ensures StandsFor(args[n], a) && count == old(count) - 1
      ensures deferred == if count == 0 then old(deferred).Do(Act.Trigger(Done, args)) else old(deferred)
    {
      args := args[n := Single(a)];
      count := count - 1;
      if count == 0 {
        deferred := deferred.Do(Act.Trigger(Done, args));
      }
    }

    /** The function `progressFunc(n)` returns. */
    method ProgressFunc(n: nat, a: Args)
      requires n < |pValues|
      modifies `pValues, `deferred
      ensures View() == old(View()).Perform(Fun.ProgressFunc(n), a)
      ensures |pValues| == |old(pValues)|
      ensures StandsFor(pValues[n], a) && forall j :: 0 <= j < |pValues| && j != n ==> pValues[j] == old(pValues)[j]
      ensures deferred == old(deferred).Do(Act.Trigger(Progress, pValues))
    {
      pValues := pValues[n := Single(a)];
      deferred := deferred.Do(Act.Trigger(Progress, pValues));
    }

    /** `deferred.reject` */
    method Reject(a: Args)
      modifies `deferred, `rejections
      ensures View() == old(View()).Perform(RejectMain, a)
      ensures rejections == old(rejections) + [a] && deferred == old(deferred).Do(Act.Trigger(Fail, a))
    {
      rejections := rejections + [a];
      deferred := deferred.Do(Act.Trigger(Fail, a));
    }

    /** User code, in a function that the innermost loop has called. */
    method RunUser(ghost here: seq<Loop>)
      requires Valid() && stack == here && UserMayAct(View(), base, here)
      modifies this
      ensures Valid() && stack == here && old(steps) <= steps
      ensures Kept(old(View()), View(), here) && returned == old(returned)
      ensures Lighter(old(Left()), old(View()), Left(), View())
      ensures old(pos) < |script| ==>
        pos > old(pos) && Carried(script[old(pos)], |old(inputs)|, |old(steps)|, steps)
      decreases Left(), InputsWork(inputs), DeferredWork(deferred), 4
    {
      hide Went, Kept, SameLoop, InputsWork, DeferredWork, UserMayAct, Carried;
      ghost var v := View();
      HereFires();
      if pos >= |script| {
        return;
      }
      var body := script[pos];
      pos := pos + 1;
      var n := 0;
      CarriedNone(body, |inputs|, |steps|, steps);
      while n < |body|
        invariant 0 <= n <= |body| && Left() < old(Left()) && |inputs| == |old(inputs)|
        invariant Valid() && stack == here && UserMayAct(View(), base, here) && old(steps) <= steps
        invariant Kept(v, View(), here) && returned == old(returned)
        invariant Carried(body[..n], |inputs|, |old(steps)|, steps)
        decreases |body| - n
      {
        ghost var u, before := View(), steps;
        Perform(body[n], here);
        UserStillMay(u, View(), base, here);
        KeptTwice(v, u, View(), here);
        SameInputs(u, View(), here);
        CarriedMore(body, n, |inputs|, |old(steps)|, before, steps);
        n := n + 1;
      }
      assert body[..n] == body;
    }

    lemma SameInputs(v: World, t: World, below: seq<Loop>)
      requires Kept(v, t, below)
      ensures |t.inputs| == |v.inputs|
    {
    }

    lemma HereFires()
      requires Valid()
      ensures Kept(View(), View(), stack)
    {
      hide WhenInv, StackOk, Went;
      Known();
      AllFire(View(), stack);
      KeptSame(View(), stack);
    }

    /** One thing user code does; a loop that it begins has ended when it is done. */
    method Perform(deed: Deed, ghost here: seq<Loop>)
      requires Valid() && stack == here && UserMayAct(View(), base, here)
      modifies this
      ensures Valid() && stack == here && old(steps) <= steps
      ensures Kept(old(View()), View(), here) && returned == old(returned) && Left() <= old(Left())
      ensures deed.Meant(|old(inputs)|) ==> old(steps) + [StepFor(deed)] <= steps
      decreases Left()
    {
      hide Went, Kept, SameLoop, InputsWork, DeferredWork, UserMayAct;
      ghost var v := View();
      HereFires();
      if !deed.Meant(|inputs|) {
        return;
      }
      var y := if deed.DoAttachMain? then OfMain(deed.kind) else OfInput(deed.k, deed.kind);
      var was := Fires(y);
      Call(deed, here);
      if Fires(y) && !was {
        ghost var t := View();
        MayRun(v, here);
        RunLoop(y, here);
        KeptTwice(v, t, View(), here);
      }
    }

    lemma MayRun(v: World, here: seq<Loop>)
      requires UserMayAct(v, base, here)
      ensures v.returned || |here| >= |base|
    {
    }

    /** The call itself, before a loop that it begins goes on. */
    method Call(deed: Deed, ghost here: seq<Loop>)
      requires Valid() && stack == here && UserMayAct(View(), base, here) && deed.Meant(|inputs|)
      modifies this
      ensures Valid() && steps == old(steps) + [StepFor(deed)] && pos == old(pos) && returned == old(returned)
      ensures Kept(old(View()), View(), here)
      ensures var y := if deed.DoAttachMain? then OfMain(deed.kind) else OfInput(deed.k, deed.kind);
        stack == here + if Fires(y) && !old(Fires(y)) then [y] else []
    {
      hide Went, WhenInv, StackOk, Kept, SameLoop, UserMayAct, MayGo, After, Deferred.Do;
      ghost var v, s := View(), StepFor(deed);
      Known();
      UserTurn(v, base, here, s);
      match deed {
        case DoAttach(k, kind, ids) => inputs := inputs[k := inputs[k].Do(Register(kind, Users(ids)))];
        case DoSettle(k, kind, a) => inputs := inputs[k := inputs[k].Do(Act.Trigger(kind, a))];
        case DoAttachMain(kind, ids) => deferred := deferred.Do(Act.Register(kind, ids));
      }
      Record(s, v);
    }

    /** `done`, `fail` or `progress` of the promise under the scan, as `then` calls them; a
        loop that the call begins has ended when it returns.  The last of the three moves on. */
    method Registers(k: nat, kind: Kind, f: Fun)
      requires Valid() && stack == base && !returned && i < |args|
      requires View().ScansPromise() && i < |start.given|
      requires start.given[i] == PromiseOf(k) && ThenAct(i, part) == Register(kind, [f])
      modifies this
      ensures Valid() && stack == base && !returned && old(steps) <= steps && |args| == |old(args)|
      ensures i == (if old(part) < 2 then old(i) else old(i) + 1) && part == if old(part) < 2 then old(part) + 1 else 0
    {
      hide Went, WhenInv, StackOk, MayGo, After, Deferred.Do, InputsWork, DeferredWork, Lighter, SameLoop,
        World.ScansPromise;
      ghost var v := View();
      Known();
      CanScan(v);
      ScanTurn(v, base, Scan);
      ScanTakes(v, k, kind, f);
      var y := OfInput(k, kind);
      var was := Fires(y);
      inputs := inputs[k := inputs[k].Do(Register(kind, [f]))];
      if kind == Progress { i := i + 1; }
      part := if part < 2 then part + 1 else 0;
      Record(Scan, v);
      if Fires(y) && !was {
        RunLoop(y, base);
      }
    }

    /** The loop over the arguments, and what follows it. */
    method ScanArguments()
      requires Valid() && i == 0 && part == 0 && stack == base && !returned
      modifies this
      ensures Valid() && returned && i == |args| && stack == base && old(steps) <= steps
    {
      hide Went, WhenInv, StackOk, MayGo, After, Deferred.Do, InputsWork, DeferredWork, Lighter, SameLoop;
      while i < |args|
        invariant Valid() && i <= |args| && part == 0 && stack == base && !returned && old(steps) <= steps
        decreases |args| - i
      {
        ghost var v := View();
        Known();
        CanScan(v);
        ScansGiven(v);
        if args[i].PromiseOf? {
          var k := args[i].k;
          var n := i;
          Registers(k, Done, Fun.ResolveFunc(n));
          Registers(k, Fail, RejectMain);
          Registers(k, Progress, Fun.ProgressFunc(n));
        } else {
          ScanTurn(v, base, Scan);
          count := count - 1;
          i := i + 1;
          Record(Scan, v);
        }
      }
      Finishes();
    }

    /** `if (!count) deferred.resolveWith(...)`, and the promise is returned. */
    method Finishes()
      requires Valid() && i == |args| && part == 0 && stack == base && !returned
      modifies this
      ensures Valid() && returned && i == |args| && stack == base && old(steps) <= steps
    {
      hide Went, WhenInv, StackOk, MayGo, After, Deferred.Do, InputsWork, DeferredWork, Lighter, SameLoop;
      ghost var v := View();
      Known();
      ScanTurn(v, base, Finish);
      var was := Fires(OfMain(Done));
      if count == 0 {
        deferred := deferred.Do(Act.Trigger(Done, args));
      }
      returned := true;
      Record(Finish, v);
      if Fires(OfMain(Done)) && !was {
        RunLoop(OfMain(Done), base);
      }
    }
  }

  lemma CanScan(v: World)
    requires WhenInv(v) && v.scanned < |v.args|
    ensures v.Possible(Scan)
  {
    hide Good, Registrations, Unfulfilled, Applied;
    assert v.part == 0 ==> v.args[v.scanned] == Slot(v, v.scanned) == v.given[v.scanned];
  }

  /** What `when` itself does leaves the loops outside alone and begins one at most. */
  lemma ScanTurn(v: World, base: seq<Loop>, s: Step)
    requires WhenInv(v) && StackOk(v, base) && v.Possible(s) && (s.Scan? || s.Finish?)
    ensures MayGo(v, base, base, s)
    ensures var t, y := v.Take(s), MayBegin(v, s);
      After(base, v, t) == base + if Firing(t, y) && !Firing(v, y) then [y] else []
  {
    assert Shape(v);
    hide WhenInv, After, StackOk, World.Take, MayBegin, Good;
    StackStep(v, base, base, s);
    AllFire(v, base);
    if base != [] {
      var x := base[|base| - 1];
      StepSame(v, s, x);
      SameFires(v, v.Take(s), x);
    }
  }

  lemma SameFires(v: World, t: World, x: Loop)
    requires SameLoop(v, t, x) && Firing(v, x)
    ensures Firing(t, x)
  {
  }

  lemma ScanTakes(v: World, k: nat, kind: Kind, f: Fun)
    requires v.Possible(Scan) && v.ScansPromise() && v.given[v.scanned] == PromiseOf(k)
    requires ThenAct(v.scanned, v.part) == Register(kind, [f])
    ensures k < |v.inputs| && MayBegin(v, Scan) == OfInput(k, kind) && (v.part >= 2 <==> kind == Progress)
    ensures v.Take(Scan) == v.OnInput(k, Register(kind, [f]))
      .(scanned := if v.part < 2 then v.scanned else v.scanned + 1, part := if v.part < 2 then v.part + 1 else 0)
  {
    hide Deferred.Do;
  }

  lemma GivenLength(v: World)
    requires WhenInv(v)
    ensures |v.given| == |v.args|
  {
  }

  lemma KeptSame(v: World, below: seq<Loop>)
    requires forall z :: z in below ==> Firing(v, z)
    ensures Kept(v, v, below)
  {
  }

  lemma KeptPart(v: World, part: seq<Loop>, below: seq<Loop>)
    requires Kept(v, v, below) && part <= below
    ensures Kept(v, v, part)
  {
    assert forall z :: z in part ==> z in below;
  }

  lemma KeptTwice(v: World, t: World, u: World, below: seq<Loop>)
    requires Kept(v, t, below) && Kept(t, u, below)
    ensures Kept(v, u, below)
  {
    forall z | z in below ensures SameLoop(v, u, z) {
      assert SameLoop(v, t, z) && SameLoop(t, u, z);
    }
  }

  lemma AllFire(v: World, stack: seq<Loop>)
    requires StackOk(v, stack)
    ensures forall z :: z in stack ==> Firing(v, z)
  {
    ActiveIsFiring(v);
  }

  /** A step leaves the loops `below` alone. */
  lemma StepKeeps(v: World, stack: seq<Loop>, s: Step, below: seq<Loop>)
    requires WhenInv(v) && StackOk(v, stack) && v.Possible(s) && !s.Scan? && !s.Finish?
    requires below <= stack && forall z :: z in below ==> LoopOf(s) != Some(z)
    ensures Kept(v, v.Take(s), below)
  {
    assert Shape(v);
    hide WhenInv, StackOk, Good, Deferred.Do, SameLoop, LoopOf;
    AllFire(v, stack);
    TakeSame(v, s);
    forall z | z in below ensures SameLoop(v, v.Take(s), z) {
      assert z in stack;
      StepSame(v, s, z);
    }
    StaysInScan(v, s);
  }

  lemma StaysInScan(v: World, s: Step)
    requires v.Possible(s) && !s.Scan? && !s.Finish?
    ensures var t := v.Take(s);
      t.scanned == v.scanned && t.part == v.part && t.returned == v.returned && |t.args| == |v.args|
  {
    hide Deferred.Do;
  }

  /** What the turn of the innermost loop does to the stack. */
  lemma LoopTurn(v: World, base: seq<Loop>, below: seq<Loop>, x: Loop)
    requires WhenInv(v) && StackOk(v, below + [x]) && (v.returned || |below| >= |base|)
    ensures Firing(v, x)
    ensures var s := LoopStep(v, x);
      && Goes(v, s) && v.Possible(s) && MayGo(v, base, below + [x], s) && LoopOf(s) == Some(x)
      && Kept(v, v.Take(s), below)
    ensures var s := LoopStep(v, x);
      var t, y := v.Take(s), MayBegin(v, s);
      After(below + [x], v, t) ==
        (if Firing(t, x) then below + [x] else below) + if Firing(t, y) && !Firing(v, y) then [y] else []
  {
    hide WhenInv, Goes, After, StackOk, World.Take, MayBegin;
    AllFire(v, below + [x]);
    assert x in below + [x];
    WorldGoes(v, x);
    var s := LoopStep(v, x);
    StepIsOf(v, x);
    assert v.Possible(s) by { GoesLess(v, s); }
    StackStep(v, base, below + [x], s);
    assert (below + [x])[..|below|] == below;
    StackIs(v, below + [x]);
    forall z | z in below ensures LoopOf(s) != Some(z) {
      var i :| 0 <= i < |below| && below[i] == z;
      assert (below + [x])[i] == z && (below + [x])[|below|] == x;
    }
    StepKeeps(v, below + [x], s, below);
  }

  lemma StepIsOf(v: World, x: Loop)
    requires Firing(v, x)
    ensures LoopOf(LoopStep(v, x)) == Some(x)
  {
  }

  /** What user code does leaves the active loops alone and begins one at most. */
  lemma UserTurn(v: World, base: seq<Loop>, here: seq<Loop>, s: Step)
    requires WhenInv(v) && StackOk(v, here) && UserMayAct(v, base, here) && v.Possible(s)
    requires s.Attach? || s.Settle? || (s.OnMain? && s.act.Register?)
    ensures MayGo(v, base, here, s) && Kept(v, v.Take(s), here)
    ensures var t, y := v.Take(s), MayBegin(v, s);
      After(here, v, t) == here + if Firing(t, y) && !Firing(v, y) then [y] else []
  {
    hide WhenInv, After, StackOk, World.Take, MayBegin, UserMayAct, SameLoop;
    StackStep(v, base, here, s);
    StepKeeps(v, here, s, here);
    AllFire(v, here);
    KeptFires(v, v.Take(s), here);
  }

  lemma KeptFires(v: World, t: World, below: seq<Loop>)
    requires Kept(v, t, below) && forall z :: z in below ==> Firing(v, z)
    ensures forall z :: z in below ==> Firing(t, z)
  {
    forall z | z in below ensures Firing(t, z) {
      assert SameLoop(v, t, z);
    }
  }

  lemma UserStillMay(v: World, t: World, base: seq<Loop>, here: seq<Loop>)
    requires UserMayAct(v, base, here) && Kept(v, t, here)
    ensures UserMayAct(t, base, here)
  {
    if here != [] {
      assert SameLoop(v, t, here[|here| - 1]);
    }
  }

  lemma StillFires(v: World, t: World, below: seq<Loop>, x: Loop)
    requires Kept(v, t, below + [x]) && Firing(v, x)
    ensures Firing(t, x) && Kept(v, t, below)
  {
    assert x in below + [x];
    assert SameLoop(v, t, x);
    forall z | z in below ensures SameLoop(v, t, z) {
      assert z in below + [x];
    }
  }

  lemma MainTurn(v: World, kind: Kind)
    requires WhenInv(v) && Firing(v, OfMain(kind))
    ensures var act: Act<nat, Args> := LoopAct(v.main.Get(kind), kind);
      var s := LoopStep(v, OfMain(kind));
      && s == OnMain(act) && v.Possible(s) && v.Take(s) == v.(main := v.main.Do(act))
      && MayBegin(v, s) == OfMain(kind)
      && (act.ApplyNext? ==> CallsUser(v.Take(s), OfMain(kind)))
  {
    assert Good(v.main) by { assert Shape(v); }
    hide Good, WhenInv, DeferredWork, ListWork;
    DeferredGoes(v.main, kind);
  }

  /** The loop of `main` that applying `f` may begin. */
  function MainLoopOf(f: Fun): Loop {
    match f case RejectMain => OfMain(Fail) case ProgressFunc(_) => OfMain(Progress) case _ => OfMain(Done)
  }

  /** What loop `kind` of input `k` does next is this step. */
  function StepOf(k: nat, act: Act<Fun, Args>): Step
    requires act.ApplyNext? || act.ReturnFrom? || act.EndLoop?
  {
    match act
    case ApplyNext(kind) => Step.ApplyNext(k, kind)
    case ReturnFrom(kind, r) => Step.ReturnFrom(k, kind, r)
    case EndLoop(kind) => Step.EndLoop(k, kind)
  }

  lemma LoopStepOf(v: World, k: nat, kind: Kind)
    requires Firing(v, OfInput(k, kind))
    ensures LoopAct(v.inputs[k].Get(kind), kind).k == kind
    ensures LoopStep(v, OfInput(k, kind)) == StepOf(k, LoopAct(v.inputs[k].Get(kind), kind))
  {
  }

  lemma GoesOn(v: World, k: nat, act: Act<Fun, Args>)
    requires k < |v.inputs| && v.inputs[k].Possible(act) && (act.ReturnFrom? || act.EndLoop?)
    ensures v.Possible(StepOf(k, act)) && v.Take(StepOf(k, act)) == v.OnInput(k, act)
    ensures MayBegin(v, StepOf(k, act)) == OfInput(k, act.k)
  {
    hide Deferred.Do, Deferred.Possible;
  }

  lemma InputTurn(v: World, k: nat, kind: Kind)
    requires WhenInv(v) && Firing(v, OfInput(k, kind))
    ensures var act: Act<Fun, Args> := LoopAct(v.inputs[k].Get(kind), kind);
      var s := LoopStep(v, OfInput(k, kind));
      && v.Possible(s) && v.inputs[k].Possible(act)
      && (!act.ApplyNext? ==> v.Take(s) == v.OnInput(k, act) && MayBegin(v, s) == OfInput(k, kind))
      && (act.ApplyNext? ==> s == Step.ApplyNext(k, kind))
  {
    assert Good(v.inputs[k]) by { assert Shape(v); }
    hide Good, WhenInv, DeferredWork, Deferred.Do, Deferred.Possible, LoopAct, LoopStep, World.Take, MayBegin;
    DeferredGoes(v.inputs[k], kind);
    LoopStepOf(v, k, kind);
    var act: Act<Fun, Args> := LoopAct(v.inputs[k].Get(kind), kind);
    if !act.ApplyNext? { GoesOn(v, k, act); }
  }

  lemma InputApplies(v: World, k: nat, kind: Kind)
    requires v.Possible(Step.ApplyNext(k, kind))
    ensures v.inputs[k].Get(kind).pending != [] && v.inputs[k].Get(kind).pending[0].fn.Ext?
    ensures var f, s := v.inputs[k].Get(kind).pending[0].fn.ext, Step.ApplyNext(k, kind);
      && MayBegin(v, s) == MainLoopOf(f) && Firing(v.Take(s), OfInput(k, kind))
      && (f.User? ==> v.Take(s) == v.OnInput(k, Act.ApplyNext(kind)) && CallsUser(v.Take(s), OfInput(k, kind)))
  {
    var act: Act<Fun, Args> := Act.ApplyNext(kind);
    PerformKeeps(v.OnInput(k, act), v.inputs[k].Get(kind).pending[0].fn.ext, v.inputs[k].Get(kind).current.value);
    hide World.Perform;
  }

  /** What `when` returns: a promise it was given, or that of a Deferred of its own. */
  datatype Promise = Given(k: nat) | Made(deferred: Deferred<nat, Args>)

  /** `when` on one argument or none: a promise is handed back, anything else resolves. */
  method WhenFew(inputs: seq<Input>, args: Args) returns (promise: Promise)
    requires |args| <= 1 && forall v :: v in args && v.PromiseOf? ==> v.k < |inputs|
    ensures args != [] && args[0].PromiseOf? ==> promise == Given(args[0].k)
    ensures args == [] || !args[0].PromiseOf? ==>
      && promise.Made? && Good(promise.deferred)
      && promise.deferred.state == Resolved && promise.deferred.Outcome() == Some(args)
  {
    hide Deferred.Do, Good, Deferred.Outcome;
    if args != [] && args[0].PromiseOf? {
      return Given(args[0].k);
    }
    NewIsGood<nat, Args>();
    Settling(NewDeferred<nat, Args>(), Done, args);
    return Made(NewDeferred().Do(Act.Trigger(Done, args)));
  }

}
