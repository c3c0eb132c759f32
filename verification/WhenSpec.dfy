/** `jQuery.when` on two or more arguments, together with the Deferreds it waits for.

    The inputs are any Deferreds in any state; user code may register functions with
    them and settle them at any time, also while `when` is still scanning its
    arguments.  The functions `when` registers are applied by the firing loops of the
    inputs like any others, and settle the Deferred that `when` returns. */
module WhenSpec {
  import opened Wrappers
  import opened DeferredSpec

  datatype Value = Atom(n: nat) | PromiseOf(k: nat) | Pack(items: seq<Value>) | Undefined

  type Args = seq<Value>

  /** What is registered with the inputs: functions of the user, and what `when` adds. */
  datatype Fun = User(id: nat) | ResolveFunc(i: nat) | RejectMain | ProgressFunc(i: nat)

  type Input = Deferred<Fun, Args>

  datatype Step =
    | Attach(k: nat, kind: Kind, ids: seq<nat>)       // user code registers functions with an input
    | Settle(k: nat, kind: Kind, args: Args)          // user code resolves, rejects or notifies an input
    | ApplyNext(k: nat, kind: Kind)                   // the firing loops of the inputs
    | ReturnFrom(k: nat, kind: Kind, result: bool)
    | EndLoop(k: nat, kind: Kind)
    | OnMain(act: Act<nat, Args>)                     // the promise returned, and its firing loops
    | Scan                                            // the loop over the arguments goes on
    | Finish                                          // what follows that loop

  /** What `resolveFunc` and `progressFunc` make of the arguments they are applied to. */
  function Single(a: Args): Value {
    if |a| > 1 then Pack(a) else if |a| == 1 then a[0] else Undefined
  }

  /** `v` stands for these arguments: all of them if there are several, else the only one. */
  predicate StandsFor(v: Value, a: Args) {
    && (|a| > 1 ==> v == Pack(a))
    && (|a| == 1 ==> [v] == a)
    && (|a| == 0 ==> v == Undefined)
  }

  function Users(ids: seq<nat>): (fns: seq<Fun>)
    ensures |fns| == |ids| && forall i :: 0 <= i < |fns| ==> fns[i] == User(ids[i])
  {
    seq(|ids|, i requires 0 <= i < |ids| => User(ids[i]))
  }

  /** What `args[i].promise().then(resolveFunc(i), deferred.reject, progressFunc(i))` does
      first, second and third.  The input's list may fire before the next. */
  function ThenAct(i: nat, part: nat): Act<Fun, Args> {
    if part == 0 then Register(Done, [ResolveFunc(i)])
    else if part == 1 then Register(Fail, [RejectMain])
    else Register(Progress, [ProgressFunc(i)])
  }

  datatype World = World(
    inputs: seq<Input>,
    main: Deferred<nat, Args>,
    given: Args,               // the arguments of the call
    args: Args,                // the array `args`: replaced by values as inputs resolve
    pValues: Args,
    count: int,
    scanned: nat,              // the loop variable `i`
    part: nat,                 // how much of `then` has been done for argument `i`
    returned: bool,
    rejections: seq<Args>)     // arguments `deferred.reject` has been called with, in order
  {
    function ToMain(kind: Kind, a: Args): World {
      this.(main := main.Do(Act.Trigger(kind, a)))
    }

    /** Applies a function `when` has registered. */
    function Perform(f: Fun, a: Args): World {
      match f
      case User(_) => this
      case ResolveFunc(i) =>
        if i >= |args| then this else
        var w := this.(args := args[i := Single(a)], count := count - 1);
        if w.count == 0 then w.ToMain(Done, w.args) else w
      case RejectMain => this.(rejections := rejections + [a]).ToMain(Fail, a)
      case ProgressFunc(i) =>
        if i >= |pValues| then this else
        var w := this.(pValues := pValues[i := Single(a)]);
        w.ToMain(Progress, w.pValues)
    }

    predicate Possible(s: Step) {
      match s
      case Attach(k, _, _) => k < |inputs|
      case Settle(k, _, _) => k < |inputs|
      case ApplyNext(k, kind) => k < |inputs| && inputs[k].Possible(Act.ApplyNext(kind))
      case ReturnFrom(k, kind, r) => k < |inputs| && inputs[k].Possible(Act.ReturnFrom(kind, r))
      case EndLoop(k, kind) => k < |inputs| && inputs[k].Possible(Act.EndLoop(kind))
      case OnMain(act) => !act.Trigger? && main.Possible(act)
      case Scan =>
        && scanned < |args| && scanned < |given|
        && (ScansPromise() ==> given[scanned].PromiseOf? && given[scanned].k < |inputs|)
      case Finish => scanned == |args| && !returned
    }

    /** The argument under the scan is a promise; once `then` has begun, its place in `args`
        may hold its value already. */
    predicate ScansPromise()
      requires scanned < |args|
    {
      part > 0 || args[scanned].PromiseOf?
    }

    /** For so many arguments `done`, or `fail`, has been called or need not be. */
    function DoneUpTo(): nat { if part >= 1 then scanned + 1 else scanned }

    function FailUpTo(): nat { if part >= 2 then scanned + 1 else scanned }

    function OnInput(k: nat, act: Act<Fun, Args>): World
      requires k < |inputs| && inputs[k].Possible(act)
    {
      this.(inputs := inputs[k := inputs[k].Do(act)])
    }

    function Take(s: Step): World
      requires Possible(s)
    {
      match s
      case Attach(k, kind, ids) => OnInput(k, Register(kind, Users(ids)))
      case Settle(k, kind, a) => OnInput(k, Act.Trigger(kind, a))
      case ApplyNext(k, kind) =>
        var l := inputs[k].Get(kind);
        OnInput(k, Act.ApplyNext(kind)).Perform(l.pending[0].fn.ext, l.current.value)
      case ReturnFrom(k, kind, r) => OnInput(k, Act.ReturnFrom(kind, r))
      case EndLoop(k, kind) => OnInput(k, Act.EndLoop(kind))
      case OnMain(act) => this.(main := main.Do(act))
      case Scan =>
        if ScansPromise() then
          OnInput(given[scanned].k, ThenAct(scanned, part))
            .(scanned := if part < 2 then scanned else scanned + 1, part := if part < 2 then part + 1 else 0)
        else this.(scanned := scanned + 1, count := count - 1)
      case Finish =>
        var w := this.(returned := true);
        if count == 0 then w.ToMain(Done, args) else w
    }

    /** No firing of an input is under way. */
    predicate Quiet() {
      forall k :: 0 <= k < |inputs| ==> inputs[k].Quiet()
    }
  }

  /** The call: the inputs are whatever runs of Deferreds user code has made of them. */
  ghost predicate Start(w: World) {
    && 2 <= |w.given| && w.args == w.given && |w.pValues| == |w.given| && w.count == |w.given|
    && w.scanned == 0 && w.part == 0 && !w.returned && w.rejections == [] && w.main == NewDeferred<nat, Args>()
    && (forall v :: v in w.given && v.PromiseOf? ==> v.k < |w.inputs|)
    && (forall k :: 0 <= k < |w.inputs| ==> UserOnly(w.inputs[k]))
  }

  /** A Deferred some run of user code has produced. */
  ghost predicate UserOnly(d: Input) {
    exists acts :: LegalActs(acts) && RunActs(acts) == d && OnlyUsers(acts)
  }

  ghost predicate OnlyUsers(acts: seq<Act<Fun, Args>>) {
    forall act :: act in acts && act.Register? ==> forall f :: f in act.fns ==> f.User?
  }

  ghost predicate LegalSteps(w: World, steps: seq<Step>)
    decreases steps, 0
  {
    steps == [] ||
    (var n := |steps| - 1; LegalSteps(w, steps[..n]) && RunSteps(w, steps[..n]).Possible(steps[n]))
  }

  ghost function RunSteps(w: World, steps: seq<Step>): World
    requires LegalSteps(w, steps)
    decreases steps, 1
  {
    if steps == [] then w else var n := |steps| - 1; RunSteps(w, steps[..n]).Take(steps[n])
  }

  // ---- What the counter counts ----

  /** Input `i` has been dealt with: a plain value scanned, or a promise whose
      `resolveFunc` has been applied. */
  ghost predicate Fulfilled(w: World, i: nat)
    requires i < |w.given|
  {
    && i < w.DoneUpTo()
    && (w.given[i].PromiseOf? && w.given[i].k < |w.inputs| ==> Applied(w.inputs[w.given[i].k].done, ResolveFunc(i)))
  }

  ghost function Unfulfilled(w: World, n: nat): nat
    requires n <= |w.given|
  {
    if n == 0 then 0 else Unfulfilled(w, n - 1) + if Fulfilled(w, n - 1) then 0 else 1
  }

  /** `when` waits for input `k`. */
  ghost predicate Listens(w: World, k: nat) {
    exists i :: 0 <= i < w.FailUpTo() && i < |w.given| && w.given[i] == PromiseOf(k)
  }

  // ---- The invariant ----

  ghost predicate Shape(w: World) {
    && |w.args| == |w.given| == |w.pValues| && w.scanned <= |w.given|
    && (w.returned ==> w.scanned == |w.given|)
    && w.part <= 2 && (w.part > 0 ==> w.scanned < |w.given| && w.given[w.scanned].PromiseOf?)
    && (forall i :: 0 <= i < |w.given| && w.given[i].PromiseOf? ==> w.given[i].k < |w.inputs|)
    && (forall k :: 0 <= k < |w.inputs| ==> Good(w.inputs[k]))
    && Good(w.main)
  }

  /** What is registered with input `k`. */
  ghost predicate DoneFns(w: World, k: nat, d: Input) {
    && (forall j :: 0 <= j < |d.done.registered| && d.done.registered[j].fn.Ext? ==>
          var f := d.done.registered[j].fn.ext;
          f.User? || (f.ResolveFunc? && f.i < w.DoneUpTo() && f.i < |w.given| && w.given[f.i] == PromiseOf(k)))
    && (forall j, m ::
          0 <= j < m < |d.done.registered|
          && d.done.registered[j].fn.Ext? && d.done.registered[j].fn.ext.ResolveFunc? ==>
            d.done.registered[j].fn != d.done.registered[m].fn)
    && (d.state != Rejected ==> forall i :: 0 <= i < w.DoneUpTo() && i < |w.given| && w.given[i] == PromiseOf(k) ==>
          IsRegistered(d.done, ResolveFunc(i)))
  }

  ghost predicate FailFns(w: World, k: nat, d: Input) {
    && (forall j :: 0 <= j < |d.fail.registered| && d.fail.registered[j].fn.Ext? ==>
          var f := d.fail.registered[j].fn.ext; f.User? || (f.RejectMain? && Listens(w, k)))
    && (d.state != Resolved && Listens(w, k) ==> IsRegistered(d.fail, RejectMain))
  }

  ghost predicate ProgressFns(d: Input) {
    forall r :: r in d.progress.Whole() ==> r.fn.Ext? && (r.fn.ext.User? || r.fn.ext.ProgressFunc?)
  }

  ghost predicate Registrations(w: World) {
    forall k :: 0 <= k < |w.inputs| ==>
      DoneFns(w, k, w.inputs[k]) && FailFns(w, k, w.inputs[k]) && ProgressFns(w.inputs[k])
  }

  /** The value input `i` is replaced by. */
  ghost function Slot(w: World, i: nat): Value
    requires i < |w.given|
  {
    var v := w.given[i];
    if v.PromiseOf? && v.k < |w.inputs| && Fulfilled(w, i) && w.inputs[v.k].Outcome().Some?
    then Single(w.inputs[v.k].Outcome().value) else v
  }

  ghost predicate Counting(w: World)
    requires Shape(w)
  {
    && w.count == Unfulfilled(w, |w.given|)
    && forall i :: 0 <= i < |w.given| ==> w.args[i] == Slot(w, i)
  }

  /** `a` is what some input that `when` waits for was rejected with. */
  ghost predicate RejectedWith(w: World, k: nat, a: Args) {
    k < |w.inputs| && Listens(w, k) && w.inputs[k].state == Rejected && w.inputs[k].Outcome() == Some(a)
  }

  ghost predicate SomeRejectedWith(w: World, a: Args) {
    exists k :: RejectedWith(w, k, a)
  }

  ghost predicate ResolvedOk(w: World) {
    && (w.main.state == Resolved ==> w.count == 0 && w.main.Outcome() == Some(w.args))
    && (w.returned && w.count == 0 ==> w.main.state == Resolved)
  }

  ghost predicate RejectionsOk(w: World) {
    && (w.main.state == Rejected <==> w.rejections != [])
    && (w.rejections != [] ==> w.main.Outcome() == Some(w.rejections[0]))
    && (forall a :: a in w.rejections ==> SomeRejectedWith(w, a))
    && (forall k :: 0 <= k < |w.inputs| && Applied(w.inputs[k].fail, RejectMain) ==> w.rejections != [])
  }

  ghost predicate WhenInv(w: World) {
    Shape(w) && Registrations(w) && Counting(w) && ResolvedOk(w) && RejectionsOk(w)
  }
}
