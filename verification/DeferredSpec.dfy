/** `jQuery.Deferred`: three callback lists wired so that settling is final.

    `done` and `fail` are "once memory" lists, `progress` is a "memory" list.  Each of
    the first two begins with three functions of the Deferred's own: one that sets the
    state, one that disables the opposite list, one that locks the progress list.
    Own functions run no user code, so a firing that reaches one applies it at once;
    between any two other steps user code may register functions and resolve, reject
    or notify again, so every re-entrant use is a run. */
module DeferredSpec {
  import opened Wrappers
  import opened CallbackSpec

  datatype Kind = Done | Fail | Progress

  datatype State = Pending | Resolved | Rejected

  datatype Own = SetState(s: State) | DisableList(k: Kind) | LockProgress

  /** A registered function: one of the Deferred's own, or one from outside. */
  datatype Fn<F> = Own(own: Own) | Ext(ext: F)

  /** Outside calls, and the steps of a firing loop. */
  datatype Act<F, A> =
    | Register(k: Kind, fns: seq<F>)     // done, fail, progress
    | Trigger(k: Kind, args: A)          // resolveWith, rejectWith, notifyWith
    | ApplyNext(k: Kind)
    | ReturnFrom(k: Kind, result: bool)
    | EndLoop(k: Kind)

  const ONCE_MEMORY := Flags(true, true, false, false)
  const MEMORY := Flags(false, true, false, false)

  function OwnOf(k: Kind): seq<Own> {
    match k
    case Done => [SetState(Resolved), DisableList(Fail), LockProgress]
    case Fail => [SetState(Rejected), DisableList(Done), LockProgress]
    case Progress => []
  }

  function Owns<F>(own: seq<Own>): (fns: seq<Fn<F>>)
    ensures |fns| == |own| && forall i :: 0 <= i < |fns| ==> fns[i] == Own(own[i])
  {
    seq(|own|, i requires 0 <= i < |own| => Own(own[i]))
  }

  function Exts<F>(fns: seq<F>): (wrapped: seq<Fn<F>>)
    ensures |wrapped| == |fns| && forall i :: 0 <= i < |fns| ==> wrapped[i] == Ext(fns[i])
  {
    seq(|fns|, i requires 0 <= i < |fns| => Ext(fns[i]))
  }

  datatype Deferred<F(==,!new), A> = Deferred(
    done: CbList<Fn<F>, A>, fail: CbList<Fn<F>, A>, progress: CbList<Fn<F>, A>, state: State)
  {
    function Get(k: Kind): CbList<Fn<F>, A> {
      match k case Done => done case Fail => fail case Progress => progress
    }

    function Put(k: Kind, l: CbList<Fn<F>, A>): Deferred<F, A> {
      match k case Done => this.(done := l) case Fail => this.(fail := l) case Progress => this.(progress := l)
    }

    function Perform(own: Own): Deferred<F, A> {
      match own
      case SetState(s) => this.(state := s)
      case DisableList(k) => Put(k, Get(k).DoDisable())
      case LockProgress => this.(progress := progress.DoLock())
    }

    predicate OwnIsNext(k: Kind) {
      var l := Get(k);
      l.Enabled(Apply) && l.pending[0].fn.Own?
    }

    /** Applies the Deferred's own functions at the head of the list that is firing. */
    function Drain(k: Kind): Deferred<F, A>
      decreases |Get(k).pending|
    {
      if !OwnIsNext(k) then this
      else
        var l := Get(k);
        Put(k, l.DoApply().DoReturn(true)).Perform(l.pending[0].fn.own).Drain(k)
    }

    predicate Possible(act: Act<F, A>) {
      match act
      case ApplyNext(k) => Get(k).Enabled(Apply) && Get(k).pending[0].fn.Ext?
      case ReturnFrom(k, result) => Get(k).Enabled(Return(result))
      case EndLoop(k) => Get(k).Enabled(End)
      case _ => true
    }

    function Do(act: Act<F, A>): Deferred<F, A>
      requires Possible(act)
    {
      match act
      case Register(k, fns) => Put(k, Get(k).DoAdd(Exts(fns))).Drain(k)
      case Trigger(k, a) => Put(k, Get(k).DoFireWith(a)).Drain(k)
      case ApplyNext(k) => Put(k, Get(k).DoApply())
      case ReturnFrom(k, result) => Put(k, Get(k).DoReturn(result)).Drain(k)
      case EndLoop(k) => Put(k, Get(k).DoEnd()).Drain(k)
    }

    /** No list is firing. */
    predicate Quiet() {
      done.phase == Idle && fail.phase == Idle && progress.phase == Idle
    }

    /** The arguments the Deferred was settled with. */
    function Outcome(): Option<A> {
      match state
      case Pending => None
      case Resolved => if done.memory.Saved? then Some(done.memory.args) else None
      case Rejected => if fail.memory.Saved? then Some(fail.memory.args) else None
    }
  }

  /** `jQuery.Deferred()` as it leaves its constructor. */
  function NewDeferred<F(==,!new), A>(): Deferred<F, A> {
    Deferred(NewList(ONCE_MEMORY).DoAdd(Owns(OwnOf(Done))), NewList(ONCE_MEMORY).DoAdd(Owns(OwnOf(Fail))),
             NewList(MEMORY), Pending)
  }

  ghost predicate LegalActs<F(!new), A>(acts: seq<Act<F, A>>)
    decreases acts, 0
  {
    acts == [] ||
    (var n := |acts| - 1; LegalActs(acts[..n]) && RunActs(acts[..n]).Possible(acts[n]))
  }

  ghost function RunActs<F(!new), A>(acts: seq<Act<F, A>>): Deferred<F, A>
    requires LegalActs(acts)
    decreases acts, 1
  {
    if acts == [] then NewDeferred() else var n := |acts| - 1; RunActs(acts[..n]).Do(acts[n])
  }

  /** `f` has been applied by this list. */
  ghost predicate Applied<F(!new), A>(l: CbList<Fn<F>, A>, f: F) {
    exists j :: 0 <= j < |l.log| && l.log[j].reg.fn == Ext(f)
  }

  ghost predicate IsRegistered<F(!new), A>(l: CbList<Fn<F>, A>, f: F) {
    exists j :: 0 <= j < |l.registered| && l.registered[j].fn == Ext(f)
  }

  // ---- The invariant ----

  ghost predicate OwnFirst<F(!new), A>(l: CbList<Fn<F>, A>, k: Kind) {
    && |l.registered| >= |OwnOf(k)|
    && (forall i :: 0 <= i < |OwnOf(k)| ==> l.registered[i].fn == Own(OwnOf(k)[i]))
    && (forall i :: |OwnOf(k)| <= i < |l.registered| ==> l.registered[i].fn.Ext?)
  }

  /** Never fired: everything registered waits. */
  ghost predicate Untouched<F(!new), A>(l: CbList<Fn<F>, A>) {
    && l.live && l.phase == Idle && l.memory == Unset && l.queue == Some([])
    && l.kept == l.registered && l.pending == [] && l.log == []
  }

  /** Fired with `a`: every registration has been applied with `a` or awaits its turn
      in the firing under way, in registration order. */
  ghost predicate Settled<F(!new), A>(l: CbList<Fn<F>, A>, a: A) {
    && l.live && l.phase in {Idle, AtHead, Running} && l.memory == Saved(a) && l.current == Some(a)
    && Regs(l.log) + l.pending == l.registered && |l.log| >= 3
    && (forall c :: c in l.log ==> c.args == a)
    && (l.phase == Idle ==> l.kept == [] && l.pending == [])
  }

  /** Disabled before it ever fired: nothing was and nothing will be applied. */
  ghost predicate Dead<F(!new), A>(l: CbList<Fn<F>, A>) {
    !l.live && l.kept == [] && l.pending == [] && l.phase == Idle && l.queue.None? && l.log == [] && l.memory == Unset
  }

  ghost predicate GoodProgress<F(!new), A>(l: CbList<Fn<F>, A>) {
    && l.flags == MEMORY && OwnFirst(l, Progress)
    && l.phase in {Idle, AtHead, Running}
    && (forall r :: r in l.Whole() ==> r.fn.Ext?)
    && (l.phase in {AtHead, Running} ==> l.current.Some?)
  }

  ghost predicate Good<F(!new), A>(d: Deferred<F, A>) {
    && d.done.flags == ONCE_MEMORY && d.fail.flags == ONCE_MEMORY
    && OwnFirst(d.done, Done) && OwnFirst(d.fail, Fail) && GoodProgress(d.progress)
    && match d.state
       case Pending => Untouched(d.done) && Untouched(d.fail) && d.progress.live && d.progress.queue.Some?
       case Resolved => d.done.memory.Saved? && Settled(d.done, d.done.memory.args) && Dead(d.fail)
                        && d.progress.queue.None?
       case Rejected => d.fail.memory.Saved? && Settled(d.fail, d.fail.memory.args) && Dead(d.done)
                        && d.progress.queue.None?
  }
}
