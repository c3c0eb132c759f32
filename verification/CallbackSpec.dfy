/** A callback list seen without indices: what `jQuery.Callbacks` promises.

    The list is cut in two.  `kept` holds the registrations whose turn has come
    (or that the current firing does not reach), `pending` those still to be
    applied by the current firing.  Firing moves registrations one by one from
    `pending` to `kept`; adding appends; removing filters both halves.

    A run is a sequence of events.  User code (a callback being applied, or code
    outside every callback) may issue `Add`, `Remove`, `FireWith`, `Disable` and
    `Lock` at any point, so every re-entrant use of the list is a run. */
module CallbackSpec {
  import opened Wrappers

  datatype Flags = Flags(once: bool, memory: bool, unique: bool, stopOnFalse: bool)

  /** One registration: the `id` tells apart two registrations of one function. */
  datatype Reg<F> = Reg(fn: F, id: nat)

  datatype Application<F, A> = Application(reg: Reg<F>, args: A)

  /** The variable `memory`: undefined, `true`, or saved context and arguments. */
  datatype Memory<A> = Unset | True | Saved(args: A)

  /** Idle: not firing.  AtHead: at the loop test.  Running: a callback is being
      applied.  Broken: the loop was left because a callback returned false. */
  datatype Phase = Idle | AtHead | Running | Broken

  datatype Event<F, A> =
    | Add(fns: seq<F>)
    | Remove(fns: seq<F>)
    | FireWith(args: A)
    | Disable
    | Lock
    | Empty
    | Apply
    | Return(result: bool)
    | End

  function Fns<F>(rs: seq<Reg<F>>): (fs: seq<F>)
    ensures |fs| == |rs| && forall i :: 0 <= i < |rs| ==> fs[i] == rs[i].fn
  {
    seq(|rs|, i requires 0 <= i < |rs| => rs[i].fn)
  }

  function Number<F>(fs: seq<F>, from: nat): (rs: seq<Reg<F>>)
    ensures |rs| == |fs| && forall i :: 0 <= i < |rs| ==> rs[i] == Reg(fs[i], from + i)
  {
    seq(|fs|, i requires 0 <= i < |fs| => Reg(fs[i], from + i))
  }

  function Regs<F, A>(calls: seq<Application<F, A>>): (rs: seq<Reg<F>>)
    ensures |rs| == |calls| && forall i :: 0 <= i < |rs| ==> rs[i] == calls[i].reg
  {
    seq(|calls|, i requires 0 <= i < |calls| => calls[i].reg)
  }

  /** The registrations of `rs` that are not in `gone`, in order. */
  function Without<F(==,!new)>(rs: seq<Reg<F>>, gone: set<Reg<F>>): (left: seq<Reg<F>>)
    ensures |left| <= |rs|
    ensures forall r :: r in left <==> r in rs && r !in gone
  {
    if rs == [] then [] else
    var last := rs[|rs| - 1];
    Without(rs[..|rs| - 1], gone) + (if last in gone then [] else [last])
  }

  /** In unique mode, the functions of `fs` that a one-by-one addition to a list
      holding `present` really adds. */
  function Fresh<F(==,!new)>(fs: seq<F>, present: seq<F>): (added: seq<F>)
  {
    if fs == [] then []
    else if fs[0] in present then Fresh(fs[1..], present)
    else [fs[0]] + Fresh(fs[1..], present + [fs[0]])
  }

  /** The registrations of `rs` whose function is one of `fns`. */
  function Matching<F(==,!new)>(rs: seq<Reg<F>>, fns: seq<F>): set<Reg<F>> {
    set r | r in rs && r.fn in fns
  }

  /** Registration order. */
  ghost predicate Ascending<F>(rs: seq<Reg<F>>) {
    forall i, j :: 0 <= i < j < |rs| ==> rs[i].id < rs[j].id
  }

  ghost predicate Distinct<F>(rs: seq<Reg<F>>) {
    forall i, j :: 0 <= i < j < |rs| ==> rs[i].fn != rs[j].fn
  }

  ghost predicate AllBelow<F(!new)>(rs: seq<Reg<F>>, n: nat) {
    forall r :: r in rs ==> r.id < n
  }

  datatype CbList<F(==,!new), A> = CbList(
    flags: Flags,
    live: bool,                  // false once disabled
    kept: seq<Reg<F>>,
    pending: seq<Reg<F>>,
    queue: Option<seq<A>>,       // the variable `stack`; None once locked or disabled
    memory: Memory<A>,
    phase: Phase,
    // What has happened so far.
    registered: seq<Reg<F>>,     // every registration accepted, in order
    log: seq<Application<F, A>>, // every application, in order
    answers: seq<bool>,          // what those that have returned have returned
    current: Option<A>,          // the arguments of the latest firing
    start: nat,                  // |log| when the latest firing began
    batch: seq<Reg<F>>,          // registrations scheduled by the latest firing
    dropped: set<Reg<F>>,        // those of them removed before their turn
    asked: seq<A>,               // arguments of all fireWith calls
    begun: seq<A>)               // arguments of the firings begun by fireWith
  {
    function Whole(): seq<Reg<F>> { kept + pending }

    /** The first lines of `fire`, for the registrations now in `pending`. */
    function Begin(a: A): CbList<F, A> {
      this.(memory := if flags.memory then Saved(a) else True, phase := AtHead,
            current := Some(a), start := |log|, batch := pending, dropped := {})
    }

    function DoAdd(fns: seq<F>): CbList<F, A> {
      if !live then this else
      var added := Number(if flags.unique then Fresh(fns, Fns(Whole())) else fns, |registered|);
      var l := this.(registered := registered + added);
      if phase != Idle then l.(pending := pending + added, batch := batch + added)
      else if memory.Saved? then l.(pending := added).Begin(memory.args)
      else l.(kept := kept + added)
    }

    function DoRemove(fns: seq<F>): CbList<F, A> {
      var gone := Matching(Whole(), fns);
      this.(kept := Without(kept, gone), pending := Without(pending, gone),
            dropped := dropped + Matching(pending, fns))
    }

    /** `fireWith`, without the note in `asked`. */
    function Trigger(a: A): CbList<F, A> {
      if queue.None? then this
      else if phase != Idle then
        if flags.once then this else this.(queue := Some(queue.value + [a]))
      else if flags.once && memory != Unset then this
      else this.(kept := [], pending := Whole(), begun := begun + [a]).Begin(a)
    }

    function DoFireWith(a: A): CbList<F, A> {
      this.(asked := asked + [a]).Trigger(a)
    }

    function DoDisable(): CbList<F, A> {
      this.(live := false, kept := [], pending := [], queue := None, memory := Unset)
    }

    function DoLock(): CbList<F, A> {
      var l := this.(queue := None);
      if memory.Saved? then l else l.DoDisable()
    }

    /** Also revives a disabled list, which then stays locked. */
    function DoEmpty(): CbList<F, A> {
      this.(live := true, kept := [], pending := [])
    }

    function DoApply(): CbList<F, A>
      requires pending != [] && current.Some?
    {
      this.(kept := kept + [pending[0]], pending := pending[1..], phase := Running,
            log := log + [Application(pending[0], current.value)])
    }

    function DoReturn(result: bool): CbList<F, A> {
      var l := this.(answers := answers + [result]);
      if !result && flags.stopOnFalse then l.(memory := True, phase := Broken) else l.(phase := AtHead)
    }

    /** What follows the loop of `fire`. */
    function DoEnd(): CbList<F, A> {
      var l := this.(kept := Whole(), pending := [], phase := Idle);
      if !live then l
      else if !flags.once then
        if queue.Some? && queue.value != [] then
          l.(queue := Some(queue.value[1..]), memory := Saved(queue.value[0])).Trigger(queue.value[0])
        else l
      else if memory == True then l.DoDisable()
      else l.(kept := [])
    }

    /** User events are always possible, save `empty` during a firing; the loop's own
        events need the loop. */
    predicate Enabled(e: Event<F, A>) {
      match e
      case Empty => phase == Idle
      case Apply => phase == AtHead && live && pending != [] && current.Some?
      case Return(_) => phase == Running
      case End => phase == Broken || (phase == AtHead && (!live || pending == []))
      case _ => true
    }

    function Step(e: Event<F, A>): CbList<F, A>
      requires Enabled(e)
    {
      match e
      case Add(fns) => DoAdd(fns)
      case Remove(fns) => DoRemove(fns)
      case FireWith(a) => DoFireWith(a)
      case Disable => DoDisable()
      case Lock => DoLock()
      case Empty => DoEmpty()
      case Apply => DoApply()
      case Return(result) => DoReturn(result)
      case End => DoEnd()
    }

    /** What the latest firing has applied so far. */
    function Applied(): seq<Reg<F>>
      requires start <= |log|
    {
      Regs(log[start..])
    }

    /** Exactly once, in order: what the latest firing has applied, followed by what it
        will still apply, is what it scheduled minus what was removed before its turn. */
    ghost predicate FiringExact() {
      && start <= |log|
      && Ascending(batch) && AllBelow(batch, |registered|)
      && (forall r :: r in dropped ==> r in batch)
      && (phase != Idle && live ==> Applied() + pending == Without(batch, dropped))
      && (phase != Idle ==> Applied() <= Without(batch, dropped))
      && (phase != Idle ==> current.Some?)
      && (forall c :: c in log[start..] ==> current == Some(c.args))
    }

    /** No fireWith call is lost, repeated or overtaken on a repeatable list. */
    ghost predicate FiringsInOrder() {
      && (!flags.once && queue.Some? ==> asked == begun + queue.value)
      && (phase == Idle && queue.Some? ==> queue.value == [])
      && (flags.once && queue.Some? ==> queue.value == [])
      && (flags.once ==> |begun| <= 1)
      && (flags.once && begun != [] && queue.Some? ==> memory != Unset)
    }

    /** The list holds registrations in the order they were made. */
    ghost predicate ListOk() {
      && (!live ==> kept == [] && pending == [] && queue.None?)
      && (phase == Idle ==> pending == [])
      && (memory.Saved? ==> flags.memory)
      && (forall i :: 0 <= i < |registered| ==> registered[i].id == i)
      && Ascending(Whole()) && (forall r :: r in Whole() ==> r in registered)
      && (flags.unique ==> Distinct(Whole()))
    }

    ghost predicate Inv() {
      ListOk() && FiringExact() && FiringsInOrder()
    }
  }

  function NewList<F(==,!new), A>(flags: Flags): CbList<F, A> {
    CbList(flags, true, [], [], Some([]), Unset, Idle, [], [], [], None, 0, [], {}, [], [])
  }

  ghost predicate Legal<F(!new), A>(flags: Flags, events: seq<Event<F, A>>)
    decreases events, 0
  {
    events == [] ||
    (var n := |events| - 1; Legal(flags, events[..n]) && Replay(flags, events[..n]).Enabled(events[n]))
  }

  ghost function Replay<F(!new), A>(flags: Flags, events: seq<Event<F, A>>): CbList<F, A>
    requires Legal(flags, events)
    decreases events, 1
  {
    if events == [] then NewList(flags)
    else var n := |events| - 1; Replay(flags, events[..n]).Step(events[n])
  }
}
