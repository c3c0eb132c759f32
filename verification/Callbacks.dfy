/** `jQuery.Callbacks` as the source runs it: one array, a loop index that `remove`
    shifts while the loop runs, and a stack of postponed firings.  Every method is
    proved to act on the fields exactly as the index-free list of `CallbackSpec`
    prescribes, so each object's history is a run and the results about all runs
    apply to it.  Any number of lists may be used together: a function that one of them
    applies may act on all of them. */
module Callbacks {
  import opened Wrappers
  import opened CallbackSpec
  import opened CallbackRuns
  import opened CallbackLaws
  import opened DeferredSpec
  import opened JointSpec
  import opened JointRuns

  /** An argument of `add`: functions are registered, arrays searched, the rest ignored. */
  datatype Arg<F> = Func(fn: F) | Arr(items: seq<Arg<F>>) | Other

  function Flatten<F>(args: seq<Arg<F>>): seq<F> {
    if args == [] then [] else
    var n := |args| - 1;
    Flatten(args[..n]) + Found(args[n])
  }

  function Found<F>(arg: Arg<F>): seq<F> {
    match arg
    case Func(f) => [f]
    case Arr(items) => Flatten(items)
    case Other => []
  }

  /** One thing user code does to a list while one of its functions is being applied. */
  datatype Deed<F, A> =
    | DoAdd(args: seq<Arg<Fn<F>>>)
    | DoRemove(fns: seq<Fn<F>>)
    | DoFireWith(a: A)
    | DoDisable
    | DoLock

  /** What one call of a user function does, on which lists, and what it returns. */
  datatype Body<F, A> = Body(deeds: seq<(nat, Deed<F, A>)>, result: bool)

  /** The function stands in one of the arguments, in arrays to any depth. */
  ghost predicate Holds<F>(args: seq<Arg<F>>, f: F)
    decreases args
  {
    exists i :: 0 <= i < |args| && Within(args[i], f)
  }

  ghost predicate Within<F>(arg: Arg<F>, f: F)
    decreases arg
  {
    match arg
    case Func(g) => f == g
    case Arr(items) => Holds(items, f)
    case Other => false
  }

  lemma {:induction false} FlattenHolds<F>(args: seq<Arg<F>>, f: F)
    ensures f in Flatten(args) <==> Holds(args, f)
    decreases args, 1
  {
    if args != [] {
      var n := |args| - 1;
      FlattenHolds(args[..n], f);
      FoundWithin(args[n], f);
      if i :| 0 <= i < |args| && Within(args[i], f) {
        assert i < n ==> Within(args[..n][i], f);
      }
      if i :| 0 <= i < n && Within(args[..n][i], f) {
        assert Within(args[i], f);
      }
    }
  }

  lemma {:induction false} FoundWithin<F>(arg: Arg<F>, f: F)
    ensures f in Found(arg) <==> Within(arg, f)
    decreases arg, 0
  {
    if arg.Arr? { FlattenHolds(arg.items, f); }
  }

  function Asked<F, A>(on: nat, deed: Deed<F, A>): Happening<F, A> {
    OnList(on, match deed
               case DoAdd(args) => Event.Add(Flatten(args))
               case DoRemove(fns) => Event.Remove(fns)
               case DoFireWith(a) => Event.FireWith(a)
               case DoDisable => Event.Disable
               case DoLock => Event.Lock)
  }

  /** From place `from` on the history has all these deeds, in their order. */
  ghost predicate Carried<F(!new), A>(deeds: seq<(nat, Deed<F, A>)>, from: nat, trace: seq<Happening<F, A>>) {
    deeds == [] ||
    (var n := |deeds| - 1;
     exists i :: from <= i < |trace| && trace[i] == Asked(deeds[n].0, deeds[n].1)
                 && Carried(deeds[..n], from, trace[..i]))
  }

  lemma CarriedNone<F(!new), A>(deeds: seq<(nat, Deed<F, A>)>, from: nat, trace: seq<Happening<F, A>>)
    ensures Carried(deeds[..0], from, trace)
  {
  }

  lemma CarriedMore<F(!new), A>(deeds: seq<(nat, Deed<F, A>)>, i: nat, from: nat, before: seq<Happening<F, A>>,
                                after: seq<Happening<F, A>>)
    requires i < |deeds| && from <= |before| && Carried(deeds[..i], from, before)
    requires before + [Asked(deeds[i].0, deeds[i].1)] <= after
    ensures Carried(deeds[..i + 1], from, after)
  {
    hide Asked;
    assert deeds[..i + 1][..i] == deeds[..i] && after[..|before|] == before;
    assert after[|before|] == Asked(deeds[i].0, deeds[i].1);
  }

  /** User code has no own functions of a Deferred, and no handle on hidden lists. */
  ghost predicate Permitted<F(!new), A>(on: nat, deed: Deed<F, A>, hidden: nat) {
    && (deed.DoAdd? ==> forall f :: f in Flatten(deed.args) ==> f.Ext?)
    && (deed.DoRemove? || deed.DoDisable? || deed.DoLock? ==> on >= hidden)
  }

  ghost predicate PermittedBodies<F(!new), A>(script: seq<Body<F, A>>, lists: nat, hidden: nat) {
    forall i, j :: 0 <= i < |script| && 0 <= j < |script[i].deeds| ==>
      var (on, deed) := script[i].deeds[j]; on < lists && Permitted(on, deed, hidden)
  }

  lemma {:induction false} FreshConcat<F(!new)>(a: seq<F>, b: seq<F>, present: seq<F>)
    ensures Fresh(a + b, present) == Fresh(a, present) + Fresh(b, present + Fresh(a, present))
  {
    if a == [] {
      assert a + b == b && present + [] == present;
    } else {
      assert (a + b)[1..] == a[1..] + b;
      if a[0] in present {
        FreshConcat(a[1..], b, present);
      } else {
        var rest := Fresh(a[1..], present + [a[0]]);
        FreshConcat(a[1..], b, present + [a[0]]);
        assert present + [a[0]] + rest == present + ([a[0]] + rest);
      }
    }
  }

  /** What `add` appends to a list holding `present`. */
  function Appended<F(==,!new)>(fns: seq<F>, present: seq<F>, unique: bool): seq<F> {
    if unique then Fresh(fns, present) else fns
  }

  lemma AppendedConcat<F(!new)>(a: seq<F>, b: seq<F>, present: seq<F>, unique: bool)
    ensures Appended(a + b, present, unique)
         == Appended(a, present, unique) + Appended(b, present + Appended(a, present, unique), unique)
  {
    FreshConcat(a, b, present);
  }

  lemma AppendedOne<F(!new)>(fns: seq<F>, present: seq<F>, unique: bool)
    requires |fns| <= 1
    ensures Appended(fns, present, unique) == if fns == [] || (unique && fns[0] in present) then [] else fns
  {
    if fns != [] {
      assert fns[1..] == [];
      assert Fresh(fns[1..], present) == [] == Fresh(fns[1..], present + [fns[0]]);
      assert fns == [fns[0]] == [fns[0]] + [];
    }
  }

  lemma PushNone<F(!new)>(args: seq<Arg<F>>, first: seq<F>, unique: bool)
    ensures first + Appended(Flatten(args[..0]), first, unique) == first
  {
  }

  lemma PushStep<F(!new)>(args: seq<Arg<F>>, i: nat, first: seq<F>, unique: bool)
    requires i < |args|
    ensures var here := first + Appended(Flatten(args[..i]), first, unique);
      here + Appended(Found(args[i]), here, unique) == first + Appended(Flatten(args[..i + 1]), first, unique)
  {
    assert args[..i + 1][..i] == args[..i];
    var sofar := Appended(Flatten(args[..i]), first, unique);
    AppendedConcat(Flatten(args[..i]), Found(args[i]), first, unique);
    var more := Appended(Found(args[i]), first + sofar, unique);
    assert (first + sofar) + more == first + (sofar + more);
  }

  /** What `add` adds, in terms of its arguments. */
  lemma AppendedHolds<F(!new)>(args: seq<Arg<F>>, present: seq<F>, unique: bool)
    ensures forall f :: f in present + Appended(Flatten(args), present, unique) <==> f in present || Holds(args, f)
    ensures unique ==> NoRepeats(Appended(Flatten(args), present, unique))
    ensures !unique ==> Appended(Flatten(args), present, unique) == Flatten(args)
  {
    hide Flatten, Holds, NoRepeats;
    FreshAll(Flatten(args), present);
    FreshDistinct(Flatten(args), present);
    forall f | true ensures f in Flatten(args) <==> Holds(args, f) { FlattenHolds(args, f); }
  }

  /** The few facts about a run that the methods need. */
  lemma Basics<F(!new), A>(flags: Flags, events: seq<Event<F, A>>)
    requires Legal(flags, events)
    ensures var l := Replay(flags, events);
      && l.flags == flags
      && (!l.live ==> l.kept == [] && l.pending == [] && l.queue.None?)
      && (l.phase == Idle ==> l.pending == [])
      && (l.phase != Idle ==> l.current.Some?)
      && (l.memory.Saved? ==> flags.memory)
      && (flags.unique ==> Distinct(l.Whole()))
  {
    RunInv(flags, events);
  }

  /** What each step does to the parts the fields show. */
  lemma AddShape<F(!new), A>(l: CbList<F, A>, fns: seq<F>)
    requires l.phase == Idle ==> l.pending == []
    ensures !l.live ==> l.DoAdd(fns) == l
    ensures l.live ==> var t := l.DoAdd(fns);
      && t.live && t.queue == l.queue && t.flags == l.flags && t.log == l.log && t.answers == l.answers
      && Fns(t.Whole()) == Fns(l.Whole()) + Appended(fns, Fns(l.Whole()), l.flags.unique)
      && (l.phase != Idle || !l.memory.Saved? ==> t.phase == l.phase && t.memory == l.memory && t.current == l.current)
      && (l.phase != Idle ==> t.kept == l.kept)
      && (l.phase == Idle && l.memory.Saved? ==>
            && t.phase == AtHead && |t.kept| == |Fns(l.Whole())| && t.current == Some(l.memory.args)
            && t.memory == if l.flags.memory then l.memory else True)
  {
    hide Fresh;
    hide Without;
  }

  lemma ApplyShape<F(!new), A>(l: CbList<F, A>)
    requires l.Enabled(Apply)
    ensures |l.kept| < |l.Whole()| && Fns(l.Whole())[|l.kept|] == l.pending[0].fn
    ensures var t := l.DoApply();
      && t.Whole() == l.Whole() && |t.kept| == |l.kept| + 1 && t.phase == Running
      && t.live == l.live && t.queue == l.queue && t.memory == l.memory && t.current == l.current && t.flags == l.flags
      && t.log == l.log + [Application(l.pending[0], l.current.value)] && t.answers == l.answers
  {
    assert (l.kept + [l.pending[0]]) + l.pending[1..] == l.Whole();
  }

  lemma ReturnShape<F(!new), A>(l: CbList<F, A>, result: bool)
    ensures var t := l.DoReturn(result);
      && t.log == l.log && t.answers == l.answers + [result]
      && t.kept == l.kept && t.pending == l.pending && t.live == l.live
      && t.queue == l.queue && t.current == l.current
      && (result || !l.flags.stopOnFalse ==> t.phase == AtHead && t.memory == l.memory)
      && (!result && l.flags.stopOnFalse ==> t.phase == Broken && t.memory == True)
  {
  }

  /** The list when the loop has been left and `firing` reset. */
  ghost function Rested<F(!new), A>(l: CbList<F, A>): CbList<F, A> {
    l.(kept := l.Whole(), pending := [], phase := Idle)
  }

  /** The list `self.fireWith` is called on when a postponed firing is taken up. */
  ghost function Resumed<F(!new), A>(l: CbList<F, A>): CbList<F, A>
    requires l.queue.Some? && l.queue.value != []
  {
    Rested(l).(queue := Some(l.queue.value[1..]), memory := Saved(l.queue.value[0]))
  }

  ghost predicate Resumes<F(!new), A>(l: CbList<F, A>) {
    l.live && !l.flags.once && l.queue.Some? && l.queue.value != []
  }

  lemma EndShape<F(!new), A>(l: CbList<F, A>)
    requires l.live || (l.kept == [] && l.pending == [])
    ensures Resumes(l) ==>
      l.DoEnd() == Resumed(l).Trigger(l.queue.value[0])
    ensures var t := l.DoEnd(); !Resumes(l) ==>
      && t.phase == Idle && t.log == l.log && t.answers == l.answers
      && (l.live && l.flags.once && l.memory == True ==> !t.live && t.queue == None && t.memory == Unset)
      && (!(l.live && l.flags.once && l.memory == True) ==>
            t.live == l.live && t.queue == l.queue && t.memory == l.memory)
      && (l.live && l.flags.once && l.memory != True ==> Fns(t.Whole()) == [])
      && (l.live && !l.flags.once ==> Fns(t.Whole()) == Fns(l.Whole()))
  {
    assert l.Whole() + [] == l.Whole();
  }

  lemma FnsSplice<F>(rs: seq<Reg<F>>, i: nat)
    requires i < |rs|
    ensures Fns(rs[..i] + rs[i + 1..]) == Fns(rs)[..i] + Fns(rs)[i + 1..]
  {
  }

  /** The array while `remove` has passed `seen` of the registrations it began with. */
  ghost function Partly<F(!new)>(all: seq<Reg<F>>, gone: set<Reg<F>>, seen: nat): (now: seq<Reg<F>>)
    requires seen <= |all|
    ensures |now| == |Without(all[..seen], gone)| + |all| - seen
  {
    Without(all[..seen], gone) + all[seen..]
  }

  /** How much of it lies before the cut between kept and pending. */
  ghost function KeptLength<F(!new)>(all: seq<Reg<F>>, gone: set<Reg<F>>, cut: nat, seen: nat): nat
    requires seen <= |all| && cut <= |all|
  {
    if seen <= cut then |Without(all[..seen], gone)| + (cut - seen) else |Without(all[..cut], gone)|
  }

  lemma PartlyNone<F(!new)>(all: seq<Reg<F>>, gone: set<Reg<F>>, cut: nat)
    requires cut <= |all|
    ensures Partly(all, gone, 0) == all && Without(all[..0], gone) == [] && KeptLength(all, gone, cut, 0) == cut
  {
  }

  /** What `remove` has passed grows by one. */
  lemma WithoutNext<F(!new)>(all: seq<Reg<F>>, gone: set<Reg<F>>, seen: nat)
    requires seen < |all|
    ensures Without(all[..seen + 1], gone) == Without(all[..seen], gone) + if all[seen] in gone then [] else [all[seen]]
    ensures all[seen..] == [all[seen]] + all[seen + 1..]
  {
    assert all[..seen + 1][..seen] == all[..seen];
  }

  lemma PartlyStep<F(!new)>(all: seq<Reg<F>>, gone: set<Reg<F>>, seen: nat, fn: F)
    requires seen < |all| && gone == Matching(all, [fn])
    ensures var i := |Without(all[..seen], gone)|;
      var now, next := Fns(Partly(all, gone, seen)), Fns(Partly(all, gone, seen + 1));
      && i < |now| && (now[i] == fn <==> all[seen] in gone)
      && |Without(all[..seen + 1], gone)| == i + (if all[seen] in gone then 0 else 1)
      && next == if all[seen] in gone then now[..i] + now[i + 1..] else now
  {
    hide Without, Fns;
    WithoutNext(all, gone, seen);
    var i, now := |Without(all[..seen], gone)|, Partly(all, gone, seen);
    assert now[i] == all[seen];
    if all[seen] in gone {
      assert Partly(all, gone, seen + 1) == now[..i] + now[i + 1..];
      FnsSplice(now, i);
    } else {
      assert Partly(all, gone, seen + 1) == now;
    }
  }

  /** In unique mode nothing is left to remove after the first hit. */
  lemma NoneLeft<F(!new)>(all: seq<Reg<F>>, gone: set<Reg<F>>, seen: nat, fn: F)
    requires 0 < seen <= |all| && gone == Matching(all, [fn]) && Distinct(all) && all[seen - 1] in gone
    ensures forall r :: r in all[seen..] ==> r !in gone
  {
  }

  /** An element is before the cut exactly when its place in the spliced array is. */
  lemma KeptStep<F(!new)>(all: seq<Reg<F>>, gone: set<Reg<F>>, cut: nat, seen: nat)
    requires seen < |all| && cut <= |all|
    ensures seen < cut <==> |Without(all[..seen], gone)| < KeptLength(all, gone, cut, seen)
    ensures KeptLength(all, gone, cut, seen + 1)
         == KeptLength(all, gone, cut, seen) - if seen < cut && all[seen] in gone then 1 else 0
  {
    WithoutNext(all, gone, seen);
    hide Without;
    if seen >= cut {
      assert all[..cut] + all[cut..seen] == all[..seen];
      WithoutConcat(all[..cut], all[cut..seen], gone);
    }
  }

  /** What `remove` finds at the next place, and what splicing it out or passing it does. */
  lemma RemoveStep<F(!new)>(all: seq<Reg<F>>, gone: set<Reg<F>>, cut: nat, seen: nat, fn: F)
    requires seen < |all| && cut <= |all| && gone == Matching(all, [fn])
    ensures var i, now := |Without(all[..seen], gone)|, Fns(Partly(all, gone, seen));
      && i < |now|
      && (now[i] == fn ==>
            && |Without(all[..seen + 1], gone)| == i && all[seen] in gone
            && Fns(Partly(all, gone, seen + 1)) == now[..i] + now[i + 1..]
            && KeptLength(all, gone, cut, seen + 1)
               == KeptLength(all, gone, cut, seen) - if i < KeptLength(all, gone, cut, seen) then 1 else 0)
      && (now[i] != fn ==>
            && |Without(all[..seen + 1], gone)| == i + 1 && Fns(Partly(all, gone, seen + 1)) == now
            && KeptLength(all, gone, cut, seen + 1) == KeptLength(all, gone, cut, seen))
  {
    hide Fns, Without, Partly, KeptLength, Matching;
    PartlyStep(all, gone, seen, fn);
    KeptStep(all, gone, cut, seen);
  }

  lemma PartlyEnd<F(!new)>(all: seq<Reg<F>>, gone: set<Reg<F>>, seen: nat)
    requires seen <= |all| && forall r :: r in all[seen..] ==> r !in gone
    ensures Partly(all, gone, seen) == Without(all, gone)
  {
    hide Without;
    WithoutNone(all[seen..], gone);
    WithoutConcat(all[..seen], all[seen..], gone);
    assert all[..seen] + all[seen..] == all;
  }

  lemma KeptEnd<F(!new)>(all: seq<Reg<F>>, gone: set<Reg<F>>, cut: nat, seen: nat)
    requires seen <= |all| && cut <= |all| && forall r :: r in all[seen..] ==> r !in gone
    ensures KeptLength(all, gone, cut, seen) == |Without(all[..cut], gone)|
  {
    if seen <= cut {
      assert all[..cut] == all[..seen] + all[seen..cut];
      assert forall r :: r in all[seen..cut] ==> r in all[seen..];
      WithoutConcat(all[..seen], all[seen..cut], gone);
      WithoutNone(all[seen..cut], gone);
    }
  }

  /** `fs` without the functions `gone`. */
  function Others<F(==,!new)>(fs: seq<F>, gone: seq<F>): (left: seq<F>)
    ensures forall f :: f in left <==> f in fs && f !in gone
  {
    if fs == [] then [] else
    var n := |fs| - 1;
    Others(fs[..n], gone) + if fs[n] in gone then [] else [fs[n]]
  }

  lemma {:induction false} OthersLeft<F(!new)>(rs: seq<Reg<F>>, whole: seq<Reg<F>>, fns: seq<F>)
    requires forall r :: r in rs ==> r in whole
    ensures Fns(Without(rs, Matching(whole, fns))) == Others(Fns(rs), fns)
  {
    if rs != [] {
      var n := |rs| - 1;
      OthersLeft(rs[..n], whole, fns);
      assert Fns(rs)[..n] == Fns(rs[..n]) && rs[n] in rs;
    }
  }

  lemma MatchingNone<F(!new)>(part: seq<Reg<F>>, whole: seq<Reg<F>>, fns: seq<F>)
    ensures Without(part, Matching(whole, fns[..0])) == part
  {
    WithoutNone(part, Matching(whole, fns[..0]));
  }

  /** Removing one more function from what is left. */
  lemma MatchingMore<F(!new)>(part: seq<Reg<F>>, whole: seq<Reg<F>>, fns: seq<F>, k: nat, left: seq<Reg<F>>)
    requires k < |fns| && forall r :: r in part ==> r in whole
    requires forall r :: r in Without(part, Matching(whole, fns[..k])) ==> r in left
    ensures Without(Without(part, Matching(whole, fns[..k])), Matching(left, [fns[k]]))
         == Without(part, Matching(whole, fns[..k + 1]))
  {
    hide Without;
    var first := Matching(whole, fns[..k]);
    WithoutTwice(part, first, Matching(left, [fns[k]]));
    assert fns[..k + 1] == fns[..k] + [fns[k]];
    WithoutSame(part, first + Matching(left, [fns[k]]), Matching(whole, fns[..k + 1]));
  }

  /** What others may rely on while a list is used. */
  datatype Shot<F, A> = Shot(
    events: seq<Event<Fn<F>, A>>, called: seq<Application<Fn<F>, A>>, returned: seq<bool>,
    firing: bool, current: Option<A>)

  datatype Snapshot<F, A> = Snapshot(trace: seq<Happening<F, A>>, left: nat, lists: seq<Shot<F, A>>)

  /** A firing under way has not gone on. */
  ghost predicate Waits<F, A>(s: Shot<F, A>, t: Shot<F, A>) {
    s.current == t.current && s.called == t.called && s.returned == t.returned
  }

  ghost predicate Later<F, A>(s: Shot<F, A>, t: Shot<F, A>, same: bool) {
    && s.events <= t.events && s.called <= t.called && s.returned <= t.returned
    && (same ==> s.firing == t.firing && (t.firing ==> Waits(s, t)))
  }

  /** Histories go on, and the lists that were firing (but list `but`) still are, at the
      function they had called. */
  ghost predicate Onward<F, A>(s: Snapshot<F, A>, t: Snapshot<F, A>, but: int) {
    && s.trace <= t.trace && s.left >= t.left && |s.lists| == |t.lists|
    && forall k :: 0 <= k < |s.lists| ==> Later(s.lists[k], t.lists[k], k != but)
  }

  lemma OnwardTwice<F, A>(s: Snapshot<F, A>, t: Snapshot<F, A>, u: Snapshot<F, A>, b: int, c: int)
    requires Onward(s, t, b) && Onward(t, u, c) && (b == c || b == -1 || c == -1)
    ensures Onward(s, u, if b == -1 then c else b)
  {
    forall k | 0 <= k < |s.lists| ensures Later(s.lists[k], u.lists[k], k != if b == -1 then c else b) {
      assert Later(s.lists[k], t.lists[k], k != b) && Later(t.lists[k], u.lists[k], k != c);
    }
  }

  /** One call has been added to those of `before`, one of `fn` with `args`. */
  ghost predicate Entered<F, A>(
      before: seq<Application<Fn<F>, A>>, after: seq<Application<Fn<F>, A>>, fn: Fn<F>, args: A)
  {
    && |after| == |before| + 1 && before <= after
    && after[|before|].reg.fn == fn && after[|before|].args == args
  }

  class CallbackList<F(==,!new), A> {
    const flags: Flags
    const id: nat                   // its place among the lists of the program
    var list: Option<seq<Fn<F>>>    // None: undefined
    var stack: Option<seq<A>>
    var memory: Memory<A>
    var firing: bool
    var firingStart: nat
    var firingLength: int
    var firingIndex: int

    /** The functions really called, with their arguments: each is noted where it is entered. */
    ghost var called: seq<Application<Fn<F>, A>>

    /** What they have really returned: each answer is noted where the function is left. */
    ghost var returned: seq<bool>

    ghost var events: seq<Event<Fn<F>, A>>
    ghost var now: CbList<Fn<F>, A>

    /** The history is a run, and `now` is where it has led. */
    ghost predicate Recorded()
      reads `events, `now
    {
      Legal(flags, events) && now == Replay(flags, events)
    }

    ghost predicate SameList(l: CbList<Fn<F>, A>)
      reads `list, `stack, `called, `returned
    {
      && list == (if l.live then Some(Fns(l.Whole())) else None) && stack == l.queue
      && called == l.log && returned == l.answers
    }

    /** The fields say what the history says. */
    ghost predicate Matches(l: CbList<Fn<F>, A>)
      reads this
    {
      && SameList(l) && memory == l.memory
      && firing == (l.phase != Idle) && firingStart == 0
      && (firing && l.live ==>
            && firingLength == |l.Whole()|
            && firingIndex == |l.kept| - (if l.phase == AtHead then 0 else 1))
    }

    ghost predicate Valid()
      reads this
    {
      Recorded() && Matches(now)
    }

    /** What has become of the list since it was as in `s`. */
    ghost predicate Since(s: Shot<F, A>, same: bool)
      reads `events, `called, `returned, `firing, `now
    {
      && s.events <= events && s.called <= called && s.returned <= returned
      && (same ==> s.firing == firing
                   && (firing ==> s.current == now.current && s.called == called && s.returned == returned))
    }

    ghost function Look(): Shot<F, A>
      reads `events, `called, `returned, `firing, `now
    {
      Shot(events, called, returned, firing, now.current)
    }

    /** Where user code can find the list: idle, or with one of its callbacks running. */
    ghost predicate Ready()
      reads this
    {
      Valid() && now.phase in {Idle, Running}
    }

    /** A function is recorded as applied and has not been entered yet. */
    ghost predicate Taking(fn: Fn<F>, args: A)
      reads this
    {
      && Recorded() && Matches(now.(log := called)) && now.phase == Running
      && now.log != [] && now.log == called + [now.log[|now.log| - 1]]
      && now.log[|now.log| - 1].reg.fn == fn && now.log[|now.log| - 1].args == args
    }

    /** It is entered. */
    ghost method Enter(fn: Fn<F>, args: A)
      requires Taking(fn, args)
      modifies `called
      ensures Ready() && now.phase == Running && Entered(old(called), called, fn, args)
    {
      called := now.log;
    }

    /** A function has been left with this result, which is not recorded yet. */
    ghost predicate Leaving(result: bool)
      reads this
    {
      && Recorded() && Matches(now.(answers := returned)) && now.phase == Running
      && returned == now.answers + [result]
    }

    /** It is left. */
    ghost method Leave(result: bool)
      requires Ready() && now.phase == Running
      modifies `returned
      ensures Leaving(result) && returned == old(returned) + [result]
    {
      returned := returned + [result];
    }

    /** It is one of the lists of this program. */
    ghost predicate Of(p: Program<F, A>) {
      && id < |p.lists| && p.lists[id] == this
      && forall k :: 0 <= k < |p.lists| && k != id ==> p.lists[k] != this
    }

    /** What its history says about the list. */
    lemma Known(p: Program<F, A>)
      requires Of(p) && p.Linked()
      ensures Recorded() && now.flags == flags
      ensures !now.live ==> now.kept == [] && now.pending == [] && now.queue.None?
      ensures now.phase == Idle ==> now.pending == []
      ensures now.phase != Idle ==> now.current.Some?
      ensures now.memory.Saved? ==> flags.memory
      ensures flags.unique ==> Distinct(now.Whole())
    {
      Basics(flags, events);
    }

    /** What has been returned is what the history says, and each function called has
        returned once, but for the one that is running. */
    lemma EachReturned()
      requires Valid()
      ensures returned == Results(events) && |called| == |returned| + if now.phase == Running then 1 else 0
    {
      EachReturnsOnce(flags, events);
    }

    /** With stopOnFalse, from a false to the end of the firing nothing more is called: the
        last function called is the one that has returned false. */
    lemma NothingCalledAfterFalse(before: seq<Event<Fn<F>, A>>, more: seq<Event<Fn<F>, A>>)
      requires Valid() && flags.stopOnFalse && events == before + [Return(false)] + more && End !in more
      ensures Legal(flags, before) && called == Replay(flags, before).log
      ensures |called| == |returned| && returned == Results(before) + [false]
    {
      FalseStopsTheFiring(flags, before, more);
      BrokenAnswersNothing(flags, before, more);
      EachReturned();
    }

    constructor (flags: Flags, id: nat)
      ensures Ready() && this.flags == flags && this.id == id
      ensures events == [] && called == [] && returned == [] && now == NewList(flags)
    {
      this.flags, this.id := flags, id;
      list, stack, memory := Some([]), Some([]), Unset;
      firing, firingStart, firingLength, firingIndex := false, 0, 0, 0;
      called, returned, events, now := [], [], [], NewList(flags);
    }

    function Waiting(): nat
      reads this
    {
      if stack.Some? then |stack.value| else 0
    }

    method Has(fn: Fn<F>) returns (found: bool)
      ensures found <==> list.Some? && fn in list.value
    {
      if list.Some? {
        var i := 0;
        while i < |list.value|
          invariant 0 <= i <= |list.value| && fn !in list.value[..i]
        {
          if fn == list.value[i] { return true; }
          i := i + 1;
        }
      }
      return false;
    }

    /** The inner, recursive `add`. */
    method Push(args: seq<Arg<Fn<F>>>)
      requires list.Some?
      modifies this`list
      ensures list == Some(old(list.value) + Appended(Flatten(args), old(list.value), flags.unique))
      ensures forall f :: f in list.value <==> f in old(list.value) || Holds(args, f)
      decreases args
    {
      hide Fresh, Flatten, Holds;
      AppendedHolds(args, list.value, flags.unique);
      ghost var first := list.value;
      var i := 0;
      PushNone(args, first, flags.unique);
      while i < |args|
        invariant 0 <= i <= |args|
        invariant list == Some(first + Appended(Flatten(args[..i]), first, flags.unique))
      {
        var here := list.value;
        match args[i] {
          case Arr(items) =>
            Push(items);
          case Func(f) =>
            var had := Has(f);
            if !flags.unique || !had {
              list := Some(here + [f]);
            }
          case Other =>
        }
        assert list.value == here + Appended(Found(args[i]), here, flags.unique) by {
          if !args[i].Arr? { AppendedOne(Found(args[i]), here, flags.unique); }
        }
        PushStep(args, i, first, flags.unique);
        i := i + 1;
      }
      assert args[..i] == args;
    }

    method Add(p: Program<F, A>, args: seq<Arg<Fn<F>>>)
      requires Of(p) && p.Calm() && p.now.MayAdd(id, Flatten(args))
      modifies p`pos, p`state, p`trace, p`now, p.lists
      ensures p.Calm() && Onward(old(p.Snap()), p.Snap(), -1)
      ensures old(events) + [Event.Add(Flatten(args))] <= events
      ensures old(p.trace) + [OnList(id, Event.Add(Flatten(args)))] <= p.trace
      ensures firing || !old(memory).Saved? ==>
        && p.trace == old(p.trace) + [OnList(id, Event.Add(Flatten(args)))] && p.pos == old(p.pos)
        && p.now == old(p.now).Next(OnList(id, Event.Add(Flatten(args)))) && now == old(now).DoAdd(Flatten(args))
      decreases p.Left(), Waiting(), 7
    {
      hide Program.Linked, Program.ReadyBut, Program.Floor, Program.Snap, Program.SameRest, Onward, Later, Joint.Next,
        Legal, Replay, CbList.DoAdd, Flatten, Joint.MayAdd;
      ghost var s, before, fns := p.Mark(this), now, Flatten(args);
      p.Takes(this);
      p.MayAddNow(this, fns);
      p.Did(this, Event.Add(fns));
      AddShape(before, fns);
      if list.Some? {
        var length := |list.value|;
        Push(args);
        if firing {
          firingLength := |list.value|;
        } else if memory.Saved? {
          firingStart := length;
          p.Since(this, s, -1);
          ghost var t := p.Mark(this);
          Fire(p, memory.args);
          p.Relay(this, s, t, -1);
          return;
        }
      }
      p.Back(this, s, -1);
    }

    /** `fire`: the loop over the callbacks, and what follows it. */
    method Fire(p: Program<F, A>, args: A)
      requires Of(p) && p.Floor(this)
      requires now.phase == AtHead && now.live && !firing
      requires SameList(now) && firingStart == |now.kept| && now.current == Some(args)
      requires now.memory == if flags.memory then Saved(args) else True
      modifies p`pos, p`state, p`trace, p`now, p.lists
      ensures p.Calm() && Onward(old(p.Snap()), p.Snap(), -1) && !firing
      decreases p.Left(), Waiting(), 5
    {
      hide Program.Linked, Program.ReadyBut, Program.Floor, Program.Snap, Program.SameRest, Onward, Later, Joint.Next,
        Legal, Replay, Program.Calm;
      ghost var s := p.Mark(this);
      memory := if flags.memory then Saved(args) else True;
      firing := true;
      firingIndex := firingStart;
      firingStart := 0;
      firingLength := |list.value|;
      p.Knows(this);
      p.Since(this, s, id);
      ghost var t := p.Snap();
      Loop(p, args);
      OnwardTwice(s, t, p.Snap(), id, id);
      p.Rests(this, s);
    }

    method Loop(p: Program<F, A>, args: A)
      requires Of(p) && p.Floor(this)
      requires Valid() && now.phase == AtHead && now.current == Some(args)
      modifies p`pos, p`state, p`trace, p`now, p.lists
      ensures p.Calm() && Onward(old(p.Snap()), p.Snap(), id) && !firing
      decreases p.Left(), Waiting(), 4
    {
      hide Program.Linked, Program.ReadyBut, Program.Floor, Program.Snap, Program.SameRest, Onward, Later, Joint.Next,
        Legal, Replay, Program.Calm;
      ghost var s := p.Snap();
      OnwardSame(s, id);
      while list.Some? && firingIndex < firingLength
        invariant p.Floor(this) && Onward(s, p.Snap(), id)
        invariant Valid() && now.phase == AtHead && now.current == Some(args)
        invariant p.Left() < old(p.Left()) || (p.Left() == old(p.Left()) && stack == old(stack))
        decreases p.Left(), firingLength - firingIndex
      {
        ghost var t := p.Snap();
        var go := Turn(p, args);
        OnwardTwice(s, t, p.Snap(), id, id);
        if !go {
          break;
        }
      }
      ghost var t := p.Snap();
      Finish(p);
      OnwardTwice(s, t, p.Snap(), id, id);
    }

    /** One turn of the loop of `fire`; false when the loop is to be left at once. */
    method Turn(p: Program<F, A>, args: A) returns (go: bool)
      requires Of(p) && p.Floor(this)
      requires Valid() && now.phase == AtHead && now.current == Some(args)
      requires list.Some? && firingIndex < firingLength
      modifies p`pos, p`state, p`trace, p`now, p.lists
      ensures p.Floor(this) && Onward(old(p.Snap()), p.Snap(), id) && firing
      ensures old(events) + [Apply] <= events
      ensures Entered(old(called), called, old(now.pending[0].fn), args)
      ensures returned == old(returned) + [old(p.AnswerOf(now.pending[0].fn))]
      ensures events[|events| - 1] == Return(returned[|returned| - 1])
      ensures go <==> returned[|returned| - 1] || !flags.stopOnFalse
      ensures go ==> Valid() && now.phase == AtHead && now.current == Some(args)
      ensures !go ==> SameList(now) && memory == now.memory && firingStart == 0 && now.phase == Broken
      ensures p.Left() < old(p.Left())
        || (p.Left() == old(p.Left())
            && SameAs(old(stack), old(firingIndex) + (if go then 1 else 0), old(firingLength)))
      decreases p.Left(), Waiting(), 3
    {
      hide Program.Linked, Program.ReadyBut, Program.Floor, Program.Snap, Program.SameRest, Onward, Later, Joint.Next,
        Legal, Replay, CbList.DoReturn, CbList.DoEnd, CbList.DoFireWith, CbList.DoAdd, CbList.DoRemove, CbList.DoLock,
        CbList.DoDisable, CbList.DoApply;
      var result := ApplyFirst(p, args);
      ghost var s := p.Snap();
      Returns(p, result);
      OnwardTwice(old(p.Snap()), s, p.Snap(), id, id);
      if !result && flags.stopOnFalse {
        memory := True;
        return false;
      }
      firingIndex := firingIndex + 1;
      return true;
    }

    /** It has returned. */
    ghost method Returns(p: Program<F, A>, result: bool)
      requires Of(p) && p.Linked() && p.ReadyBut(id) && Leaving(result) && firing && now.flags == flags
      requires p.now.call.NoCall? || (p.now.call == Returning(id) && result)
      modifies p`trace, p`now, `events, `now
      ensures p.Floor(this) && Recorded() && Onward(old(p.Snap()), p.Snap(), id)
      ensures events == old(events) + [Return(result)] && now.current == old(now.current)
      ensures SameList(now) && firingStart == 0
      ensures now.phase == if result || !flags.stopOnFalse then AtHead else Broken
      ensures if now.phase == Broken then now.memory == True else memory == now.memory
      ensures now.live ==> firingLength == |now.Whole()| && firingIndex == |now.kept| - 1
    {
      hide Program.Linked, Program.ReadyBut, Program.Floor, Program.Snap, Program.SameRest, Onward, Later, Joint.Next,
        Legal, Replay, CbList.DoReturn;
      ghost var s := p.Mark(this);
      ReturnShape(now, result);
      p.DidReturn(this, result);
      p.Since(this, s, id);
    }

    /** The function whose turn it is is applied. */
    method ApplyFirst(p: Program<F, A>, args: A) returns (result: bool)
      requires Of(p) && p.Floor(this)
      requires Valid() && now.phase == AtHead && now.current == Some(args)
      requires list.Some? && firingIndex < firingLength
      modifies p`pos, p`state, p`trace, p`now, p.lists
      ensures p.Linked() && p.ReadyBut(id) && Onward(old(p.Snap()), p.Snap(), id)
      ensures p.now.call.NoCall? || (p.now.call == Returning(id) && result)
      ensures Leaving(result) && firing && now.current == Some(args) && now.flags == flags
      ensures old(events) + [Apply] <= events
      ensures Entered(old(called), called, old(now.pending[0].fn), args)
      ensures result == old(p.AnswerOf(now.pending[0].fn)) && returned == old(returned) + [result]
      ensures p.Left() < old(p.Left())
        || (p.Left() == old(p.Left()) && SameAs(old(stack), old(firingIndex), old(firingLength)))
      decreases p.Left(), Waiting(), 2
    {
      hide Program.Linked, Program.ReadyBut, Program.Floor, Program.Snap, Program.SameRest, Onward, Later, Joint.Next,
        Legal, Replay, CbList.DoReturn, CbList.DoEnd, CbList.DoFireWith, CbList.DoAdd, CbList.DoRemove, CbList.DoLock,
        CbList.DoDisable, CbList.DoApply;
      ghost var s := p.Mark(this);
      ApplyShape(now);
      var fn := list.value[firingIndex];
      p.DidApply(this);
      p.Since(this, s, id);
      ghost var t := p.Mark(this);
      result := p.Call(id, fn, args);
      OnwardTwice(s, t, p.Snap(), id, id);
      p.Goes(this, t, id);
      Known(p);
    }

    /** The rest of `fire`, once the loop is left. */
    method Finish(p: Program<F, A>)
      requires Of(p) && p.Floor(this)
      requires now.Enabled(End) && firing
      requires SameList(now) && memory == now.memory && firingStart == 0
      modifies p`pos, p`state, p`trace, p`now, p.lists
      ensures p.Calm() && Onward(old(p.Snap()), p.Snap(), id) && !firing
      ensures old(events) + [End] <= events
      decreases p.Left(), Waiting(), 1
    {
      hide Program.Linked, Program.ReadyBut, Program.Floor, Program.Snap, Program.SameRest, Onward, Later, Joint.Next,
        Legal, Replay, CbList.DoEnd, CbList.Trigger, CbList.Whole, Fns, Resumed, CallbackList.SameList,
        CallbackList.Matches, Program.Calm;
      ghost var s, ended := p.Mark(this), now;
      firing := false;
      p.Knows(this);
      p.Did(this, End);
      if list.Some? {
        if !flags.once {
          if stack.Some? && stack.value != [] {
            p.Since(this, s, id);
            ghost var t := p.Mark(this);
            Resume(p, ended);
            p.Relay(this, s, t, id);
            return;
          }
          StaysAsItIs(ended);
        } else {
          FinishOnce(ended);
        }
      } else {
        StaysAsItIs(ended);
      }
      p.Back(this, s, id);
    }

    lemma StaysAsItIs(ended: CbList<Fn<F>, A>)
      requires SameList(ended) && memory == ended.memory && !firing && firingStart == 0
      requires list.Some? ==> !flags.once && (stack.None? || stack.value == [])
      requires ended.flags == flags && (!ended.live ==> ended.kept == [] && ended.pending == [])
      ensures Matches(ended.DoEnd()) && ended.DoEnd().phase == Idle
    {
      EndShape(ended);
    }

    /** A list that fires once is disabled if it was halted or has no memory, else emptied. */
    method FinishOnce(ghost ended: CbList<Fn<F>, A>)
      requires flags.once && list.Some? && now == ended.DoEnd() && ended.flags == flags
      requires SameList(ended) && memory == ended.memory && !firing && firingStart == 0
      modifies `list, `stack, `memory
      ensures Matches(now) && now.phase == Idle
      ensures list == if old(memory) == True then None else Some([])
    {
      EndShape(ended);
      if memory == True {
        list, stack, memory := None, None, Unset;
      } else {
        list := Some([]);
      }
    }

    /** The next postponed firing is taken up. */
    method Resume(p: Program<F, A>, ghost ended: CbList<Fn<F>, A>)
      requires Of(p) && p.Floor(this)
      requires now == ended.DoEnd() && ended.flags == flags && !flags.once
      requires list.Some? && stack.Some? && stack.value != []
      requires SameList(ended) && !firing && firingStart == 0
      modifies p`pos, p`state, p`trace, p`now, p.lists
      ensures p.Calm() && Onward(old(p.Snap()), p.Snap(), -1) && !firing
      decreases p.Left(), Waiting(), 0
    {
      hide Program.Linked, Program.ReadyBut, Program.Floor, Program.Snap, Program.SameRest, Onward, Later, Joint.Next,
        Legal, Replay, CbList.DoEnd, CbList.Trigger;
      EndShape(ended);
      ghost var s := p.Mark(this);
      var next := stack.value[0];
      stack := Some(stack.value[1..]);
      memory := Saved(next);
      p.Since(this, s, -1);
      ghost var t := p.Snap();
      assert ended.Whole() + [] == ended.Whole();
      SelfFireWith(p, next, Resumed(ended));
      OnwardTwice(s, t, p.Snap(), -1, -1);
    }

    ghost predicate SameAs(stack0: Option<seq<A>>, index0: int, length0: int)
      reads this
    {
      stack == stack0 && firingIndex == index0 && firingLength == length0
    }

    /** `fireWith` once its call has been recorded: `before` is the list it acts on. */
    method SelfFireWith(p: Program<F, A>, args: A, ghost before: CbList<Fn<F>, A>)
      requires Of(p) && p.Floor(this)
      requires now == before.Trigger(args) && before.flags == flags && before.phase in {Idle, Running}
      requires Matches(before) && (before.queue.Some? ==> before.live)
      modifies p`pos, p`state, p`trace, p`now, p.lists
      ensures p.Calm() && Onward(old(p.Snap()), p.Snap(), -1)
      ensures firing == old(firing)
      ensures firing ==> p.trace == old(p.trace) && p.now == old(p.now) && now == old(now) && p.pos == old(p.pos)
      decreases p.Left(), Waiting(), 6
    {
      hide Program.Linked, Program.ReadyBut, Program.Floor, Program.Snap, Program.SameRest, Onward, Later, Joint.Next,
        Legal, Replay, Program.Calm;
      ghost var s := p.Mark(this);
      p.Knows(this);
      if stack.Some? {
        if firing {
          if !flags.once {
            stack := Some(stack.value + [args]);
          }
        } else if !(flags.once && memory != Unset) {
          assert [] + before.Whole() == before.Whole();
          Fire(p, args);
          return;
        }
      }
      p.Back(this, s, -1);
    }

    method FireWith(p: Program<F, A>, args: A)
      requires Of(p) && p.Calm()
      modifies p`pos, p`state, p`trace, p`now, p.lists
      ensures p.Calm() && Onward(old(p.Snap()), p.Snap(), -1)
      ensures old(events) + [Event.FireWith(args)] <= events
      ensures old(p.trace) + [OnList(id, Event.FireWith(args))] <= p.trace
      ensures firing == old(firing)
      ensures firing ==>
        && p.trace == old(p.trace) + [OnList(id, Event.FireWith(args))] && p.pos == old(p.pos)
        && now == old(now).DoFireWith(args)
      decreases p.Left(), Waiting(), 7
    {
      hide Program.Linked, Program.ReadyBut, Program.Floor, Program.Snap, Program.SameRest, Onward, Later, Joint.Next,
        Legal, Replay, Program.Calm;
      ghost var s, before := p.Mark(this), now;
      p.Takes(this);
      p.Did(this, Event.FireWith(args));
      p.Since(this, s, -1);
      ghost var t := p.Mark(this);
      SelfFireWith(p, args, before.(asked := before.asked + [args]));
      p.Relay(this, s, t, -1);
    }

    /** The inner loop of `remove`: splices out `fn` and shifts the loop's indices.
        `kept` and `pending` are what the array holds, before and after. */
    method RemoveOne(fn: Fn<F>, ghost kept: seq<Reg<Fn<F>>>, ghost pending: seq<Reg<Fn<F>>>)
      requires list == Some(Fns(kept + pending)) && (flags.unique ==> Distinct(kept + pending))
      requires firing ==> firingLength == |kept + pending| && firingIndex == |kept| - 1
      modifies this`list, this`firingLength, this`firingIndex
      ensures var gone := Matching(kept + pending, [fn]);
        var left, wait := Without(kept, gone), Without(pending, gone);
        && list == Some(Fns(left + wait))
        && (firing ==> firingLength == |left + wait| && firingIndex == |left| - 1)
    {
      hide Fns, Without, Partly, KeptLength, Matching;
      ghost var all, gone, cut := kept + pending, Matching(kept + pending, [fn]), |kept|;
      ghost var seen := 0;  // how much of `all` the loop has passed
      PartlyNone(all, gone, cut);
      var i := 0;
      while i < |list.value|
        invariant 0 <= seen <= |all| && i == |Without(all[..seen], gone)|
        invariant list == Some(Fns(Partly(all, gone, seen)))
        invariant firing ==> firingLength == |list.value|
        invariant firing ==> firingIndex == KeptLength(all, gone, cut, seen) - 1
        decreases |all| - seen
      {
        RemoveStep(all, gone, cut, seen, fn);
        seen := seen + 1;
        if fn == list.value[i] {
          if firing {
            if i <= firingLength {
              firingLength := firingLength - 1;
              if i <= firingIndex {
                firingIndex := firingIndex - 1;
              }
            }
          }
          list := Some(list.value[..i] + list.value[i + 1..]);
          i := i - 1;
          if flags.unique {
            NoneLeft(all, gone, seen, fn);
            break;
          }
        }
        i := i + 1;
      }
      PartlyEnd(all, gone, seen);
      KeptEnd(all, gone, cut, seen);
      WithoutConcat(kept, pending, gone);
      assert all[..cut] == kept;
    }

    method Remove(p: Program<F, A>, fns: seq<Fn<F>>)
      requires Of(p) && p.Linked() && Ready() && p.now.Enabled(OnList(id, Event.Remove(fns)))
      modifies this, p`trace, p`now
      ensures p.Linked() && Ready() && firing == old(firing) && now.current == old(now.current)
      ensures p.trace == old(p.trace) + [OnList(id, Event.Remove(fns))]
      ensures p.now == old(p.now).Next(OnList(id, Event.Remove(fns)))
      ensures events == old(events) + [Event.Remove(fns)] && now == old(now).DoRemove(fns)
      ensures called == old(called) && returned == old(returned)
      ensures list == if old(list).Some? then Some(Others(old(list).value, fns)) else None
    {
      hide Program.Linked, Program.ReadyBut, Program.Snap, Program.SameRest, Joint.Enabled, Joint.Next, Joint.Open,
        Legal, Replay, Fns, Without, Matching, Others;
      Known(p);
      ghost var before := now;
      if list.Some? {
        ghost var kept, pending := before.kept, before.pending;
        var argIndex := 0;
        MatchingNone(before.kept, before.Whole(), fns);
        MatchingNone(before.pending, before.Whole(), fns);
        while argIndex < |fns|
          invariant 0 <= argIndex <= |fns|
          invariant kept == Without(before.kept, Matching(before.Whole(), fns[..argIndex]))
          invariant pending == Without(before.pending, Matching(before.Whole(), fns[..argIndex]))
          invariant list == Some(Fns(kept + pending))
          invariant flags.unique ==> Distinct(kept + pending)
          invariant firing ==> firingLength == |kept + pending| && firingIndex == |kept| - 1
          modifies `list, `firingLength, `firingIndex
        {
          var fn := fns[argIndex];
          RemoveOne(fn, kept, pending);
          ghost var gone := Matching(kept + pending, [fn]);
          if flags.unique {
            WithoutDistinct(kept + pending, gone);
            WithoutConcat(kept, pending, gone);
          }
          assert forall r :: r in kept ==> r in kept + pending;
          assert forall r :: r in pending ==> r in kept + pending;
          MatchingMore(before.kept, before.Whole(), fns, argIndex, kept + pending);
          MatchingMore(before.pending, before.Whole(), fns, argIndex, kept + pending);
          kept, pending := Without(kept, gone), Without(pending, gone);
          argIndex := argIndex + 1;
        }
        assert fns[..argIndex] == fns;
        OthersLeft(before.Whole(), before.Whole(), fns);
        WithoutConcat(before.kept, before.pending, Matching(before.Whole(), fns));
      }
      p.Record(this, Event.Remove(fns));
    }

    method Disable(p: Program<F, A>)
      requires Of(p) && p.Linked() && Ready() && p.now.Enabled(OnList(id, Event.Disable))
      modifies this, p`trace, p`now
      ensures p.Linked() && Ready() && firing == old(firing) && now.current == old(now.current)
      ensures p.trace == old(p.trace) + [OnList(id, Event.Disable)]
      ensures p.now == old(p.now).Next(OnList(id, Event.Disable))
      ensures events == old(events) + [Event.Disable] && now == old(now).DoDisable()
      ensures called == old(called) && returned == old(returned)
      ensures list == None && stack == None && memory == Unset
    {
      hide Program.Linked, Program.ReadyBut, Program.Snap, Program.SameRest, Joint.Enabled, Joint.Next, Joint.Open,
        Legal, Replay;
      p.Record(this, Event.Disable);
      list, stack, memory := None, None, Unset;
    }

    method Lock(p: Program<F, A>)
      requires Of(p) && p.Linked() && Ready() && p.now.Enabled(OnList(id, Event.Lock))
      modifies this, p`trace, p`now
      ensures p.Linked() && Ready() && firing == old(firing) && now.current == old(now.current)
      ensures p.trace == old(p.trace) + [OnList(id, Event.Lock)] && p.now == old(p.now).Next(OnList(id, Event.Lock))
      ensures events == old(events) + [Event.Lock] && now == old(now).DoLock()
      ensures called == old(called) && returned == old(returned)
      ensures stack == None && (old(memory).Saved? ==> list == old(list)) && (!old(memory).Saved? ==> list == None)
    {
      hide Program.Linked, Program.ReadyBut, Program.Snap, Program.SameRest, Joint.Enabled, Joint.Next, Joint.Open,
        Legal, Replay;
      p.Record(this, Event.Lock);
      stack := None;
      if memory == Unset || memory == True {
        list, stack, memory := None, None, Unset;
      }
    }

    /** Not while the list fires: the loop's end is not taken back, so the loop would go
        on past the end of the new array. */
    method Empty(p: Program<F, A>)
      requires Of(p) && p.Linked() && Ready() && !firing && p.now.Enabled(OnList(id, Event.Empty))
      modifies this, p`trace, p`now
      ensures p.Linked() && Ready() && !firing
      ensures events == old(events) + [Event.Empty] && now == old(now).DoEmpty()
      ensures list == Some([]) && stack == old(stack) && memory == old(memory)
    {
      hide Program.Linked, Program.ReadyBut, Program.Snap, Program.SameRest, Joint.Enabled, Joint.Next, Joint.Open,
        Legal, Replay;
      p.Record(this, Event.Empty);
      list := Some([]);
    }

    /** `disabled`, `locked` and `fired`. */
    method Status() returns (disabled: bool, locked: bool, fired: bool)
      requires Ready()
      ensures disabled == !now.live && locked == now.queue.None? && fired == (now.memory != Unset)
    {
      return list.None?, stack.None?, memory != Unset;
    }
  }

  /** Lists used together, and the user code that their functions run. */
  class Program<F(==,!new), A> {
    const lists: seq<CallbackList<F, A>>

    /** What user code does, call by call, in the order the calls begin.  Nothing more is
        assumed about it, so it stands for any functions that return; when it is used up,
        functions return true at once. */
    const script: seq<Body<F, A>>
    var pos: nat

    /** The variable of the Deferred whose lists the first three are. */
    var state: State

    ghost var start: Joint<F, A>
    ghost var trace: seq<Happening<F, A>>
    ghost var now: Joint<F, A>

    ghost predicate Numbered() {
      forall k :: 0 <= k < |lists| ==> lists[k].id == k
    }

    /** The lists have the joint history that has been recorded. */
    ghost predicate Linked()
      reads `state, `start, `trace, `now, lists`events, lists`now
    {
      && LegalTrace(start, trace) && now == RunTrace(start, trace) && Started(start)
      && Numbered() && PermittedBodies(script, |lists|, now.hidden) && state == now.state
      && AllAimed(now) && CallOk(now) && |now.lists| == |lists|
      && (forall k :: 0 <= k < |lists| ==> lists[k].Recorded() && lists[k].now == now.lists[k])
    }

    ghost predicate ReadyBut(but: int)
      reads set k | 0 <= k < |lists| && k != but :: lists[k]
    {
      forall k :: 0 <= k < |lists| && k != but ==> lists[k].Ready()
    }

    /** Where user code runs. */
    ghost predicate Calm()
      reads this, lists
    {
      Linked() && now.call.NoCall? && ReadyBut(-1)
    }

    /** List `l` has the floor: it is not what it should be yet, the others are ready. */
    ghost predicate Floor(l: CallbackList<F, A>)
      reads `state, `start, `trace, `now, lists`events, lists`now, set k | 0 <= k < |lists| && k != l.id :: lists[k]
    {
      Linked() && now.call.NoCall? && ReadyBut(l.id)
    }

    /** How much user code is left. */
    function Left(): nat
      reads `pos
    {
      if pos <= |script| then |script| - pos else 0
    }

    /** What the next call of a user function returns. */
    function Answer(): bool
      reads `pos
    {
      if pos < |script| then script[pos].result else true
    }

    /** What a call of this function returns. */
    function AnswerOf(fn: Fn<F>): bool
      reads `pos
    {
      fn.Own? || Answer()
    }

    ghost function Shots(n: nat): (shots: seq<Shot<F, A>>)
      requires n <= |lists|
      reads lists`events, lists`called, lists`returned, lists`firing, lists`now
      ensures |shots| == n
      ensures forall k :: 0 <= k < n ==>
        shots[k] == lists[k].Look()
    {
      if n == 0 then [] else Shots(n - 1) + [lists[n - 1].Look()]
    }

    /** The other lists are as they were. */
    ghost predicate SameRest(but: nat, s: Snapshot<F, A>)
      requires |s.lists| == |lists|
      reads set k | 0 <= k < |lists| && k != but :: lists[k]
    {
      forall k :: 0 <= k < |lists| && k != but ==>
        s.lists[k] == lists[k].Look()
    }

    ghost function Snap(): (s: Snapshot<F, A>)
      reads `trace, `pos, lists`events, lists`called, lists`returned, lists`firing, lists`now
      ensures |s.lists| == |lists|
    {
      Snapshot(trace, Left(), Shots(|lists|))
    }

    /** The snapshot, as list `l` needs it. */
    ghost function Mark(l: CallbackList<F, A>): (s: Snapshot<F, A>)
      requires l.Of(this)
      reads this, lists
      ensures s == Snap() && |s.lists| == |lists| && s.lists[l.id] == l.Look()
      ensures s.trace == trace && s.left == Left() && SameRest(l.id, s)
    {
      Snap()
    }

    constructor (lists: seq<CallbackList<F, A>>, script: seq<Body<F, A>>, ghost hidden: nat)
      requires forall k :: 0 <= k < |lists| ==> lists[k].id == k && lists[k].Ready() && lists[k].events == []
      requires PermittedBodies(script, |lists|, hidden)
      ensures Calm() && this.lists == lists && this.script == script && state == Pending
      ensures now.state == Pending && now.call == NoCall && now.hidden == hidden && !now.sealed
      ensures |now.lists| == |lists| && forall k :: 0 <= k < |lists| ==> now.lists[k] == NewList(lists[k].flags)
    {
      this.lists, this.script, pos, state := lists, script, 0, Pending;
      start := Joint(seq(|lists|, k requires 0 <= k < |lists| => NewList(lists[k].flags)),
                     Pending, NoCall, hidden, false);
      now := start;
      trace := [];
    }

    /** One more event of list `l`. */
    ghost method Record(l: CallbackList<F, A>, e: Event<Fn<F>, A>)
      requires l.Of(this) && Linked() && now.Enabled(OnList(l.id, e))
      modifies `trace, `now, l`events, l`now
      ensures Linked() && l.Recorded()
      ensures trace == old(trace) + [OnList(l.id, e)] && now == old(now).Next(OnList(l.id, e))
      ensures l.events == old(l.events) + [e] && l.now == old(l.now).Step(e)
    {
      OneMore(start, trace, OnList(l.id, e));
      EventAllowed(now, l.id, e);
      OneMoreEvent(l.flags, l.events, e);
      hide AllAimed, CallOk, LegalTrace, RunTrace, Legal, Replay, Joint.Enabled, Joint.Next, CbList.Step,
        CbList.Enabled;
      NextAimed(now, OnList(l.id, e));
      l.now := l.now.Step(e);
      l.events := l.events + [e];
      trace := trace + [OnList(l.id, e)];
      now := now.Next(OnList(l.id, e));
    }

    /** User code uses list `l`, or its loop ends. */
    ghost method Did(l: CallbackList<F, A>, e: Event<Fn<F>, A>)
      requires l.Of(this) && Floor(l) && l.now.Enabled(e)
      requires !l.now.Enabled(Apply) && (e.End? || now.Open(l.id, e))
      modifies `trace, `now, l`events, l`now
      ensures Floor(l) && l.Recorded()
      ensures trace == old(trace) + [OnList(l.id, e)] && now == old(now).Next(OnList(l.id, e))
      ensures l.events == old(l.events) + [e] && l.now == old(l.now).Step(e)
    {
      hide Linked, Joint.Enabled, Joint.Next, CbList.Step;
      May(l, e);
      Record(l, e);
    }

    /** Its loop applies the next function. */
    ghost method DidApply(l: CallbackList<F, A>)
      requires l.Of(this) && Floor(l) && l.now.Enabled(Apply)
      modifies `trace, `now, l`events, l`now
      ensures Linked() && ReadyBut(l.id) && l.Recorded()
      ensures now.call == var fn := old(l.now.pending[0].fn); if fn.Own? then Due(l.id, fn.own) else NoCall
      ensures trace == old(trace) + [OnList(l.id, Apply)]
      ensures l.events == old(l.events) + [Apply] && l.now == old(l.now).DoApply()
    {
      hide Linked, Joint.Enabled, Joint.Next, CbList.DoApply;
      May(l, Apply);
      Record(l, Apply);
    }

    /** The function returns. */
    ghost method DidReturn(l: CallbackList<F, A>, result: bool)
      requires l.Of(this) && Linked() && ReadyBut(l.id) && l.now.phase == Running
      requires now.call.NoCall? || (now.call == Returning(l.id) && result)
      modifies `trace, `now, l`events, l`now
      ensures Floor(l) && l.Recorded()
      ensures trace == old(trace) + [OnList(l.id, Return(result))]
      ensures l.events == old(l.events) + [Return(result)] && l.now == old(l.now).DoReturn(result)
    {
      hide Linked, ReadyBut, Joint.Enabled, Joint.Next, CbList.DoReturn;
      MayReturn(l, result);
      Record(l, Return(result));
    }

    /** A Deferred's own function sets the variable. */
    method SetState(s: State)
      requires Linked() && now.Enabled(StateIs(s))
      modifies `state, `trace, `now
      ensures Linked() && state == s
      ensures trace == old(trace) + [StateIs(s)] && now == old(now).Next(StateIs(s))
    {
      OneMore(start, trace, StateIs(s));
      StateAllowed(now, s);
      hide AllAimed, CallOk, LegalTrace, RunTrace, Joint.Enabled, Joint.Next, CbList.Step, CbList.Enabled;
      NextAimed(now, StateIs(s));
      state := s;
      trace := trace + [StateIs(s)];
      now := now.Next(StateIs(s));
    }

    /** From here on own functions are no longer added, and the record begins anew. */
    ghost method Seal()
      requires Calm()
      modifies `start, `trace, `now
      ensures Calm() && trace == [] && start == now == old(now).(sealed := true)
    {
      now := now.(sealed := true);
      start, trace := now, [];
    }

    lemma AllReady(l: CallbackList<F, A>)
      requires l.Of(this)
      ensures ReadyBut(-1) <==> ReadyBut(l.id) && l.Ready()
    {
    }

    lemma Knows(l: CallbackList<F, A>)
      requires l.Of(this) && Floor(l)
      ensures l.Recorded() && l.now.flags == l.flags
      ensures !l.now.live ==> l.now.kept == [] && l.now.pending == [] && l.now.queue.None?
      ensures l.now.Enabled(End) ==> !l.now.Enabled(Apply)
    {
      l.Known(this);
    }

    /** User code turns to list `l`. */
    lemma Takes(l: CallbackList<F, A>)
      requires l.Of(this) && Calm()
      ensures Floor(l) && l.Ready() && l.now.flags == l.flags && !l.now.Enabled(Apply)
      ensures !l.now.live ==> l.now.kept == [] && l.now.pending == [] && l.now.queue.None?
      ensures l.now.phase == Idle ==> l.now.pending == []
      ensures l.now.phase != Idle ==> l.now.current.Some?
      ensures l.now.memory.Saved? ==> l.flags.memory
    {
      l.Known(this);
      AllReady(l);
    }

    /** It leaves it. */
    lemma Back(l: CallbackList<F, A>, s: Snapshot<F, A>, but: int)
      requires l.Of(this) && Floor(l) && l.Ready() && |s.lists| == |lists| && SameRest(l.id, s)
      requires s.trace <= trace && s.left >= Left()
      requires l.Since(s.lists[l.id], l.id != but)
      ensures Calm() && Onward(s, Snap(), but)
    {
      Since(l, s, but);
      AllReady(l);
    }

    /** A list has been used while `l` was as it is in `t`. */
    lemma Relay(l: CallbackList<F, A>, s: Snapshot<F, A>, t: Snapshot<F, A>, but: int)
      requires l.Of(this) && |t.lists| == |lists| && Onward(s, t, but) && Onward(t, Snap(), -1)
      ensures Onward(s, Snap(), but)
      ensures t.trace <= trace && t.left >= Left()
      ensures l.Since(t.lists[l.id], true)
    {
      OnwardTwice(s, t, Snap(), but, -1);
      Goes(l, t, -1);
    }

    /** What the snapshot says of list `l`. */
    lemma Goes(l: CallbackList<F, A>, t: Snapshot<F, A>, but: int)
      requires l.Of(this) && |t.lists| == |lists| && Onward(t, Snap(), but)
      ensures t.trace <= trace && t.left >= Left() && l.Since(t.lists[l.id], l.id != but)
    {
    }

    lemma Firings()
      ensures |Snap().lists| == |lists| && forall k :: 0 <= k < |lists| ==> Snap().lists[k].firing == lists[k].firing
    {
    }

    lemma SameFirings(s: Snapshot<F, A>)
      requires Onward(s, Snap(), -1)
      ensures |s.lists| == |lists| && forall k :: 0 <= k < |lists| ==> lists[k].firing == s.lists[k].firing
    {
      forall k | 0 <= k < |lists| ensures lists[k].firing == s.lists[k].firing {
        assert Later(s.lists[k], Snap().lists[k], true);
      }
    }

    lemma Rests(l: CallbackList<F, A>, s: Snapshot<F, A>)
      requires l.Of(this) && |s.lists| == |lists| && Onward(s, Snap(), l.id) && !l.firing && !s.lists[l.id].firing
      ensures Onward(s, Snap(), -1)
    {
    }

    lemma MayAddNow(l: CallbackList<F, A>, fns: seq<Fn<F>>)
      requires now.MayAdd(l.id, fns)
      ensures now.Open(l.id, Event.Add(fns))
    {
    }

    /** What a list may do next while the others are ready. */
    lemma May(l: CallbackList<F, A>, e: Event<Fn<F>, A>)
      requires l.Of(this) && Floor(l) && l.now.Enabled(e)
      requires e.Apply? || (!l.now.Enabled(Apply) && (e.Return? || e.End? || now.Open(l.id, e)))
      ensures now.Enabled(OnList(l.id, e))
      ensures now.Next(OnList(l.id, e)).call ==
        if e.Apply? && l.now.pending[0].fn.Own? then Due(l.id, l.now.pending[0].fn.own) else NoCall
    {
      forall k | 0 <= k < |lists| && k != l.id ensures !now.OwnNext(k) {
        assert lists[k].Ready();
      }
    }

    lemma MayReturn(l: CallbackList<F, A>, result: bool)
      requires l.Of(this) && Linked() && ReadyBut(l.id) && l.now.phase == Running
      requires now.call.NoCall? || (now.call == Returning(l.id) && result)
      ensures now.Enabled(OnList(l.id, Return(result))) && now.Next(OnList(l.id, Return(result))).call == NoCall
    {
      if now.call.NoCall? { May(l, Return(result)); }
    }

    /** An own function acts on another list than the one it is called by. */
    lemma OwnEffect(k: nat, own: Own)
      requires Linked() && now.call == Due(k, own)
      ensures k < |lists|
      ensures match own
        case SetState(s) => now.Enabled(StateIs(s)) && now.Next(StateIs(s)).call == Returning(k)
        case DisableList(j) =>
          && k != Place(j) < |lists| && now.Enabled(OnList(Place(j), Event.Disable))
          && now.Next(OnList(Place(j), Event.Disable)).call == Returning(k)
        case LockProgress =>
          && k != Place(Progress) < |lists| && now.Enabled(OnList(Place(Progress), Event.Lock))
          && now.Next(OnList(Place(Progress), Event.Lock)).call == Returning(k)
    {
    }

    lemma Here(k: nat)
      requires Linked() && k < |lists|
      ensures lists[k].Of(this) && lists[k].id == k && |now.lists| == |lists| && lists[k].now == now.lists[k]
      ensures state == now.state
    {
    }

    lemma NextDeed(i: nat, j: nat)
      requires Linked() && i < |script| && j < |script[i].deeds|
      ensures var (on, deed) := script[i].deeds[j]; on < |lists| && Permitted(on, deed, now.hidden)
    {
    }

    /** Only list `l` has changed since `s`. */
    lemma Since(l: CallbackList<F, A>, s: Snapshot<F, A>, but: int)
      requires l.Of(this) && |s.lists| == |lists| && SameRest(l.id, s)
      requires s.trace <= trace && s.left >= Left()
      requires l.Since(s.lists[l.id], l.id != but)
      ensures Onward(s, Snap(), but)
    {
    }

    /** A list calls the function it has just taken up. */
    method Call(k: nat, fn: Fn<F>, args: A) returns (result: bool)
      requires Linked() && ReadyBut(k) && k < |lists| && lists[k].Taking(fn, args)
      requires now.call == if fn.Own? then Due(k, fn.own) else NoCall
      modifies `pos, `state, `trace, `now, lists
      ensures Linked() && ReadyBut(k) && Onward(old(Snap()), Snap(), k) && lists[k].Leaving(result)
      ensures now.call == if fn.Own? then Returning(k) else NoCall
      ensures lists[k].firing == old(lists[k].firing) && lists[k].now.current == old(lists[k].now.current)
      ensures Entered(old(lists[k].called), lists[k].called, fn, args)
      ensures result == old(AnswerOf(fn)) && lists[k].returned == old(lists[k].returned) + [result]
      ensures fn.Ext? && old(pos) < |script| ==>
        pos > old(pos) && Carried(script[old(pos)].deeds, |old(trace)|, trace)
      ensures Left() < old(Left()) ||
        (Left() == old(Left())
         && lists[k].SameAs(old(lists[k].stack), old(lists[k].firingIndex), old(lists[k].firingLength)))
      decreases Left(), lists[k].Waiting(), 1
    {
      hide Linked, ReadyBut, Snap, SameRest, Onward, Later, Legal, Replay, Joint.Enabled, Joint.Next,
        Carried;
      Here(k);
      ghost var s := Mark(lists[k]);
      lists[k].Enter(fn, args);
      Since(lists[k], s, k);
      AllReady(lists[k]);
      ghost var t := Mark(lists[k]);
      OnwardSame(t, -1);
      match fn {
        case Own(own) =>
          CallOwn(k, own);
          result := true;
        case Ext(_) =>
          result := CallUser(k);
      }
      Goes(lists[k], t, -1);
      OnwardTwice(s, t, Snap(), k, -1);
      AllReady(lists[k]);
      ghost var u := Mark(lists[k]);
      lists[k].Leave(result);
      Since(lists[k], u, k);
      OnwardTwice(s, u, Snap(), k, k);
    }

    /** An own function of a Deferred. */
    method CallOwn(k: nat, own: Own)
      requires Linked() && ReadyBut(-1) && k < |lists| && now.call == Due(k, own)
      modifies `state, `trace, `now, set i | 0 <= i < |lists| && i != k :: lists[i]
      ensures Linked() && ReadyBut(-1) && Onward(old(Snap()), Snap(), -1) && now.call == Returning(k)
    {
      hide Linked, ReadyBut, Snap, SameRest, Onward, Later, Legal, Replay, Joint.Enabled, Joint.Next;
      OwnEffect(k, own);
      match own {
        case SetState(to) =>
          Here(k);
          ghost var s := Mark(lists[k]);
          SetState(to);
          Since(lists[k], s, -1);
        case DisableList(j) =>
          Here(Place(j));
          ghost var s := Mark(lists[Place(j)]);
          AllReady(lists[Place(j)]);
          lists[Place(j)].Disable(this);
          AllReady(lists[Place(j)]);
          Since(lists[Place(j)], s, -1);
        case LockProgress =>
          Here(Place(Progress));
          ghost var s := Mark(lists[Place(Progress)]);
          AllReady(lists[Place(Progress)]);
          lists[Place(Progress)].Lock(this);
          AllReady(lists[Place(Progress)]);
          Since(lists[Place(Progress)], s, -1);
      }
    }

    /** User code: it may do anything to the lists before it returns. */
    method CallUser(k: nat) returns (result: bool)
      requires Calm() && k < |lists|
      modifies `pos, `state, `trace, `now, lists
      ensures Calm() && Onward(old(Snap()), Snap(), -1)
      ensures result == old(Answer())
      ensures old(pos) < |script| ==> pos > old(pos) && Carried(script[old(pos)].deeds, |old(trace)|, trace)
      ensures Left() < old(Left()) ||
        (Left() == old(Left())
         && lists[k].SameAs(old(lists[k].stack), old(lists[k].firingIndex), old(lists[k].firingLength)))
      decreases Left(), lists[k].Waiting(), 0
    {
      hide Linked, ReadyBut, Snap, SameRest, Onward, Later, Legal, Replay, Joint.Enabled, Joint.Next, Carried,
        PermittedBodies;
      Here(k);
      ghost var s := Mark(lists[k]);
      OnwardSame(s, -1);
      if pos >= |script| {
        return true;
      }
      ghost var n := pos;
      var body := script[pos];
      pos := pos + 1;
      Since(lists[k], s, -1);
      var i := 0;
      CarriedNone(body.deeds, |old(trace)|, trace);
      while i < |body.deeds|
        invariant 0 <= i <= |body.deeds| && Calm() && Onward(s, Snap(), -1) && Left() < old(Left())
        invariant Carried(body.deeds[..i], |old(trace)|, trace) && old(trace) <= trace
        decreases |body.deeds| - i
      {
        NextDeed(n, i);
        ghost var u := Mark(lists[k]);
        Perform(body.deeds[i].0, body.deeds[i].1);
        Relay(lists[k], s, u, -1);
        CarriedMore(body.deeds, i, |old(trace)|, u.trace, trace);
        i := i + 1;
      }
      assert body.deeds[..i] == body.deeds;
      return body.result;
    }

    method Perform(on: nat, deed: Deed<F, A>)
      requires Calm() && on < |lists| && Permitted(on, deed, now.hidden)
      modifies `pos, `state, `trace, `now, lists
      ensures Calm() && Onward(old(Snap()), Snap(), -1)
      ensures old(trace) + [Asked(on, deed)] <= trace
      decreases Left(), lists[on].Waiting(), 8
    {
      hide Linked, ReadyBut, Snap, SameRest, Onward, Later, Legal, Replay, Joint.Enabled, Joint.Next, Flatten;
      Here(on);
      var l := lists[on];
      ghost var s := Mark(l);
      Takes(l);
      match deed {
        case DoAdd(args) => l.Add(this, args);
        case DoFireWith(a) => l.FireWith(this, a);
        case DoRemove(fns) =>
          May(l, Event.Remove(fns));
          l.Remove(this, fns);
          Back(l, s, -1);
        case DoDisable =>
          May(l, Event.Disable);
          l.Disable(this);
          Back(l, s, -1);
        case DoLock =>
          May(l, Event.Lock);
          l.Lock(this);
          Back(l, s, -1);
      }
    }
  }

  lemma OnwardSame<F, A>(s: Snapshot<F, A>, but: int)
    ensures Onward(s, s, but)
  {
  }

  lemma OneMore<F(!new), A>(start: Joint<F, A>, trace: seq<Happening<F, A>>, h: Happening<F, A>)
    requires LegalTrace(start, trace) && RunTrace(start, trace).Enabled(h)
    ensures LegalTrace(start, trace + [h]) && RunTrace(start, trace + [h]) == RunTrace(start, trace).Next(h)
  {
    hide Joint.Enabled, Joint.Next;
    assert (trace + [h])[..|trace + [h]| - 1] == trace;
  }

  lemma EventAllowed<F(!new), A>(j: Joint<F, A>, k: nat, e: Event<Fn<F>, A>)
    requires j.Enabled(OnList(k, e))
    ensures k < |j.lists| && j.lists[k].Enabled(e)
    ensures var t := j.Next(OnList(k, e));
      t.lists == j.lists[k := j.lists[k].Step(e)] && t.state == j.state && t.hidden == j.hidden
  {
    hide CbList.Step, CbList.Enabled;
  }

  lemma StateAllowed<F(!new), A>(j: Joint<F, A>, s: State)
    requires j.Enabled(StateIs(s))
    ensures var t := j.Next(StateIs(s)); t.lists == j.lists && t.state == s && t.hidden == j.hidden
  {
  }
}
