/** jQuery's search through prefilters and transports.  A handler may answer with a
    data type, which redirects a search that only executes (prefilters) to that type. */
module Prefilters {

  type Name = string

  /** What a handler returns: a data type, another true value, or a false one. */
  datatype Answer = Type(name: Name) | Chosen(value: nat) | Nothing

  type Entry = (Name, nat)

  /** How many handlers each data type has.  `answer` says what each returns. */
  type Structure = map<Name, nat>

  function Length(structure: Structure, dataType: Name): nat {
    if dataType in structure then structure[dataType] else 0
  }

  const ANY: Name := "*"

  function Types(structure: Structure): set<Name> { structure.Keys + {ANY} }

  ghost predicate Once(calls: seq<Entry>) {
    forall i, j :: 0 <= i < j < |calls| ==> calls[i] != calls[j]
  }

  /** All handlers of the data types `names` have been called, and no others. */
  ghost predicate AllCalled(structure: Structure, names: set<Name>, calls: seq<Entry>) {
    forall e: Entry :: e in calls <==> e.0 in names && e.1 < Length(structure, e.0)
  }

  ghost predicate Names(answer: Entry -> Answer, calls: seq<Entry>, name: Name) {
    exists e :: e in calls && answer(e) == Type(name)
  }

  /** Every type inspected since `base` is the one asked for, the catch-all, or named by a handler. */
  ghost predicate Explained(
      answer: Entry -> Answer, base: set<Name>, dataType: Name, inspected: set<Name>, calls: seq<Entry>) {
    forall n :: n in inspected ==> n in base || n in {dataType, ANY} || Names(answer, calls, n)
  }

  /** Every type a handler has named since `from` has been inspected. */
  ghost predicate Closed(answer: Entry -> Answer, from: nat, calls: seq<Entry>, inspected: set<Name>) {
    forall i :: from <= i < |calls| && answer(calls[i]).Type? ==> answer(calls[i]).name in inspected
  }

  lemma ExplainedNested(answer: Entry -> Answer, base: set<Name>, dataType: Name, inspected: set<Name>,
                        calls: seq<Entry>, other: Name, inspected': set<Name>, calls': seq<Entry>)
    requires Explained(answer, base, dataType, inspected, calls)
    requires Explained(answer, inspected, other, inspected', calls')
    requires calls <= calls' && (other in {dataType, ANY} || Names(answer, calls, other))
    ensures Explained(answer, base, dataType, inspected', calls')
  {
    forall n | Names(answer, calls, n) ensures Names(answer, calls', n) {
      var e :| e in calls && answer(e) == Type(n);
      assert e in calls';
    }
  }

  lemma ClosedNested(answer: Entry -> Answer, from: nat, calls: seq<Entry>, inspected: set<Name>,
                     calls': seq<Entry>, inspected': set<Name>)
    requires from <= |calls| && calls <= calls' && inspected <= inspected'
    requires Closed(answer, from, calls, inspected) && Closed(answer, |calls|, calls', inspected')
    ensures Closed(answer, from, calls', inspected')
  {
  }

  function Named(a: Answer): set<Name> { if a.Type? then {a.name} else {} }

  lemma OneMoreCall(answer: Entry -> Answer, base: set<Name>, from: nat, dataType: Name, inspected: set<Name>,
                    calls: seq<Entry>, e: Entry)
    requires from <= |calls| && Explained(answer, base, dataType, inspected, calls)
    ensures Explained(answer, base, dataType, inspected, calls + [e])
    ensures Closed(answer, from, calls, inspected) ==> Closed(answer, from, calls + [e], inspected + Named(answer(e)))
    ensures answer(e).Type? ==> Names(answer, calls + [e], answer(e).name)
  {
    assert e in calls + [e];
    forall n | Names(answer, calls, n) ensures Names(answer, calls + [e], n) {
      var c :| c in calls && answer(c) == Type(n);
      assert c in calls + [e];
    }
  }

  /** The calls are, without repetition, the first `reached[n]` handlers of each type `n`. */
  ghost predicate CallsAre(structure: Structure, calls: seq<Entry>, reached: map<Name, nat>) {
    && Once(calls)
    && (forall n :: n in reached ==> reached[n] <= Length(structure, n))
    && (forall e: Entry :: e in calls <==> e.0 in reached && e.1 < reached[e.0])
  }

  lemma NewType(structure: Structure, calls: seq<Entry>, reached: map<Name, nat>, dataType: Name)
    requires CallsAre(structure, calls, reached) && dataType !in reached
    ensures CallsAre(structure, calls, reached[dataType := 0])
  {
  }

  /** The choice of a search that stops at the first: the first handler of the type,
      from `from` on, that answers with a value other than a data type. */
  function FirstChosen(structure: Structure, answer: Entry -> Answer, dataType: Name, from: nat): Answer
    decreases Length(structure, dataType) - from
  {
    if from >= Length(structure, dataType) then Nothing
    else if answer((dataType, from)).Chosen? then answer((dataType, from))
    else FirstChosen(structure, answer, dataType, from + 1)
  }

  /** What a transport search selects: by the type's own handlers, else by the catch-all's. */
  function Selected(structure: Structure, answer: Entry -> Answer, dataType: Name, inspected: set<Name>): Answer {
    var own := FirstChosen(structure, answer, dataType, 0);
    if own.Chosen? || dataType == ANY || ANY in inspected then own else FirstChosen(structure, answer, ANY, 0)
  }

  /** Handler `i` of this type is the first of the type that makes a choice. */
  ghost predicate Chooses(structure: Structure, answer: Entry -> Answer, dataType: Name, i: nat) {
    && i < Length(structure, dataType) && answer((dataType, i)).Chosen?
    && forall j :: 0 <= j < i ==> !answer((dataType, j)).Chosen?
  }

  lemma {:induction false} FirstChosenIs(structure: Structure, answer: Entry -> Answer, dataType: Name, from: nat)
    requires forall j :: 0 <= j < from && j < Length(structure, dataType) ==> !answer((dataType, j)).Chosen?
    ensures var c := FirstChosen(structure, answer, dataType, from);
      && (c.Chosen? ==> exists i :: Chooses(structure, answer, dataType, i))
      && forall i :: Chooses(structure, answer, dataType, i) ==> c == answer((dataType, i))
    decreases Length(structure, dataType) - from
  {
    if from < Length(structure, dataType) {
      if answer((dataType, from)).Chosen? {
        assert Chooses(structure, answer, dataType, from);
      } else {
        FirstChosenIs(structure, answer, dataType, from + 1);
      }
    }
  }

  /** What a transport search is to select: what the first of the type's handlers to choose
      has chosen, else the first of the catch-all's, else nothing. */
  ghost predicate Selects(structure: Structure, answer: Entry -> Answer, dataType: Name, selection: Answer) {
    && (forall i :: Chooses(structure, answer, dataType, i) ==> selection == answer((dataType, i)))
    && ((forall i :: !Chooses(structure, answer, dataType, i)) ==>
          && (forall i :: Chooses(structure, answer, ANY, i) ==> selection == answer((ANY, i)))
          && ((forall i :: !Chooses(structure, answer, ANY, i)) ==> !selection.Chosen?))
  }

  lemma SelectedSelects(structure: Structure, answer: Entry -> Answer, dataType: Name)
    ensures Selects(structure, answer, dataType, Selected(structure, answer, dataType, {}))
  {
    FirstChosenIs(structure, answer, dataType, 0);
    FirstChosenIs(structure, answer, ANY, 0);
    hide Chooses, FirstChosen;
  }

  /** From `before` to `after` the types that handlers named have been put in front, each
      once: they are all that has been inspected besides the type asked for and the catch-all. */
  ghost predicate Redirected(answer: Entry -> Answer, before: seq<Name>, after: seq<Name>, base: set<Name>,
                             dataType: Name, inspected: set<Name>, calls: seq<Entry>) {
    && |before| <= |after| && after[|after| - |before|..] == before
    && var front := after[..|after| - |before|];
    && (forall n :: n in front ==> n in inspected && n !in base && n != dataType && Names(answer, calls, n))
    && (forall i, j :: 0 <= i < j < |front| ==> front[i] != front[j])
    && (forall n :: n in inspected ==> n in base || n in {dataType, ANY} || n in front)
  }

  lemma NamesLater(answer: Entry -> Answer, calls: seq<Entry>, calls': seq<Entry>, n: Name)
    requires calls <= calls' && Names(answer, calls, n)
    ensures Names(answer, calls', n)
  {
    var e :| e in calls && answer(e) == Type(n);
    assert e in calls';
  }

  lemma NotRedirected(answer: Entry -> Answer, types: seq<Name>, base: set<Name>, dataType: Name, calls: seq<Entry>)
    ensures Redirected(answer, types, types, base, dataType, base + {dataType}, calls)
  {
  }

  lemma RedirectedLater(answer: Entry -> Answer, before: seq<Name>, after: seq<Name>, base: set<Name>,
                        dataType: Name, inspected: set<Name>, calls: seq<Entry>, calls': seq<Entry>)
    requires Redirected(answer, before, after, base, dataType, inspected, calls) && calls <= calls'
    ensures Redirected(answer, before, after, base, dataType, inspected, calls')
  {
    forall n | Names(answer, calls, n) ensures Names(answer, calls', n) { NamesLater(answer, calls, calls', n); }
    hide Names;
  }

  /** The search goes on with another type, put in front (or the catch-all, which is not). */
  lemma RedirectedNested(answer: Entry -> Answer, before: seq<Name>, after: seq<Name>, base: set<Name>,
                         dataType: Name, inspected: set<Name>, calls: seq<Entry>, other: Name, put: seq<Name>,
                         after': seq<Name>, inspected': set<Name>, calls': seq<Entry>)
    requires Redirected(answer, before, after, base, dataType, inspected, calls)
    requires base + {dataType} <= inspected && other !in inspected && inspected + {other} <= inspected'
    requires calls <= calls'
    requires (put == [] && other == ANY) || (put == [other] && Names(answer, calls, other))
    requires Redirected(answer, put + after, after', inspected, other, inspected', calls')
    ensures Redirected(answer, before, after', base, dataType, inspected', calls')
  {
    RedirectedLater(answer, before, after, base, dataType, inspected, calls, calls');
    if put != [] { NamesLater(answer, calls, calls', other); }
    hide Names;
    var front, more := after[..|after| - |before|], after'[..|after'| - |put + after|];
    assert after == front + before;
    assert after' == more + (put + after);
    assert after' == (more + put + front) + before;
    var all := more + put + front;
    assert after'[..|after'| - |before|] == all && after'[|after'| - |before|..] == before;
    forall i, j | 0 <= i < j < |all| ensures all[i] != all[j] {
      Distinct3(more, put, front, inspected, other, i, j);
    }
  }

  lemma Distinct3(more: seq<Name>, put: seq<Name>, front: seq<Name>, inspected: set<Name>, other: Name, i: nat, j: nat)
    requires i < j < |more + put + front| && other !in inspected && (put == [] || put == [other])
    requires forall n :: n in more ==> n !in inspected && n != other
    requires forall n :: n in front ==> n in inspected
    requires forall i, j :: 0 <= i < j < |more| ==> more[i] != more[j]
    requires forall i, j :: 0 <= i < j < |front| ==> front[i] != front[j]
    ensures (more + put + front)[i] != (more + put + front)[j]
  {
    var m, p := |more|, |put|;
    assert i < m ==> more[i] in more;
    assert j < m ==> more[j] in more;
    assert i >= m + p ==> front[i - m - p] in front;
    assert j >= m + p ==> front[j - m - p] in front;
  }

  class Search {
    const structure: Structure
    const answer: Entry -> Answer
    const executeOnly: bool
    var inspected: set<Name>
    var dataTypes: seq<Name>
    var calls: seq<Entry>               // the handlers called, in order
    ghost var reached: map<Name, nat>   // how many of each inspected type

    constructor (structure: Structure, answer: Entry -> Answer, executeOnly: bool, dataTypes: seq<Name>)
      ensures this.structure == structure && this.answer == answer && this.executeOnly == executeOnly
      ensures this.dataTypes == dataTypes && inspected == {} && calls == [] && reached == map[] && Valid()
    {
      this.structure, this.answer, this.executeOnly, this.dataTypes := structure, answer, executeOnly, dataTypes;
      inspected, calls, reached := {}, [], map[];
    }

    ghost predicate Valid()
      reads this
    {
      reached.Keys == inspected && CallsAre(structure, calls, reached)
    }

    /** `list[ i ](...)` */
    method CallHandler(dataType: Name, i: nat) returns (selection: Answer)
      requires Valid() && dataType in reached && reached[dataType] == i < Length(structure, dataType)
      modifies `calls, `reached
      ensures Valid() && calls == old(calls) + [(dataType, i)] && reached == old(reached)[dataType := i + 1]
      ensures selection == answer((dataType, i))
    {
      assert (dataType, i) !in calls;
      selection := answer((dataType, i));
      calls := calls + [(dataType, i)];
      reached := reached[dataType := i + 1];
    }

    /** `inspectPrefiltersOrTransports`.  It terminates whatever the handlers answer, and
        calls no handler twice.  A search that executes calls all handlers of every type it
        inspects, inspects the catch-all and every type a handler names, and no others. */
    method Inspect(dataType: Name) returns (selection: Answer)
      requires Valid() && dataType !in inspected
      modifies this
      ensures Searched(old(inspected), old(calls), old(reached), old(dataTypes), dataType)
      ensures executeOnly ==> ANY in inspected
      ensures !executeOnly ==> selection == Selected(structure, answer, dataType, old(inspected))
      decreases Types(structure) - inspected, if dataType in Types(structure) then 0 else 1, 0
    {
      hide CallsAre, Valid, UnderWay, Searched;
      ghost var base, calls0, reached0, types0 := inspected, calls, reached, dataTypes;
      KeysInspected();
      inspected := inspected + {dataType};
      reached := reached[dataType := 0];
      Begins(base, calls0, reached0, types0, dataType);
      selection := Nothing;
      var i := 0;
      while i < Length(structure, dataType) && (executeOnly || !selection.Chosen?)
        invariant 0 <= i <= Length(structure, dataType) && UnderWay(base, calls0, reached0, types0, dataType, i)
        invariant base + {dataType} <= inspected
        invariant !executeOnly ==> inspected == base + {dataType} && !selection.Type?
        invariant !executeOnly ==>
          (FirstChosen(structure, answer, dataType, 0)
           == if selection.Chosen? then selection else FirstChosen(structure, answer, dataType, i))
      {
        selection := Turn(dataType, i, base, calls0, reached0, types0);
        i := i + 1;
      }
      if (executeOnly || !selection.Chosen?) && ANY !in inspected {
        selection := InspectCatchAll(dataType, i, base, calls0, reached0, types0);
      } else {
        Ends(base, calls0, reached0, types0, dataType, i);
      }
    }

    /** What a search through `dataType` begun in the state given has done.  One that executes
        has called all handlers of the types it has inspected, and inspected every type that
        a handler has named, and no others but `dataType` and the catch-all. */
    ghost predicate Searched(base: set<Name>, calls0: seq<Entry>, reached0: map<Name, nat>, types0: seq<Name>,
                             dataType: Name)
      reads this
    {
      && Valid() && calls0 <= calls && reached0.Keys == base && base + {dataType} <= inspected
      && (forall n :: n in reached0 ==> reached[n] == reached0[n])
      && Explained(answer, base, dataType, inspected, calls)
      && Redirected(answer, types0, dataTypes, base, dataType, inspected, calls)
      && (!executeOnly ==> dataTypes == types0)
      && (executeOnly ==>
            && Closed(answer, |calls0|, calls, inspected)
            && forall n :: n in inspected && n !in base ==> reached[n] == Length(structure, n))
    }

    lemma KeysInspected()
      requires Valid()
      ensures reached.Keys == inspected && CallsAre(structure, calls, reached)
    {
    }

    lemma Begins(base: set<Name>, calls0: seq<Entry>, reached0: map<Name, nat>, types0: seq<Name>, dataType: Name)
      requires reached0.Keys == base && CallsAre(structure, calls0, reached0) && dataType !in base
      requires calls == calls0 && dataTypes == types0
      requires inspected == base + {dataType} && reached == reached0[dataType := 0]
      ensures UnderWay(base, calls0, reached0, types0, dataType, 0)
    {
      NewType(structure, calls0, reached0, dataType);
      NotRedirected(answer, types0, base, dataType, calls0);
      hide CallsAre, Redirected, Names;
    }

    lemma Ends(base: set<Name>, calls0: seq<Entry>, reached0: map<Name, nat>, types0: seq<Name>, dataType: Name, i: nat)
      requires UnderWay(base, calls0, reached0, types0, dataType, i)
      requires executeOnly ==> i == Length(structure, dataType)
      ensures Searched(base, calls0, reached0, types0, dataType)
    {
      hide CallsAre, Explained, Closed, Names, Redirected;
    }

    /** The tail of `inspectPrefiltersOrTransports`: the catch-all type is searched too. */
    method InspectCatchAll(dataType: Name, ghost i: nat, ghost base: set<Name>, ghost calls0: seq<Entry>,
                           ghost reached0: map<Name, nat>, ghost types0: seq<Name>) returns (selection: Answer)
      requires UnderWay(base, calls0, reached0, types0, dataType, i) && ANY !in inspected
      requires executeOnly ==> i == Length(structure, dataType)
      modifies this
      ensures Searched(base, calls0, reached0, types0, dataType) && ANY in inspected
      ensures !executeOnly ==> selection == Selected(structure, answer, ANY, old(inspected))
      decreases Types(structure) - inspected, if ANY in Types(structure) then 0 else 1, 1
    {
      hide CallsAre, Explained, Closed, Names, Redirected;
      ghost var here, before, types := calls, inspected, dataTypes;
      selection := Inspect(ANY);
      ExplainedNested(answer, base, dataType, before, here, ANY, inspected, calls);
      assert [] + types == types;
      RedirectedNested(answer, types0, types, base, dataType, before, here, ANY, [], dataTypes, inspected, calls);
      if executeOnly { ClosedNested(answer, |calls0|, here, before, calls, inspected); }
    }

    /** The search through `dataType`, begun in the state given, has called `i` handlers of it. */
    ghost predicate UnderWay(base: set<Name>, calls0: seq<Entry>, reached0: map<Name, nat>, types0: seq<Name>,
                             dataType: Name, i: nat)
      reads this
    {
      && Valid() && calls0 <= calls && reached0.Keys == base
      && base + {dataType} <= inspected && dataType !in base && reached[dataType] == i
      && (forall n :: n in reached0 ==> reached[n] == reached0[n])
      && Explained(answer, base, dataType, inspected, calls)
      && Redirected(answer, types0, dataTypes, base, dataType, inspected, calls)
      && (!executeOnly ==> dataTypes == types0)
      && (executeOnly ==>
            && Closed(answer, |calls0|, calls, inspected)
            && forall n :: n in inspected && n !in base && n != dataType ==> reached[n] == Length(structure, n))
    }

    /** One turn of the loop: calls the handler and follows its redirection. */
    method Turn(dataType: Name, i: nat, ghost base: set<Name>, ghost calls0: seq<Entry>, ghost reached0: map<Name, nat>,
                ghost types0: seq<Name>) returns (selection: Answer)
      requires UnderWay(base, calls0, reached0, types0, dataType, i) && i < Length(structure, dataType)
      modifies this
      ensures UnderWay(base, calls0, reached0, types0, dataType, i + 1) && old(inspected) <= inspected
      ensures !executeOnly ==>
        (inspected == old(inspected)
         && selection == if answer((dataType, i)).Type? then Nothing else answer((dataType, i)))
      decreases Types(structure) - inspected, 2, 0
    {
      hide CallsAre, Explained, Closed, Names, Redirected;
      ghost var before := calls;
      selection := CallHandler(dataType, i);
      OneMoreCall(answer, base, |calls0|, dataType, inspected, before, (dataType, i));
      RedirectedLater(answer, types0, dataTypes, base, dataType, inspected, before, calls);
      assert inspected + {} == inspected;
      if selection.Type? {
        var other := selection.name;
        if !executeOnly || other in inspected {
          selection := Nothing;
          assert executeOnly ==> inspected + {other} == inspected;
        } else {
          ghost var here, reason, types := calls, inspected, dataTypes;
          dataTypes := [other] + dataTypes;
          selection := Inspect(other);
          RedirectedNested(answer, types0, types, base, dataType, reason, here, other, [other], dataTypes, inspected,
                           calls);
          ExplainedNested(answer, base, dataType, reason, here, other, inspected, calls);
          ClosedNested(answer, |calls0|, here, reason + {other}, calls, inspected);
        }
      }
    }
  }

  /** A whole search, on options with at least one data type.  Each handler is called at
      most once.  A prefilter search calls exactly the handlers of the inspected types,
      which are the options' first type, the catch-all, and what handlers name, closed
      under naming; a transport search selects the first choice of its type's handlers
      or else of the catch-all's.  The types that handlers named have been put in front of
      the options' own. */
  method InspectAll(structure: Structure, answer: Entry -> Answer, executeOnly: bool, dataTypes: seq<Name>)
    returns (selection: Answer, calls: seq<Entry>, inspected: set<Name>, types: seq<Name>)
    requires dataTypes != []
    ensures Once(calls)
    ensures executeOnly ==>
      && {dataTypes[0], ANY} <= inspected && AllCalled(structure, inspected, calls)
      && Closed(answer, 0, calls, inspected) && Explained(answer, {}, dataTypes[0], inspected, calls)
    ensures Redirected(answer, dataTypes, types, {}, dataTypes[0], inspected, calls)
    ensures !executeOnly ==> types == dataTypes && Selects(structure, answer, dataTypes[0], selection)
  {
    var search := new Search(structure, answer, executeOnly, dataTypes);
    selection := search.Inspect(dataTypes[0]);
    calls, inspected, types := search.calls, search.inspected, search.dataTypes;
    SelectedSelects(structure, answer, dataTypes[0]);
  }
}
