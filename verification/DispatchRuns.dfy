/** Proofs about every run of the dispatch protocol. */
module DispatchRuns {
  import opened Wrappers
  import opened Tasks
  import opened DispatchSpec

  // ---- Safety ----

  /** One step: rows are never removed, never move backwards, and keep their payload. */
  lemma StepForward(s: Sys, step: Step, u: Uuid)
    requires RowsOk(s) && s.Enabled(step) && u in s.rows
    ensures u in s.Next(step).rows
    ensures Rank(s.rows[u].state) <= Rank(s.Next(step).rows[u].state)
    ensures s.Next(step).rows[u].payload == s.rows[u].payload
  {
  }

  lemma Forward(s: Sys, step: Step)
    requires RowsOk(s) && s.Enabled(step)
    ensures forall u :: u in s.rows ==>
      u in s.Next(step).rows && Rank(s.rows[u].state) <= Rank(s.Next(step).rows[u].state)
  {
    forall u | u in s.rows
      ensures u in s.Next(step).rows && Rank(s.rows[u].state) <= Rank(s.Next(step).rows[u].state)
    {
      StepForward(s, step, u);
    }
  }

  lemma SafeRows(s: Sys)
    requires Safe(s)
    ensures RowsOk(s)
  {
  }

  lemma FromOneStays(s: Sys, t: Sys, row: Task)
    requires s.addressed <= t.addressed && FromOneMessage(s, row)
    ensures FromOneMessage(t, row)
  {
    var r :| Addressed(row.uuid, r) in s.addressed && ReturnedBy(row, r);
    assert Addressed(row.uuid, r) in t.addressed;
  }

  lemma StepRows(s: Sys, step: Step)
    requires RowsOk(s) && s.Enabled(step)
    ensures RowsOk(s.Next(step)) && s.addressed <= s.Next(step).addressed
  {
    hide FromOneMessage, GoodCopy, Sys.Next;
    StepAddressed(s, step);
    StepFromOne(s, step);
    StepCopies(s, step);
  }

  lemma StepAddressed(s: Sys, step: Step)
    requires s.Enabled(step)
    ensures s.addressed <= s.Next(step).addressed && s.built <= s.Next(step).built
  {
  }

  /** What one step does to a row: nothing, or it writes a row of its own making. */
  lemma StepFromOne(s: Sys, step: Step)
    requires RowsOk(s) && s.Enabled(step)
    ensures var t := s.Next(step);
      forall u :: u in t.rows ==>
        t.rows[u].uuid == u && !t.rows[u].noTask && (t.rows[u].state == COMPLETE ==> FromOneMessage(t, t.rows[u]))
  {
    hide FromOneMessage;
    var t := s.Next(step);
    StepAddressed(s, step);
    forall u | u in t.rows && t.rows[u].state == COMPLETE ensures FromOneMessage(t, t.rows[u]) {
      assert FromOneMessage(s, t.rows[u]);
      FromOneStays(s, t, t.rows[u]);
    }
  }

  lemma CopyStays(s: Sys, step: Step, copy: Task)
    requires RowsOk(s) && s.Enabled(step) && GoodCopy(s, copy) && s.addressed <= s.Next(step).addressed
    ensures GoodCopy(s.Next(step), copy)
  {
    StepForward(s, step, copy.uuid);
    FromOneStays(s, s.Next(step), copy);
  }

  lemma StepCopies(s: Sys, step: Step)
    requires RowsOk(s) && s.Enabled(step) && s.addressed <= s.Next(step).addressed
    ensures var t := s.Next(step);
      && (t.server.Saving? ==> GoodCopy(t, t.server.copy) && CopyOf(t.codec, t.server.req, t.server.copy))
      && (t.receiver.Storing? ==> GoodCopy(t, t.receiver.copy))
  {
    hide GoodCopy;
    var t := s.Next(step);
    if t.server.Saving? {
      if s.server.Saving? {
        CopyStays(s, step, t.server.copy);
      } else {
        ReadCopy(t, s.rows[t.server.copy.uuid], Parse(s.codec, s.server.req.body).task);
      }
    }
    if t.receiver.Storing? {
      if s.receiver.Storing? {
        CopyStays(s, step, t.receiver.copy);
      } else {
        ReadCopy(t, s.rows[step.uuid], s.codec.decode(step.body).value);
      }
    }
  }

  lemma ReadCopy(t: Sys, row: Task, r: Task)
    requires row.uuid in t.rows && t.rows[row.uuid] == row && !row.noTask && Addressed(row.uuid, r) in t.addressed
    ensures GoodCopy(t, Completed(row, r))
  {
    CompletedFromOne(t, row, r);
  }

  lemma CompletedFromOne(s: Sys, row: Task, r: Task)
    requires Addressed(row.uuid, r) in s.addressed
    ensures FromOneMessage(s, Completed(row, r))
  {
  }

  lemma StepDispatched(s: Sys, step: Step)
    requires Safe(s) && s.Enabled(step)
    ensures DispatchedOnce(s.Next(step))
  {
    hide RowsOk, Correlated;
    assert RowsOk(s) by { SafeRows(s); }
    Forward(s, step);
    StepHandsOut(s, step);
    hide Sys.Next;
    HandedOutOnce(s, s.Next(step));
  }

  lemma HandedOutOnce(s: Sys, t: Sys)
    requires DispatchedOnce(s)
    requires forall u :: u in s.rows ==> u in t.rows && Rank(s.rows[u].state) <= Rank(t.rows[u].state)
    requires t.built == s.built ||
      (|t.built| == |s.built| + 1 && s.built == t.built[..|s.built|]
       && var task := t.built[|s.built|].task;
          task.Some? ==> task.value in s.rows && s.rows[task.value].state == PENDING
                         && task.value in t.rows && t.rows[task.value].state == SENT)
    ensures DispatchedOnce(t)
  {
    if t.built != s.built {
      assert forall i :: 0 <= i < |s.built| ==> t.built[i] == s.built[i];
    }
  }

  /** A step makes at most one reply, and hands out only a task pending until then. */
  lemma StepHandsOut(s: Sys, step: Step)
    requires s.Enabled(step)
    ensures var t := s.Next(step);
      t.built == s.built ||
      (|t.built| == |s.built| + 1 && s.built == t.built[..|s.built|]
       && var task := t.built[|s.built|].task;
          task.Some? ==> task.value in s.rows && s.rows[task.value].state == PENDING
                         && task.value in t.rows && t.rows[task.value].state == SENT)
  {
  }

  lemma BuiltStays(s: Sys, t: Sys, req: Request, body: Bytes)
    requires s.built <= t.built && WasBuilt(s, req, body)
    ensures WasBuilt(t, req, body)
  {
    var i :| 0 <= i < |s.built| && s.built[i].req == req && s.built[i].body == body;
    assert t.built[i] == s.built[i];
  }

  lemma JustBuilt(s: Sys, req: Request, body: Bytes, task: Option<Uuid>)
    ensures WasBuilt(s.Build(req, body, task), req, body)
  {
    assert s.Build(req, body, task).built[|s.built|] == Built(req, body, task);
  }

  /** The server's own part: what it is about to send is on record. */
  lemma StepBuilt(s: Sys, step: Step)
    requires Correlated(s) && s.Enabled(step) && s.built <= s.Next(step).built
    ensures var t := s.Next(step); t.server.Replying? ==> WasBuilt(t, t.server.req, t.server.body)
  {
    hide WasBuilt;
    var t := s.Next(step);
    if t.server.Replying? {
      if s.server.Replying? {
        BuiltStays(s, t, t.server.req, t.server.body);
      } else {
        JustBuilt(s, t.server.req, t.server.body, t.server.task);
        BuiltStays(s.Build(t.server.req, t.server.body, t.server.task), t, t.server.req, t.server.body);
      }
    }
  }

  lemma StepPublished(s: Sys, step: Step)
    requires Correlated(s) && s.Enabled(step)
    ensures var t := s.Next(step);
      && (forall x :: x in s.published ==> x in t.published && t.published[x] == s.published[x])
      && (forall x :: x in t.published ==> t.published[x].corrId == x)
      && (forall w :: w in t.workers && t.workers[w].Waiting? ==>
            t.workers[w].corrId in t.published && t.published[t.workers[w].corrId].client == w)
  {
    hide WasBuilt, Sys.DoHandle, Sys.DoReceiverRead;
    if !step.Ask? && !step.Finish? { SameTalk(s, step); }
  }

  lemma SameTalk(s: Sys, step: Step)
    requires s.Enabled(step) && !step.Ask? && !step.Finish?
    ensures s.Next(step).published == s.published
    ensures !step.Consume? && !step.Abandon? ==> s.Next(step).workers == s.workers
  {
  }

  lemma StepRequests(s: Sys, step: Step)
    requires Correlated(s) && s.Enabled(step)
    ensures var t := s.Next(step);
      && (forall q :: q in t.queue ==> IsPublished(t, q))
      && (t.server != Idle ==> IsPublished(t, t.server.req))
  {
    hide WasBuilt;
  }

  lemma StepReplies(s: Sys, step: Step, r: Reply)
    requires Correlated(s) && s.Enabled(step) && r in s.Next(step).replies
    ensures r.tag < s.Next(step).replied && s.replied <= s.Next(step).replied
    ensures r.corrId in s.published && s.published[r.corrId].client == r.client
    ensures WasBuilt(s, s.published[r.corrId], r.body)
  {
    hide WasBuilt;
  }

  lemma StepCorrelated(s: Sys, step: Step)
    requires Safe(s) && s.Enabled(step)
    ensures Correlated(s.Next(step))
  {
    hide RowsOk, WasBuilt, DispatchedOnce, Sys.Next, Sys.Enabled;
    var t := s.Next(step);
    StepAddressed(s, step);
    StepBuilt(s, step);
    StepPublished(s, step);
    StepRequests(s, step);
    forall r | r in t.replies
      ensures r.tag < t.replied && r.corrId in t.published && t.published[r.corrId].client == r.client
      ensures WasBuilt(t, t.published[r.corrId], r.body)
    {
      StepReplies(s, step, r);
      BuiltStays(s, t, t.published[r.corrId], r.body);
    }
  }

  lemma StepSafe(s: Sys, step: Step)
    requires Safe(s) && s.Enabled(step)
    ensures Safe(s.Next(step))
  {
    StepRows(s, step);
    StepDispatched(s, step);
    StepCorrelated(s, step);
  }

  lemma {:induction false} RunSafe(s: Sys, steps: seq<Step>)
    requires Init(s) && Legal(s, steps)
    ensures Safe(Run(s, steps))
  {
    hide Safe, Sys.Next;
    if steps == [] {
      InitSafe(s);
    } else {
      var n := |steps| - 1;
      RunSafe(s, steps[..n]);
      StepSafe(Run(s, steps[..n]), steps[n]);
    }
  }

  lemma InitSafe(s: Sys)
    requires Init(s)
    ensures Safe(s)
  {
  }

  // ---- Failure-free runs ----

  /** All that is at `from` is now at `to`; nothing else has moved. */
  ghost predicate CopiesMoved(s: Sys, t: Sys, from: Place, to: Place) {
    forall p, u :: CopyAt(t, p, u) <==> if p == to then CopyAt(s, from, u) else p != from && CopyAt(s, p, u)
  }

  ghost predicate TokensMoved(s: Sys, t: Sys, from: Place, to: Place) {
    forall p, x :: TokenAt(t, p, x) <==> if p == to then TokenAt(s, from, x) else p != from && TokenAt(s, p, x)
  }

  /** Copies moved and rows went forward, none of them to SENT. */
  lemma MovedConserves(s: Sys, t: Sys, from: Place, to: Place, lost: set<Uuid>)
    requires Conserved(s, lost) && CopiesMoved(s, t, from, to) && (from == to || forall u :: !CopyAt(s, to, u))
    requires forall u :: u in s.rows ==> u in t.rows && Rank(s.rows[u].state) <= Rank(t.rows[u].state)
    requires forall u :: u in t.rows && t.rows[u].state == SENT ==> u in s.rows && s.rows[u].state == SENT
    ensures Conserved(t, lost)
  {
    hide CopyAt;
    forall u | u in t.rows && t.rows[u].state == SENT && u !in lost ensures exists p :: CopyAt(t, p, u) {
      var p :| CopyAt(s, p, u);
      assert CopyAt(t, if p == from then to else p, u);
    }
  }

  lemma MovedConverses(s: Sys, t: Sys, from: Place, to: Place)
    requires Conversations(s) && TokensMoved(s, t, from, to) && (from == to || forall x :: !TokenAt(s, to, x))
    requires forall p, x :: TokenAt(t, p, x) && Awaited(s, x) ==> Awaited(t, x)
    requires t.workers == s.workers
    ensures forall w :: w in t.workers && t.workers[w].Waiting? ==> exists p :: TokenAt(t, p, t.workers[w].corrId)
    ensures forall p, p', x :: TokenAt(t, p, x) && TokenAt(t, p', x) ==> p == p'
    ensures forall p, x :: TokenAt(t, p, x) ==> Awaited(t, x)
  {
    hide TokenAt, Awaited;
    forall p, x | TokenAt(t, p, x) ensures Awaited(t, x) {
      assert TokenAt(s, if p == to then from else p, x);
    }
    forall w | w in t.workers && t.workers[w].Waiting? ensures exists p :: TokenAt(t, p, t.workers[w].corrId) {
      var p :| TokenAt(s, p, s.workers[w].corrId);
      assert TokenAt(t, if p == from then to else p, t.workers[w].corrId);
    }
  }

  // -- A worker publishes a request. --

  lemma AskKeeps(s: Sys, w: nat, x: nat, plugins: Bytes, lost: set<Uuid>)
    requires Steady(s, lost) && s.Enabled(Ask(w, x, plugins))
    ensures Steady(s.Next(Ask(w, x, plugins)), lost)
  {
    var t := s.Next(Ask(w, x, plugins));
    StepSafe(s, Ask(w, x, plugins));
    ParseOfRequests(s.codec, plugins);
    SendTalks(s, w, x, GET_TASK + plugins, true);
    hide Safe, Conversations, Awaited;
    assert CopiesMoved(s, t, AtWorker(w), AtWorker(w)) by { SendCopies(s, w, x, GET_TASK + plugins, true); }
    MovedConserves(s, t, AtWorker(w), AtWorker(w), lost);
  }

  lemma SendTalks(s: Sys, w: nat, x: nat, body: Bytes, get: bool)
    requires Safe(s) && Conversations(s) && w in s.workers && !s.workers[w].Waiting? && x !in s.published
    requires get == (Parse(s.codec, body) == Get)
    ensures Conversations(s.Send(w, x, body, get))
  {
    var t := s.Send(w, x, body, get);
    var req := Request(w, x, body);
    assert forall p :: !TokenAt(s, p, x);
    forall p, y | TokenAt(t, p, y) ensures Awaited(t, y) {
      if y != x { assert TokenAt(s, p, y); }
    }
    forall p, p', y | TokenAt(t, p, y) && TokenAt(t, p', y) ensures p == p' {
      if y != x { assert TokenAt(s, p, y) && TokenAt(s, p', y); }
      else { assert p == InQueue(req) == p'; }
    }
    forall v | v in t.workers && t.workers[v].Waiting? ensures exists p :: TokenAt(t, p, t.workers[v].corrId) {
      if v == w {
        assert TokenAt(t, InQueue(req), x);
      } else {
        var p :| TokenAt(s, p, s.workers[v].corrId);
        assert TokenAt(t, p, t.workers[v].corrId);
      }
    }
  }

  lemma SendCopies(s: Sys, w: nat, x: nat, body: Bytes, get: bool)
    requires Safe(s) && w in s.workers && x !in s.published
    ensures var t := s.Send(w, x, body, get);
      var req := Request(w, x, body);
      forall p, u :: CopyAt(t, p, u) <==>
        if p == InQueue(req) then Returns(s, req, u) else p != AtWorker(w) && CopyAt(s, p, u)
  {
    hide RowsOk, DispatchedOnce;
  }

  lemma FinishKeeps(s: Sys, w: nat, x: nat, result: Bytes, lost: set<Uuid>)
    requires Steady(s, lost) && s.Enabled(Finish(w, x, result)) && Faultless(s, Finish(w, x, result))
    ensures Steady(s.Next(Finish(w, x, result)), lost)
  {
    var t := s.Next(Finish(w, x, result));
    var req := Request(w, x, RETURN_TASK + result);
    StepSafe(s, Finish(w, x, result));
    ParseOfRequests(s.codec, result);
    SendTalks(s, w, x, RETURN_TASK + result, false);
    hide Safe, Conversations, Awaited;
    assert CopiesMoved(s, t, AtWorker(w), InQueue(req)) by {
      SendCopies(s, w, x, RETURN_TASK + result, false);
    }
    assert forall u :: !CopyAt(s, InQueue(req), u) by { NotQueued(s, req); }
    MovedConserves(s, t, AtWorker(w), InQueue(req), lost);
  }

  lemma NotQueued(s: Sys, req: Request)
    requires Safe(s) && req.corrId !in s.published
    ensures req !in s.queue
  {
  }

  // -- A worker takes a reply. --

  /** In a failure-free run a reply in a worker's queue is the one it waits for. */
  lemma ConsumeMatches(s: Sys, w: nat, r: Reply, lost: set<Uuid>)
    requires Steady(s, lost) && s.Enabled(Consume(w, r))
    ensures r.corrId == s.workers[w].corrId && Awaited(s, r.corrId) && s.published[r.corrId].client == w
    ensures s.workers[w].get ==> s.codec.decode(r.body).Some?
  {
    assert TokenAt(s, InReplies(r), r.corrId);
  }

  lemma ConsumeCopies(s: Sys, w: nat, r: Reply, lost: set<Uuid>)
    requires Steady(s, lost) && s.Enabled(Consume(w, r))
    ensures CopiesMoved(s, s.Next(Consume(w, r)), InReplies(r), AtWorker(w))
  {
    hide RowsOk, DispatchedOnce, ServerOk, Conserved, RoundTrips, TokenAt;
    ConsumeMatches(s, w, r, lost);
  }

  lemma ConsumeTokens(s: Sys, w: nat, r: Reply, lost: set<Uuid>)
    requires Steady(s, lost) && s.Enabled(Consume(w, r))
    ensures Conversations(s.Next(Consume(w, r)))
  {
    hide RowsOk, DispatchedOnce, ServerOk, Conserved, RoundTrips;
    ConsumeMatches(s, w, r, lost);
    var t := s.Next(Consume(w, r));
    forall p, x | TokenAt(t, p, x) ensures TokenAt(s, p, x) && Awaited(t, x) {
      assert TokenAt(s, p, x) && TokenAt(s, InReplies(r), r.corrId);
    }
    forall v | v in t.workers && t.workers[v].Waiting? ensures exists p :: TokenAt(t, p, t.workers[v].corrId) {
      var p :| TokenAt(s, p, s.workers[v].corrId);
      assert TokenAt(t, p, t.workers[v].corrId);
    }
  }

  lemma ConsumeKeeps(s: Sys, w: nat, r: Reply, lost: set<Uuid>)
    requires Steady(s, lost) && s.Enabled(Consume(w, r))
    ensures Steady(s.Next(Consume(w, r)), lost)
  {
    var t := s.Next(Consume(w, r));
    StepSafe(s, Consume(w, r));
    ConsumeCopies(s, w, r, lost);
    ConsumeTokens(s, w, r, lost);
    hide Safe, Conversations, Awaited, CopiesMoved;
    MovedConserves(s, t, InReplies(r), AtWorker(w), lost);
  }

  // -- The server. --

  lemma DeliverKeeps(s: Sys, q: Request, lost: set<Uuid>)
    requires Steady(s, lost) && s.Enabled(Deliver(q))
    ensures Steady(s.Next(Deliver(q)), lost)
  {
    StepSafe(s, Deliver(q));
    DeliverCopies(s, q);
    DeliverTalks(s, q, lost);
    hide Safe, Conversations, CopiesMoved;
    MovedConserves(s, s.Next(Deliver(q)), InQueue(q), AtServer, lost);
  }

  lemma DeliverCopies(s: Sys, q: Request)
    requires s.Enabled(Deliver(q))
    ensures CopiesMoved(s, s.Next(Deliver(q)), InQueue(q), AtServer)
  {
  }

  lemma DeliverTalks(s: Sys, q: Request, lost: set<Uuid>)
    requires Steady(s, lost) && s.Enabled(Deliver(q))
    ensures Conversations(s.Next(Deliver(q)))
  {
    hide RowsOk, DispatchedOnce, ServerOk, Conserved, RoundTrips;
    var t := s.Next(Deliver(q));
    forall p, x | TokenAt(t, p, x) ensures TokenAt(s, if p == AtServer then InQueue(q) else p, x) && p != InQueue(q) {
      if p == InQueue(q) { assert false; }
    }
    forall v | v in t.workers && t.workers[v].Waiting? ensures exists p :: TokenAt(t, p, t.workers[v].corrId) {
      var p :| TokenAt(s, p, s.workers[v].corrId);
      assert TokenAt(t, if p == InQueue(q) then AtServer else p, t.workers[v].corrId);
    }
  }

  lemma PublishKeeps(s: Sys, lost: set<Uuid>)
    requires Steady(s, lost) && s.Enabled(Publish)
    ensures Steady(s.Next(Publish), lost)
  {
    var t := s.Next(Publish);
    var r := Reply(s.replied, s.server.req.client, s.server.req.corrId, s.server.body);
    StepSafe(s, Publish);
    PublishCopies(s, r, lost);
    PublishTokens(s, r, lost);
    hide Safe, CopiesMoved, TokensMoved;
    assert r !in s.replies by { FreshTag(s, r); }
    MovedConserves(s, t, AtServer, InReplies(r), lost);
    MovedConverses(s, t, AtServer, InReplies(r));
  }

  lemma FreshTag(s: Sys, r: Reply)
    requires Safe(s) && r.tag == s.replied
    ensures r !in s.replies
  {
  }

  lemma PublishCopies(s: Sys, r: Reply, lost: set<Uuid>)
    requires Steady(s, lost) && s.Enabled(Publish)
    requires r == Reply(s.replied, s.server.req.client, s.server.req.corrId, s.server.body)
    ensures CopiesMoved(s, s.Next(Publish), AtServer, InReplies(r))
  {
    hide RowsOk, DispatchedOnce, Conserved, RoundTrips, TokenAt, Conversations;
    FreshTag(s, r);
    assert s.published[r.corrId] == s.server.req;
  }

  lemma PublishTokens(s: Sys, r: Reply, lost: set<Uuid>)
    requires Steady(s, lost) && s.Enabled(Publish)
    requires r == Reply(s.replied, s.server.req.client, s.server.req.corrId, s.server.body)
    ensures TokensMoved(s, s.Next(Publish), AtServer, InReplies(r))
  {
    hide RowsOk, DispatchedOnce, Conserved, RoundTrips, CopyAt, Conversations;
    FreshTag(s, r);
  }

  lemma AckKeeps(s: Sys, lost: set<Uuid>)
    requires Steady(s, lost) && s.Enabled(Ack)
    ensures Steady(s.Next(Ack), lost)
  {
    StepSafe(s, Ack);
    assert CopiesMoved(s, s.Next(Ack), AtServer, AtServer);
    assert TokensMoved(s, s.Next(Ack), AtServer, AtServer);
    MovedConserves(s, s.Next(Ack), AtServer, AtServer, lost);
    MovedConverses(s, s.Next(Ack), AtServer, AtServer);
  }

  /** The server moves on without answering yet. */
  ghost predicate ServerGoesOn(s: Sys, t: Sys) {
    && s.server != Idle && !s.server.Acking?
    && t.server != Idle && !t.server.Acking? && !t.server.Stuck? && t.server.req == s.server.req
    && t.queue == s.queue && t.replies == s.replies && t.workers == s.workers && t.published == s.published
    && t.codec == s.codec
  }

  lemma ServerTalks(s: Sys, t: Sys)
    requires Conversations(s) && ServerGoesOn(s, t)
    ensures Conversations(t)
  {
    assert TokensMoved(s, t, AtServer, AtServer);
    MovedConverses(s, t, AtServer, AtServer);
  }

  lemma HandedOut(s: Sys, u: Uuid)
    requires RoundTrips(s.codec) && RowsOk(s) && u in s.rows
    ensures var t := s.rows[u].(state := SENT);
      s.codec.decode(s.codec.encode(t)) == Some(t) && t.uuid == u && !t.noTask
  {
  }

  /** A pending row is handed out: its first and only copy appears. */
  lemma HandOut(s: Sys, u: Uuid, lost: set<Uuid>)
    requires Steady(s, lost) && s.Enabled(Handle(Some(u)))
    ensures ServerGoesOn(s, s.Next(Handle(Some(u)))) && ServerOk(s.Next(Handle(Some(u))))
    ensures Conserved(s.Next(Handle(Some(u))), lost)
  {
    HandedOut(s, u);
    hide Safe, Conversations;
    var t := s.Next(Handle(Some(u)));
    forall p | true ensures !CopyAt(s, p, u) {}
    forall p, v | true ensures CopyAt(t, p, v) <==> (if p == AtServer then v == u else CopyAt(s, p, v)) {
      match p { case InQueue(_) => case AtServer => case InReplies(_) => case AtWorker(_) => }
    }
    forall v | v in t.rows && t.rows[v].state == SENT && v !in lost ensures exists p :: CopyAt(t, p, v) {
      if v == u {
        assert CopyAt(t, AtServer, v);
      } else {
        var p :| CopyAt(s, p, v);
        assert CopyAt(t, p, v);
      }
    }
  }

  lemma HandleKeeps(s: Sys, pick: Option<Uuid>, lost: set<Uuid>)
    requires Steady(s, lost) && s.Enabled(Handle(pick))
    ensures Steady(s.Next(Handle(pick)), lost)
  {
    var t := s.Next(Handle(pick));
    StepSafe(s, Handle(pick));
    if pick.Some? {
      HandOut(s, pick.value, lost);
    } else {
      AnswerNothing(s, lost);
    }
    hide Safe, Conversations, ServerOk, Conserved;
    ServerTalks(s, t);
  }

  lemma AnswerNothing(s: Sys, lost: set<Uuid>)
    requires Steady(s, lost) && s.Enabled(Handle(None))
    ensures ServerGoesOn(s, s.Next(Handle(None))) && ServerOk(s.Next(Handle(None)))
    ensures Conserved(s.Next(Handle(None)), lost)
  {
    AnswerGoesOn(s, lost);
    AnswerMoves(s, lost);
    AnswerForward(s);
    hide Safe, Conversations, ServerOk, CopiesMoved, Sys.Next;
    MovedConserves(s, s.Next(Handle(None)), AtServer, AtServer, lost);
  }

  lemma AnswerForward(s: Sys)
    requires Safe(s) && s.Enabled(Handle(None))
    ensures s.Next(Handle(None)).rows == s.rows
  {
    hide Safe;
  }

  lemma AnswerGoesOn(s: Sys, lost: set<Uuid>)
    requires Steady(s, lost) && s.Enabled(Handle(None))
    ensures ServerGoesOn(s, s.Next(Handle(None))) && ServerOk(s.Next(Handle(None)))
  {
    hide Correlated, DispatchedOnce, Conversations;
    var call := Parse(s.codec, s.server.req.body);
    if call.Return? && !call.task.noTask {
      assert CopyAt(s, AtServer, call.task.uuid);
    }
  }

  lemma AnswerMoves(s: Sys, lost: set<Uuid>)
    requires Steady(s, lost) && s.Enabled(Handle(None))
    ensures CopiesMoved(s, s.Next(Handle(None)), AtServer, AtServer)
  {
    AnswerAtServer(s, lost);
    AnswerGoesOn(s, lost);
    hide Steady, Sys.Next, Sys.Enabled, ServerOk;
    var t := s.Next(Handle(None));
    forall p, u | p != AtServer ensures CopyAt(t, p, u) <==> CopyAt(s, p, u) {
      match p { case InQueue(_) => case InReplies(_) => case AtWorker(_) => }
    }
    hide CopyAt;
  }

  /** The copy the server has read out of the message is the copy in its hands. */
  lemma AnswerAtServer(s: Sys, lost: set<Uuid>)
    requires Steady(s, lost) && s.Enabled(Handle(None))
    ensures forall u :: CopyAt(s.Next(Handle(None)), AtServer, u) <==> CopyAt(s, AtServer, u)
  {
    hide Correlated, DispatchedOnce, Conversations, ServerOk;
    var call := Parse(s.codec, s.server.req.body);
    if call.Return? && !call.task.noTask {
      assert CopyAt(s, AtServer, call.task.uuid);
    }
  }

  lemma SaveKeeps(s: Sys, lost: set<Uuid>)
    requires Steady(s, lost) && s.Enabled(SaveRow)
    ensures Steady(s.Next(SaveRow), lost)
  {
    hide Safe, Conversations, Conserved, ServerOk, Sys.Next;
    StepSafe(s, SaveRow);
    SaveGoesOn(s, lost);
    ServerTalks(s, s.Next(SaveRow));
    SaveConserves(s, lost);
  }

  lemma SaveGoesOn(s: Sys, lost: set<Uuid>)
    requires Steady(s, lost) && s.Enabled(SaveRow)
    ensures ServerGoesOn(s, s.Next(SaveRow)) && ServerOk(s.Next(SaveRow))
  {
    hide Safe, Conversations, Conserved;
  }

  lemma SaveConserves(s: Sys, lost: set<Uuid>)
    requires Steady(s, lost) && s.Enabled(SaveRow)
    ensures Conserved(s.Next(SaveRow), lost)
  {
    hide Safe, Conversations, ServerOk, CopyAt;
    var t := s.Next(SaveRow);
    assert RowsOk(s) by { SafeRows(s); }
    Forward(s, SaveRow);
    SaveCopies(s, lost);
    hide RowsOk;
    forall u | u in t.rows && t.rows[u].state == SENT && u !in lost ensures exists p :: CopyAt(t, p, u) {
      var p :| CopyAt(s, p, u);
      assert CopyAt(t, p, u);
    }
  }

  /** The copy the server held is gone; its row is complete. */
  lemma SaveCopies(s: Sys, lost: set<Uuid>)
    requires Steady(s, lost) && s.Enabled(SaveRow)
    ensures forall p, u :: CopyAt(s.Next(SaveRow), p, u) <==> p != AtServer && CopyAt(s, p, u)
    ensures forall u :: CopyAt(s, AtServer, u) ==> s.Next(SaveRow).rows[u].state == COMPLETE
  {
    hide Conversations, TokenAt, Correlated, DispatchedOnce;
  }

  // -- Rows change behind the server's back. --

  lemma RowsStep(s: Sys, step: Step)
    requires Safe(s) && s.Enabled(step) && (step.Insert? || step.ReceiverRead? || step.ReceiverSave?)
    ensures var t := s.Next(step);
      && t == s.(rows := t.rows, receiver := t.receiver, addressed := t.addressed)
      && forall u :: u in t.rows && t.rows[u].state == SENT ==> u in s.rows && s.rows[u].state == SENT
  {
  }

  lemma RowsKeep(s: Sys, step: Step, lost: set<Uuid>)
    requires Steady(s, lost) && s.Enabled(step) && (step.Insert? || step.ReceiverRead? || step.ReceiverSave?)
    ensures Steady(s.Next(step), lost)
  {
    StepSafe(s, step);
    RowsStep(s, step);
    hide Sys.Next, Safe;
    RowsConserve(s, step, lost);
    RowsTalk(s, step);
  }

  lemma RowsConserve(s: Sys, step: Step, lost: set<Uuid>)
    requires Safe(s) && Conserved(s, lost) && s.Enabled(step)
    requires step.Insert? || step.ReceiverRead? || step.ReceiverSave?
    ensures Conserved(s.Next(step), lost)
  {
    assert RowsOk(s) by { SafeRows(s); }
    Forward(s, step);
    RowsStep(s, step);
    hide Sys.Next, Safe, RowsOk, CopiesMoved;
    SamePlaces(s, s.Next(step));
    MovedConserves(s, s.Next(step), AtServer, AtServer, lost);
  }

  lemma RowsTalk(s: Sys, step: Step)
    requires Safe(s) && Conversations(s) && s.Enabled(step)
    requires step.Insert? || step.ReceiverRead? || step.ReceiverSave?
    ensures Conversations(s.Next(step))
  {
    RowsStep(s, step);
    hide Sys.Next, Safe, TokensMoved;
    SamePlaces(s, s.Next(step));
    MovedConverses(s, s.Next(step), AtServer, AtServer);
  }

  lemma SamePlaces(s: Sys, t: Sys)
    requires s.queue == t.queue && s.server == t.server && s.replies == t.replies && s.workers == t.workers
    requires s.published == t.published && s.codec == t.codec
    ensures CopiesMoved(s, t, AtServer, AtServer) && TokensMoved(s, t, AtServer, AtServer)
  {
  }

  lemma StepSteady(s: Sys, step: Step, lost: set<Uuid>)
    requires Steady(s, lost) && s.Enabled(step) && Faultless(s, step)
    ensures Steady(s.Next(step), lost)
  {
    match step
    case Ask(w, x, plugins) => AskKeeps(s, w, x, plugins, lost);
    case Finish(w, x, result) => FinishKeeps(s, w, x, result, lost);
    case Consume(w, r) => ConsumeKeeps(s, w, r, lost);
    case Deliver(q) => DeliverKeeps(s, q, lost);
    case Handle(pick) => HandleKeeps(s, pick, lost);
    case SaveRow => SaveKeeps(s, lost);
    case Publish => PublishKeeps(s, lost);
    case Ack => AckKeeps(s, lost);
    case _ => RowsKeep(s, step, lost);
  }

  // -- A worker gives up. --

  lemma GivesUpCopies(s: Sys, w: nat)
    requires w in s.workers && s.workers[w].Holding?
    ensures forall p, u :: CopyAt(s.Next(Abandon(w)), p, u) <==> p != AtWorker(w) && CopyAt(s, p, u)
    ensures forall u :: CopyAt(s, AtWorker(w), u) <==> u in GivenUp(s, Abandon(w))
  {
  }

  lemma GivesUpTalks(s: Sys, w: nat)
    requires Conversations(s) && w in s.workers && s.workers[w].Holding?
    ensures Conversations(s.Next(Abandon(w)))
  {
    var t := s.Next(Abandon(w));
    assert TokensMoved(s, t, AtServer, AtServer);
    forall p, x | TokenAt(t, p, x) ensures Awaited(t, x) {
      assert TokenAt(s, p, x);
    }
    forall v | v in t.workers && t.workers[v].Waiting? ensures exists p :: TokenAt(t, p, t.workers[v].corrId) {
      var p :| TokenAt(s, p, s.workers[v].corrId);
      assert TokenAt(t, p, t.workers[v].corrId);
    }
  }

  /** The task it holds is lost, and nothing else. */
  lemma GivesUpKeeps(s: Sys, w: nat, lost: set<Uuid>)
    requires Steady(s, lost) && s.Enabled(Abandon(w)) && s.workers[w].Holding?
    ensures Steady(s.Next(Abandon(w)), lost + GivenUp(s, Abandon(w)))
  {
    var t := s.Next(Abandon(w));
    StepSafe(s, Abandon(w));
    GivesUpTalks(s, w);
    GivesUpCopies(s, w);
    hide Safe, Conversations, CopyAt;
    forall u | u in t.rows && t.rows[u].state == SENT && u !in lost + GivenUp(s, Abandon(w))
      ensures exists p :: CopyAt(t, p, u)
    {
      var p :| CopyAt(s, p, u);
      assert CopyAt(t, p, u);
    }
  }

  lemma {:induction false} RunSteady(s: Sys, steps: seq<Step>)
    requires Init(s) && RoundTrips(s.codec) && Legal(s, steps) && WorkerFaultsOnly(s, steps)
    ensures Steady(Run(s, steps), Lost(s, steps))
  {
    hide Steady, Sys.Next, Faultless, Safe;
    if steps == [] {
      InitSafe(s);
      InitSteady(s);
    } else {
      var n := |steps| - 1;
      RunSteady(s, steps[..n]);
      var v, lost := Run(s, steps[..n]), Lost(s, steps[..n]);
      if GivesUp(v, steps[n]) {
        GivesUpKeeps(v, steps[n].w, lost);
      } else {
        StepSteady(v, steps[n], lost);
        assert lost + {} == lost;
      }
    }
  }

  lemma InitSteady(s: Sys)
    requires Init(s) && RoundTrips(s.codec) && Safe(s)
    ensures Steady(s, {})
  {
  }

  /** In a failure-free run nothing is lost. */
  lemma {:induction false} NothingLost(s: Sys, steps: seq<Step>)
    requires Legal(s, steps) && FaultlessRun(s, steps)
    ensures WorkerFaultsOnly(s, steps) && Lost(s, steps) == {}
  {
    hide Sys.Next;
    if steps != [] {
      NothingLost(s, steps[..|steps| - 1]);
    }
  }

  // ---- Main results ----

  lemma {:induction false} LegalPrefix(s: Sys, steps: seq<Step>, more: seq<Step>)
    requires Legal(s, steps + more)
    ensures Legal(s, steps)
  {
    if more == [] {
      assert steps + more == steps;
    } else {
      var n := |more| - 1;
      assert (steps + more)[..|steps + more| - 1] == steps + more[..n];
      LegalPrefix(s, steps, more[..n]);
    }
  }

  /** Over every interleaving a row, once inserted, stays, keeps its payload, and its state
      never moves backwards in PENDING < SENT < COMPLETE. */
  lemma {:induction false} StateNeverMovesBack(s: Sys, steps: seq<Step>, more: seq<Step>, u: Uuid)
    requires Init(s) && Legal(s, steps + more)
    ensures Legal(s, steps)
    ensures u in Run(s, steps).rows ==>
      && u in Run(s, steps + more).rows
      && Rank(Run(s, steps).rows[u].state) <= Rank(Run(s, steps + more).rows[u].state)
      && Run(s, steps).rows[u].payload == Run(s, steps + more).rows[u].payload
  {
    hide Safe, Sys.Next;
    LegalPrefix(s, steps, more);
    if more == [] {
      assert steps + more == steps;
    } else if u in Run(s, steps).rows {
      var n := |more| - 1;
      assert (steps + more)[..|steps + more| - 1] == steps + more[..n];
      StateNeverMovesBack(s, steps, more[..n], u);
      RunSafe(s, steps + more[..n]);
      assert RowsOk(Run(s, steps + more[..n])) by { SafeRows(Run(s, steps + more[..n])); }
      StepForward(Run(s, steps + more[..n]), more[n], u);
    }
  }

  // -- What was submitted is what is handed out. --

  /** The task that reply `b` hands out is row `u`'s, marked SENT. */
  ghost predicate Carries(s: Sys, b: Built, u: Uuid) {
    u in s.rows &&
    exists t ::
      b.body == s.codec.encode(t) && t.uuid == u && t.payload == s.rows[u].payload && t.state == SENT && !t.noTask
  }

  ghost predicate AllCarry(s: Sys) {
    forall i :: 0 <= i < |s.built| && s.built[i].task.Some? ==> Carries(s, s.built[i], s.built[i].task.value)
  }

  lemma CarriesStays(s: Sys, step: Step, b: Built, u: Uuid)
    requires RowsOk(s) && s.Enabled(step) && Carries(s, b, u)
    ensures Carries(s.Next(step), b, u)
  {
    StepForward(s, step, u);
    SameCodec(s, step);
    var t :|
      b.body == s.codec.encode(t) && t.uuid == u && t.payload == s.rows[u].payload && t.state == SENT && !t.noTask;
    assert b.body == s.Next(step).codec.encode(t);
  }

  lemma SameCodec(s: Sys, step: Step)
    requires s.Enabled(step)
    ensures s.Next(step).codec == s.codec
  {
  }

  lemma StepCarries(s: Sys, step: Step)
    requires RowsOk(s) && s.Enabled(step) && AllCarry(s)
    ensures AllCarry(s.Next(step))
  {
    hide Carries, FromOneMessage;
    var t, n := s.Next(step), |s.built|;
    StepAddressed(s, step);
    StepHandsOut(s, step);
    forall i | 0 <= i < |t.built| && t.built[i].task.Some? ensures Carries(t, t.built[i], t.built[i].task.value) {
      if i < n {
        assert t.built[i] == s.built[i];
        CarriesStays(s, step, s.built[i], s.built[i].task.value);
      } else {
        NewCarries(s, step);
      }
    }
  }

  lemma NewCarries(s: Sys, step: Step)
    requires RowsOk(s) && s.Enabled(step) && |s.Next(step).built| == |s.built| + 1
    requires s.Next(step).built[|s.built|].task.Some?
    ensures Carries(s.Next(step), s.Next(step).built[|s.built|], s.Next(step).built[|s.built|].task.value)
  {
    hide FromOneMessage, GoodCopy, CopyOf;
    OnlyHandleHandsOut(s, step);
    var u := step.pick.value;
    var row := s.rows[u].(state := SENT);
    assert s.Next(step).built[|s.built|] == Built(s.server.req, s.codec.encode(row), Some(u));
  }

  lemma OnlyHandleHandsOut(s: Sys, step: Step)
    requires s.Enabled(step) && |s.Next(step).built| == |s.built| + 1 && s.Next(step).built[|s.built|].task.Some?
    ensures step.Handle? && Parse(s.codec, s.server.req.body).Get? && step.pick.Some?
  {
  }

  lemma {:induction false} RunCarries(s: Sys, steps: seq<Step>)
    requires Init(s) && Legal(s, steps)
    ensures AllCarry(Run(s, steps)) && Run(s, steps).codec == s.codec
  {
    hide AllCarry, Sys.Next, Sys.Enabled, Safe;
    if steps == [] {
      assert AllCarry(s) by { NoneBuilt(s); }
    } else {
      var n := |steps| - 1;
      RunCarries(s, steps[..n]);
      RunSafe(s, steps[..n]);
      SafeRows(Run(s, steps[..n]));
      StepCarries(Run(s, steps[..n]), steps[n]);
      SameCodec(Run(s, steps[..n]), steps[n]);
    }
  }

  lemma NoneBuilt(s: Sys)
    requires Init(s)
    ensures AllCarry(s)
  {
  }

  lemma {:induction false} InsertsAsSubmitted(s: Sys, steps: seq<Step>, u: Uuid, payload: Bytes)
    requires Legal(s, steps + [Insert(u, payload)])
    ensures var rows := Run(s, steps + [Insert(u, payload)]).rows; u in rows && Submitted(rows[u], u, payload)
  {
    hide Sys.Enabled;
    assert (steps + [Insert(u, payload)])[..|steps + [Insert(u, payload)]| - 1] == steps;
  }

  /** A row inserted with this payload keeps it in every continuation, and the GET_TASK reply
      that hands it out carries a task with that identifier and that payload. */
  lemma SubmittedIsHandedOut(s: Sys, steps: seq<Step>, u: Uuid, payload: Bytes, more: seq<Step>)
    requires Init(s) && RoundTrips(s.codec) && Legal(s, steps + [Insert(u, payload)] + more)
    ensures var t := Run(s, steps + [Insert(u, payload)] + more);
      && u in t.rows && t.rows[u].uuid == u && t.rows[u].payload == payload
      && forall i :: 0 <= i < |t.built| && t.built[i].task == Some(u) ==>
        var r := t.codec.decode(t.built[i].body);
        r.Some? && r.value.uuid == u && r.value.payload == payload && r.value.state == SENT && !r.value.noTask
  {
    hide Sys.Next, Sys.Enabled, Legal, Run, Carries;
    var inserted := steps + [Insert(u, payload)];
    var all := inserted + more;
    LegalPrefix(s, inserted, more);
    InsertsAsSubmitted(s, steps, u, payload);
    StateNeverMovesBack(s, inserted, more, u);
    RunSafe(s, all);
    RunCarries(s, all);
    var t := Run(s, all);
    forall i | 0 <= i < |t.built| && t.built[i].task == Some(u)
      ensures var r := t.codec.decode(t.built[i].body);
        r.Some? && r.value.uuid == u && r.value.payload == payload && r.value.state == SENT && !r.value.noTask
    {
      Decoded(t, t.built[i], u);
    }
  }

  lemma Decoded(s: Sys, b: Built, u: Uuid)
    requires RoundTrips(s.codec) && Carries(s, b, u)
    ensures var r := s.codec.decode(b.body);
      u in s.rows && r.Some? && r.value.uuid == u && r.value.payload == s.rows[u].payload
      && r.value.state == SENT && !r.value.noTask
  {
  }

  /** Over every interleaving each task is put in at most one GET_TASK reply. */
  lemma EachTaskHandedOutOnce(s: Sys, steps: seq<Step>, i: nat, j: nat)
    requires Init(s) && Legal(s, steps) && i < j < |Run(s, steps).built|
    requires Run(s, steps).built[i].task.Some?
    ensures Run(s, steps).built[i].task != Run(s, steps).built[j].task
  {
    RunSafe(s, steps);
  }

  /** The bytes `call` returns are a reply the server built for that very request, however
      many stale or repeated replies are in the queue. */
  lemma CallReturnsItsOwnReply(s: Sys, steps: seq<Step>, w: nat, r: Reply)
    requires Init(s) && Legal(s, steps) && Run(s, steps).Enabled(Consume(w, r))
    requires r.corrId == Run(s, steps).workers[w].corrId
    ensures var t := Run(s, steps);
      && r.corrId in t.published && t.published[r.corrId].client == w
      && WasBuilt(t, t.published[r.corrId], r.body)
  {
    hide RowsOk, DispatchedOnce;
    RunSafe(s, steps);
  }

  /** In every reachable state the four return fields of a complete row come from one
      return message addressed to it, however the two writers interleave. */
  lemma CompleteRowsFromOneMessage(s: Sys, steps: seq<Step>, u: Uuid)
    requires Init(s) && Legal(s, steps) && u in Run(s, steps).rows && Run(s, steps).rows[u].state == COMPLETE
    ensures exists r :: Addressed(u, r) in Run(s, steps).addressed && ReturnedBy(Run(s, steps).rows[u], r)
  {
    RunSafe(s, steps);
    var row := Run(s, steps).rows[u];
    assert FromOneMessage(Run(s, steps), row);
    var r :| Addressed(row.uuid, r) in Run(s, steps).addressed && ReturnedBy(row, r);
  }

  /** The server fails now; its request is delivered and processed once more, and that
      changes no row. */
  ghost predicate AgainChangesNothing(s: Sys) {
    && s.Enabled(Redeliver)
    && var q, down := s.server.req, s.Next(Redeliver);
    && down.Enabled(Deliver(q))
    && var again := down.Next(Deliver(q));
    && again.Enabled(Handle(None)) && again.Next(Handle(None)).Enabled(SaveRow)
    && again.Next(Handle(None)).Next(SaveRow).rows == s.rows
  }

  /** A return message that is redelivered at once, before or after its reply has been
      published, is processed again without changing any row. */
  lemma RedeliveredReturnChangesNothing(s: Sys, steps: seq<Step>)
    requires Init(s) && Legal(s, steps) && Run(s, steps).server.Saving?
    ensures var once := Run(s, steps).Next(SaveRow);
      && AgainChangesNothing(once)
      && once.Enabled(Publish) && once.Next(Publish).rows == once.rows && AgainChangesNothing(once.Next(Publish))
  {
    hide FromOneMessage, AgainChangesNothing;
    RunSafe(s, steps);
    var t := Run(s, steps);
    Again(t.Next(SaveRow), t.server.copy);
    Again(t.Next(SaveRow).Next(Publish), t.server.copy);
  }

  lemma Again(s: Sys, copy: Task)
    requires (s.server.Replying? || s.server.Acking?) && CopyOf(s.codec, s.server.req, copy) && copy.state == COMPLETE
    requires copy.uuid in s.rows && s.rows[copy.uuid] == copy
    ensures AgainChangesNothing(s)
  {
    hide CopyOf;
    ProcessedAgain(s.Next(Redeliver).Next(Deliver(s.server.req)), copy);
  }

  /** Processing a return message whose copy is stored writes the same row again. */
  lemma ProcessedAgain(s: Sys, copy: Task)
    requires s.server.Got? && CopyOf(s.codec, s.server.req, copy) && copy.state == COMPLETE
    requires copy.uuid in s.rows && s.rows[copy.uuid] == copy
    ensures s.Enabled(Handle(None)) && s.Next(Handle(None)).Enabled(SaveRow)
    ensures s.Next(Handle(None)).Next(SaveRow).rows == s.rows
  {
    assert Completed(copy, Parse(s.codec, s.server.req.body).task) == copy;
  }

  /** In every failure-free run no task is lost or doubled: an inserted row is pending and
      nowhere else, or complete, or SENT with exactly one copy: in an unread reply, with a
      worker, or in a return message not yet processed.  The server never gets stuck. */
  lemma NoTaskIsLost(s: Sys, steps: seq<Step>, u: Uuid)
    requires Init(s) && RoundTrips(s.codec) && Legal(s, steps) && FaultlessRun(s, steps)
    requires u in Run(s, steps).rows
    ensures var t := Run(s, steps);
      && !t.server.Stuck?
      && (forall p, p' :: CopyAt(t, p, u) && CopyAt(t, p', u) ==> p == p')
      && (t.rows[u].state == PENDING ==> forall p :: !CopyAt(t, p, u))
      && (t.rows[u].state == SENT ==> exists p :: CopyAt(t, p, u))
  {
    NothingLost(s, steps);
    RunSteady(s, steps);
  }

  /** When executions fail too, these are the fates of a row: pending and not given out,
      complete, SENT with exactly one copy, or SENT, given up, and nowhere. */
  lemma FatesOfATask(s: Sys, steps: seq<Step>, u: Uuid)
    requires Init(s) && RoundTrips(s.codec) && Legal(s, steps) && WorkerFaultsOnly(s, steps)
    requires u in Run(s, steps).rows
    ensures var t, lost := Run(s, steps), Lost(s, steps);
      && !t.server.Stuck?
      && (forall p, p' :: CopyAt(t, p, u) && CopyAt(t, p', u) ==> p == p')
      && (t.rows[u].state == PENDING ==> u !in lost && forall p :: !CopyAt(t, p, u))
      && (t.rows[u].state == SENT ==> (u in lost <==> forall p :: !CopyAt(t, p, u)))
  {
    RunSteady(s, steps);
  }

  lemma LostStep(s: Sys, step: Step, lost: set<Uuid>, u: Uuid)
    requires Steady(s, lost) && s.Enabled(step) && u in lost
    ensures u in s.rows && u in s.Next(step).rows && (Rank(s.rows[u].state) <= Rank(s.Next(step).rows[u].state))
    ensures step.ReceiverSave? ==> s.receiver.Storing?
    ensures !(step.ReceiverSave? && s.receiver.copy.uuid == u) ==> s.Next(step).rows[u] == s.rows[u]
    ensures s.built <= s.Next(step).built && |s.Next(step).built| <= |s.built| + 1
    ensures forall i :: |s.built| <= i < |s.Next(step).built| ==> s.Next(step).built[i].task != Some(u)
  {
    hide Conversations, ServerOk, Correlated, DispatchedOnce;
    StepForward(s, step, u);
    if step.SaveRow? {
      assert s.server.copy.uuid == u ==> CopyAt(s, AtServer, u);
    }
  }

  /** The receiver has stored a result for row `u`, `k` steps into `more`. */
  ghost predicate ReceiverStored(s: Sys, steps: seq<Step>, more: seq<Step>, u: Uuid, k: nat) {
    && k < |more| && more[k] == ReceiverSave && Legal(s, steps + more[..k])
    && Run(s, steps + more[..k]).receiver.Storing? && Run(s, steps + more[..k]).receiver.copy.uuid == u
  }

  /** A task whose execution has failed is gone: no copy of it is anywhere and it is never
      handed out again, so its row stays SENT unless the receiver gets a result for it. */
  lemma {:induction false} GivenUpForGood(s: Sys, steps: seq<Step>, more: seq<Step>, u: Uuid)
    requires Init(s) && RoundTrips(s.codec) && Legal(s, steps + more) && WorkerFaultsOnly(s, steps + more)
    requires Legal(s, steps) && u in Lost(s, steps)
    ensures u in Lost(s, steps + more)
    ensures var t, v := Run(s, steps), Run(s, steps + more);
      && (forall p :: !CopyAt(v, p, u))
      && t.built <= v.built && (forall i :: |t.built| <= i < |v.built| ==> v.built[i].task != Some(u))
      && u in t.rows && u in v.rows
      && (v.rows[u] == t.rows[u] || exists k: nat :: ReceiverStored(s, steps, more, u, k))
  {
    hide Steady, Sys.Next, Sys.Enabled, Safe, CopyAt, Parse;
    if more == [] {
      assert steps + more == steps;
      RunSteady(s, steps);
    } else {
      var n := |more| - 1;
      assert (steps + more)[..|steps + more| - 1] == steps + more[..n];
      var v := Run(s, steps + more[..n]);
      GivenUpForGood(s, steps, more[..n], u);
      RunSteady(s, steps + more[..n]);
      LostStep(v, more[n], Lost(s, steps + more[..n]), u);
      RunSteady(s, steps + more);
      if more[n] == ReceiverSave {
        assert v.receiver.copy.uuid == u ==> ReceiverStored(s, steps, more, u, n);
      }
      if k: nat :| ReceiverStored(s, steps, more[..n], u, k) {
        assert more[..n][..k] == more[..k];
        assert ReceiverStored(s, steps, more, u, k);
      }
    }
    LostIsNowhere(Run(s, steps + more), Lost(s, steps + more), u);
  }

  lemma LostIsNowhere(s: Sys, lost: set<Uuid>, u: Uuid)
    requires Steady(s, lost) && u in lost
    ensures u in s.rows && forall p :: !CopyAt(s, p, u)
  {
  }

  /** So when nothing is in flight, every row is pending or complete. */
  lemma NothingInFlightNothingSent(s: Sys, steps: seq<Step>, u: Uuid)
    requires Init(s) && RoundTrips(s.codec) && Legal(s, steps) && FaultlessRun(s, steps)
    requires var t := Run(s, steps);
      && u in t.rows && t.queue == {} && t.replies == {} && t.server == Idle
      && forall w :: w in t.workers ==> !t.workers[w].Holding?
    ensures Run(s, steps).rows[u].state != SENT
  {
    NoTaskIsLost(s, steps, u);
    var t := Run(s, steps);
    forall p | true ensures !CopyAt(t, p, u) {
      match p { case InQueue(_) => case AtServer => case InReplies(_) => case AtWorker(_) => }
    }
  }

  lemma {:induction false} FreshId(xs: set<nat>) returns (x: nat)
    ensures forall y :: y in xs ==> y < x
  {
    if xs == {} {
      x := 0;
    } else {
      var y :| y in xs;
      var above := FreshId(xs - {y});
      x := if above <= y then y + 1 else above;
      forall z | z in xs ensures z < x {
        assert z == y || z in xs - {y};
      }
    }
  }

  /** What workers and the server can do when nothing fails. */
  ghost predicate Progresses(s: Sys, step: Step) {
    s.Enabled(step) && Faultless(s, step) && !step.Insert? && !step.ReceiverRead? && !step.ReceiverSave?
  }

  /** While there is a worker, the workers and the server are never all stuck, even if
      executions have failed and whatever the receiver and the servlets do. */
  lemma NoDeadlock(s: Sys, steps: seq<Step>, w: nat)
    requires Init(s) && RoundTrips(s.codec) && Legal(s, steps) && WorkerFaultsOnly(s, steps)
    requires w in Run(s, steps).workers
    ensures exists step :: Progresses(Run(s, steps), step)
  {
    hide Steady, Safe, Progresses;
    RunSteady(s, steps);
    var t := Run(s, steps);
    if t.server != Idle {
      ServerProgresses(t, Lost(s, steps));
    } else if q :| q in t.queue {
      assert Progresses(t, Deliver(q)) by { CanDeliver(t, q); }
    } else {
      WorkerProgresses(t, w, Lost(s, steps));
    }
  }

  lemma CanDeliver(s: Sys, q: Request)
    requires s.server == Idle && q in s.queue
    ensures Progresses(s, Deliver(q))
  {
  }

  lemma ServerProgresses(s: Sys, lost: set<Uuid>)
    requires Steady(s, lost) && s.server != Idle
    ensures exists step :: Progresses(s, step)
  {
    hide Safe, Conserved, ServerOk;
    match s.server
    case Got(req) =>
      if u :| u in s.rows && s.rows[u].state == PENDING && Parse(s.codec, req.body).Get? {
        assert Progresses(s, Handle(Some(u)));
      } else {
        assert Progresses(s, Handle(None));
      }
    case Saving(_, _) => assert Progresses(s, SaveRow);
    case Replying(_, _, _) => assert Progresses(s, Publish);
    case Acking(_) => assert Progresses(s, Ack);
  }

  lemma WorkerProgresses(s: Sys, w: nat, lost: set<Uuid>)
    requires Steady(s, lost) && s.server == Idle && s.queue == {} && w in s.workers
    ensures exists step :: Progresses(s, step)
  {
    hide RowsOk, DispatchedOnce, Conserved, ServerOk;
    var x := FreshId(s.published.Keys);
    match s.workers[w]
    case Ready => assert Progresses(s, Ask(w, x, []));
    case Holding(task) => assert Progresses(s, Finish(w, x, s.codec.encode(task)));
    case Waiting(y, _) =>
      var p :| TokenAt(s, p, y);
      assert p.InReplies? && Progresses(s, Consume(w, p.r));
  }

  lemma WriteRemaining(rows: Table, u: Uuid, t: Task)
    requires u in rows && Rank(rows[u].state) <= Rank(t.state)
    ensures Remaining(rows[u := t]) == Remaining(rows) - (Rank(t.state) - Rank(rows[u].state))
  {
    var after := rows[u := t];
    WriteState(rows, u, t, PENDING);
    WriteState(rows, u, t, SENT);
  }

  lemma SizeWithout(us: set<Uuid>, u: Uuid)
    ensures |us| == |us - {u}| + if u in us then 1 else 0
  {
    if u in us { assert us == (us - {u}) + {u}; } else { assert us == us - {u}; }
  }

  lemma OthersSame(rows: Table, u: Uuid, t: Task, st: State)
    ensures InState(rows, st) - {u} == InState(rows[u := t], st) - {u}
  {
  }

  lemma WriteState(rows: Table, u: Uuid, t: Task, st: State)
    requires u in rows
    ensures |InState(rows[u := t], st)| ==
      |InState(rows, st)| - (if rows[u].state == st then 1 else 0) + (if t.state == st then 1 else 0)
  {
    var before, after := InState(rows, st), InState(rows[u := t], st);
    OthersSame(rows, u, t, st);
    assert (u in before <==> rows[u].state == st) && (u in after <==> t.state == st);
    hide InState;
    SizeWithout(before, u);
    SizeWithout(after, u);
  }

  /** What is left never grows while nothing is inserted; handing out a task takes exactly
      one off, storing a result takes off what its row still counted for; and NOTASK is
      answered exactly when no row is pending. */
  lemma RemainingFalls(s: Sys, step: Step)
    requires RowsOk(s) && s.Enabled(step) && !step.Insert?
    ensures Remaining(s.Next(step).rows) <= Remaining(s.rows)
    ensures step.Handle? && step.pick.Some? && Parse(s.codec, s.server.req.body).Get? ==>
      Remaining(s.Next(step).rows) == Remaining(s.rows) - 1
    ensures step.SaveRow? ==>
      Remaining(s.Next(step).rows) == Remaining(s.rows) - (2 - Rank(s.rows[s.server.copy.uuid].state))
    ensures step.Handle? && Parse(s.codec, s.server.req.body).Get? ==> (step.pick.None? <==> NonePending(s.rows))
  {
    hide FromOneMessage;
    match step
    case Handle(pick) =>
      if pick.Some? { WriteRemaining(s.rows, pick.value, s.rows[pick.value].(state := SENT)); }
    case SaveRow => WriteRemaining(s.rows, s.server.copy.uuid, s.server.copy);
    case ReceiverSave => WriteRemaining(s.rows, s.receiver.copy.uuid, s.receiver.copy);
    case _ =>
  }
}
