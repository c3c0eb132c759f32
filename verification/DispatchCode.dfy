/** The turns of the server's, the receiver's and the worker's loops and the client's
    wait, as code.  What they do, when nobody interferes, is a run of the transition
    system of `DispatchSpec`. */
module DispatchCode {
  import opened Wrappers
  import opened Tasks
  import opened DispatchSpec
  import opened DispatchRuns

  lemma LegalAppend(s: Sys, steps: seq<Step>, step: Step)
    requires Legal(s, steps) && Run(s, steps).Enabled(step)
    ensures Legal(s, steps + [step]) && Run(s, steps + [step]) == Run(s, steps).Next(step)
    ensures Lost(s, steps + [step]) == Lost(s, steps) + GivenUp(Run(s, steps), step)
  {
    hide Sys.Next, Sys.Enabled;
    assert (steps + [step])[..|steps + [step]| - 1] == steps;
  }

  lemma KeyedRows(s: Sys)
    requires RowsOk(s)
    ensures KeyedByUuid(s.rows)
  {
  }

  lemma HandleGet(s: Sys, pick: Option<Uuid>)
    requires s.server.Got? && Parse(s.codec, s.server.req.body).Get? && s.Enabled(Handle(pick))
    ensures var t := if pick.Some? then s.rows[pick.value].(state := SENT) else NO_TASK;
      s.Next(Handle(pick)) == s.(rows := if pick.Some? then s.rows[pick.value := t] else s.rows)
                               .Build(s.server.req, s.codec.encode(t), pick)
  {
  }

  lemma HandleReturn(s: Sys, r: Task)
    requires s.server.Got? && Parse(s.codec, s.server.req.body) == Call.Return(r)
    ensures s.Enabled(Handle(None))
    ensures var t, req := s.Next(Handle(None)), s.server.req;
      && (r.noTask ==> t == s.Build(req, [], None))
      && (!r.noTask && r.uuid !in s.rows ==> t == s.(server := Stuck(req)))
      && (!r.noTask && r.uuid in s.rows ==>
            t == s.(server := Saving(req, Completed(s.rows[r.uuid], r)),
                    addressed := s.addressed + {Addressed(r.uuid, r)}))
  {
  }

  class RPCServer {
    const codec: Codec
    const td: TaskDAO
    /** The replies published and the requests acknowledged, in order. */
    var published: seq<(Request, Bytes)>
    var acked: seq<Request>

    constructor (codec: Codec, td: TaskDAO)
      ensures this.codec == codec && this.td == td && published == [] && acked == []
    {
      this.codec, this.td := codec, td;
      published, acked := [], [];
    }

    /** The server and the table are where the system has them. */
    ghost predicate At(s: Sys)
      reads this, td
    {
      s.codec == codec && s.rows == td.rows && RowsOk(s)
    }

    /** The server has built its answer and published it. */
    ghost predicate Answered(s: Sys, steps: seq<Step>, delivery: Request, before: seq<(Request, Bytes)>)
      reads this
    {
      && Legal(s, steps)
      && var t := Run(s, steps);
      && t.server.Replying? && t.server.req == delivery && published == before + [(delivery, t.server.body)]
      && |t.built| == |s.built| + 1 && t.built[|s.built|].req == delivery && t.built[|s.built|].body == t.server.body
    }

    /** One pending row has become SENT; the rest of the table is as it was. */
    ghost predicate HandedOut(before: Table, after: Table, u: Uuid) {
      u in before && before[u].state == PENDING && after == before[u := before[u].(state := SENT)]
    }

    /** The answer is NOTASK exactly when no row is pending. */
    ghost predicate Serves(before: Table, after: Table, body: Bytes) {
      if NonePending(before) then after == before && body == codec.encode(NO_TASK) && NO_TASK.timeToWait == 10
      else exists u :: HandedOut(before, after, u) && body == codec.encode(after[u])
    }

    lemma PickServes(before: Table, after: Table, t: Option<Task>)
      requires t.None? ==> after == before && NonePending(before)
      requires t.Some? ==> var u := t.value.uuid;
        && u in before && before[u].state == PENDING
        && t.value == before[u].(state := SENT) && after == before[u := t.value]
      ensures Serves(before, after, codec.encode(if t.Some? then t.value else NO_TASK))
    {
      if t.Some? { assert HandedOut(before, after, t.value.uuid); }
    }

    /** The branch for GET_TASK. */
    method ServeGet(delivery: Request, ghost s: Sys) returns (ghost steps: seq<Step>)
      requires At(s) && s.server == Got(delivery) && Parse(codec, delivery.body) == Get
      modifies `published, td
      ensures Answered(s, steps, delivery, old(published)) && At(Run(s, steps))
      ensures Serves(old(td.rows), td.rows, Run(s, steps).server.body)
    {
      assert Legal(s, []) && Run(s, []) == s;
      KeyedRows(s);
      hide Legal, Run, RowsOk, Parse, Sys.Next, Sys.DoHandle, Serves;
      var t := td.GetNextPending();
      PickServes(old(td.rows), td.rows, t);
      HandleGet(s, if t.Some? then Some(t.value.uuid) else None);
      steps := Do(s, [], Handle(if t.Some? then Some(t.value.uuid) else None));
      published := published + [(delivery, codec.encode(if t.Some? then t.value else NO_TASK))];
    }

    /** The branch for RETURN_TASK; it throws on an unknown identifier. */
    method ServeReturn(delivery: Request, rettask: Task, ghost s: Sys) returns (answered: bool, ghost steps: seq<Step>)
      requires At(s) && s.server == Got(delivery) && Parse(codec, delivery.body) == Call.Return(rettask)
      modifies `published, td
      ensures Legal(s, steps) && At(Run(s, steps))
      ensures answered <==> rettask.noTask || rettask.uuid in old(td.rows)
      ensures td.rows == if !rettask.noTask && rettask.uuid in old(td.rows)
                         then old(td.rows)[rettask.uuid := Completed(old(td.rows)[rettask.uuid], rettask)]
                         else old(td.rows)
      ensures !rettask.noTask && answered ==> CompletesRow(old(td.rows), td.rows, rettask.uuid, rettask)
      ensures answered ==> published == old(published) + [(delivery, if rettask.noTask then [] else [0])]
      ensures answered ==> Answered(s, steps, delivery, old(published))
      ensures !answered ==>
        Run(s, steps).server == Stuck(delivery) && published == old(published) && td.rows == old(td.rows)
    {
      assert Legal(s, []) && Run(s, []) == s;
      KeyedRows(s);
      HandleReturn(s, rettask);
      hide Legal, Run, RowsOk, Parse, Sys.DoHandle;
      steps := Do(s, [], Handle(None));
      if rettask.noTask {
        published := published + [(delivery, [])];
      } else {
        var task := td.GetByUUID(rettask.uuid);
        if task.None? {
          return false, steps;
        }
        td.Save(Completed(task.value, rettask));
        CompletedRow(old(td.rows), rettask.uuid, rettask);
        steps := Do(s, steps, SaveRow);
        published := published + [(delivery, [0])];
      }
      return true, steps;
    }

    /** One turn of the loop in `run` for a delivery already taken.  When it throws, or does
        not know the method, nothing is published and nothing acknowledged. */
    method Serve(delivery: Request, ghost s: Sys) returns (answered: bool, ghost steps: seq<Step>)
      requires At(s) && s.server == Got(delivery)
      modifies this, td
      ensures Legal(s, steps) && At(Run(s, steps))
      ensures answered <==>
        match Parse(codec, delivery.body)
        case Get => true
        case Return(t) => t.noTask || t.uuid in old(td.rows)
        case Unusable => false
      ensures answered ==>
        && Run(s, steps).server == Idle && acked == old(acked) + [delivery]
        && |Run(s, steps).built| == |s.built| + 1
        && var b := Run(s, steps).built[|s.built|];
        && b.req == delivery && published == old(published) + [(delivery, b.body)]
      ensures !answered ==>
        Run(s, steps).server == Stuck(delivery) && published == old(published) && acked == old(acked)
        && td.rows == old(td.rows)
    {
      assert Legal(s, []) && Run(s, []) == s;
      hide Legal, Run, RowsOk, NonePending, Serves;
      var body := delivery.body;
      steps := [];
      answered := false;
      if |body| >= 7 && body[..7] == GET_TASK {
        steps := ServeGet(delivery, s);
        answered := true;
      } else if |body| >= 7 && body[..7] == RETURN_TASK && codec.decode(body[7..]).Some? {
        answered, steps := ServeReturn(delivery, codec.decode(body[7..]).value, s);
      } else {
        steps := Do(s, [], Handle(None));  // an exception, or no branch for the method
      }
      if answered {
        acked := acked + [delivery];
        steps := DoPublishAndAck(s, steps);
      }
    }

    ghost method DoPublishAndAck(s: Sys, steps: seq<Step>) returns (more: seq<Step>)
      requires Legal(s, steps) && RowsOk(Run(s, steps)) && Run(s, steps).server.Replying?
      ensures Legal(s, more) && RowsOk(Run(s, more)) && Run(s, more).server == Idle
      ensures Run(s, more).rows == Run(s, steps).rows && Run(s, more).built == Run(s, steps).built
      ensures Run(s, more).codec == Run(s, steps).codec
    {
      hide Legal, Run, RowsOk;
      more := Do(s, steps, Publish);
      more := Do(s, more, Ack);
    }

    ghost method Do(s: Sys, steps: seq<Step>, step: Step) returns (more: seq<Step>)
      requires Legal(s, steps) && RowsOk(Run(s, steps)) && Run(s, steps).Enabled(step)
      ensures more == steps + [step] && Legal(s, more) && Run(s, more) == Run(s, steps).Next(step)
      ensures RowsOk(Run(s, more))
    {
      LegalAppend(s, steps, step);
      StepRows(Run(s, steps), step);
      more := steps + [step];
    }
  }

  /** One turn of the receiver's loop for a delivery already taken. */
  method Receive(td: TaskDAO, codec: Codec, corrid: Uuid, body: Bytes, ghost s: Sys) returns (ghost steps: seq<Step>)
    requires s.codec == codec && s.rows == td.rows && RowsOk(s) && s.receiver == Listening
    modifies td
    ensures Legal(s, steps) && Run(s, steps).rows == td.rows && Run(s, steps).receiver == Listening
    ensures var r := codec.decode(body);
      td.rows == if r.Some? && corrid in old(td.rows)
                 then old(td.rows)[corrid := Completed(old(td.rows)[corrid], r.value)] else old(td.rows)
    ensures var r := codec.decode(body);
      r.Some? && corrid in old(td.rows) ==> CompletesRow(old(td.rows), td.rows, corrid, r.value)
    ensures codec.decode(body).Some? && corrid in old(td.rows) ==>
      Addressed(corrid, codec.decode(body).value) in Run(s, steps).addressed
  {
    steps := [];
    assert Legal(s, steps) && Run(s, steps) == s;
    KeyedRows(s);
    hide Legal, Run, RowsOk;
    var t := td.GetByUUID(corrid);
    var r := codec.decode(body);
    LegalAppend(s, steps, ReceiverRead(corrid, body));
    steps := steps + [ReceiverRead(corrid, body)];
    if r.None? || t.None? {
      return;
    }
    td.Save(Completed(t.value, r.value));
    CompletedRow(old(td.rows), corrid, r.value);
    LegalAppend(s, steps, ReceiverSave);
    steps := steps + [ReceiverSave];
  }

  /** One cycle of the worker's loop, from the reply its `getTask` accepts to the message
      it publishes.  `execute` returns None where the executor throws; the worker then
      sends nothing, and the task is lost. */
  method Cycle(w: nat, codec: Codec, reply: Reply, execute: Task -> Option<Bytes>, x: nat, ghost s: Sys)
    returns (message: Option<Bytes>, ghost steps: seq<Step>)
    requires s.codec == codec && s.Enabled(Consume(w, reply)) && x !in s.published
    requires s.workers[w] == Waiting(reply.corrId, true)
    ensures Legal(s, steps)
    ensures message.Some? ==>
      var t := Run(s, steps);
      w in t.workers && t.workers[w] == Waiting(x, false) && Request(w, x, message.value) in t.queue
    ensures message.None? ==>
      var t := Run(s, steps); w in t.workers && t.workers[w] == Ready && t.queue == s.queue
    ensures var t := codec.decode(reply.body);
      message == if t.None? then None
                 else if t.value.noTask then Some(RETURN_TASK + codec.encode(t.value))
                 else if execute(t.value).Some? then Some(RETURN_TASK + execute(t.value).value)
                 else None
    ensures var t := codec.decode(reply.body);
      Lost(s, steps) == if t.Some? && !t.value.noTask && execute(t.value).None? then {t.value.uuid} else {}
  {
    assert Legal(s, []) && Run(s, []) == s && Lost(s, []) == {};
    hide Legal, Run, Lost;
    LegalAppend(s, [], Consume(w, reply));
    steps := [] + [Consume(w, reply)];
    var t := codec.decode(reply.body);
    if t.None? {
      return None, steps;  // getTask returned null
    }
    var response: Option<Bytes>;
    if t.value.noTask {
      response := Some(codec.encode(t.value));
    } else {
      response := execute(t.value);
    }
    if response.None? {
      LegalAppend(s, steps, Abandon(w));
      steps := steps + [Abandon(w)];
      return None, steps;
    }
    LegalAppend(s, steps, Finish(w, x, response.value));
    steps := steps + [Finish(w, x, response.value)];
    return Some(RETURN_TASK + response.value), steps;
  }

  ghost predicate FirstReply(corrId: nat, queue: seq<Reply>, i: int) {
    0 <= i < |queue| && queue[i].corrId == corrId && forall j :: 0 <= j < i ==> queue[j].corrId != corrId
  }

  /** The loop in `call`: takes replies from the queue until one has the request's
      correlation id.  None: it is still waiting. */
  method AwaitReply(corrId: nat, queue: seq<Reply>) returns (response: Option<Bytes>, rest: seq<Reply>)
    ensures response.Some? ==>
      exists i :: FirstReply(corrId, queue, i) && response == Some(queue[i].body) && rest == queue[i + 1..]
    ensures response.None? ==> rest == [] && forall j :: 0 <= j < |queue| ==> queue[j].corrId != corrId
  {
    var i := 0;
    while i < |queue|
      invariant 0 <= i <= |queue| && forall j :: 0 <= j < i ==> queue[j].corrId != corrId
    {
      var delivery := queue[i];
      if delivery.corrId == corrId {
        assert FirstReply(corrId, queue, i);
        return Some(delivery.body), queue[i + 1..];
      }
      i := i + 1;
    }
    return None, [];
  }
}
