/** Task dispatch as a transition system: servlets insert rows, workers poll and return,
    one server thread answers requests and a receiver thread completes rows behind its
    back.  Each method of `TaskDAO` is one step, so the two writers interleave between
    reading a row and saving it.  Queues are sets of distinct messages: any order of
    delivery is covered. */
module DispatchSpec {
  import opened Wrappers
  import opened Tasks

  /** Holding: the task is being executed; with NOTASK, the worker is about to say so. */
  datatype Worker = Ready | Waiting(corrId: nat, get: bool) | Holding(task: Task)

  /** Where the server thread is with its one unacknowledged delivery.  Stuck: it threw,
      or did not know the method, and will never answer. */
  datatype Server =
    | Idle
    | Got(req: Request)
    | Saving(req: Request, copy: Task)
    | Replying(req: Request, body: Bytes, task: Option<Uuid>)
    | Acking(req: Request)
    | Stuck(req: Request)

  datatype Receiver = Listening | Storing(copy: Task)

  /** A reply the server has made; `task` is the row it hands out. */
  datatype Built = Built(req: Request, body: Bytes, task: Option<Uuid>)

  /** A return message read by one of the two writers. */
  datatype Addressed = Addressed(uuid: Uuid, task: Task)

  datatype Step =
    | Insert(uuid: Uuid, payload: Bytes)
    | Ask(w: nat, x: nat, plugins: Bytes)            // getTask publishes its request
    | Finish(w: nat, x: nat, result: Bytes)          // sendCompleteTask publishes
    | Consume(w: nat, r: Reply)                      // one turn of the loop in call
    | Abandon(w: nat)                                // an exception, or the worker fails
    | Deliver(q: Request)
    | Handle(pick: Option<Uuid>)                     // the server reads, in one transaction
    | SaveRow
    | Publish
    | Ack
    | Redeliver                                      // the server fails; its delivery goes back
    | ReceiverRead(uuid: Uuid, body: Bytes)
    | ReceiverSave

  datatype Sys = Sys(
    codec: Codec,
    rows: Table,
    queue: set<Request>,
    server: Server,
    replies: set<Reply>,
    workers: map<nat, Worker>,
    receiver: Receiver,
    // What has happened so far.
    published: map<nat, Request>,
    built: seq<Built>,
    addressed: set<Addressed>,
    replied: nat)
  {
    predicate Enabled(s: Step) {
      match s
      case Insert(uuid, _) => uuid !in rows
      case Ask(w, x, _) => w in workers && workers[w] == Ready && x !in published
      case Finish(w, x, result) =>
        && w in workers && workers[w].Holding? && x !in published
        && (workers[w].task.noTask ==> result == codec.encode(workers[w].task))
      case Consume(w, r) => w in workers && workers[w].Waiting? && r in replies && r.client == w
      case Abandon(w) => w in workers
      case Deliver(q) => server == Idle && q in queue
      case Handle(pick) =>
        && server.Got?
        && (if !Parse(codec, server.req.body).Get? then pick == None
            else if pick.Some? then pick.value in rows && rows[pick.value].state == PENDING
            else NonePending(rows))
      case SaveRow => server.Saving?
      case Publish => server.Replying?
      case Ack => server.Acking?
      case Redeliver => server != Idle
      case ReceiverRead(_, _) => receiver == Listening
      case ReceiverSave => receiver.Storing?
    }

    function Send(w: nat, x: nat, body: Bytes, get: bool): Sys {
      var req := Request(w, x, body);
      this.(published := published[x := req], queue := queue + {req}, workers := workers[w := Waiting(x, get)])
    }

    function Build(req: Request, body: Bytes, task: Option<Uuid>): Sys {
      this.(server := Replying(req, body, task), built := built + [Built(req, body, task)])
    }

    function DoHandle(pick: Option<Uuid>): Sys
      requires Enabled(Handle(pick))
    {
      var req := server.req;
      match Parse(codec, req.body)
      case Get =>
        if pick.Some? then
          var t := rows[pick.value].(state := SENT);
          this.(rows := rows[pick.value := t]).Build(req, codec.encode(t), pick)
        else Build(req, codec.encode(NO_TASK), None)
      case Return(t) =>
        if t.noTask then Build(req, [], None)
        else if t.uuid !in rows then this.(server := Stuck(req))
        else this.(server := Saving(req, Completed(rows[t.uuid], t)), addressed := addressed + {Addressed(t.uuid, t)})
      case Unusable => this.(server := Stuck(req))
    }

    function DoConsume(w: nat, r: Reply): Sys
      requires Enabled(Consume(w, r))
    {
      var s := this.(replies := replies - {r});
      if r.corrId != workers[w].corrId then s
      else
        var decoded := codec.decode(r.body);
        s.(workers := workers[w := if workers[w].get && decoded.Some? then Holding(decoded.value) else Ready])
    }

    function DoReceiverRead(uuid: Uuid, body: Bytes): Sys {
      var decoded := codec.decode(body);
      if decoded.None? || uuid !in rows then this
      else this.(receiver := Storing(Completed(rows[uuid], decoded.value)),
                 addressed := addressed + {Addressed(uuid, decoded.value)})
    }

    function Next(s: Step): Sys
      requires Enabled(s)
    {
      match s
      case Insert(uuid, payload) => this.(rows := rows[uuid := NewTask(uuid, payload)])
      case Ask(w, x, plugins) => Send(w, x, GET_TASK + plugins, true)
      case Finish(w, x, result) => Send(w, x, RETURN_TASK + result, false)
      case Consume(w, r) => DoConsume(w, r)
      case Abandon(w) => this.(workers := workers[w := Ready])
      case Deliver(q) => this.(server := Got(q), queue := queue - {q})
      case Handle(pick) => DoHandle(pick)
      case SaveRow => this.(rows := rows[server.copy.uuid := server.copy]).Build(server.req, [0], None)
      case Publish =>
        this.(replies := replies + {Reply(replied, server.req.client, server.req.corrId, server.body)},
              replied := replied + 1, server := Acking(server.req))
      case Ack => this.(server := Idle)
      case Redeliver => this.(queue := queue + {server.req}, server := Idle)
      case ReceiverRead(uuid, body) => DoReceiverRead(uuid, body)
      case ReceiverSave => this.(rows := rows[receiver.copy.uuid := receiver.copy], receiver := Listening)
    }
  }

  ghost predicate Init(s: Sys) {
    && s.rows == map[] && s.queue == {} && s.server == Idle && s.replies == {} && s.receiver == Listening
    && s.published == map[] && s.built == [] && s.addressed == {} && s.replied == 0
    && (forall w :: w in s.workers ==> s.workers[w] == Ready)
  }

  ghost predicate Legal(s: Sys, steps: seq<Step>)
    decreases steps, 0
  {
    steps == [] || (var n := |steps| - 1; Legal(s, steps[..n]) && Run(s, steps[..n]).Enabled(steps[n]))
  }

  ghost function Run(s: Sys, steps: seq<Step>): Sys
    requires Legal(s, steps)
    decreases steps, 1
  {
    if steps == [] then s else var n := |steps| - 1; Run(s, steps[..n]).Next(steps[n])
  }

  // ---- Safety, in every run ----

  /** Some return message addressed to `t`'s row carried all four of its return fields. */
  ghost predicate FromOneMessage(s: Sys, t: Task) {
    exists r :: Addressed(t.uuid, r) in s.addressed && ReturnedBy(t, r)
  }

  /** A copy read by one of the writers and not yet saved. */
  ghost predicate GoodCopy(s: Sys, copy: Task) {
    && copy.uuid in s.rows && copy.state == COMPLETE && !copy.noTask && FromOneMessage(s, copy)
    && copy.payload == s.rows[copy.uuid].payload
  }

  /** The copy was made from this request. */
  predicate CopyOf(c: Codec, req: Request, copy: Task) {
    var call := Parse(c, req.body);
    call.Return? && !call.task.noTask && call.task.uuid == copy.uuid && ReturnedBy(copy, call.task)
  }

  ghost predicate RowsOk(s: Sys) {
    && KeyedByUuid(s.rows) && (forall u :: u in s.rows ==> !s.rows[u].noTask)
    && (forall u :: u in s.rows && s.rows[u].state == COMPLETE ==> FromOneMessage(s, s.rows[u]))
    && (s.server.Saving? ==> GoodCopy(s, s.server.copy) && CopyOf(s.codec, s.server.req, s.server.copy))
    && (s.receiver.Storing? ==> GoodCopy(s, s.receiver.copy))
  }

  /** Every task handed out was handed out once. */
  ghost predicate DispatchedOnce(s: Sys) {
    && (forall i :: 0 <= i < |s.built| && s.built[i].task.Some? ==>
          s.built[i].task.value in s.rows && s.rows[s.built[i].task.value].state != PENDING)
    && (forall i, j :: 0 <= i < j < |s.built| && s.built[i].task.Some? ==> s.built[i].task != s.built[j].task)
  }

  ghost predicate WasBuilt(s: Sys, req: Request, body: Bytes) {
    exists i :: 0 <= i < |s.built| && s.built[i].req == req && s.built[i].body == body
  }

  ghost predicate IsPublished(s: Sys, req: Request) {
    req.corrId in s.published && s.published[req.corrId] == req
  }

  /** Every reply in a queue was built for the one request with its correlation id. */
  ghost predicate Correlated(s: Sys) {
    && (forall x :: x in s.published ==> s.published[x].corrId == x)
    && (forall q :: q in s.queue ==> IsPublished(s, q))
    && (s.server != Idle ==> IsPublished(s, s.server.req))
    && (s.server.Replying? ==> WasBuilt(s, s.server.req, s.server.body))
    && (forall r :: r in s.replies ==>
          && r.tag < s.replied && r.corrId in s.published && s.published[r.corrId].client == r.client
          && WasBuilt(s, s.published[r.corrId], r.body))
    && (forall w :: w in s.workers && s.workers[w].Waiting? ==>
          s.workers[w].corrId in s.published && s.published[s.workers[w].corrId].client == w)
  }

  ghost predicate Safe(s: Sys) {
    RowsOk(s) && DispatchedOnce(s) && Correlated(s)
  }

  // ---- Conservation, in failure-free runs ----

  /** Nothing fails: no worker or server dies and every execution returns a decodable
      result that keeps the task's identifier. */
  predicate Faultless(s: Sys, step: Step)
    requires s.Enabled(step)
  {
    match step
    case Redeliver => false
    case Abandon(_) => false
    case Finish(w, _, result) =>
      s.workers[w].task.noTask ||
      (var r := s.codec.decode(result); r.Some? && !r.value.noTask && r.value.uuid == s.workers[w].task.uuid)
    case _ => true
  }

  ghost predicate FaultlessRun(s: Sys, steps: seq<Step>)
    requires Legal(s, steps)
  {
    steps == [] ||
    (var n := |steps| - 1; FaultlessRun(s, steps[..n]) && Faultless(Run(s, steps[..n]), steps[n]))
  }

  /** Where a message or a task can be. */
  datatype Place = InQueue(q: Request) | AtServer | InReplies(r: Reply) | AtWorker(w: nat)

  /** The conversation with correlation id `x` has got to this place. */
  ghost predicate TokenAt(s: Sys, p: Place, x: nat) {
    match p
    case InQueue(q) => q in s.queue && q.corrId == x
    case AtServer => s.server != Idle && !s.server.Acking? && s.server.req.corrId == x
    case InReplies(r) => r in s.replies && r.corrId == x
    case AtWorker(_) => false
  }

  ghost predicate Asks(s: Sys, req: Request) {
    Parse(s.codec, req.body) == Get
  }

  ghost predicate Returns(s: Sys, req: Request, u: Uuid) {
    var call := Parse(s.codec, req.body);
    call.Return? && !call.task.noTask && call.task.uuid == u
  }

  ghost predicate HandsOut(s: Sys, body: Bytes, u: Uuid) {
    var t := s.codec.decode(body);
    t.Some? && !t.value.noTask && t.value.uuid == u
  }

  /** A copy of task `u` is at this place. */
  ghost predicate CopyAt(s: Sys, p: Place, u: Uuid) {
    match p
    case InQueue(q) => q in s.queue && Returns(s, q, u)
    case AtServer =>
      (match s.server
       case Got(req) => Returns(s, req, u)
       case Saving(_, copy) => copy.uuid == u
       case Replying(_, _, task) => task == Some(u)
       case _ => false)
    case InReplies(r) =>
      r in s.replies && r.corrId in s.published && Asks(s, s.published[r.corrId]) && HandsOut(s, r.body, u)
    case AtWorker(w) =>
      w in s.workers && s.workers[w].Holding? && !s.workers[w].task.noTask && s.workers[w].task.uuid == u
  }

  /** The worker that published `x` is waiting for the answer. */
  ghost predicate Awaited(s: Sys, x: nat) {
    && x in s.published && s.published[x].client in s.workers
    && s.workers[s.published[x].client] == Waiting(x, Asks(s, s.published[x]))
  }

  /** Each conversation is in one place, and the worker that began it is waiting for it. */
  ghost predicate Conversations(s: Sys) {
    && (forall p, p', x :: TokenAt(s, p, x) && TokenAt(s, p', x) ==> p == p')
    && (forall p, x :: TokenAt(s, p, x) ==> Awaited(s, x))
    && (forall w :: w in s.workers && s.workers[w].Waiting? ==> exists p :: TokenAt(s, p, s.workers[w].corrId))
    && !s.server.Stuck?
    && (forall r :: r in s.replies && r.corrId in s.published && Asks(s, s.published[r.corrId]) ==>
          s.codec.decode(r.body).Some?)
  }

  /** What the server is about to send is what it says it is. */
  ghost predicate ServerOk(s: Sys) {
    && (s.server.Replying? ==>
          && (s.server.task.Some? ==> Asks(s, s.server.req))
          && (Asks(s, s.server.req) ==>
                && s.codec.decode(s.server.body).Some?
                && forall u :: HandsOut(s, s.server.body, u) <==> s.server.task == Some(u)))
    && (s.server.Saving? ==> Returns(s, s.server.req, s.server.copy.uuid))
    && (forall q :: (q in s.queue || s.server == Got(q)) ==> !Parse(s.codec, q.body).Unusable?)
  }

  /** No task is doubled, and none is lost but those in `lost`: a row that is SENT has
      exactly one copy, a pending one none, a lost one none for ever. */
  ghost predicate Conserved(s: Sys, lost: set<Uuid>) {
    && (forall p, p', u :: CopyAt(s, p, u) && CopyAt(s, p', u) ==> p == p')
    && (forall p, u :: CopyAt(s, p, u) ==> u in s.rows && s.rows[u].state != PENDING && u !in lost)
    && (forall u :: u in s.rows && s.rows[u].state == SENT && u !in lost ==> exists p :: CopyAt(s, p, u))
    && (forall u :: u in lost ==> u in s.rows && s.rows[u].state != PENDING)
  }

  ghost predicate Steady(s: Sys, lost: set<Uuid>) {
    RoundTrips(s.codec) && Safe(s) && Conversations(s) && ServerOk(s) && Conserved(s, lost)
  }

  // ---- Runs in which executions fail ----

  /** The worker gives up the task it holds: the executor has thrown, and the exception is
      caught and logged. */
  predicate GivesUp(s: Sys, step: Step)
    requires s.Enabled(step)
  {
    step.Abandon? && s.workers[step.w].Holding?
  }

  ghost predicate WorkerFaultsOnly(s: Sys, steps: seq<Step>)
    requires Legal(s, steps)
  {
    steps == [] ||
    (var n := |steps| - 1;
     && WorkerFaultsOnly(s, steps[..n])
     && (Faultless(Run(s, steps[..n]), steps[n]) || GivesUp(Run(s, steps[..n]), steps[n])))
  }

  /** The task a step gives up. */
  function GivenUp(s: Sys, step: Step): set<Uuid>
    requires s.Enabled(step)
  {
    if GivesUp(s, step) && !s.workers[step.w].task.noTask then {s.workers[step.w].task.uuid} else {}
  }

  /** The tasks given up in a run. */
  ghost function Lost(s: Sys, steps: seq<Step>): set<Uuid>
    requires Legal(s, steps)
  {
    if steps == [] then {} else
    var n := |steps| - 1;
    Lost(s, steps[..n]) + GivenUp(Run(s, steps[..n]), steps[n])
  }

  /** How much is left to do. */
  function InState(rows: Table, st: State): set<Uuid> {
    set u | u in rows && rows[u].state == st
  }

  function Remaining(rows: Table): nat {
    2 * |InState(rows, PENDING)| + |InState(rows, SENT)|
  }
}
