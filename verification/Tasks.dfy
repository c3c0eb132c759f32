/** Tasks, their table with its transactions (`TaskDAO`), the servlet's insert loop, and
    the requests and replies that travel between clients and server. */
module Tasks {
  import opened Wrappers

  type Byte = b: int | 0 <= b < 256

  type Bytes = seq<Byte>

  type Uuid = string

  datatype State = PENDING | SENT | COMPLETE

  /** The payload fields stand for everything the broker fills in and nobody changes. */
  datatype Task = Task(
    uuid: Uuid,
    payload: Bytes,
    returnCode: Option<string>,
    returnData: Option<Bytes>,
    returnDataMD5: Option<string>,
    returnDataType: Option<string>,
    state: State,
    noTask: bool,
    timeToWait: int)

  /** What the broker inserts (`doPost`, `insertTask`). */
  function NewTask(uuid: Uuid, payload: Bytes): Task {
    Task(uuid, payload, None, None, None, None, PENDING, false, 0)
  }

  /** A task as submitted: the data given, nothing returned, waiting to be handed out. */
  predicate Submitted(t: Task, uuid: Uuid, payload: Bytes) {
    && t.uuid == uuid && t.payload == payload && t.state == PENDING && !t.noTask && t.timeToWait == 0
    && t.returnCode.None? && t.returnData.None? && t.returnDataMD5.None? && t.returnDataType.None?
  }

  /** What the server answers when nothing is pending. */
  const NO_TASK := Task("", [], None, None, None, None, PENDING, true, 10)

  /** `t` with the return fields of `r`, complete. */
  function Completed(t: Task, r: Task): Task {
    t.(returnCode := r.returnCode, returnData := r.returnData, returnDataMD5 := r.returnDataMD5,
       returnDataType := r.returnDataType, state := COMPLETE)
  }

  /** All four return fields of `t` are those of `r`. */
  predicate ReturnedBy(t: Task, r: Task) {
    && t.returnCode == r.returnCode && t.returnData == r.returnData
    && t.returnDataMD5 == r.returnDataMD5 && t.returnDataType == r.returnDataType
  }

  /** From `before` to `after` row `u` has been completed with what `r` returns, and nothing
      else has changed. */
  ghost predicate CompletesRow(before: Table, after: Table, u: Uuid, r: Task) {
    && u in before && after.Keys == before.Keys && (forall v :: v in before && v != u ==> after[v] == before[v])
    && ReturnedBy(after[u], r) && after[u].state == COMPLETE
    && after[u].uuid == before[u].uuid && after[u].payload == before[u].payload
    && after[u].noTask == before[u].noTask && after[u].timeToWait == before[u].timeToWait
  }

  lemma CompletedRow(rows: Table, u: Uuid, r: Task)
    requires u in rows
    ensures CompletesRow(rows, rows[u := Completed(rows[u], r)], u, r)
  {
  }

  function Rank(s: State): nat {
    match s case PENDING => 0 case SENT => 1 case COMPLETE => 2
  }

  /** `TaskOps`: how tasks travel; None where `decodeTask` throws. */
  datatype Codec = Codec(encode: Task -> Bytes, decode: Bytes -> Option<Task>)

  ghost predicate RoundTrips(c: Codec) {
    forall t: Task :: c.decode(c.encode(t)) == Some(t)
  }

  /** The bytes of a method's name. */
  function Ascii(name: string): (bytes: Bytes)
    ensures |bytes| == |name|
  {
    seq(|name|, i requires 0 <= i < |name| => name[i] as int % 256)
  }

  const GET_TASK: Bytes := [103, 101, 116, 116, 97, 115, 107]     // "gettask"
  const RETURN_TASK: Bytes := [114, 101, 116, 116, 97, 115, 107]  // "rettask"

  /** What the server makes of the bytes of a request. */
  datatype Call = Get | Return(task: Task) | Unusable

  /** The first seven bytes name the method.  A shorter message, an unknown method and an
      undecodable task all end in a delivery that is neither answered nor acknowledged. */
  function Parse(c: Codec, body: Bytes): Call {
    if |body| < 7 then Unusable
    else if body[..7] == GET_TASK then Get
    else if body[..7] == RETURN_TASK then
      match c.decode(body[7..])
      case Some(t) => Return(t)
      case None => Unusable
    else Unusable
  }

  lemma ParseOfRequests(c: Codec, rest: Bytes)
    ensures GET_TASK == Ascii("gettask") && RETURN_TASK == Ascii("rettask")
    ensures Parse(c, GET_TASK + rest) == Get
    ensures Parse(c, RETURN_TASK + rest) == (match c.decode(rest) case Some(t) => Return(t) case None => Unusable)
  {
    assert "gettask" == ['g', 'e', 't', 't', 'a', 's', 'k'] && "rettask" == ['r', 'e', 't', 't', 'a', 's', 'k'];
    assert (GET_TASK + rest)[..7] == GET_TASK;
    assert (RETURN_TASK + rest)[..7] == RETURN_TASK && (RETURN_TASK + rest)[7..] == rest;
    assert RETURN_TASK[0] != GET_TASK[0];
  }

  /** Nothing else is. */
  lemma OtherRequests(c: Codec, body: Bytes)
    requires |body| >= 7 ==> body[..7] != Ascii("gettask") && body[..7] != Ascii("rettask")
    ensures Parse(c, body) == Unusable
  {
    ParseOfRequests(c, []);
  }

  type Table = map<Uuid, Task>

  predicate NonePending(rows: Table) {
    forall u :: u in rows ==> rows[u].state != PENDING
  }

  ghost predicate KeyedByUuid(rows: Table) {
    forall u :: u in rows ==> rows[u].uuid == u
  }

  /** The task table; each method is one transaction. */
  class TaskDAO {
    var rows: Table

    constructor ()
      ensures rows == map[]
    {
      rows := map[];
    }

    method Create(t: Task)
      requires t.uuid !in rows
      modifies this
      ensures rows == old(rows)[t.uuid := t]
    {
      rows := rows[t.uuid := t];
    }

    /** Some pending row, which is then SENT; the query gives no order. */
    method GetNextPending() returns (next: Option<Task>)
      requires KeyedByUuid(rows)
      modifies this
      ensures next.None? ==> rows == old(rows) && NonePending(rows)
      ensures next.Some? ==> var u := next.value.uuid;
        && u in old(rows) && old(rows)[u].state == PENDING && next.value == old(rows)[u].(state := SENT)
        && rows == old(rows)[u := next.value]
    {
      if NonePending(rows) {
        return None;
      }
      var u :| u in rows && rows[u].state == PENDING;
      var t := rows[u].(state := SENT);
      rows := rows[u := t];
      return Some(t);
    }

    method GetByUUID(uuid: Uuid) returns (t: Option<Task>)
      ensures t == if uuid in rows then Some(rows[uuid]) else None
    {
      if uuid in rows { return Some(rows[uuid]); }
      return None;
    }

    method Save(t: Task)
      requires t.uuid in rows
      modifies this
      ensures rows == old(rows)[t.uuid := t]
    {
      rows := rows[t.uuid := t];
    }
  }

  function Inserted(rows: Table, uuids: seq<Uuid>, payload: Bytes): Table {
    if uuids == [] then rows
    else var n := |uuids| - 1; Inserted(rows, uuids[..n], payload)[uuids[n] := NewTask(uuids[n], payload)]
  }

  /** The loop of `doPost`: `numTasks` pending rows, one for each fresh identifier. */
  method InsertTasks(dao: TaskDAO, numTasks: int, payload: Bytes, uuids: seq<Uuid>) returns (uuidList: seq<Uuid>)
    requires numTasks <= |uuids|
    requires forall i :: 0 <= i < |uuids| ==> uuids[i] !in dao.rows
    requires forall i, j :: 0 <= i < j < |uuids| ==> uuids[i] != uuids[j]
    modifies dao
    ensures uuidList == if numTasks < 0 then [] else uuids[..numTasks]
    ensures dao.rows == Inserted(old(dao.rows), uuidList, payload)
    ensures dao.rows.Keys == old(dao.rows).Keys + set u | u in uuidList
    ensures forall u :: u in old(dao.rows) ==> dao.rows[u] == old(dao.rows)[u]
    ensures forall u :: u in uuidList ==> Submitted(dao.rows[u], u, payload)
  {
    uuidList := [];
    var i := 0;
    while i < numTasks
      invariant 0 <= i && (i <= numTasks || (numTasks < 0 && i == 0))
      invariant uuidList == uuids[..i] && dao.rows == Inserted(old(dao.rows), uuids[..i], payload)
      invariant dao.rows.Keys == old(dao.rows).Keys + set k | 0 <= k < i :: uuids[k]
    {
      var t := NewTask(uuids[i], payload);
      dao.Create(t);
      assert uuids[..i + 1][..i] == uuids[..i];
      uuidList := uuidList + [t.uuid];
      i := i + 1;
    }
    InsertedRows(old(dao.rows), uuidList, payload);
  }

  /** Inserting only adds rows, all of them pending and as inserted. */
  lemma {:induction false} InsertedRows(rows: Table, uuids: seq<Uuid>, payload: Bytes)
    requires forall i :: 0 <= i < |uuids| ==> uuids[i] !in rows
    ensures var after := Inserted(rows, uuids, payload);
      && (forall u :: u in after <==> u in rows || u in uuids)
      && (forall u :: u in rows ==> after[u] == rows[u])
      && (forall u :: u in uuids ==> Submitted(after[u], u, payload))
  {
    if uuids != [] {
      var n := |uuids| - 1;
      InsertedRows(rows, uuids[..n], payload);
      assert uuids == uuids[..n] + [uuids[n]];
    }
  }

  datatype Request = Request(client: nat, corrId: nat, body: Bytes)

  datatype Reply = Reply(tag: nat, client: nat, corrId: nat, body: Bytes)
}
