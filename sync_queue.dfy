/**
 * SyncQueue: the persistent FIFO of pending operations. The whole queue is
 * one array stored under the key `dcp_sync_queue`; every call reads the
 * array, changes it, and writes it back.
 */
module Queue {
  import opened Wrappers
  import opened JsValues
  import opened MemoryStore

  datatype OpType = Create | Update | Delete

  /** ISyncOperation */
  datatype SyncOperation = SyncOperation(
    id: string,
    opType: OpType,
    key: string,
    payload: Value,
    timestamp: int,
    retryCount: int)

  const QueueKey: string := "dcp_sync_queue"

  function TypeName(t: OpType): string {
    match t
    case Create => "CREATE"
    case Update => "UPDATE"
    case Delete => "DELETE"
  }

  function ParseType(s: string): (r: Option<OpType>)
    ensures r.Some? ==> TypeName(r.value) == s
  {
    if s == "CREATE" then Some(Create)
    else if s == "UPDATE" then Some(Update)
    else if s == "DELETE" then Some(Delete)
    else None
  }

  /** The plain object an ISyncOperation is stored as. */
  function Encode(op: SyncOperation): Value {
    Obj(map[
      "id" := Str(op.id),
      "type" := Str(TypeName(op.opType)),
      "key" := Str(op.key),
      "payload" := op.payload,
      "timestamp" := Num(op.timestamp),
      "retryCount" := Num(op.retryCount)])
  }

  /** Reading a stored object back as an ISyncOperation; None when it lacks a field or has one of the wrong kind. */
  function Decode(v: Value): Option<SyncOperation> {
    match v
    case Obj(f) =>
      if && "id" in f && f["id"].Str?
         && "type" in f && f["type"].Str? && ParseType(f["type"].s).Some?
         && "key" in f && f["key"].Str?
         && "payload" in f
         && "timestamp" in f && f["timestamp"].Num?
         && "retryCount" in f && f["retryCount"].Num?
      then Some(SyncOperation(f["id"].s, ParseType(f["type"].s).value, f["key"].s,
                              f["payload"], f["timestamp"].n, f["retryCount"].n))
      else None
    case _ => None
  }

  /** What is stored is read back unchanged. */
  lemma DecodeEncode(op: SyncOperation)
    ensures Decode(Encode(op)) == Some(op)
  {
    match op.opType
    case Create =>
    case Update =>
    case Delete =>
  }

  /** Every element of the stored array reads back as an operation. */
  predicate AllOps(items: seq<Value>) {
    forall i :: 0 <= i < |items| ==> Decode(items[i]).Some?
  }

  function DecodeAll(items: seq<Value>): (ops: seq<SyncOperation>)
    requires AllOps(items)
    ensures |ops| == |items|
    ensures forall i :: 0 <= i < |items| ==> Some(ops[i]) == Decode(items[i])
  {
    seq(|items|, i requires 0 <= i < |items| => Decode(items[i]).value)
  }

  /** `storage.get(queueKey) || []`, when what is stored there is null or an array. */
  function StoredArray(stored: Value): seq<Value> {
    if stored.Arr? then stored.items else []
  }

  class SyncQueue {
    const storage: InMemoryStorage

    /** The queue key reads as null (absent or falsy) or as an array of operations. */
    ghost predicate Valid()
      reads this, storage
    {
      && storage.Valid()
      && var stored := storage.Get(QueueKey);
         (stored == Null || (stored.Arr? && AllOps(stored.items)))
    }

    /** The pending operations, head first. */
    ghost function Contents(): seq<SyncOperation>
      reads this, storage
      requires Valid()
    {
      DecodeAll(StoredArray(storage.Get(QueueKey)))
    }

    constructor(storage: InMemoryStorage)
      requires storage.Valid()
      requires var stored := storage.Get(QueueKey); stored == Null || (stored.Arr? && AllOps(stored.items))
      ensures this.storage == storage && Valid()
    {
      this.storage := storage;
    }

    /**
     * `enqueue(op)`: stamps the operation with the given id and time and a
     * retry count of 0, and appends it at the tail. Only the queue key is
     * written; it joins the store's key order when it was not stored yet.
     */
    method Enqueue(opType: OpType, key: string, payload: Value, id: string, now: int)
      requires Valid()
      modifies storage
      ensures Valid()
      ensures Contents() == old(Contents()) + [SyncOperation(id, opType, key, payload, now, 0)]
      ensures storage.store - {QueueKey} == old(storage.store) - {QueueKey}
      ensures storage.order == if QueueKey in old(storage.store) then old(storage.order) else old(storage.order) + [QueueKey]
    {
      var operation := SyncOperation(id, opType, key, payload, now, 0);
      var currentQueue := StoredArray(Or(storage.Get(QueueKey), Arr([])));
      currentQueue := currentQueue + [Encode(operation)];
      DecodeEncode(operation);
      storage.Put(QueueKey, Arr(currentQueue));
      assert DecodeAll(currentQueue) == old(Contents()) + [operation];
    }

    /** `peek()`: the head, or null on an empty queue; nothing is written. */
    method Peek() returns (r: Option<SyncOperation>)
      requires Valid()
      ensures r == if Contents() == [] then None else Some(Contents()[0])
    {
      var currentQueue := StoredArray(Or(storage.Get(QueueKey), Arr([])));
      r := if |currentQueue| > 0 then Decode(currentQueue[0]) else None;
    }

    /**
     * `dequeue()`: on an empty queue returns null and writes nothing;
     * otherwise returns the head and stores exactly the rest.
     */
    method Dequeue() returns (r: Option<SyncOperation>)
      requires Valid()
      modifies storage
      ensures Valid()
      ensures old(Contents()) == [] ==> r == None && unchanged(storage)
      ensures old(Contents()) != [] ==> r == Some(old(Contents())[0]) && Contents() == old(Contents())[1..]
      ensures storage.store - {QueueKey} == old(storage.store) - {QueueKey}
      ensures storage.order == old(storage.order)
    {
      var currentQueue := StoredArray(Or(storage.Get(QueueKey), Arr([])));
      if |currentQueue| == 0 {
        return None;
      }
      var op := Decode(currentQueue[0]);
      currentQueue := currentQueue[1..];
      storage.Put(QueueKey, Arr(currentQueue));
      assert DecodeAll(currentQueue) == old(Contents())[1..];
      r := op;
    }

    /** `size()`: the number of pending operations. */
    method Size() returns (n: nat)
      requires Valid()
      ensures n == |Contents()|
    {
      var currentQueue := StoredArray(Or(storage.Get(QueueKey), Arr([])));
      n := |currentQueue|;
    }
  }

  /** A call on the queue, for stating what a series of calls does. */
  datatype QueueCall = EnqueueCall(op: SyncOperation) | DequeueCall

  /** The operations a series of calls enqueues, in call order. */
  function Enqueued(calls: seq<QueueCall>): seq<SyncOperation> {
    if calls == [] then []
    else (if calls[0].EnqueueCall? then [calls[0].op] else []) + Enqueued(calls[1..])
  }

  /** What a series of calls leaves behind: the operations dequeue returned, in order, and the queue. */
  datatype QueueRun = QueueRun(dequeued: seq<SyncOperation>, remaining: seq<SyncOperation>)

  /** Running the calls from queue `q`, each with the effect Enqueue and Dequeue promise. */
  function Run(q: seq<SyncOperation>, calls: seq<QueueCall>): QueueRun
    decreases |calls|
  {
    if calls == [] then QueueRun([], q)
    else match calls[0]
      case EnqueueCall(op) => Run(q + [op], calls[1..])
      case DequeueCall =>
        if q == [] then Run(q, calls[1..])
        else var rest := Run(q[1..], calls[1..]); QueueRun([q[0]] + rest.dequeued, rest.remaining)
  }

  /**
   * FIFO: whatever the calls, the operations dequeued followed by those
   * still queued are the starting queue followed by every enqueued
   * operation, in enqueue order; nothing is lost, duplicated or reordered.
   */
  lemma {:induction false} RunIsFifo(q: seq<SyncOperation>, calls: seq<QueueCall>)
    ensures Run(q, calls).dequeued + Run(q, calls).remaining == q + Enqueued(calls)
    decreases |calls|
  {
    if calls == [] {
      return;
    }
    var tail := calls[1..];
    if calls[0].EnqueueCall? {
      RunIsFifo(q + [calls[0].op], tail);
      assert Enqueued(calls) == [calls[0].op] + Enqueued(tail);
    } else if q == [] {
      RunIsFifo(q, tail);
      assert Enqueued(calls) == Enqueued(tail);
    } else {
      RunIsFifo(q[1..], tail);
      assert Enqueued(calls) == Enqueued(tail);
      var rest := Run(q[1..], tail);
      assert Run(q, calls) == QueueRun([q[0]] + rest.dequeued, rest.remaining);
      assert ([q[0]] + rest.dequeued) + rest.remaining == [q[0]] + (rest.dequeued + rest.remaining);
      assert [q[0]] + (q[1..] + Enqueued(tail)) == ([q[0]] + q[1..]) + Enqueued(tail);
      assert q == [q[0]] + q[1..];
    }
  }

  /** The scenario of a client: three operations come out of peek and dequeue in the order they went in. */
  method QueueScenario(payload: Value)
  {
    var storage := new InMemoryStorage();
    var queue := new SyncQueue(storage);
    queue.Enqueue(Create, "doc:1", payload, "id-1", 1);
    queue.Enqueue(Update, "doc:2", payload, "id-2", 2);
    queue.Enqueue(Delete, "doc:3", payload, "id-3", 3);
    var head := queue.Peek();
    assert head.Some? && head.value.key == "doc:1" && head.value.opType == Create;
    var first := queue.Dequeue();
    assert first.Some? && first.value.key == "doc:1";
    var next := queue.Peek();
    assert next.Some? && next.value.key == "doc:2" && next.value.opType == Update;
    var n := queue.Size();
    assert n == 2;
  }
}
