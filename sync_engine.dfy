/**
 * SyncEngine: one sync cycle drains the pending-operation queue from the
 * head and then pulls remote changes. An `isSyncing` flag turns a call made
 * while a cycle is in flight into a no-op, and is always cleared when the
 * cycle ends; errors end the cycle quietly.
 */
module Engine {
  import opened Wrappers
  import opened Queue

  /**
   * The storage call that throws during a drain, if any: the `at`-th call of
   * `peek()` (counting from 0; the first is the one before the loop), or the
   * `dequeue()` of iteration `at`. The in-memory store never throws; this
   * stands for a store that can.
   */
  datatype Fault = NoFault | PeekThrows(at: nat) | DequeueThrows(at: nat)

  /** What a drain did: the operations it removed, in order; the queue it left; whether an error escaped it. */
  datatype DrainRun = DrainRun(removed: seq<SyncOperation>, remaining: seq<SyncOperation>, threw: bool)

  /** The drain loop run on queue `q` from iteration `i` on. */
  function Drain(q: seq<SyncOperation>, fault: Fault, i: nat): (r: DrainRun)
    decreases |q|
    ensures |r.removed| + |r.remaining| == |q|
    ensures r.threw ==> fault.PeekThrows?
    ensures fault == NoFault ==> !r.threw && r.remaining == []
  {
    if fault == PeekThrows(i) then DrainRun([], q, true)
    else if q == [] then DrainRun([], [], false)
    else if fault == DequeueThrows(i) then DrainRun([], q, false)
    else
      var rest := Drain(q[1..], fault, i + 1);
      DrainRun([q[0]] + rest.removed, rest.remaining, rest.threw)
  }

  /**
   * Operations leave strictly from the head, in queue order, none skipped:
   * what was removed followed by what is left is the queue drained.
   */
  lemma {:induction false} DrainSplitsQueue(q: seq<SyncOperation>, fault: Fault, i: nat)
    ensures Drain(q, fault, i).removed + Drain(q, fault, i).remaining == q
    decreases |q|
  {
    if fault != PeekThrows(i) && q != [] && fault != DequeueThrows(i) {
      DrainSplitsQueue(q[1..], fault, i + 1);
      var rest := Drain(q[1..], fault, i + 1);
      assert ([q[0]] + rest.removed) + rest.remaining == [q[0]] + (rest.removed + rest.remaining);
      assert q == [q[0]] + q[1..];
    }
  }

  /** Without a failure the loop ends with an empty queue, having removed every operation in order. */
  lemma {:induction false} DrainWithoutFaultEmptiesQueue(q: seq<SyncOperation>, i: nat)
    ensures Drain(q, NoFault, i) == DrainRun(q, [], false)
    decreases |q|
  {
    if q != [] {
      DrainWithoutFaultEmptiesQueue(q[1..], i + 1);
      assert q == [q[0]] + q[1..];
    }
  }

  /** Draining an empty queue removes nothing: the loop body never runs. */
  lemma DrainEmptyQueue(fault: Fault)
    ensures Drain([], fault, 0).removed == []
    ensures Drain([], fault, 0).remaining == []
  {
  }

  /**
   * A dequeue that throws in iteration `k` stops the loop: the first `k`
   * operations are gone, the rest stay in their original order, and the
   * error does not leave the loop.
   */
  lemma {:induction false} DrainStopsAtFailedDequeue(q: seq<SyncOperation>, k: nat, i: nat)
    requires i <= k
    ensures var n := if k - i < |q| then k - i else |q|;
      Drain(q, DequeueThrows(k), i) == DrainRun(q[..n], q[n..], false)
    decreases |q|
  {
    if q != [] && i != k {
      DrainStopsAtFailedDequeue(q[1..], k, i + 1);
      var n := if k - i < |q| then k - i else |q|;
      assert q[..n] == [q[0]] + q[1..][..n - 1];
      assert q[n..] == q[1..][n - 1..];
    }
  }

  /** A drain run preceded by the operations already removed. */
  function Prefixed(removed: seq<SyncOperation>, r: DrainRun): DrainRun {
    r.(removed := removed + r.removed)
  }

  /** One iteration of the loop that removes the head. */
  lemma PrefixedStep(removed: seq<SyncOperation>, q: seq<SyncOperation>, fault: Fault, i: nat)
    requires q != [] && fault != PeekThrows(i) && fault != DequeueThrows(i)
    ensures Prefixed(removed, Drain(q, fault, i)) == Prefixed(removed + [q[0]], Drain(q[1..], fault, i + 1))
  {
    var rest := Drain(q[1..], fault, i + 1);
    assert removed + ([q[0]] + rest.removed) == (removed + [q[0]]) + rest.removed;
  }

  class SyncEngine {
    var isSyncing: bool
    const queue: SyncQueue

    ghost predicate Valid()
      reads this, queue, queue.storage
    {
      queue.Valid()
    }

    constructor(queue: SyncQueue)
      requires queue.Valid()
      ensures Valid() && this.queue == queue && !isSyncing
    {
      this.queue := queue;
      isSyncing := false;
    }

    /**
     * `sync()`: a no-op when a cycle is already in flight; otherwise drains
     * the queue, pulls changes unless the drain threw, swallows any error,
     * and clears `isSyncing` on every path. The documents sharing the store
     * with the queue, and the store's key order, are left alone.
     */
    method Sync(fault: Fault)
      requires Valid()
      modifies this, queue.storage
      ensures Valid()
      ensures old(isSyncing) ==> isSyncing && unchanged(queue.storage)
      ensures !old(isSyncing) ==> !isSyncing && queue.Contents() == Drain(old(queue.Contents()), fault, 0).remaining
      ensures queue.storage.store - {QueueKey} == old(queue.storage.store) - {QueueKey}
      ensures queue.storage.order == old(queue.storage.order)
    {
      if isSyncing {
        return;
      }
      isSyncing := true;
      var removed, threw := ProcessQueue(fault);
      if !threw {
        PullChanges();
      }
      // catch: the error is logged and not rethrown; finally:
      isSyncing := false;
    }

    /**
     * `processQueue()`: peek, dequeue, peek again, until the queue is empty.
     * A dequeue that throws is caught and ends the loop; a peek that throws
     * leaves the method. Returns the operations removed and whether it threw.
     */
    method ProcessQueue(fault: Fault) returns (removed: seq<SyncOperation>, threw: bool)
      requires queue.Valid()
      modifies queue.storage
      ensures queue.Valid()
      ensures DrainRun(removed, queue.Contents(), threw) == Drain(old(queue.Contents()), fault, 0)
      ensures queue.storage.store - {QueueKey} == old(queue.storage.store) - {QueueKey}
      ensures queue.storage.order == old(queue.storage.order)
    {
      ghost var q0 := queue.Contents();
      removed, threw := [], false;
      if fault == PeekThrows(0) {
        return [], true;
      }
      var op := queue.Peek();
      var i: nat := 0;
      while op.Some?
        invariant queue.Valid()
        invariant fault != PeekThrows(i)
        invariant op == if queue.Contents() == [] then None else Some(queue.Contents()[0])
        invariant Drain(q0, fault, 0) == Prefixed(removed, Drain(queue.Contents(), fault, i))
        invariant queue.storage.store - {QueueKey} == old(queue.storage.store) - {QueueKey}
        invariant queue.storage.order == old(queue.storage.order)
        decreases |queue.Contents()|
      {
        if fault == DequeueThrows(i) {
          // caught: logged, and the loop is left
          break;
        }
        ghost var before := queue.Contents();
        var _ := queue.Dequeue();
        PrefixedStep(removed, before, fault, i);
        removed := removed + [op.value];
        i := i + 1;
        if fault == PeekThrows(i) {
          return removed, true;
        }
        op := queue.Peek();
      }
    }

    /** `pullChanges()`: fetching from the server is not implemented; it changes nothing. */
    method PullChanges()
    {
    }
  }
}
