/** The FIFO under a non-recursive mutex of queue.h. */
module LockedQueue {

  class LockedQueue<T> {
    var locked: bool
    var queue: seq<T>
    // All items that ever went in, and all that came out, in order.
    ghost var pushed: seq<T>
    ghost var popped: seq<T>

    // What came out, then what is inside, is what went in.
    ghost predicate Valid()
      reads this
    {
      pushed == popped + queue
    }

    constructor ()
      ensures Valid() && !locked && pushed == []
    {
      locked, queue, pushed, popped := false, [], [], [];
    }

    // A second Lock by the holder would never return.
    method Lock()
      requires !locked
      modifies `locked
      ensures locked
    {
      locked := true;
    }

    method Unlock()
      requires locked
      modifies `locked
      ensures !locked
    {
      locked := false;
    }

    // The front of an empty queue is undefined.
    method Pop() returns (output: T)
      requires Valid() && queue != []
      modifies `queue, `popped
      ensures Valid() && popped == old(popped) + [output]
      ensures [output] + queue == old(queue)
    {
      output := queue[0];
      queue := queue[1..];
      popped := popped + [output];
    }

    method Push(item: T)
      requires Valid()
      modifies `queue, `pushed
      ensures Valid() && pushed == old(pushed) + [item]
      ensures queue == old(queue) + [item]
    {
      queue := queue + [item];
      pushed := pushed + [item];
    }

    predicate Empty()
      reads this
    {
      queue == []
    }
  }

  // The drain loop of AsyncAddJobs and AsyncChangeCurlSettings, with what it
  // does with each item collected: everything queued comes out, once and in the
  // order pushed, and nothing that ever went in is left.
  method Drain<T>(q: LockedQueue<T>) returns (taken: seq<T>)
    requires q.Valid() && !q.locked
    modifies q
    ensures q.Valid() && !q.locked && q.queue == [] && taken == old(q.queue)
    ensures q.popped == q.pushed == old(q.pushed)
  {
    taken := [];
    q.Lock();
    while !q.Empty()
      invariant q.Valid() && q.locked && q.pushed == old(q.pushed) && taken + q.queue == old(q.queue)
      decreases |q.queue|
    {
      var item := q.Pop();
      taken := taken + [item];
    }
    q.Unlock();
  }
}
