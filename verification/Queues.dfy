/** The inter-thread queues: deques behind a mutex, drained by swapping. Each method is
    one critical section. `pushed` and `drained` remember what went in and out. */
module Queues {

  /** The queues network to simulation, HTTP to simulation and simulation to network. */
  class MessageQueue<T(==)> {
    var q: seq<T>
    ghost var pushed: seq<T>
    ghost var drained: seq<T>

    /** Nothing lost, nothing twice, first in first out. */
    ghost predicate Valid()
      reads this
    {
      pushed == drained + q
    }

    constructor ()
      ensures Valid() && q == [] && pushed == [] && drained == []
    {
      q, pushed, drained := [], [], [];
    }

    method Push(m: T)
      requires Valid()
      modifies this
      ensures Valid()
      ensures q == old(q) + [m] && pushed == old(pushed) + [m] && drained == old(drained)
    {
      q := q + [m];
      pushed := pushed + [m];
    }

    /** Swaps the queue with the caller's deque. What the caller leaves in its deque goes
        back into the queue as if it had been pushed again: conservation survives a
        drain exactly when the deque handed in is fresh. */
    method Drain(out: seq<T>) returns (batch: seq<T>)
      requires Valid()
      modifies this
      ensures batch == old(q) && q == out
      ensures pushed == old(pushed) && drained == old(drained) + batch
      ensures Valid() <==> out == []
    {
      batch := q;
      q := out;
      drained := drained + batch;
      assert |pushed| == |drained|;
      assert pushed == drained;
    }
  }

  /** The queue simulation to HTTP, whose consumer sleeps until there is work. */
  class BlockingQueue<T(==)> {
    var q: seq<T>
    var stopped: bool
    ghost var pushed: seq<T>
    ghost var drained: seq<T>

    ghost predicate Valid()
      reads this
    {
      pushed == drained + q
    }

    constructor ()
      ensures Valid() && q == [] && !stopped && pushed == [] && drained == []
    {
      q, stopped, pushed, drained := [], false, [], [];
    }

    method Push(m: T)
      requires Valid()
      modifies this
      ensures Valid()
      ensures q == old(q) + [m] && pushed == old(pushed) + [m] && drained == old(drained) && stopped == old(stopped)
    {
      q := q + [m];
      pushed := pushed + [m];
    }

    /** What the condition variable waits for. */
    predicate Awake()
      reads this
    {
      stopped || q != []
    }

    /** The part of `waitAndDrain` after the wait. It returns true only with a non-empty
        batch, everything queued at that moment, and false only when the queue was
        stopped and everything ever pushed has been handed over. */
    method WaitAndDrain(out: seq<T>) returns (ok: bool, batch: seq<T>)
      requires Valid() && Awake()
      modifies this
      ensures ok <==> old(q) != []
      ensures ok ==> batch == old(q) && q == out && drained == old(drained) + batch && (Valid() <==> out == [])
      ensures !ok ==> old(stopped) && batch == out && q == old(q) && drained == old(drained) == pushed && Valid()
      ensures pushed == old(pushed) && stopped == old(stopped)
    {
      if stopped && q == [] {
        return false, out;
      }
      ok, batch := true, q;
      q := out;
      drained := drained + batch;
      assert pushed == drained;
    }

    method Stop()
      requires Valid()
      modifies this
      ensures Valid() && stopped && q == old(q) && pushed == old(pushed) && drained == old(drained)
    {
      stopped := true;
    }
  }

  /** A consumer thread: it drains into a fresh deque and pops the batch to the end. */
  class Consumer<T(==)> {
    const source: BlockingQueue<T>
    var batch: seq<T>
    ghost var consumed: seq<T>

    /** Consumed, then the batch, then the queue, is what was pushed. */
    ghost predicate Valid()
      reads this, source
    {
      source.Valid() && consumed + batch == source.drained
    }

    constructor (queue: BlockingQueue<T>)
      requires queue.Valid() && queue.drained == []
      ensures Valid() && source == queue && batch == [] && consumed == []
    {
      source, batch, consumed := queue, [], [];
    }

    /** Other threads push while the consumer works. */
    method Arrive(ms: seq<T>)
      requires Valid()
      modifies source
      ensures Valid() && source.q == old(source.q) + ms && source.stopped == old(source.stopped)
      ensures source.pushed == old(source.pushed) + ms && source.drained == old(source.drained)
    {
      for i := 0 to |ms|
        invariant Valid() && source.q == old(source.q) + ms[..i] && source.stopped == old(source.stopped)
        invariant source.pushed == old(source.pushed) + ms[..i] && source.drained == old(source.drained)
      {
        source.Push(ms[i]);
        assert ms[..i + 1] == ms[..i] + [ms[i]];
      }
      assert ms[..|ms|] == ms;
    }

    /** One iteration of the HTTP thread, `arrivals(n)` being pushed by others while it
        works on message `n`. It consumes exactly what it drained, in order; what came
        meanwhile is left in the queue. A false result means that the queue was stopped
        and every message pushed until then was consumed. */
    method ProcessBatch(arrivals: nat -> seq<T>) returns (again: bool)
      requires Valid() && source.Awake() && batch == []
      modifies this, source
      ensures Valid() && batch == [] && source.stopped == old(source.stopped)
      ensures again <==> old(source.q) != []
      ensures consumed == old(consumed) + old(source.q)
      ensures source.q == Arrived(arrivals, |old(source.q)|) && source.pushed == old(source.pushed) + source.q
      ensures !again ==> source.stopped && consumed == source.pushed
    {
      again, batch := source.WaitAndDrain([]);
      ghost var drained := batch;
      var n := 0;
      while batch != []
        invariant Valid() && source.stopped == old(source.stopped)
        invariant n + |batch| == |drained| && consumed + batch == old(consumed) + drained
        invariant source.q == Arrived(arrivals, n) && source.pushed == old(source.pushed) + source.q
        decreases |batch|
      {
        Arrive(arrivals(n));
        consumed := consumed + [batch[0]];
        batch := batch[1..];
        n := n + 1;
      }
    }
  }

  /** What arrives while `n` messages are worked on. */
  function Arrived<T>(arrivals: nat -> seq<T>, n: nat): seq<T> {
    if n == 0 then [] else Arrived(arrivals, n - 1) + arrivals(n - 1)
  }
}
