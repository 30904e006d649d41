/** The cadence of the metrics publisher: one deadline on a one-second grid, moved past
    every window that was missed. Times are 64-bit nanoseconds. */
module Metrics {
  const INTERVAL: nat := 1_000_000_000
  const TWO_64: nat := 0x1_0000_0000_0000_0000

  /** The first point of the grid through `first` that lies after `t`. */
  function NextPoint(first: nat, t: nat): nat
    requires first <= t
  {
    first + INTERVAL * ((t - first) / INTERVAL + 1)
  }

  predicate OnGrid(first: nat, n: nat) {
    n >= first && (n - first) % INTERVAL == 0
  }

  /** It is the only one in (t, t + 1s]. */
  lemma NextPointIsUnique(first: nat, t: nat, n: nat)
    requires first <= t
    ensures OnGrid(first, n) && t < n <= t + INTERVAL <==> n == NextPoint(first, t)
  {
  }

  class Publisher {
    /** 0 until the first call. */
    var nextPublishAtNs: nat
    ghost var first: nat
    ghost var last: nat
    ghost var published: nat

    /** The deadline is the grid point after the last call, and the publications so far
        are no more than the whole seconds since the first. */
    ghost predicate Valid()
      reads this
    {
      nextPublishAtNs == 0 ||
      (&& first <= last && last + INTERVAL < TWO_64
       && nextPublishAtNs == NextPoint(first, last)
       && published <= (last - first) / INTERVAL)
    }

    constructor ()
      ensures Valid() && nextPublishAtNs == 0 && published == 0
    {
      nextPublishAtNs, first, last, published := 0, 0, 0, 0;
    }

    /** Moves a deadline that has been reached to the first grid point after `t`. */
    method CatchUp(t: nat, ghost start: nat)
      requires 0 < nextPublishAtNs <= t && t + INTERVAL < TWO_64 && start <= nextPublishAtNs && OnGrid(start, nextPublishAtNs)
      modifies this`nextPublishAtNs
      ensures nextPublishAtNs == NextPoint(start, t)
      ensures nextPublishAtNs >= old(nextPublishAtNs) + INTERVAL
    {
      nextPublishAtNs := (nextPublishAtNs + INTERVAL) % TWO_64;
      while nextPublishAtNs <= t
        invariant old(nextPublishAtNs) + INTERVAL <= nextPublishAtNs <= t + INTERVAL
        invariant OnGrid(start, nextPublishAtNs)
        decreases t - nextPublishAtNs
      {
        nextPublishAtNs := (nextPublishAtNs + INTERVAL) % TWO_64;
      }
      NextPointIsUnique(start, t, nextPublishAtNs);
    }

    /** One call at time `t`, not before the previous one. After every call the deadline
        is the unique grid point in (t, t + 1s]; a run from the first call to `t`
        publishes at most once per whole second. */
    method PublishIfNeeded(t: nat, metricsAvailable: bool) returns (push: bool)
      requires Valid() && t + INTERVAL < TWO_64 && (nextPublishAtNs != 0 ==> last <= t)
      requires nextPublishAtNs == 0 ==> published == 0
      modifies this
      ensures Valid() && nextPublishAtNs > 0 && last == t
      ensures first == if old(nextPublishAtNs) == 0 then t else old(first)
      ensures t < nextPublishAtNs <= t + INTERVAL && OnGrid(first, nextPublishAtNs)
      ensures published == old(published) + if push then 1 else 0
      ensures push <==> old(nextPublishAtNs) != 0 && old(nextPublishAtNs) <= t && metricsAvailable
      ensures published * INTERVAL <= t - first
    {
      if nextPublishAtNs == 0 {
        nextPublishAtNs := (t + INTERVAL) % TWO_64;
        first, last := t, t;
        NextPointIsUnique(t, t, nextPublishAtNs);
        return false;
      }
      NextPointIsUnique(first, last, nextPublishAtNs);
      NextPointIsUnique(first, t, nextPublishAtNs);
      SecondsGrow(first, last, t);
      last := t;
      if t < nextPublishAtNs {
        push := false;
        WholeSeconds(published, first, t);
        return;
      }
      CatchUp(t, first);
      NextPointIsUnique(first, t, nextPublishAtNs);
      push := metricsAvailable;
      if push {
        published := published + 1;
      }
      WholeSeconds(published, first, t);
    }
  }

  /** Reaching the next point of the grid takes the count of whole seconds up. */
  lemma SecondsGrow(first: nat, last: nat, t: nat)
    requires first <= last <= t
    ensures (last - first) / INTERVAL <= (t - first) / INTERVAL
    ensures NextPoint(first, last) <= t ==> (last - first) / INTERVAL + 1 <= (t - first) / INTERVAL
  {
  }

  lemma WholeSeconds(n: nat, first: nat, t: nat)
    requires first <= t && n <= (t - first) / INTERVAL
    ensures n * INTERVAL <= t - first
  {
    assert INTERVAL * ((t - first) / INTERVAL) <= t - first;
  }

  /** The 64-bit sum that arms the publisher is a later time exactly when it does not
      wrap, so times must stay a second below the limit; at exactly one second below it
      the armed deadline is 0, the value that means "not armed". */
  lemma FirstDeadlineIsLater(t: nat)
    requires t < TWO_64
    ensures (t + INTERVAL) % TWO_64 > t <==> t + INTERVAL < TWO_64
    ensures (t + INTERVAL) % TWO_64 == 0 <==> t == TWO_64 - INTERVAL
  {
  }
}
