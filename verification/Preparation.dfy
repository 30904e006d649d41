/** Preparing one outgoing network tick: reliable messages keep their order, and of
    each unreliable family only the last message per connection survives. */
module Preparation {
  import opened Messages
  import opened Sequences

  datatype Prepared = Prepared(reliable: seq<OutMsg>, snapshots: map<ConnId, OutMsg>, clockSyncs: map<ConnId, OutMsg>)

  predicate IsReliableKind(k: OutKind) {
    k == HelloResponseOut || k == AuthResponseOut || k == MatchInitOut || k == WorldInitOut || k == MatchStartOut
  }

  function ReliableMsg(): OutMsg -> bool {
    (m: OutMsg) => IsReliableKind(m.kind)
  }

  function Reliable(xs: seq<OutMsg>): seq<OutMsg> {
    Filter(ReliableMsg(), xs)
  }

  /** The position of the last message of kind `k` for `c`, or -1. */
  function LastIndex(xs: seq<OutMsg>, k: OutKind, c: ConnId): (i: int)
    ensures -1 <= i < |xs|
    ensures i >= 0 ==> xs[i].kind == k && xs[i].id == c
    ensures forall j :: i < j < |xs| ==> !(xs[j].kind == k && xs[j].id == c)
  {
    if xs == [] then -1
    else
      var n := |xs| - 1;
      if xs[n].kind == k && xs[n].id == c then n else LastIndex(xs[..n], k, c)
  }

  /** `m` holds exactly the last message of kind `k` of every connection that has one. */
  ghost predicate IsLastOfEach(xs: seq<OutMsg>, k: OutKind, m: map<ConnId, OutMsg>) {
    forall c :: IsLastOf(xs, k, m, c)
  }

  predicate IsLastOf(xs: seq<OutMsg>, k: OutKind, m: map<ConnId, OutMsg>, c: ConnId) {
    var i := LastIndex(xs, k, c);
    (c in m <==> i >= 0) && (c in m ==> m[c] == xs[i])
  }

  /** The specification of the preparation. */
  ghost predicate IsPrepared(xs: seq<OutMsg>, p: Prepared) {
    && p.reliable == Reliable(xs)
    && IsLastOfEach(xs, SnapshotOut, p.snapshots)
    && IsLastOfEach(xs, ClockSyncOut, p.clockSyncs)
  }

  method SplitReliableAndCoalesceUnreliable(outMessages: seq<OutMsg>) returns (p: Prepared)
    ensures IsPrepared(outMessages, p)
  {
    p := Prepared([], map[], map[]);
    for i := 0 to |outMessages|
      invariant IsPrepared(outMessages[..i], p)
    {
      var msg := outMessages[i];
      assert outMessages[..i + 1] == outMessages[..i] + [msg];
      FilterPush(ReliableMsg(), outMessages[..i], msg);
      LastOfEachPush(outMessages[..i], msg, SnapshotOut, p.snapshots);
      LastOfEachPush(outMessages[..i], msg, ClockSyncOut, p.clockSyncs);
      if msg.kind == HelloResponseOut || msg.kind == AuthResponseOut || msg.kind == MatchInitOut ||
         msg.kind == WorldInitOut || msg.kind == MatchStartOut {
        p := p.(reliable := p.reliable + [msg]);
      } else if msg.kind == SnapshotOut {
        p := p.(snapshots := p.snapshots[msg.id := msg]);
      } else if msg.kind == ClockSyncOut {
        p := p.(clockSyncs := p.clockSyncs[msg.id := msg]);
      }
    }
    assert outMessages[..|outMessages|] == outMessages;
  }

  lemma LastOfEachPush(xs: seq<OutMsg>, msg: OutMsg, k: OutKind, m: map<ConnId, OutMsg>)
    requires IsLastOfEach(xs, k, m)
    ensures IsLastOfEach(xs + [msg], k, if msg.kind == k then m[msg.id := msg] else m)
  {
    var ys := xs + [msg];
    assert ys[..|ys| - 1] == xs;
    var n := if msg.kind == k then m[msg.id := msg] else m;
    forall c
      ensures IsLastOf(ys, k, n, c)
    {
      assert IsLastOf(xs, k, m, c);
    }
  }

  /** The preparation as a function of the drained batch. */
  function Prepare(xs: seq<OutMsg>): (p: Prepared)
    ensures IsPrepared(xs, p)
  {
    if xs == [] then Prepared([], map[], map[])
    else
      var n := |xs| - 1;
      var rest, msg := Prepare(xs[..n]), xs[n];
      assert xs == xs[..n] + [msg];
      FilterPush(ReliableMsg(), xs[..n], msg);
      LastOfEachPush(xs[..n], msg, SnapshotOut, rest.snapshots);
      LastOfEachPush(xs[..n], msg, ClockSyncOut, rest.clockSyncs);
      if IsReliableKind(msg.kind) then rest.(reliable := rest.reliable + [msg])
      else if msg.kind == SnapshotOut then rest.(snapshots := rest.snapshots[msg.id := msg])
      else rest.(clockSyncs := rest.clockSyncs[msg.id := msg])
  }

  /** The specification has one solution, so the method computes it. */
  lemma PreparedIsUnique(xs: seq<OutMsg>, p: Prepared, q: Prepared)
    requires IsPrepared(xs, p) && IsPrepared(xs, q)
    ensures p == q
  {
    MapsAgree(xs, SnapshotOut, p.snapshots, q.snapshots);
    MapsAgree(xs, ClockSyncOut, p.clockSyncs, q.clockSyncs);
  }

  lemma MapsAgree(xs: seq<OutMsg>, k: OutKind, m: map<ConnId, OutMsg>, n: map<ConnId, OutMsg>)
    requires IsLastOfEach(xs, k, m) && IsLastOfEach(xs, k, n)
    ensures m == n
  {
    forall c
      ensures c in m <==> c in n
      ensures c in m ==> m[c] == n[c]
    {
      assert IsLastOf(xs, k, m, c) && IsLastOf(xs, k, n, c);
    }
  }

  /** Draining twice and preparing the two batches apart loses nothing but what the
      second batch supersedes: preparing a concatenation is the merge of the two. */
  lemma SplitConcatenation(xs: seq<OutMsg>, ys: seq<OutMsg>, p: Prepared, q: Prepared)
    requires IsPrepared(xs, p) && IsPrepared(ys, q)
    ensures IsPrepared(xs + ys, Prepared(p.reliable + q.reliable, p.snapshots + q.snapshots, p.clockSyncs + q.clockSyncs))
  {
    FilterAppend(ReliableMsg(), xs, ys);
    LastOfEachConcat(xs, ys, SnapshotOut, p.snapshots, q.snapshots);
    LastOfEachConcat(xs, ys, ClockSyncOut, p.clockSyncs, q.clockSyncs);
  }

  lemma LastOfEachConcat(xs: seq<OutMsg>, ys: seq<OutMsg>, k: OutKind, m: map<ConnId, OutMsg>, n: map<ConnId, OutMsg>)
    requires IsLastOfEach(xs, k, m) && IsLastOfEach(ys, k, n)
    ensures IsLastOfEach(xs + ys, k, m + n)
  {
    forall c
      ensures IsLastOf(xs + ys, k, m + n, c)
    {
      assert IsLastOf(xs, k, m, c) && IsLastOf(ys, k, n, c);
      LastIndexConcat(xs, ys, k, c);
    }
  }

  lemma {:induction false} LastIndexConcat(xs: seq<OutMsg>, ys: seq<OutMsg>, k: OutKind, c: ConnId)
    ensures LastIndex(xs + ys, k, c) == if LastIndex(ys, k, c) >= 0 then |xs| + LastIndex(ys, k, c) else LastIndex(xs, k, c)
  {
    if ys == [] {
      assert xs + ys == xs;
    } else {
      var n := |ys| - 1;
      assert (xs + ys)[..|xs| + n] == xs + ys[..n];
      LastIndexConcat(xs, ys[..n], k, c);
    }
  }
}
