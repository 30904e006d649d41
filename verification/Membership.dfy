/** Who is connected: the session table lags behind the network tables by exactly the
    messages still under way. Everything here is about one connection's share of the
    incoming line, and about replaying that line. */
module Membership {
  import opened Messages
  import opened Sequences

  function For(c: ConnId): InMsg -> bool {
    (m: InMsg) => m.id == c
  }

  function Share(pending: seq<InMsg>, c: ConnId): seq<InMsg> {
    Filter(For(c), pending)
  }

  /** CONNECT first if `opening`, DISCONNECT last if `closing`, packets in between. */
  ghost predicate Grammar(xs: seq<InMsg>, opening: bool, closing: bool) {
    && (opening ==> |xs| > 0 && xs[0].ConnectMsg?)
    && (closing ==> |xs| > 0 && xs[|xs| - 1].DisconnectMsg?)
    && (forall i :: 0 <= i < |xs| && xs[i].ConnectMsg? ==> opening && i == 0)
    && (forall i :: 0 <= i < |xs| && xs[i].DisconnectMsg? ==> closing && i == |xs| - 1)
  }

  predicate IsPacket(m: InMsg) {
    !m.ConnectMsg? && !m.DisconnectMsg?
  }

  /** The life of connection `c`: `bound` on the network side, `live` in the session
      table, `seen` once its CONNECT was handled, `xs` its messages under way. */
  ghost predicate LifeOf(c: ConnId, nextId: nat, bound: bool, live: bool, seen: bool, xs: seq<InMsg>) {
    if !(0 < c < nextId) then !bound && !live && !seen && xs == []
    else
      && (live ==> seen)
      && (seen && bound ==> live)
      && if seen && !bound && !live then xs == [] else Grammar(xs, !seen, !bound)
  }

  ghost predicate Life(nextId: nat, bound: set<ConnId>, live: set<ConnId>, seen: set<ConnId>, pending: seq<InMsg>) {
    forall c: ConnId :: LifeOf(c, nextId, c in bound, c in live, c in seen, Share(pending, c))
  }

  // ---------------------------------------------------------------------------
  // What keeps it
  // ---------------------------------------------------------------------------

  lemma SharePush(pending: seq<InMsg>, m: InMsg, c: ConnId)
    ensures Share(pending + [m], c) == Share(pending, c) + if m.id == c then [m] else []
  {
    FilterPush(For(c), pending, m);
  }

  lemma SharePop(pending: seq<InMsg>, c: ConnId)
    requires pending != []
    ensures Share(pending, c) == (if pending[0].id == c then [pending[0]] else []) + Share(pending[1..], c)
  {
  }

  lemma LifeConnect(nextId: nat, bound: set<ConnId>, live: set<ConnId>, seen: set<ConnId>, pending: seq<InMsg>)
    requires Life(nextId, bound, live, seen, pending) && nextId > 0
    ensures Life(nextId + 1, bound + {nextId}, live, seen, pending + [ConnectMsg(nextId)])
  {
    forall c: ConnId
      ensures LifeOf(c, nextId + 1, c in bound + {nextId}, c in live, c in seen, Share(pending + [ConnectMsg(nextId)], c))
    {
      assert LifeOf(c, nextId, c in bound, c in live, c in seen, Share(pending, c));
      SharePush(pending, ConnectMsg(nextId), c);
    }
  }

  lemma LifeDisconnect(nextId: nat, bound: set<ConnId>, live: set<ConnId>, seen: set<ConnId>, pending: seq<InMsg>,
                       id: ConnId)
    requires Life(nextId, bound, live, seen, pending) && id in bound
    ensures Life(nextId, bound - {id}, live, seen, pending + [DisconnectMsg(id)])
  {
    forall c: ConnId
      ensures LifeOf(c, nextId, c in bound - {id}, c in live, c in seen, Share(pending + [DisconnectMsg(id)], c))
    {
      assert LifeOf(c, nextId, c in bound, c in live, c in seen, Share(pending, c));
      SharePush(pending, DisconnectMsg(id), c);
    }
  }

  lemma LifePacket(nextId: nat, bound: set<ConnId>, live: set<ConnId>, seen: set<ConnId>, pending: seq<InMsg>, m: InMsg)
    requires Life(nextId, bound, live, seen, pending) && m.id in bound && IsPacket(m)
    ensures Life(nextId, bound, live, seen, pending + [m])
  {
    forall c: ConnId
      ensures LifeOf(c, nextId, c in bound, c in live, c in seen, Share(pending + [m], c))
    {
      assert LifeOf(c, nextId, c in bound, c in live, c in seen, Share(pending, c));
      SharePush(pending, m, c);
    }
  }

  /** The head of the line finds the table as its grammar says: this is why a CONNECT
      never overwrites a session and no other message misses one. */
  lemma HeadFindsItsSession(nextId: nat, bound: set<ConnId>, live: set<ConnId>, seen: set<ConnId>, pending: seq<InMsg>)
    requires Life(nextId, bound, live, seen, pending) && pending != []
    ensures pending[0].ConnectMsg? <==> pending[0].id !in live
    ensures pending[0].ConnectMsg? ==> pending[0].id !in seen
    ensures pending[0].DisconnectMsg? ==> pending[0].id !in bound && forall m :: m in pending[1..] ==> m.id != pending[0].id
    ensures 0 < pending[0].id < nextId
  {
    var m := pending[0];
    var c := m.id;
    assert LifeOf(c, nextId, c in bound, c in live, c in seen, Share(pending, c));
    SharePop(pending, c);
    var xs := Share(pending, c);
    assert xs[0] == m;
    if m.DisconnectMsg? {
      assert |xs| == 1;
      assert Share(pending[1..], c) == [];
      forall n | n in pending[1..]
        ensures n.id != c
      {
        assert n !in Share(pending[1..], c);
      }
    }
  }

  lemma LifePop(nextId: nat, bound: set<ConnId>, live: set<ConnId>, seen: set<ConnId>, pending: seq<InMsg>)
    requires Life(nextId, bound, live, seen, pending) && pending != []
    ensures
      var m := pending[0];
      Life(nextId, bound,
           if m.ConnectMsg? then live + {m.id} else if m.DisconnectMsg? then live - {m.id} else live,
           if m.ConnectMsg? then seen + {m.id} else seen, pending[1..])
  {
    hide LifeOf, Share;
    var m := pending[0];
    var live' := if m.ConnectMsg? then live + {m.id} else if m.DisconnectMsg? then live - {m.id} else live;
    var seen' := if m.ConnectMsg? then seen + {m.id} else seen;
    forall c: ConnId
      ensures LifeOf(c, nextId, c in bound, c in live', c in seen', Share(pending[1..], c))
    {
      assert LifeOf(c, nextId, c in bound, c in live, c in seen, Share(pending, c));
      SharePop(pending, c);
      if c == m.id {
        assert Share(pending, c)[1..] == Share(pending[1..], c);
        LifeOfPop(c, nextId, c in bound, c in live, c in seen, Share(pending, c));
      } else {
        assert Share(pending, c) == Share(pending[1..], c);
      }
    }
  }

  lemma LifeOfPop(c: ConnId, nextId: nat, bound: bool, live: bool, seen: bool, xs: seq<InMsg>)
    requires LifeOf(c, nextId, bound, live, seen, xs) && xs != []
    ensures LifeOf(c, nextId, bound, xs[0].ConnectMsg? || (live && !xs[0].DisconnectMsg?), xs[0].ConnectMsg? || seen, xs[1..])
  {
    GrammarPop(xs, !seen, !bound);
  }

  lemma GrammarPop(xs: seq<InMsg>, opening: bool, closing: bool)
    requires Grammar(xs, opening, closing) && xs != []
    ensures xs[0].ConnectMsg? <==> opening
    ensures xs[0].DisconnectMsg? ==> closing && xs[1..] == []
    ensures !xs[0].DisconnectMsg? ==> Grammar(xs[1..], false, closing)
  {
  }

  // ---------------------------------------------------------------------------
  // Replay
  // ---------------------------------------------------------------------------

  /** The session keys after handling `pending` in order. */
  function Replay(keys: set<ConnId>, pending: seq<InMsg>): set<ConnId>
    decreases |pending|
  {
    if pending == [] then keys
    else
      var m := pending[0];
      Replay(if m.ConnectMsg? then keys + {m.id} else if m.DisconnectMsg? then keys - {m.id} else keys, pending[1..])
  }

  lemma {:induction false} ReplayGivesTheBound(nextId: nat, bound: set<ConnId>, live: set<ConnId>, seen: set<ConnId>,
                                               pending: seq<InMsg>)
    requires Life(nextId, bound, live, seen, pending)
    ensures Replay(live, pending) == bound
    decreases |pending|
  {
    if pending == [] {
      forall c: ConnId
        ensures c in live <==> c in bound
      {
        assert LifeOf(c, nextId, c in bound, c in live, c in seen, Share(pending, c));
      }
    } else {
      var m := pending[0];
      LifePop(nextId, bound, live, seen, pending);
      ReplayGivesTheBound(nextId, bound,
        if m.ConnectMsg? then live + {m.id} else if m.DisconnectMsg? then live - {m.id} else live,
        if m.ConnectMsg? then seen + {m.id} else seen, pending[1..]);
    }
  }

  // ---------------------------------------------------------------------------
  // The whole log of pushed messages
  // ---------------------------------------------------------------------------

  /** Every connection ever made wrote CONNECT, then packets, then DISCONNECT once it is
      unbound; an id never given wrote nothing. */
  ghost predicate LogGrammar(nextId: nat, bound: set<ConnId>, log: seq<InMsg>) {
    forall c: ConnId :: LogGrammarOf(c, nextId, c in bound, Share(log, c))
  }

  ghost predicate LogGrammarOf(c: ConnId, nextId: nat, bound: bool, xs: seq<InMsg>) {
    if 0 < c < nextId then Grammar(xs, true, !bound) else !bound && xs == []
  }

  lemma LogConnect(nextId: nat, bound: set<ConnId>, log: seq<InMsg>)
    requires LogGrammar(nextId, bound, log) && nextId > 0
    ensures LogGrammar(nextId + 1, bound + {nextId}, log + [ConnectMsg(nextId)])
  {
    forall c: ConnId
      ensures LogGrammarOf(c, nextId + 1, c in bound + {nextId}, Share(log + [ConnectMsg(nextId)], c))
    {
      assert LogGrammarOf(c, nextId, c in bound, Share(log, c));
      SharePush(log, ConnectMsg(nextId), c);
    }
  }

  lemma LogDisconnect(nextId: nat, bound: set<ConnId>, log: seq<InMsg>, id: ConnId)
    requires LogGrammar(nextId, bound, log) && id in bound
    ensures LogGrammar(nextId, bound - {id}, log + [DisconnectMsg(id)])
  {
    forall c: ConnId
      ensures LogGrammarOf(c, nextId, c in bound - {id}, Share(log + [DisconnectMsg(id)], c))
    {
      assert LogGrammarOf(c, nextId, c in bound, Share(log, c));
      SharePush(log, DisconnectMsg(id), c);
    }
  }

  lemma LogPacket(nextId: nat, bound: set<ConnId>, log: seq<InMsg>, m: InMsg)
    requires LogGrammar(nextId, bound, log) && m.id in bound && IsPacket(m)
    ensures LogGrammar(nextId, bound, log + [m])
  {
    forall c: ConnId
      ensures LogGrammarOf(c, nextId, c in bound, Share(log + [m], c))
    {
      assert LogGrammarOf(c, nextId, c in bound, Share(log, c));
      SharePush(log, m, c);
    }
  }
}
