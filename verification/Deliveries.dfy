/** What leaves the server: who it goes to, in which order, and what is never sent. */
module Deliveries {
  import opened Wrappers
  import opened Bytes
  import opened Messages
  import opened Preparation
  import opened Membership
  import opened Lifecycle
  import opened Invariant
  import opened KeepIncoming
  import opened Threads
  import opened Runs
  import opened Chain
  import opened Guarantees

  // ---------------------------------------------------------------------------
  // Peers
  // ---------------------------------------------------------------------------

  /** The bijection between bound slots and connected ids. */
  ghost predicate Bijection(data: map<Peer, ConnId>, peers: map<ConnId, Peer>) {
    && (forall p :: p in data ==> data[p] in peers && peers[data[p]] == p)
    && (forall c :: c in peers ==> c != 0 && peers[c] in data && data[peers[c]] == c)
  }

  lemma PeersAreABijection(run: seq<State>, steps: seq<Step>, i: nat)
    requires IsRun(run, steps) && i < |run|
    ensures Bijection(run[i].net.data, run[i].net.peers)
    ensures forall p :: p in run[i].net.data ==> ValidatedConnectionIdOrZero(run[i].net, Some(p)) == run[i].net.data[p]
  {
    hide IsRun, Inv;
    RunInv(run, steps, i);
    LineFacts(run[i]);
  }

  /** Without the bound on the number of connections the 32-bit counter comes back to
      ids in use, and to 0, which the pointer field cannot hold. A connection keeps the
      bijection exactly when its id is neither. */
  lemma ConnectKeepsBijection(s: State, p: Peer)
    requires Bijection(s.net.data, s.net.peers) && p !in s.net.data
    ensures
      var t := Connect(s, p);
      var id := s.net.nextId % TWO_32;
      Bijection(t.net.data, t.net.peers) <==> id != 0 && id !in s.net.peers
  {
    hide Deliver;
    var t := Connect(s, p);
    var id := s.net.nextId % TWO_32;
    assert t.net == s.net.(nextId := s.net.nextId + 1, data := SetPeerData(s.net.data, p, id), peers := s.net.peers[id := p],
                           encryption := s.net.encryption[id := false]) by { ConnectNet(s, p); }
    if id == 0 {
      assert 0 in t.net.peers;
    } else if id in s.net.peers {
      var q := s.net.peers[id];
      assert q in t.net.data && t.net.data[q] == id && t.net.peers[id] == p;
    }
  }

  lemma ConnectNet(s: State, p: Peer)
    ensures
      var id := s.net.nextId % TWO_32;
      Connect(s, p).net == s.net.(nextId := s.net.nextId + 1, data := SetPeerData(s.net.data, p, id),
          peers := s.net.peers[id := p],
                                  encryption := s.net.encryption[id := false])
  {
  }

  /** `n` clients connect on slot `p` and leave, one after another. */
  function Reconnects(s: State, p: Peer, n: nat): State {
    if n == 0 then s else Disconnect(Connect(Reconnects(s, p, n - 1), p), p)
  }

  /** Ids below the counter only, and one flag per connection. */
  predicate IdsBelow(net: Net) {
    net.nextId > 0 && net.encryption.Keys == net.peers.Keys && forall c :: c in net.peers ==> c < net.nextId
  }

  lemma OneReconnect(s: State, p: Peer)
    requires p !in s.net.data && IdsBelow(s.net) && s.net.nextId < TWO_32
    ensures Disconnect(Connect(s, p), p).net == s.net.(nextId := s.net.nextId + 1)
  {
    hide Deliver;
    var id := s.net.nextId;
    assert IdOf(id) == id;
    var t := Connect(s, p);
    ConnectNet(s, p);
    assert t.net.data - {p} == s.net.data && t.net.peers - {id} == s.net.peers && t.net.encryption - {id} == s.net.encryption;
    DisconnectNet(t, p);
  }

  lemma DisconnectNet(s: State, p: Peer)
    ensures
      Disconnect(s, p).net ==
        if p !in s.net.data then s.net
        else s.net.(data := s.net.data - {p}, peers := s.net.peers - {s.net.data[p]}, encryption := s.net.encryption - {s.net.data[p]})
  {
  }

  lemma {:induction false} ReconnectsLeaveNothing(s: State, p: Peer, n: nat)
    requires p !in s.net.data && IdsBelow(s.net) && s.net.nextId + n <= TWO_32
    ensures Reconnects(s, p, n).net == s.net.(nextId := s.net.nextId + n)
  {
    hide Connect, Disconnect;
    if n > 0 {
      ReconnectsLeaveNothing(s, p, n - 1);
      OneReconnect(Reconnects(s, p, n - 1), p);
    }
  }

  /** Number 2^32 gets the id 0. The slot's pointer stays null while the table gains an
      entry, which the disconnection of that client does not remove. */
  lemma CounterWrapBreaksIt(p: Peer, n: nat)
    requires n == TWO_32 - 1
    ensures
      var s := Reconnects(Initial(), p, n);
      var t := Connect(s, p);
      && s.net == Initial().net.(nextId := TWO_32) && Bijection(s.net.data, s.net.peers)
      && !Bijection(t.net.data, t.net.peers) && p !in t.net.data && t.net.peers == map[0 := p] && Disconnect(t, p) == t
  {
    hide Reconnects, Deliver;
    ReconnectsLeaveNothing(Initial(), p, n);
    var s := Reconnects(Initial(), p, n);
    ConnectNet(s, p);
    ConnectKeepsBijection(s, p);
  }

  /** Client `q` is number 1, and the counter is at `n`. */
  predicate OneStays(net: Net, q: Peer, n: nat) {
    net.nextId == n && net.data == map[q := 1] && net.peers == map[1 := q] && net.encryption == map[1 := false]
  }

  lemma FirstStays(q: Peer)
    ensures OneStays(Connect(Initial(), q).net, q, 2)
  {
    hide Deliver;
    assert IdOf(1) == 1;
    ConnectNet(Initial(), q);
  }

  /** The client with the id 0 comes and goes. */
  lemma ZeroComesAndGoes(s: State, p: Peer, q: Peer)
    requires OneStays(s.net, q, TWO_32) && p != q
    ensures
      var u := Disconnect(Connect(s, p), p);
      u.net.nextId == TWO_32 + 1 && u.net.data == map[q := 1] && u.net.peers == map[1 := q, 0 := p]
  {
    hide Connect, Disconnect;
    ConnectNet(s, p);
    assert map[q := 1] - {p} == map[q := 1];
    DisconnectNet(Connect(s, p), p);
  }

  lemma IdIsTaken(u: State, p: Peer, q: Peer)
    requires u.net.nextId == TWO_32 + 1 && u.net.data == map[q := 1] && u.net.peers == map[1 := q, 0 := p] && p != q
    ensures
      var t := Connect(u, p);
      t.net.data == map[q := 1, p := 1] && t.net.peers == map[1 := p, 0 := p]
  {
    hide Connect;
    assert (TWO_32 + 1) % TWO_32 == 1;
    ConnectNet(u, p);
  }

  /** And the one after it can get the id of a client that stayed: `q` connected first
      and never left, but the table now sends its id to `p`, and what `q` sends is of no
      connection any more. */
  lemma CounterWrapTakesALiveId(p: Peer, q: Peer, n: nat)
    requires n == TWO_32 - 2 && p != q
    ensures
      var s := Reconnects(Connect(Initial(), q), p, n);
      var u := Disconnect(Connect(s, p), p);
      var t := Connect(u, p);
      && OneStays(s.net, q, TWO_32) && Bijection(s.net.data, s.net.peers)
      && ValidatedConnectionIdOrZero(u.net, Some(q)) == 1
      && t.net.data == map[q := 1, p := 1] && t.net.peers[1] == p
      && ValidatedConnectionIdOrZero(t.net, Some(q)) == 0 && ValidatedConnectionIdOrZero(t.net, Some(p)) == 1
  {
    hide Reconnects, Connect, Disconnect;
    FirstStays(q);
    ReconnectsLeaveNothing(Connect(Initial(), q), p, n);
    var s := Reconnects(Connect(Initial(), q), p, n);
    ZeroComesAndGoes(s, p, q);
    IdIsTaken(Disconnect(Connect(s, p), p), p, q);
  }

  // ---------------------------------------------------------------------------
  // Sending
  // ---------------------------------------------------------------------------

  function HeadToSend(s: State): OutMsg
    requires s.net.control.Sending? && s.net.control.prepared.reliable != []
  {
    s.net.control.prepared.reliable[0]
  }

  lemma SendFacts(s: State)
    requires Inv(s)
    ensures ReliableLine(s.outs.log, s.outs.handled, s.net.control, s.outgoing) && ReliableSent(s.outs.handled,
        s.outs.reliableSent)
    ensures ControlOk(s.net.control, s.ins.seen, s.secures) && KicksOk(s.outs.kicks, s.secures)
  {
    hide AuthLine, VerdictsApplied, AuthReplies, Binding, Life, LogGrammar, GuardsHold, SessionsOk, Mirror,
         ReliableLine, ReliableSent, Stream, MatchPushes,
         Flow, AuthItems, AllOut, InFlightOk, KicksOk, ControlOk;
  }

  predicate NeedsContext(m: OutMsg) {
    (m.kind == HelloResponseOut
        && (m.disconnectAfterAck || m.enableEncryptionAfterAck)) || (m.kind == AuthResponseOut && m.disconnectAfterAck)
  }

  /** The conditions, in terms of the connection alone, on which `m` is handed to ENet. */
  predicate Leaves(s: State, m: OutMsg, o: SendOutcome) {
    && m.id in s.net.peers
    && o != CreateFails && o != SendFails
    && (NeedsContext(m) ==> o != ContextFails)
    && (IsMatchKind(m.kind) ==> m.id in s.sessions && s.sessions[m.id].auth == Valid && s.sessions[m.id].secure)
  }

  /** One reliable message in any reachable state. It is handed to ENet exactly when its
      connection is bound, ENet takes it, a context it needs can be allocated and, for
      the match messages, its own session is authenticated and secure; it then goes to
      the slot bound to that connection, and to no other. */
  lemma SendGoesToItsConnection(run: seq<State>, steps: seq<Step>, i: nat)
    requires IsRun(run, steps) && i < |steps| && steps[i].SendReliableStep?
    ensures run[i].net.control.Sending? && run[i].net.control.prepared.reliable != []
    ensures
      var s, m := run[i], HeadToSend(run[i]);
      run[i + 1].outs.reliableSent ==
        s.outs.reliableSent + if Leaves(s, m, steps[i].outcome) then [SentReliable(s.net.peers[m.id], m.id, m, |s.outs.handled|)] else []
  {
    hide Inv, Leaves, SendReliable;
    RunInv(run, steps, i);
    var s := run[i];
    assert Goes(s, steps[i], run[i + 1]);
    LineFacts(s);
    HeadIsReliable(s);
    var m := HeadToSend(s);
    if m.id in s.sessions {
      SessionFacts(s, m.id);
    }
    SendIsExact(s, steps[i].outcome, steps[i].uid);
  }

  lemma HeadIsReliable(s: State)
    requires Inv(s) && s.net.control.Sending? && s.net.control.prepared.reliable != []
    ensures IsReliableKind(HeadToSend(s).kind)
  {
    hide Inv, KicksOk, ReliableLine, ReliableSent;
    SendFacts(s);
    assert HeadToSend(s) in s.net.control.prepared.reliable;
  }

  lemma SendIsExact(s: State, o: SendOutcome, uid: nat)
    requires s.net.control.Sending? && s.net.control.prepared.reliable != []
    requires Binding(s.net.nextId, s.net.data, s.net.peers)
    requires HeadToSend(s).id in s.sessions ==> SessionOk(HeadToSend(s).id, s.sessions[HeadToSend(s).id], s.secures.acked)
    requires IsReliableKind(HeadToSend(s).kind)
    ensures
      var m := HeadToSend(s);
      SendReliable(s, o, uid).outs.reliableSent ==
        s.outs.reliableSent + if Leaves(s, m, o) then [SentReliable(s.net.peers[m.id], m.id, m, |s.outs.handled|)] else []
  {
    var m := HeadToSend(s);
    if m.id in s.net.peers {
      SendMsgIsExact(s, m, o);
      hide Leaves, SendReliableMsg, Binding;
    }
  }

  lemma SendMsgIsExact(s: State, m: OutMsg, o: SendOutcome)
    requires Binding(s.net.nextId, s.net.data, s.net.peers) && m.id in s.net.peers
    requires m.id in s.sessions ==> SessionOk(m.id, s.sessions[m.id], s.secures.acked)
    requires IsReliableKind(m.kind)
    ensures BoundId(s.net, s.net.peers[m.id]) == m.id
    ensures SendReliableMsg(s.net, s.sessions, s.net.peers[m.id], m, o).sent <==> Leaves(s, m, o)
  {
  }

  /** The effect of acknowledging a packet sent with context `x`, in terms of ids. */
  predicate AckActs(s: State, x: AckContext, t: State) {
    var bound := x.id in s.net.peers && s.net.peers[x.id] == x.peer;
    && (!bound ==> t == s)
    && (bound ==> t.outs.kicks == s.outs.kicks + if x.disconnectAfterAck then [Kick(x.peer, x.id)] else [])
    && (bound && x.enableEncryptionAfterAck ==>
          x.id in s.sessions && t.sessions == s.sessions[x.id := s.sessions[x.id].(encrypted := true)]
              && t.net.encryption == s.net.encryption[x.id := true])
    && (bound && !x.enableEncryptionAfterAck ==> t.sessions == s.sessions && t.net.encryption == s.net.encryption)
    && t.net == s.net.(encryption := t.net.encryption)
  }

  /** An acknowledgement acts on the connection its packet was for, only while that
      connection is still bound to the slot, and never on another one. */
  lemma AckTouchesOnlyItsConnection(run: seq<State>, steps: seq<Step>, i: nat)
    requires IsRun(run, steps) && i < |steps| && steps[i].AcknowledgeStep?
    ensures steps[i].uid in run[i].net.inFlight
    ensures AckActs(run[i], run[i].net.inFlight[steps[i].uid], run[i + 1])
  {
    hide Inv;
    RunInv(run, steps, i);
    var s := run[i];
    assert Goes(s, steps[i], run[i + 1]);
    AckNext(s, steps[i]);
    LineFacts(s);
    var x := s.net.inFlight[steps[i].uid];
    if x.enableEncryptionAfterAck && x.id in s.net.peers {
      BoundContextIsLive(s, steps[i].uid);
    }
    AckIsExact(s, steps[i].uid);
  }

  lemma AckNext(s: State, step: Step)
    requires Allowed(s, step) && step.AcknowledgeStep?
    ensures step.uid in s.net.inFlight && Next(s, step) == Acknowledge(s, step.uid)
  {
    hide Acknowledge;
  }

  /** A connection whose handshake reply is in flight and that is still bound has a session. */
  lemma BoundContextIsLive(s: State, uid: nat)
    requires Inv(s) && uid in s.net.inFlight && s.net.inFlight[uid].id in s.net.peers
    ensures s.net.inFlight[uid].id in s.sessions
  {
    hide Inv;
    var c := s.net.inFlight[uid].id;
    LineFacts(s);
    ContextIsSeen(s, uid);
    assert LifeOf(c, s.net.nextId, c in s.net.peers.Keys, c in s.sessions.Keys, c in s.ins.seen, Share(Pending(s), c));
  }

  lemma ContextIsSeen(s: State, uid: nat)
    requires Inv(s) && uid in s.net.inFlight
    ensures s.net.inFlight[uid].id in s.ins.seen
  {
    hide Binding, Life, LogGrammar, GuardsHold, SessionsOk, Mirror, AuthLine, VerdictsApplied, AuthReplies,
         ReliableLine, ReliableSent, Stream, MatchPushes, Flow;
  }

  lemma AckIsExact(s: State, uid: nat)
    requires uid in s.net.inFlight && Binding(s.net.nextId, s.net.data, s.net.peers)
    requires s.net.inFlight[uid].enableEncryptionAfterAck && s.net.inFlight[uid].id in s.net.peers ==> s.net.inFlight[uid].id in s.sessions
    ensures AckActs(s, s.net.inFlight[uid], Acknowledge(s, uid))
  {
  }

  // ---------------------------------------------------------------------------
  // Disconnections
  // ---------------------------------------------------------------------------

  /** The three ways a client is refused: wrong protocol version, failed handshake,
      negative verdict of the backend. */
  predicate Refuses(s: State, step: Step, c: ConnId) {
    || (step.ReceiveStep? && ValidatedConnectionIdOrZero(s.net, step.from) == c && DispatchByChannel(s.sessions, c,
        step.channel, step.data) == VersionRefused)
    || (step.HandleInStep? && !step.handshake.HandshakeOk? && s.sim.inBatch != [] && s.sim.inBatch[0].HelloMsg?
        && s.sim.inBatch[0].id == c)
    || AppliesVerdict(s, step, c, false)
  }

  function RefusedNow(c: ConnId): State -> bool {
    (s: State) => c in s.secures.refused
  }

  lemma RefusedByOthers(s: State, step: Step, t: State, c: ConnId)
    requires Inv(s) && Goes(s, step, t) && !IsNetworkStep(step) && !RefusedNow(c)(s) && RefusedNow(c)(t)
    ensures Refuses(s, step, c)
  {
    hide Inv, StageMsg, SnapshotMsg, AllReady, AfterHello, AfterInput, FreshSession, HelloReplyMsg;
    if step.HandleVerdictStep? && s.sim.verdicts[0].id in s.sessions {
      VerdictFindsWaiting(s);
    }
  }

  lemma RefusedByNetwork(s: State, step: Step, t: State, c: ConnId)
    requires Goes(s, step, t) && IsNetworkStep(step) && !RefusedNow(c)(s) && RefusedNow(c)(t)
    ensures Refuses(s, step, c)
  {
    hide Prepare, DispatchByChannel, ValidatedConnectionIdOrZero, SendReliableMsg, SendPacket, BoundId;
  }

  lemma RefusedBy(s: State, step: Step, t: State, c: ConnId)
    requires Inv(s) && Goes(s, step, t) && !RefusedNow(c)(s) && RefusedNow(c)(t)
    ensures Refuses(s, step, c)
  {
    hide Inv, Goes, Refuses;
    if IsNetworkStep(step) {
      RefusedByNetwork(s, step, t, c);
    } else {
      RefusedByOthers(s, step, t, c);
    }
  }

  /** The server disconnects nobody it has not refused before. */
  lemma KickMeans(run: seq<State>, steps: seq<Step>, k: nat, kick: Kick) returns (a: nat)
    requires IsRun(run, steps) && k < |run| && kick in run[k].outs.kicks
    ensures a < k && Refuses(run[a], steps[a], kick.id)
  {
    hide Goes, Inv, Refuses;
    RunInv(run, steps, k);
    SendFacts(run[k]);
    a := Flip(run, steps, RefusedNow(kick.id), k);
    RunInv(run, steps, a);
    RefusedBy(run[a], steps[a], run[a + 1], kick.id);
  }

  // ---------------------------------------------------------------------------
  // Order
  // ---------------------------------------------------------------------------

  /** Reliable messages are handled in the order they were pushed, none lost, none
      twice; those handed to ENet are among the handled ones, in that order. */
  lemma ReliableOrder(run: seq<State>, steps: seq<Step>, k: nat)
    requires IsRun(run, steps) && k < |run|
    ensures
      var s := run[k];
      && Reliable(s.outs.log) == s.outs.handled + (PreparedReliable(s.net.control) + Reliable(s.outgoing))
      && (forall i :: 0 <= i < |s.outs.reliableSent| ==>
            var e := s.outs.reliableSent[i];
            e.position < |s.outs.handled| && s.outs.handled[e.position] == e.msg && e.bound == e.msg.id)
      && (forall i, j :: 0 <= i < j < |s.outs.reliableSent| ==> s.outs.reliableSent[i].position < s.outs.reliableSent[j].position)
  {
    hide IsRun, Inv, ControlOk, KicksOk, Reliable;
    RunInv(run, steps, k);
    SendFacts(run[k]);
  }

  // ---------------------------------------------------------------------------
  // Match messages
  // ---------------------------------------------------------------------------

  lemma {:induction false} MatchKindsOfReliable(log: seq<OutMsg>, c: ConnId)
    ensures MatchKinds(Reliable(log), c) == MatchKinds(log, c)
  {
    hide Reliable, MatchKinds;
    if log == [] {
      NothingPushed(c);
    } else {
      var rest, m := log[..|log| - 1], log[|log| - 1];
      assert log == rest + [m];
      MatchKindsOfReliable(rest, c);
      ReliablePush(rest, m);
      MatchKindsPush(rest, m, c);
      if IsReliableKind(m.kind) {
        MatchKindsPush(Reliable(rest), m, c);
      } else {
        assert Reliable(log) == Reliable(rest);
      }
    }
  }

  lemma NothingPushed(c: ConnId)
    ensures Reliable([]) == [] && MatchKinds([], c) == []
  {
  }

  lemma MatchKindsPush(log: seq<OutMsg>, m: OutMsg, c: ConnId)
    ensures MatchKinds(log + [m], c) == MatchKinds(log, c) + if m.id == c && IsMatchKind(m.kind) then [m.kind] else []
  {
    assert (log + [m])[..|log|] == log;
  }

  /** Every match message for `c` shows in its kinds, in its place. */
  lemma {:induction false} KindsAt(log: seq<OutMsg>, c: ConnId, p: nat) returns (a: nat)
    requires p < |log| && log[p].id == c && IsMatchKind(log[p].kind)
    ensures a < |MatchKinds(log, c)| && MatchKinds(log, c)[a] == log[p].kind && a == |MatchKinds(log[..p], c)|
  {
    var n := |log| - 1;
    if p == n {
      a := |MatchKinds(log[..n], c)|;
    } else {
      a := KindsAt(log[..n], c, p);
      assert log[..n][..p] == log[..p];
    }
  }

  lemma {:induction false} KindsGrow(log: seq<OutMsg>, c: ConnId, p: nat, q: nat)
    requires p < q <= |log| && log[p].id == c && IsMatchKind(log[p].kind)
    ensures |MatchKinds(log[..p], c)| < |MatchKinds(log[..q], c)|
  {
    var a := KindsAt(log[..q], c, p);
    assert log[..q][..p] == log[..p];
  }

  function Rank(k: OutKind): nat {
    match k
    case MatchInitOut => 1
    case WorldInitOut => 2
    case MatchStartOut => 3
    case _ => 0
  }

  predicate Ascending(kinds: seq<OutKind>) {
    forall i, j :: 0 <= i < j < |kinds| ==> Rank(kinds[i]) < Rank(kinds[j])
  }

  /** Over the whole run a connection is pushed at most one message of each match kind,
      in the order init, world, start; it gets the first two together, and somebody who
      came after the init stage gets the start alone. */
  lemma MatchPacketsOnce(run: seq<State>, steps: seq<Step>, k: nat, c: ConnId)
    requires IsRun(run, steps) && k < |run|
    ensures
      var kinds := MatchKinds(run[k].outs.log, c);
      && (kinds == [] || kinds == [MatchInitOut] || kinds == [MatchInitOut, WorldInitOut] ||
          kinds == [MatchInitOut, WorldInitOut, MatchStartOut] || kinds == [MatchStartOut])
      && (run[k].game.worldSent ==> kinds != [MatchInitOut])
      && Ascending(kinds)
  {
    hide IsRun, Inv;
    RunInv(run, steps, k);
    var s := run[k];
    FlowFacts(s);
    assert MatchKinds(s.outs.log, c) == ExpectedKinds(s.matches, c);
    hide MatchPushes, MatchKinds;
    WorldAfterInit(s.game, s.sim, s.sessions.Keys, s.matches, c);
    if s.game.worldSent {
      var kinds := ExpectedKinds(s.matches, c);
      assert c in s.matches.init ==> |kinds| >= 2;
      assert c !in s.matches.init ==> kinds == [] || kinds[0] == MatchStartOut;
    }
  }

  lemma WorldAfterInit(game: Match, sim: Sim, keys: set<ConnId>, matches: MatchHistory, c: ConnId)
    requires Flow(game, sim, keys, matches)
    ensures c in matches.world ==> c in matches.init
    ensures matches.start != {} ==> game.worldSent
    ensures game.worldSent ==> matches.world == matches.init
  {
  }

  /** Two match messages for one connection among the handled ones, in two places. */
  lemma HandledAscending(run: seq<State>, steps: seq<Step>, k: nat, p: nat, q: nat)
    requires IsRun(run, steps) && k < |run| && p < q < |run[k].outs.handled|
    requires run[k].outs.handled[p].id == run[k].outs.handled[q].id
    requires IsMatchKind(run[k].outs.handled[p].kind) && IsMatchKind(run[k].outs.handled[q].kind)
    ensures Rank(run[k].outs.handled[p].kind) < Rank(run[k].outs.handled[q].kind)
  {
    hide IsRun, MatchKinds, Reliable;
    var s := run[k];
    var c := s.outs.handled[p].id;
    ReliableOrder(run, steps, k);
    MatchPacketsOnce(run, steps, k, c);
    var all := Reliable(s.outs.log);
    assert all[p] == s.outs.handled[p] && all[q] == s.outs.handled[q];
    MatchKindsOfReliable(s.outs.log, c);
    var a := KindsAt(all, c, p);
    var b := KindsAt(all, c, q);
    KindsGrow(all, c, p, q);
  }

  /** Draining, splitting and sending keep the order, so the match messages ENet gets
      for one connection come in the order init, world, start, each at most once. */
  lemma MatchSentInOrder(run: seq<State>, steps: seq<Step>, k: nat, i: nat, j: nat)
    requires IsRun(run, steps) && k < |run| && i < j < |run[k].outs.reliableSent|
    requires run[k].outs.reliableSent[i].msg.id == run[k].outs.reliableSent[j].msg.id
    requires IsMatchKind(run[k].outs.reliableSent[i].msg.kind) && IsMatchKind(run[k].outs.reliableSent[j].msg.kind)
    ensures Rank(run[k].outs.reliableSent[i].msg.kind) < Rank(run[k].outs.reliableSent[j].msg.kind)
  {
    hide IsRun, Rank, Reliable;
    ReliableOrder(run, steps, k);
    var a, b := run[k].outs.reliableSent[i], run[k].outs.reliableSent[j];
    HandledAscending(run, steps, k, a.position, b.position);
  }

  lemma SendsAfter(s: State, step: Step, t: State)
    requires Goes(s, step, t)
    ensures |s.outs.handled| <= |t.outs.handled|
    ensures t.outs.reliableSent == s.outs.reliableSent ||
            (|t.outs.reliableSent| == |s.outs.reliableSent| + 1 && s.outs.reliableSent <= t.outs.reliableSent
                && t.outs.reliableSent[|s.outs.reliableSent|].position == |s.outs.handled|)
  {
    hide Prepare, DispatchByChannel, ValidatedConnectionIdOrZero, SendReliableMsg, SendPacket, BoundId, StageMsg,
         SnapshotMsg, AllReady, HandleIncoming, ApplyVerdict;
  }

  /** What is handed to ENet after `i` was not yet handled at `i`. */
  lemma {:induction false} LaterSendsAreOfLaterMessages(run: seq<State>, steps: seq<Step>, i: nat, j: nat)
    requires IsRun(run, steps) && i <= j < |run|
    ensures run[i].outs.reliableSent <= run[j].outs.reliableSent && |run[i].outs.handled| <= |run[j].outs.handled|
    ensures forall n :: |run[i].outs.reliableSent| <= n < |run[j].outs.reliableSent| ==> run[j].outs.reliableSent[n].position >= |run[i].outs.handled|
  {
    hide Goes;
    if i < j {
      LaterSendsAreOfLaterMessages(run, steps, i, j - 1);
      SendsAfter(run[j - 1], steps[j - 1], run[j]);
    }
  }

  /** A match message that was handled and not handed to ENet, because its client was
      not authenticated yet or ENet refused it, is never made up for: no message of that
      kind reaches that client in the rest of the run. */
  lemma DroppedMatchPacketIsNeverRepeated(run: seq<State>, steps: seq<Step>, i: nat, j: nat, p: nat)
    requires IsRun(run, steps) && i <= j < |run| && p < |run[i].outs.handled| && IsMatchKind(run[i].outs.handled[p].kind)
    requires forall n :: 0 <= n < |run[i].outs.reliableSent| ==> run[i].outs.reliableSent[n].position != p
    ensures
      var m := run[i].outs.handled[p];
      forall n :: 0 <= n < |run[j].outs.reliableSent| ==> !(run[j].outs.reliableSent[n].msg.id == m.id && run[j].outs.reliableSent[n].msg.kind == m.kind)
  {
    hide IsRun, Reliable, Later;
    var m := run[i].outs.handled[p];
    LaterSendsAreOfLaterMessages(run, steps, i, j);
    HandledGrows(run, steps, i, j);
    ReliableOrder(run, steps, j);
    forall n | 0 <= n < |run[j].outs.reliableSent| && run[j].outs.reliableSent[n].msg.id == m.id && run[j].outs.reliableSent[n].msg.kind == m.kind
      ensures false
    {
      var q := run[j].outs.reliableSent[n].position;
      assert run[j].outs.handled[p] == m;
      if p < q {
        HandledAscending(run, steps, j, p, q);
      } else if q < p {
        HandledAscending(run, steps, j, q, p);
      }
    }
  }

  lemma HandledGrows(run: seq<State>, steps: seq<Step>, i: nat, j: nat)
    requires IsRun(run, steps) && i <= j < |run|
    ensures run[i].outs.handled <= run[j].outs.handled
  {
    hide IsRun;
    LaterRun(run, steps, i, j);
  }

  /** The step handles the message of kind `kind` for `c`. */
  predicate HandlesFor(s: State, step: Step, c: ConnId, kind: OutKind) {
    step.SendReliableStep? && s.net.control.Sending? && s.net.control.prepared.reliable != [] &&
    HeadToSend(s).id == c && HeadToSend(s).kind == kind
  }

  /** The step hands it to ENet. */
  predicate DeliversTo(s: State, step: Step, c: ConnId, kind: OutKind) {
    HandlesFor(s, step, c, kind) && Leaves(s, HeadToSend(s), step.outcome)
  }

  /** A message of kind `kind` was handed to ENet for `c`. */
  ghost predicate Got(s: State, c: ConnId, kind: OutKind) {
    exists e :: e in s.outs.reliableSent && e.msg.id == c && e.msg.kind == kind
  }

  ghost function GotNow(c: ConnId, kind: OutKind): State -> bool {
    (s: State) => Got(s, c, kind)
  }

  /** Nothing is handed to ENet reliably, and no context is attached. */
  predicate SendsNothing(s: State, t: State) {
    t.outs.reliableSent == s.outs.reliableSent &&
    forall u :: u in t.net.inFlight ==> u in s.net.inFlight && t.net.inFlight[u] == s.net.inFlight[u]
  }

  lemma AcksSendNothing(s: State, uid: nat)
    requires uid in s.net.inFlight
    ensures SendsNothing(s, Acknowledge(s, uid))
  {
    hide StillBound;
  }

  lemma EventsSendNothing(s: State, from: Option<Peer>, channel: nat, data: seq<byte>, p: Peer)
    ensures SendsNothing(s, Receive(s, from, channel, data)) && SendsNothing(s, Connect(s, p)) && SendsNothing(s, Disconnect(s, p))
  {
    hide DispatchByChannel, ValidatedConnectionIdOrZero;
  }

  lemma SnapshotsSendNothing(s: State, o: SendOutcome)
    requires s.net.control.SendingSnapshot? && s.net.control.snapshot.payload.SnapshotReply?
    ensures SendsNothing(s, SendSnapshot(s, o))
  {
    hide SendPacket, BoundId;
  }

  lemma AllocationsSendNothing(s: State, c: ConnId)
    requires s.net.control.Sending? && c in s.net.control.prepared.snapshots
    ensures SendsNothing(s, AllocateSnapshot(s, c))
  {
  }

  lemma OnlySendsSend(s: State, step: Step, t: State)
    requires Goes(s, step, t) && !step.SendReliableStep?
    ensures SendsNothing(s, t)
  {
    if !IsNetworkStep(step) {
      hide Allowed, Next, Later;
      FrameOf(s, step, t);
    } else {
      hide Prepare, Acknowledge, Receive, Connect, Disconnect, SendSnapshot, AllocateSnapshot;
      match step {
        case SendSnapshotStep(o) => SnapshotsSendNothing(s, o);
        case AllocateSnapshotStep(c) => AllocationsSendNothing(s, c);
        case AcknowledgeStep(uid) => AcksSendNothing(s, uid);
        case ReceiveStep(from, channel, data) => EventsSendNothing(s, from, channel, data, 0);
        case ConnectStep(p) => EventsSendNothing(s, None, 0, [], p);
        case DisconnectStep(p) => EventsSendNothing(s, None, 0, [], p);
        case _ =>
      }
    }
  }

  lemma SendsHandle(s: State, step: Step, t: State)
    requires Goes(s, step, t) && step.SendReliableStep?
    ensures s.net.control.Sending? && s.net.control.prepared.reliable != []
    ensures t.outs.handled == s.outs.handled + [HeadToSend(s)]
  {
    hide SendReliableMsg, BoundId;
  }

  /** A delivery shows at once, and nothing else makes it show. */
  lemma GotByDelivery(run: seq<State>, steps: seq<Step>, i: nat, c: ConnId, kind: OutKind)
    requires IsRun(run, steps) && i < |steps|
    ensures DeliversTo(run[i], steps[i], c, kind) ==> Got(run[i + 1], c, kind)
    ensures !Got(run[i], c, kind) && Got(run[i + 1], c, kind) ==> DeliversTo(run[i], steps[i], c, kind)
  {
    hide Goes, Leaves;
    assert Goes(run[i], steps[i], run[i + 1]);
    if steps[i].SendReliableStep? {
      SendGoesToItsConnection(run, steps, i);
      if DeliversTo(run[i], steps[i], c, kind) {
        var sent := run[i + 1].outs.reliableSent;
        assert sent[|sent| - 1] in sent;
      }
    } else {
      OnlySendsSend(run[i], steps[i], run[i + 1]);
    }
  }

  /** A connection is handed a match message of some kind exactly when, at the one step
      that handles its message of that kind, it was bound, authenticated and secure and
      ENet took the packet. */
  lemma MatchPacketArrivesExactly(run: seq<State>, steps: seq<Step>, k: nat, c: ConnId, kind: OutKind)
    requires IsRun(run, steps) && k < |run| && IsMatchKind(kind)
    ensures Got(run[k], c, kind) <==> exists i :: 0 <= i < k && DeliversTo(run[i], steps[i], c, kind)
    ensures forall i, j :: 0 <= i < |steps| && 0 <= j < |steps| && HandlesFor(run[i], steps[i], c, kind) && HandlesFor(run[j], steps[j], c, kind) ==> i == j
  {
    hide Goes, DeliversTo, HandlesFor;
    if Got(run[k], c, kind) {
      var i := Flip(run, steps, GotNow(c, kind), k);
      GotByDelivery(run, steps, i, c, kind);
    }
    forall i | 0 <= i < k && DeliversTo(run[i], steps[i], c, kind)
      ensures Got(run[k], c, kind)
    {
      GotByDelivery(run, steps, i, c, kind);
      LaterRun(run, steps, i + 1, k);
      GotStays(run[i + 1], run[k], c, kind);
    }
    forall i, j | 0 <= i < |steps| && 0 <= j < |steps| && HandlesFor(run[i], steps[i], c, kind) && HandlesFor(run[j], steps[j], c, kind)
      ensures i == j
    {
      if i < j {
        HandledOnce(run, steps, i, j, c, kind);
      } else if j < i {
        HandledOnce(run, steps, j, i, c, kind);
      }
    }
  }

  lemma GotStays(s: State, t: State, c: ConnId, kind: OutKind)
    requires Later(s, t) && Got(s, c, kind)
    ensures Got(t, c, kind)
  {
    var e :| e in s.outs.reliableSent && e.msg.id == c && e.msg.kind == kind;
    assert e in t.outs.reliableSent;
  }

  lemma HandledOnce(run: seq<State>, steps: seq<Step>, i: nat, j: nat, c: ConnId, kind: OutKind)
    requires IsRun(run, steps) && i < j < |steps| && IsMatchKind(kind) && HandlesFor(run[i], steps[i], c, kind)
    ensures !HandlesFor(run[j], steps[j], c, kind)
  {
    hide Goes;
    assert Goes(run[i], steps[i], run[i + 1]) && Goes(run[j], steps[j], run[j + 1]);
    SendsHandle(run[i], steps[i], run[i + 1]);
    HandledGrows(run, steps, i + 1, j);
    if HandlesFor(run[j], steps[j], c, kind) {
      SendsHandle(run[j], steps[j], run[j + 1]);
      HandledAscending(run, steps, j + 1, |run[i].outs.handled|, |run[j].outs.handled|);
    }
  }
}
