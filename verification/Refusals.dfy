/** What becomes of a refusal: the context a send attaches to its packet, how long it
    lives, and the disconnection its acknowledgement brings; and the one disconnection
    that comes straight from a received packet. */
module Refusals {
  import opened Wrappers
  import opened Bytes
  import opened Packets
  import opened Messages
  import opened Preparation
  import opened Lifecycle
  import opened Invariant
  import opened KeepEvents
  import opened Threads
  import opened Runs
  import opened Chain
  import opened Guarantees
  import opened Deliveries

  // ---------------------------------------------------------------------------
  // What a send attaches
  // ---------------------------------------------------------------------------

  /** What is to be done when `m` is acknowledged. */
  function ContextFor(s: State, m: OutMsg): AckContext
    requires m.id in s.net.peers
  {
    AckContext(s.net.peers[m.id], m.id, m.disconnectAfterAck, m.kind == HelloResponseOut && m.enableEncryptionAfterAck)
  }

  /** A refusal of a bound client that cannot be sent with its context. */
  predicate RefusalFails(s: State, m: OutMsg, o: SendOutcome) {
    && m.id in s.net.peers && m.disconnectAfterAck && (m.kind == HelloResponseOut || m.kind == AuthResponseOut)
    && (o == ContextFails || o == SendFails)
  }

  lemma SendMsgAttaches(s: State, m: OutMsg, o: SendOutcome)
    requires Binding(s.net.nextId, s.net.data, s.net.peers) && m.id in s.net.peers && IsReliableKind(m.kind)
    requires m.id in s.sessions ==> SessionOk(m.id, s.sessions[m.id], s.secures.acked)
    ensures
      var r := SendReliableMsg(s.net, s.sessions, s.net.peers[m.id], m, o);
      && r.context == (if Leaves(s, m, o) && NeedsContext(m) then Some(ContextFor(s, m)) else None)
      && (r.disconnectNow <==> RefusalFails(s, m, o))
      && BoundId(s.net, s.net.peers[m.id]) == m.id
  {
  }

  lemma SendAttaches(s: State, o: SendOutcome, uid: nat)
    requires s.net.control.Sending? && s.net.control.prepared.reliable != []
    requires Binding(s.net.nextId, s.net.data, s.net.peers) && IsReliableKind(HeadToSend(s).kind)
    requires HeadToSend(s).id in s.sessions ==> SessionOk(HeadToSend(s).id, s.sessions[HeadToSend(s).id], s.secures.acked)
    ensures
      var m, t := HeadToSend(s), SendReliable(s, o, uid);
      && t.net.inFlight == (if Leaves(s, m, o) && NeedsContext(m) then s.net.inFlight[uid := ContextFor(s, m)] else s.net.inFlight)
      && t.outs.kicks == s.outs.kicks + if RefusalFails(s, m, o) then [Kick(s.net.peers[m.id], m.id)] else []
  {
    hide Leaves, SendReliableMsg, Binding, ContextFor, NeedsContext, SessionOk;
    var m := HeadToSend(s);
    if m.id in s.net.peers {
      SendMsgAttaches(s, m, o);
    } else {
      NobodyLeaves(s, m, o);
    }
  }

  lemma NobodyLeaves(s: State, m: OutMsg, o: SendOutcome)
    requires m.id !in s.net.peers
    ensures !Leaves(s, m, o)
  {
  }

  lemma SendIs(s: State, step: Step)
    requires Allowed(s, step) && step.SendReliableStep?
    ensures s.net.control.Sending? && s.net.control.prepared.reliable != [] && step.uid !in s.net.inFlight
    ensures Next(s, step) == SendReliable(s, step.outcome, step.uid)
  {
    hide SendReliable;
  }

  /** One reliable send, in terms of message and connection: the packet that leaves
      carries exactly what its message asks for, for that very connection, and a refusal
      that cannot be sent with its context disconnects its client at once. */
  lemma SendAttachesItsContext(run: seq<State>, steps: seq<Step>, i: nat)
    requires IsRun(run, steps) && i < |steps| && steps[i].SendReliableStep?
    ensures run[i].net.control.Sending? && run[i].net.control.prepared.reliable != []
    ensures
      var s, t, m := run[i], run[i + 1], HeadToSend(run[i]);
      && steps[i].uid !in s.net.inFlight
      && t.net.inFlight == (if Leaves(s, m, steps[i].outcome) && NeedsContext(m) then s.net.inFlight[steps[i].uid := ContextFor(s, m)] else s.net.inFlight)
      && t.outs.kicks == s.outs.kicks + if RefusalFails(s, m, steps[i].outcome) then [Kick(s.net.peers[m.id], m.id)] else []
  {
    hide Inv, Allowed, Next, SendReliable, Leaves, SessionOk;
    RunInv(run, steps, i);
    var s := run[i];
    assert Goes(s, steps[i], run[i + 1]);
    SendIs(s, steps[i]);
    LineFacts(s);
    HeadIsReliable(s);
    if HeadToSend(s).id in s.sessions {
      SessionFacts(s, HeadToSend(s).id);
    }
    SendAttaches(s, steps[i].outcome, steps[i].uid);
  }

  // ---------------------------------------------------------------------------
  // How long a context lives
  // ---------------------------------------------------------------------------

  lemma FreeDrops(s: State, step: Step, t: State)
    requires Goes(s, step, t) && step.FreeStep?
    ensures t.net.inFlight == s.net.inFlight - {step.uid}
  {
  }

  /** Sends attach contexts and frees drop them; nothing else touches one. */
  lemma ContextStays(s: State, step: Step, t: State, uid: nat)
    requires Goes(s, step, t) && uid in s.net.inFlight && step != FreeStep(uid)
    ensures uid in t.net.inFlight && t.net.inFlight[uid] == s.net.inFlight[uid]
  {
    hide Allowed, Next;
    if step.SendReliableStep? {
      SendIs(s, step);
      SendKeepsContexts(s, step.outcome, step.uid, uid);
    } else if step.FreeStep? {
      FreeDrops(s, step, t);
    } else {
      OthersKeepContexts(s, step, t);
    }
  }

  lemma SendKeepsContexts(s: State, o: SendOutcome, other: nat, uid: nat)
    requires s.net.control.Sending? && s.net.control.prepared.reliable != [] && other !in s.net.inFlight && uid in s.net.inFlight
    ensures uid in SendReliable(s, o, other).net.inFlight && SendReliable(s, o, other).net.inFlight[uid] == s.net.inFlight[uid]
  {
    hide SendReliableMsg, BoundId;
  }

  lemma EventsKeepContexts(s: State, from: Option<Peer>, channel: nat, data: seq<byte>, p: Peer)
    ensures Receive(s, from, channel, data).net.inFlight == Connect(s, p).net.inFlight == Disconnect(s, p).net.inFlight == s.net.inFlight
  {
    hide DispatchByChannel, ValidatedConnectionIdOrZero;
  }

  lemma AcksKeepContexts(s: State, uid: nat)
    requires uid in s.net.inFlight
    ensures Acknowledge(s, uid).net.inFlight == s.net.inFlight
  {
    hide StillBound;
  }

  lemma OthersKeepContexts(s: State, step: Step, t: State)
    requires Goes(s, step, t) && !step.SendReliableStep? && !step.FreeStep?
    ensures t.net.inFlight == s.net.inFlight
  {
    if !IsNetworkStep(step) {
      hide Allowed, Next, Later;
      FrameOf(s, step, t);
    } else {
      hide Prepare, Acknowledge, Receive, Connect, Disconnect, SendPacket, BoundId;
      match step {
        case AcknowledgeStep(uid) => AcksKeepContexts(s, uid);
        case ReceiveStep(from, channel, data) => EventsKeepContexts(s, from, channel, data, 0);
        case ConnectStep(p) => EventsKeepContexts(s, None, 0, [], p);
        case DisconnectStep(p) => EventsKeepContexts(s, None, 0, [], p);
        case _ =>
      }
    }
  }

  /** From its send to its free, a packet keeps the context it was sent with. */
  lemma {:induction false} ContextLives(run: seq<State>, steps: seq<Step>, i: nat, j: nat, uid: nat)
    requires IsRun(run, steps) && i <= j < |run| && uid in run[i].net.inFlight
    requires forall k :: i <= k < j ==> steps[k] != FreeStep(uid)
    ensures uid in run[j].net.inFlight && run[j].net.inFlight[uid] == run[i].net.inFlight[uid]
  {
    hide Goes;
    if i < j {
      ContextLives(run, steps, i, j - 1, uid);
      assert Goes(run[j - 1], steps[j - 1], run[j]);
      ContextStays(run[j - 1], steps[j - 1], run[j], uid);
    }
  }

  // ---------------------------------------------------------------------------
  // Slots are not handed on under the same id
  // ---------------------------------------------------------------------------

  lemma PeersByStep(s: State, step: Step, t: State, c: ConnId)
    requires Goes(s, step, t) && 0 < c < s.net.nextId
    ensures c in t.net.peers ==> c in s.net.peers && t.net.peers[c] == s.net.peers[c]
  {
    if !IsNetworkStep(step) {
      hide Allowed, Next, Later;
      FrameOf(s, step, t);
    } else {
      hide Prepare, Acknowledge, Receive, SendPacket, SendReliableMsg, BoundId;
      match step {
        case AcknowledgeStep(uid) => PeersByAck(s, uid);
        case ReceiveStep(from, channel, data) => PeersByReceive(s, from, channel, data);
        case _ =>
      }
    }
  }

  lemma PeersByAck(s: State, uid: nat)
    requires uid in s.net.inFlight
    ensures Acknowledge(s, uid).net.peers == s.net.peers
  {
    hide StillBound;
  }

  lemma PeersByReceive(s: State, from: Option<Peer>, channel: nat, data: seq<byte>)
    ensures Receive(s, from, channel, data).net.peers == s.net.peers
  {
    hide DispatchByChannel, ValidatedConnectionIdOrZero;
  }

  /** While a connection is bound it is bound to one slot, and once unbound it stays so. */
  lemma {:induction false} PeerStays(run: seq<State>, steps: seq<Step>, i: nat, j: nat, c: ConnId)
    requires IsRun(run, steps) && i <= j < |run| && c in run[i].net.peers
    ensures 0 < c < run[j].net.nextId
    ensures c in run[j].net.peers ==> run[j].net.peers[c] == run[i].net.peers[c]
  {
    hide Goes, Inv;
    if i == j {
      RunInv(run, steps, i);
      LineFacts(run[i]);
    } else {
      PeerStays(run, steps, i, j - 1, c);
      assert Goes(run[j - 1], steps[j - 1], run[j]);
      PeersByStep(run[j - 1], steps[j - 1], run[j], c);
      LaterRun(run, steps, j - 1, j);
    }
  }

  // ---------------------------------------------------------------------------
  // A refusal that was sent disconnects its client
  // ---------------------------------------------------------------------------

  /** When a refusal was handed to ENet and is acknowledged, its client is disconnected
      if and only if it is still connected. */
  lemma AcknowledgedRefusalDisconnects(run: seq<State>, steps: seq<Step>, i: nat, j: nat)
    requires IsRun(run, steps) && i < j < |steps| && steps[i].SendReliableStep? && steps[j] == AcknowledgeStep(steps[i].uid)
    requires run[i].net.control.Sending? && run[i].net.control.prepared.reliable != []
    requires Leaves(run[i], HeadToSend(run[i]), steps[i].outcome) && NeedsContext(HeadToSend(run[i])) && HeadToSend(run[i]).disconnectAfterAck
    requires forall k :: i < k < j ==> steps[k] != FreeStep(steps[i].uid)
    ensures
      var c := HeadToSend(run[i]).id;
      run[j + 1].outs.kicks == run[j].outs.kicks + if c in run[j].net.peers then [Kick(run[j].net.peers[c], c)] else []
  {
    hide Goes, NeedsContext;
    var m, uid := HeadToSend(run[i]), steps[i].uid;
    SendAttachesItsContext(run, steps, i);
    assert m.id in run[i].net.peers;
    ContextLives(run, steps, i + 1, j, uid);
    PeerStays(run, steps, i, j, m.id);
    AckTouchesOnlyItsConnection(run, steps, j);
  }

  // ---------------------------------------------------------------------------
  // Received packets
  // ---------------------------------------------------------------------------

  /** Slot `from` is bound to `c`. */
  predicate ComesFrom(net: Net, from: Option<Peer>, c: ConnId) {
    from.Some? && c in net.peers && net.peers[c] == from.value
  }

  /** A well formed hello of another protocol version, on the handshake channel. */
  ghost predicate WrongVersion(channel: nat, data: seq<byte>) {
    channel == 0 && exists p :: WellFormedHello(p) && p.version != PROTOCOL_VERSION && data == HelloBytes(p)
  }

  lemma ValidatedIs(net: Net, from: Option<Peer>, c: ConnId)
    requires Binding(net.nextId, net.data, net.peers)
    ensures ComesFrom(net, from, c) <==> c != 0 && ValidatedConnectionIdOrZero(net, from) == c
  {
  }

  lemma ReceiveIs(s: State, step: Step)
    requires Allowed(s, step) && step.ReceiveStep?
    ensures Next(s, step) == Receive(s, step.from, step.channel, step.data) && s.net.control.NetIdle?
  {
    hide Receive;
  }

  /** What a received packet does, by its bytes: it is taken up exactly when it comes from
      a bound slot and is the encoding of a message of its channel that the guard lets
      in; its sender is disconnected at once exactly when it is a hello of another
      version; and it does nothing else. */
  lemma ReceiveExactly(run: seq<State>, steps: seq<Step>, i: nat, c: ConnId, m: InMsg)
    requires IsRun(run, steps) && i < |steps| && steps[i].ReceiveStep?
    requires ComesFrom(run[i].net, steps[i].from, c)
    ensures
      var s, t, channel, data := run[i], run[i + 1], steps[i].channel, steps[i].data;
      && (t.net.control == Delivering(m) <==> Carries(s.sessions, c, channel, data, m))
      && t.outs.kicks == s.outs.kicks + (if WrongVersion(channel, data) then [Kick(steps[i].from.value, c)] else [])
      && t == s.(net := s.net.(control := t.net.control), outs := s.outs.(kicks := t.outs.kicks), secures := t.secures)
      && (t.net.control.NetIdle? || t.net.control.Delivering?)
  {
    hide Inv, Allowed, Next, Carries, WrongVersion, DispatchByChannel, ValidatedConnectionIdOrZero;
    RunInv(run, steps, i);
    var s := run[i];
    LineFacts(s);
    ValidatedIs(s.net, steps[i].from, c);
    assert Goes(s, steps[i], run[i + 1]);
    ReceiveIs(s, steps[i]);
    DispatchExact(s.sessions, c, steps[i].channel, steps[i].data, m);
    WrongVersionIs(s.sessions, c, steps[i].channel, steps[i].data, m);
  }

  lemma WrongVersionIs(sessions: map<ConnId, Session>, c: ConnId, channel: nat, data: seq<byte>, m: InMsg)
    ensures DispatchByChannel(sessions, c, channel, data) == VersionRefused <==> WrongVersion(channel, data)
  {
    hide DispatchByChannel;
    DispatchExact(sessions, c, channel, data, m);
  }

  /** A packet from a slot that no connection is bound to does nothing. */
  lemma StrangersAreIgnored(run: seq<State>, steps: seq<Step>, i: nat)
    requires IsRun(run, steps) && i < |steps| && steps[i].ReceiveStep?
    requires forall c: ConnId :: !ComesFrom(run[i].net, steps[i].from, c)
    ensures run[i + 1] == run[i]
  {
    hide Inv, Allowed, Next, DispatchByChannel, ValidatedConnectionIdOrZero;
    RunInv(run, steps, i);
    var s := run[i];
    LineFacts(s);
    ValidatedIs(s.net, steps[i].from, ValidatedConnectionIdOrZero(s.net, steps[i].from));
    assert Goes(s, steps[i], run[i + 1]);
    ReceiveIs(s, steps[i]);
  }

  /** A packet that was taken up is pushed as it is. */
  lemma TakenUpIsPushed(run: seq<State>, steps: seq<Step>, i: nat)
    requires IsRun(run, steps) && i < |steps| && steps[i].ReceivePushStep?
    ensures run[i].net.control.Delivering?
    ensures
      var s, t := run[i], run[i + 1];
      t.ins.log == s.ins.log + [s.net.control.msg] && t.incoming == s.incoming + [s.net.control.msg] && t.net == s.net.(control := NetIdle)
  {
    hide Inv;
    assert Goes(run[i], steps[i], run[i + 1]);
  }

  // ---------------------------------------------------------------------------
  // All disconnections
  // ---------------------------------------------------------------------------

  /** The disconnections one step causes. */
  ghost function KicksBy(s: State, step: Step): seq<Kick> {
    match step
    case ReceiveStep(from, channel, data) =>
      if WrongVersion(channel, data) && exists c :: ComesFrom(s.net, from, c) then
        var c :| ComesFrom(s.net, from, c);
        [Kick(from.value, c)]
      else []
    case SendReliableStep(o, uid) =>
      if s.net.control.Sending? && s.net.control.prepared.reliable != [] && RefusalFails(s, HeadToSend(s), o)
      then [Kick(s.net.peers[HeadToSend(s).id], HeadToSend(s).id)] else []
    case AcknowledgeStep(uid) =>
      if uid in s.net.inFlight && s.net.inFlight[uid].disconnectAfterAck && ComesFrom(s.net, Some(s.net.inFlight[uid].peer), s.net.inFlight[uid].id)
      then [Kick(s.net.inFlight[uid].peer, s.net.inFlight[uid].id)] else []
    case _ => []
  }

  lemma OthersKickNobody(s: State, step: Step, t: State)
    requires Goes(s, step, t) && !step.ReceiveStep? && !step.SendReliableStep? && !step.AcknowledgeStep?
    ensures t.outs.kicks == s.outs.kicks
  {
    if !IsNetworkStep(step) {
      hide Allowed, Next, Later;
      FrameOf(s, step, t);
    } else {
      hide Prepare, SendPacket, BoundId;
    }
  }

  /** The server disconnects a client at exactly these steps: at a hello of another
      version, when a refusal cannot be sent, and when a refusal is acknowledged by a
      client that is still bound. */
  lemma KicksExactly(run: seq<State>, steps: seq<Step>, i: nat)
    requires IsRun(run, steps) && i < |steps|
    ensures run[i + 1].outs.kicks == run[i].outs.kicks + KicksBy(run[i], steps[i])
  {
    hide Goes, WrongVersion, RefusalFails, Inv;
    assert Goes(run[i], steps[i], run[i + 1]);
    match steps[i] {
      case ReceiveStep(from, channel, data) =>
        if c :| ComesFrom(run[i].net, from, c) {
          ReceiveExactly(run, steps, i, c, ReadyMsg(c));
          OneSender(run, steps, i, from);
        } else {
          StrangersAreIgnored(run, steps, i);
        }
      case SendReliableStep(o, uid) => SendAttachesItsContext(run, steps, i);
      case AcknowledgeStep(uid) => AckTouchesOnlyItsConnection(run, steps, i);
      case _ => OthersKickNobody(run[i], steps[i], run[i + 1]);
    }
  }

  lemma OneSender(run: seq<State>, steps: seq<Step>, i: nat, from: Option<Peer>)
    requires IsRun(run, steps) && i < |run|
    ensures forall c, d :: ComesFrom(run[i].net, from, c) && ComesFrom(run[i].net, from, d) ==> c == d
  {
    hide IsRun;
    PeersAreABijection(run, steps, i);
  }
}
