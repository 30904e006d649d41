/** Connection events and receptions keep the invariant. */
module KeepEvents {
  import opened Wrappers
  import opened Bytes
  import opened Packets
  import opened Messages
  import opened Membership
  import opened Lifecycle
  import opened Invariant

  lemma BindingConnect(nextId: nat, data: map<Peer, ConnId>, peers: map<ConnId, Peer>, p: Peer)
    requires Binding(nextId, data, peers) && p !in data && nextId < TWO_32
    ensures Binding(nextId + 1, SetPeerData(data, p, nextId), peers[nextId := p])
  {
  }

  lemma MirrorConnect(peers: map<ConnId, Peer>, encryption: map<ConnId, bool>, sessions: map<ConnId, Session>,
                      id: ConnId, p: Peer)
    requires Mirror(peers, encryption, sessions) && id !in sessions
    ensures Mirror(peers[id := p], encryption[id := false], sessions)
  {
  }

  lemma KeepConnect(s: State, p: Peer)
    requires Inv(s) && s.net.control.NetIdle? && p !in s.net.data && s.net.nextId < TWO_32
    ensures Inv(Connect(s, p))
  {
    hide Life, LogGrammar, SessionsOk, AuthLine, VerdictsApplied, Outgoing, AuthReplies, ReliableLine, ReliableSent;
    hide Stream, MatchPushes, Flow, StartRecorded, GuardHolds, AuthItems;
    var t := Connect(s, p);
    var id := s.net.nextId;
    BindingConnect(id, s.net.data, s.net.peers, p);
    UnknownHasNoSession(id, s.net.peers.Keys, s.sessions.Keys, s.ins.seen, Pending(s), id);
    MirrorConnect(s.net.peers, s.net.encryption, s.sessions, id, p);
    hide Binding, Mirror;
    LifeConnect(id, s.net.peers.Keys, s.sessions.Keys, s.ins.seen, Pending(s));
    assert s.ins.log + NetHand(s.net.control) == s.ins.log;
    LogConnect(id, s.net.peers.Keys, s.ins.log);
    assert t.net.peers.Keys == s.net.peers.Keys + {id};
    assert Pending(t) == Pending(s) + [ConnectMsg(id)];
    assert t.ins.log + NetHand(t.net.control) == s.ins.log + [ConnectMsg(id)];
    assert t.ins.log == t.ins.processed + (t.sim.inBatch + t.incoming);
    GuardsHoldPush(s.sessions, Pending(s), ConnectMsg(id));
  }

  lemma GuardsHoldPush(sessions: map<ConnId, Session>, pending: seq<InMsg>, m: InMsg)
    requires GuardsHold(sessions, pending) && GuardHolds(sessions, m)
    ensures GuardsHold(sessions, pending + [m])
  {
  }

  lemma UnknownHasNoSession(nextId: nat, bound: set<ConnId>, live: set<ConnId>, seen: set<ConnId>, pending: seq<InMsg>,
                            c: ConnId)
    requires Life(nextId, bound, live, seen, pending) && c >= nextId
    ensures c !in live && c !in seen
  {
    assert LifeOf(c, nextId, c in bound, c in live, c in seen, Share(pending, c));
  }

  lemma BindingDisconnect(nextId: nat, data: map<Peer, ConnId>, peers: map<ConnId, Peer>, p: Peer)
    requires Binding(nextId, data, peers) && p in data
    ensures data[p] in peers && Binding(nextId, data - {p}, peers - {data[p]})
  {
  }

  lemma MirrorDisconnect(peers: map<ConnId, Peer>, encryption: map<ConnId, bool>, sessions: map<ConnId, Session>, id: ConnId)
    requires Mirror(peers, encryption, sessions)
    ensures Mirror(peers - {id}, encryption - {id}, sessions)
  {
  }

  lemma KeepDisconnect(s: State, p: Peer)
    requires Inv(s) && s.net.control.NetIdle?
    ensures Inv(Disconnect(s, p))
  {
    hide Life, LogGrammar, SessionsOk, AuthLine, VerdictsApplied, Outgoing, AuthReplies, ReliableLine, ReliableSent;
    hide Stream, MatchPushes, Flow, StartRecorded, GuardHolds, AuthItems;
    if p in s.net.data {
      var t := Disconnect(s, p);
      var id := s.net.data[p];
      var m := DisconnectMsg(id);
      BindingDisconnect(s.net.nextId, s.net.data, s.net.peers, p);
      MirrorDisconnect(s.net.peers, s.net.encryption, s.sessions, id);
      hide Binding, Mirror;
      LifeDisconnect(s.net.nextId, s.net.peers.Keys, s.sessions.Keys, s.ins.seen, Pending(s), id);
      assert s.ins.log + NetHand(s.net.control) == s.ins.log;
      LogDisconnect(s.net.nextId, s.net.peers.Keys, s.ins.log, id);
      assert t.net.peers.Keys == s.net.peers.Keys - {id};
      assert Pending(t) == Pending(s) + [m];
      assert t.ins.log + NetHand(t.net.control) == s.ins.log + [m];
      assert t.ins.log == t.ins.processed + (t.sim.inBatch + t.incoming);
      GuardsHoldPush(s.sessions, Pending(s), m);
    }
  }

  /** `m` is what `data` says on `channel`, and the guard of the channel lets it in. */
  ghost predicate Carries(sessions: map<ConnId, Session>, id: ConnId, channel: nat, data: seq<byte>, m: InMsg) {
    m.id == id &&
    match m
    case HelloMsg(_, hello) => channel == 0 && WellFormedHello(hello) && data == HelloBytes(hello) && hello.version == PROTOCOL_VERSION
    case AuthMsg(_, token) => channel == 1 && |token| <= MAX_TOKEN_BYTES && data == AuthBytes(AuthPacket(token)) && AllowedOnAuthChannel(sessions, id)
    case ReadyMsg(_) => channel == 2 && data == ReadyBytes() && AllowedOnGameplayChannels(sessions, id)
    case InputMsg(_, input) => channel == 3 && data == InputBytes(input) && AllowedOnGameplayChannels(sessions, id)
    case _ => false
  }

  /** A datagram is accepted exactly when it is the encoding of a message of its channel
      and the guard of the channel holds; the sender is thrown out exactly for a well
      formed hello of another protocol version. */
  lemma DispatchExact(sessions: map<ConnId, Session>, id: ConnId, channel: nat, data: seq<byte>, m: InMsg)
    ensures DispatchByChannel(sessions, id, channel, data) == Accepted(m) <==> Carries(sessions, id, channel, data, m)
    ensures DispatchByChannel(sessions, id, channel, data) == VersionRefused <==>
              channel == 0 && exists hello :: WellFormedHello(hello) && hello.version != PROTOCOL_VERSION && data == HelloBytes(hello)
  {
    hide ParseHello, ParseAuth, ParseReady, ParseInput, HelloBytes, AuthBytes, ReadyBytes, InputBytes, AllowedOnAuthChannel, AllowedOnGameplayChannels;
    if ParseHello(data).Some? {
      HelloExact(data, ParseHello(data).value);
    }
    forall hello
      ensures ParseHello(data) == Some(hello) <==> WellFormedHello(hello) && data == HelloBytes(hello)
    {
      HelloExact(data, hello);
    }
    match m
    case HelloMsg(_, hello) =>
    case AuthMsg(_, token) => AuthExact(data, AuthPacket(token));
    case ReadyMsg(_) =>
      ReadyExact(data);
      assert ParseReady(data).Some? ==> ParseReady(data).value == ReadyPacket;
    case InputMsg(_, input) => InputExact(data, input);
    case _ =>
  }

  /** What passes the guards and the parser is a packet of the validated connection,
      and its guard holds at that moment. */
  lemma DispatchEstablishesTheGuard(sessions: map<ConnId, Session>, id: ConnId, channel: nat, data: seq<byte>)
    ensures
      var d := DispatchByChannel(sessions, id, channel, data);
      d.Accepted? ==> d.msg.id == id && IsPacket(d.msg) && GuardHolds(sessions, d.msg)
  {
    hide ParseHello, ParseAuth, ParseInput, ParseReady;
  }

  /** The validation answers the bound connection or nothing. */
  lemma ValidatedIsBound(net: Net, peer: Option<Peer>)
    requires Binding(net.nextId, net.data, net.peers)
    ensures
      var id := ValidatedConnectionIdOrZero(net, peer);
      if peer.Some? && peer.value in net.data then id == net.data[peer.value] && id != 0 && id in net.peers && net.peers[id] == peer.value
      else id == 0
  {
  }

  /** At a control point that holds no messages for sending. */
  predicate Plain(control: NetControl) {
    control.NetIdle? || control.Delivering?
  }

  lemma StreamUnderPlainControl(sent: seq<SentSnapshot>, before: NetControl, after: NetControl, outgoing: seq<OutMsg>,
                                sim: Sim,
                                sessions: map<ConnId, Session>, seen: set<ConnId>)
    requires Stream(sent, before, outgoing, sim, sessions, seen) && Plain(before) && Plain(after)
    ensures Stream(sent, after, outgoing, sim, sessions, seen)
  {
    hide OlderThanQueued, QueuedSnapshots, Recent;
  }

  lemma OutgoingUnderPlainControl(before: NetControl, after: NetControl, outgoing: seq<OutMsg>, hand: Hand,
                                  inFlight: map<nat, AckContext>,
                                  kicks: seq<Kick>, seen: set<ConnId>, secures: SecureHistory)
    requires Outgoing(before, outgoing, hand, inFlight, kicks, seen, secures) && Plain(after)
    ensures Outgoing(after, outgoing, hand, inFlight, kicks, seen, secures)
  {
    hide AllOut, InFlightOk, KicksOk;
  }

  /** History only grows, and what was justified stays justified. */
  lemma OutgoingUnderMoreHistory(control: NetControl, outgoing: seq<OutMsg>, hand: Hand, inFlight: map<nat,
                                 AckContext>, kicks: seq<Kick>,
                                 seen: set<ConnId>, secures: SecureHistory, seen': set<ConnId>, secures': SecureHistory)
    requires Outgoing(control, outgoing, hand, inFlight, kicks, seen, secures)
    requires seen <= seen' && secures.accepted <= secures'.accepted && secures.refused <= secures'.refused
    ensures Outgoing(control, outgoing, hand, inFlight, kicks, seen', secures')
  {
    AllOutUnderMoreHistory(outgoing, seen, secures, seen', secures');
    AllOutUnderMoreHistory(HandReply(hand), seen, secures, seen', secures');
    match control
    case Sending(p) => AllOutUnderMoreHistory(p.reliable, seen, secures, seen', secures');
    case SendingSnapshot(_, _, _, p) => AllOutUnderMoreHistory(p.reliable, seen, secures, seen', secures');
    case _ =>
  }

  lemma AllOutUnderMoreHistory(ms: seq<OutMsg>, seen: set<ConnId>, secures: SecureHistory, seen': set<ConnId>,
                               secures': SecureHistory)
    requires AllOut(ms, seen, secures)
    requires seen <= seen' && secures.accepted <= secures'.accepted && secures.refused <= secures'.refused
    ensures AllOut(ms, seen', secures')
  {
  }

  lemma KeepReceive(s: State, peer: Option<Peer>, channel: nat, data: seq<byte>)
    requires Inv(s) && s.net.control.NetIdle?
    ensures Inv(Receive(s, peer, channel, data))
  {
    hide Life, LogGrammar, GuardsHold, SessionsOk, Mirror, AuthLine, VerdictsApplied, Outgoing, AuthReplies,
         ReliableSent;
    hide Stream, MatchPushes, Flow, StartRecorded, DispatchByChannel, AuthItems;
    var id := ValidatedConnectionIdOrZero(s.net, peer);
    ValidatedIsBound(s.net, peer);
    hide Binding, ValidatedConnectionIdOrZero;
    if id != 0 {
      var t := Receive(s, peer, channel, data);
      var d := DispatchByChannel(s.sessions, id, channel, data);
      DispatchEstablishesTheGuard(s.sessions, id, channel, data);
      match d
      case Dropped =>
      case VersionRefused =>
        OutgoingUnderMoreHistory(s.net.control, s.outgoing, s.sim.hand, s.net.inFlight, s.outs.kicks, s.ins.seen,
            s.secures, s.ins.seen, t.secures);
        OutgoingKick(t.net.control, t.outgoing, t.sim.hand, t.net.inFlight, s.outs.kicks, t.ins.seen, t.secures,
            Kick(peer.value, id));
      case Accepted(m) =>
        LifePacket(s.net.nextId, s.net.peers.Keys, s.sessions.Keys, s.ins.seen, Pending(s), m);
        assert s.ins.log + NetHand(s.net.control) == s.ins.log;
        LogPacket(s.net.nextId, s.net.peers.Keys, s.ins.log, m);
        assert Pending(t) == Pending(s) + [m];
        GuardsHoldPush(s.sessions, Pending(s), m);
        StreamUnderPlainControl(s.outs.snapshotsSent, s.net.control, t.net.control, s.outgoing, s.sim, s.sessions, s.ins.seen);
        OutgoingUnderPlainControl(s.net.control, t.net.control, s.outgoing, s.sim.hand, s.net.inFlight, s.outs.kicks,
            s.ins.seen, s.secures);
    }
  }

  lemma OutgoingKick(control: NetControl, outgoing: seq<OutMsg>, hand: Hand, inFlight: map<nat, AckContext>,
                     kicks: seq<Kick>,
                     seen: set<ConnId>, secures: SecureHistory, k: Kick)
    requires Outgoing(control, outgoing, hand, inFlight, kicks, seen, secures) && k.id in secures.refused
    ensures Outgoing(control, outgoing, hand, inFlight, kicks + [k], seen, secures)
  {
    hide AllOut, InFlightOk, ControlOk;
  }

  lemma KeepReceivePush(s: State)
    requires Inv(s) && s.net.control.Delivering?
    ensures Inv(ReceivePush(s))
  {
    hide Binding, Life, LogGrammar, GuardsHold, SessionsOk, Mirror, AuthLine, VerdictsApplied, Outgoing, AuthReplies,
         ReliableSent;
    hide Stream, MatchPushes, Flow, StartRecorded, AuthItems;
    var t := ReceivePush(s);
    assert Pending(t) == Pending(s);
    assert t.ins.log + NetHand(t.net.control) == s.ins.log + NetHand(s.net.control);
    assert t.ins.log == t.ins.processed + (t.sim.inBatch + t.incoming);
    StreamUnderPlainControl(s.outs.snapshotsSent, s.net.control, t.net.control, s.outgoing, s.sim, s.sessions, s.ins.seen);
    OutgoingUnderPlainControl(s.net.control, t.net.control, s.outgoing, s.sim.hand, s.net.inFlight, s.outs.kicks,
        s.ins.seen, s.secures);
  }
}
