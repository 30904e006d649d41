/** The server as an object whose fields the three threads update in place. One method
    per critical section; each does in statements what the step function of Lifecycle
    says, and appends itself to a ghost run, so that everything proved of runs holds of
    the object at every moment. */
module ServerObject {
  import opened Wrappers
  import opened Bytes
  import opened Packets
  import opened Messages
  import opened Sequences
  import opened Preparation
  import opened Lifecycle
  import opened Invariant
  import opened Threads
  import opened Runs
  import opened KeepTick
  import opened Queues
  import opened Effects
  import opened WorldOpening
  import opened Handshakes
  import opened Wire
  import Frames

  lemma ExtendRun(run: seq<State>, steps: seq<Step>, step: Step, t: State)
    requires IsRun(run, steps) && Goes(run[|run| - 1], step, t)
    ensures IsRun(run + [t], steps + [step])
  {
    hide Goes;
    var run', steps' := run + [t], steps + [step];
    forall i | 0 <= i < |steps'|
      ensures Goes(run'[i], steps'[i], run'[i + 1])
    {
      if i < |steps| {
        assert run'[i] == run[i] && run'[i + 1] == run[i + 1] && steps'[i] == steps[i];
      }
    }
  }

  lemma KeptAreQueued(xs: seq<OutMsg>)
    ensures forall c :: c in Prepare(xs).snapshots <==> LastIndex(xs, SnapshotOut, c) >= 0
    ensures Prepare(xs).reliable == Reliable(xs)
  {
    forall c
      ensures c in Prepare(xs).snapshots <==> LastIndex(xs, SnapshotOut, c) >= 0
    {
      assert IsLastOf(xs, SnapshotOut, Prepare(xs).snapshots, c);
    }
  }

  lemma PopKeepsPeers(net: Net)
    requires net.control.Sending? && net.control.prepared.reliable != []
    ensures PopHead(net) == net.(control := PopHead(net).control)
  {
  }

  lemma SendIgnoresControl(a: Net, b: Net, sessions: map<ConnId, Session>, peer: Peer, msg: OutMsg, o: SendOutcome)
    requires a == b.(control := a.control)
    ensures SendReliableMsg(a, sessions, peer, msg, o) == SendReliableMsg(b, sessions, peer, msg, o)
    ensures BoundId(a, peer) == BoundId(b, peer)
  {
  }

  lemma HttpSteps(s: State, step: Step)
    requires Allowed(s, step)
    ensures step.HttpDrainStep? ==> s.http.job.None? && s.http.batch == [] && s.http.requests != [] && Next(s, step) == HttpDrain(s)
    ensures step.HttpTakeStep? ==> s.http.job.None? && s.http.batch != [] && Next(s, step) == HttpTake(s)
    ensures step.HttpAnswerStep? ==> s.http.job.Some? && Next(s, step) == HttpAnswer(s, step.answer)
    ensures step.HttpStopStep? ==> Next(s, step) == s.(http := s.http.(stopped := true))
  {
    hide HttpDrain, HttpTake, HttpAnswer;
  }

  class Server {
    // NetworkState: touched by the network thread only
    var nextConnectionId: nat
    var peerData: map<Peer, ConnId>
    var connectionIdToEnetPeer: map<ConnId, Peer>
    var connectionIdToEncryptionEnabled: map<ConnId, bool>
    var inFlight: map<nat, AckContext>
    var control: NetControl

    // NetworkState: behind sessionsMutex
    var sessions: map<ConnId, Session>

    // the four queues
    const netToSim: MessageQueue<InMsg>
    const httpToSim: MessageQueue<Verdict>
    const simToNet: MessageQueue<OutMsg>
    const simToHttp: BlockingQueue<Request>

    // the simulation thread and its locals
    var sim: Sim

    // the HTTP thread's locals
    var httpBatch: seq<Request>
    var httpJob: Option<Request>

    // GameState
    var matchInitSent: bool
    var worldStaticStateInitSent: bool
    var matchStartSent: bool
    var matchStarted: bool
    var matchStartTick: nat

    ghost var ins: InHistory
    ghost var auths: AuthHistory
    ghost var secures: SecureHistory
    ghost var outs: OutHistory
    ghost var matches: MatchHistory
    ghost var run: seq<State>
    ghost var steps: seq<Step>

    ghost function Repr(): set<object> {
      {this, netToSim, httpToSim, simToNet, simToHttp}
    }

    ghost function NetView(): Net
      reads this`nextConnectionId, this`peerData, this`connectionIdToEnetPeer, this`connectionIdToEncryptionEnabled,
          this`control, this`inFlight
    {
      Net(nextConnectionId, peerData, connectionIdToEnetPeer, connectionIdToEncryptionEnabled, control, inFlight)
    }

    ghost function HttpView(): Http
      reads this`httpBatch, this`httpJob, simToHttp`q, simToHttp`stopped, httpToSim`q
    {
      Http(simToHttp.q, simToHttp.stopped, httpBatch, httpJob, httpToSim.q)
    }

    ghost function GameView(): Match
      reads this`matchInitSent, this`worldStaticStateInitSent, this`matchStartSent, this`matchStarted, this`matchStartTick
    {
      Match(matchInitSent, worldStaticStateInitSent, matchStartSent, matchStarted, matchStartTick)
    }

    ghost function View(): State
      reads this, netToSim`q, httpToSim`q, simToNet`q, simToHttp`q, simToHttp`stopped
    {
      State(NetView(), sessions, netToSim.q, HttpView(), simToNet.q, sim, GameView(), ins, auths, secures, outs, matches)
    }

    ghost predicate QueuesOk()
      reads Repr()
    {
      && netToSim as object != httpToSim && netToSim as object != simToNet && httpToSim as object != simToNet
      && netToSim.Valid() && httpToSim.Valid() && simToNet.Valid() && simToHttp.Valid()
    }

    /** The object is where its run says. */
    ghost predicate Valid()
      reads Repr()
    {
      QueuesOk() && IsRun(run, steps) && run[|run| - 1] == View()
    }

    constructor ()
      ensures Valid() && View() == Initial() && fresh(Repr()) && run == [Initial()] && steps == []
    {
      nextConnectionId, peerData, connectionIdToEnetPeer, connectionIdToEncryptionEnabled := 1, map[], map[], map[];
      inFlight, control, sessions := map[], NetIdle, map[];
      netToSim := new MessageQueue();
      httpToSim := new MessageQueue();
      simToNet := new MessageQueue();
      simToHttp := new BlockingQueue();
      sim := Sim(-1, Idle, [], [], EmptyHand, {}, 0);
      httpBatch, httpJob := [], None;
      matchInitSent, worldStaticStateInitSent, matchStartSent, matchStarted, matchStartTick := false, false, false, false, 0;
      ins, auths, secures := InHistory([], [], {}), AuthHistory([], [], []), SecureHistory({}, {}, {});
      outs, matches := OutHistory([], [], [], [], []), MatchHistory({}, {}, {}, None, []);
      run, steps := [Initial()], [];
    }

    /** Notes in the run that `step` was taken. */
    ghost method Record(step: Step)
      requires QueuesOk() && IsRun(run, steps) && Goes(run[|run| - 1], step, View())
      modifies this`run, this`steps
      ensures Valid() && View() == old(View()) && run == old(run) + [View()] && steps == old(steps) + [step]
    {
      hide IsRun, Goes;
      ExtendRun(run, steps, step, View());
      run := run + [View()];
      steps := steps + [step];
    }

    // -------------------------------------------------------------------------
    // Network thread: events
    // -------------------------------------------------------------------------

    method BindPeer(peer: Peer) returns (connectionId: ConnId)
      modifies this`nextConnectionId, this`peerData, this`connectionIdToEnetPeer, this`connectionIdToEncryptionEnabled
      ensures connectionId == IdOf(old(NetView()).nextId)
      ensures NetView() == Connect(old(View()), peer).net
    {
      connectionId := nextConnectionId % TWO_32;
      nextConnectionId := nextConnectionId + 1;
      if connectionId == 0 {
        peerData := peerData - {peer};
      } else {
        peerData := peerData[peer := connectionId];
      }
      connectionIdToEnetPeer := connectionIdToEnetPeer[connectionId := peer];
      connectionIdToEncryptionEnabled := connectionIdToEncryptionEnabled[connectionId := false];
    }

    method PushToSimulation(m: InMsg)
      requires QueuesOk()
      modifies netToSim, this`ins
      ensures QueuesOk() && View() == Deliver(old(View()), m)
    {
      hide NetView, HttpView, GameView;
      netToSim.Push(m);
      ins := ins.(log := ins.log + [m]);
    }

    method HandleConnect(peer: Peer)
      requires QueuesOk()
      modifies this`nextConnectionId, this`peerData, this`connectionIdToEnetPeer, this`connectionIdToEncryptionEnabled,
               this`ins, netToSim
      ensures QueuesOk() && View() == Connect(old(View()), peer)
    {
      hide NetView, HttpView, GameView;
      var connectionId := BindPeer(peer);
      PushToSimulation(ConnectMsg(connectionId));
    }

    method UnbindPeer(peer: Peer) returns (connectionId: ConnId)
      requires peer in peerData
      modifies this`peerData, this`connectionIdToEnetPeer, this`connectionIdToEncryptionEnabled
      ensures connectionId == old(NetView()).data[peer]
      ensures NetView() == Disconnect(old(View()), peer).net
    {
      connectionId := peerData[peer];
      connectionIdToEnetPeer := connectionIdToEnetPeer - {connectionId};
      connectionIdToEncryptionEnabled := connectionIdToEncryptionEnabled - {connectionId};
      peerData := peerData - {peer};
    }

    method HandleDisconnect(peer: Peer)
      requires QueuesOk()
      modifies this`peerData, this`connectionIdToEnetPeer, this`connectionIdToEncryptionEnabled, this`ins, netToSim
      ensures QueuesOk() && View() == Disconnect(old(View()), peer)
    {
      hide HttpView, GameView;
      if peer in peerData {
        var connectionId := UnbindPeer(peer);
        PushToSimulation(DisconnectMsg(connectionId));
      }
    }

    /** Guard, then the parser of the channel. */
    method Dispatch(connectionId: ConnId, channel: nat, data: seq<byte>) returns (d: Dispatched)
      ensures d == DispatchByChannel(sessions, connectionId, channel, data)
    {
      hide ParseHello, ParseAuth, ParseReady, ParseInput, AllowedOnAuthChannel, AllowedOnGameplayChannels;
      if channel == 2 || channel == 3 {
        if !AllowedOnGameplayChannels(sessions, connectionId) {
          return Dropped;
        }
      } else if channel == 1 {
        if !AllowedOnAuthChannel(sessions, connectionId) {
          return Dropped;
        }
      }
      match channel {
        case 0 =>
          var hello := DeserializeHello(data);
          if hello.None? {
            return Dropped;
          }
          if hello.value.version != PROTOCOL_VERSION {
            return VersionRefused;
          }
          return Accepted(HelloMsg(connectionId, hello.value));
        case 1 =>
          var auth := DeserializeAuth(data);
          return if auth.None? then Dropped else Accepted(AuthMsg(connectionId, auth.value.token));
        case 2 =>
          var ready := DeserializeReady(data);
          return if ready.None? then Dropped else Accepted(ReadyMsg(connectionId));
        case 3 =>
          var input := DeserializeInput(data);
          return if input.None? then Dropped else Accepted(InputMsg(connectionId, input.value));
        case _ =>
          return Dropped;
      }
    }

    /** A received packet. The accepted message is pushed by PushReceived, and a wrong
        protocol version disconnects at once. */
    method HandleReceive(peer: Option<Peer>, channel: nat, data: seq<byte>)
      requires control.NetIdle?
      modifies this`control, this`outs, this`secures
      ensures View() == Receive(old(View()), peer, channel, data)
    {
      hide HttpView, GameView, DispatchByChannel;
      var connectionId := ValidatedConnectionId(peer);
      if connectionId == 0 {
        return;
      }
      var d := Dispatch(connectionId, channel, data);
      match d {
        case Dropped =>
        case VersionRefused =>
          outs := outs.(kicks := outs.kicks + [Kick(peer.value, connectionId)]);
          secures := secures.(refused := secures.refused + {connectionId});
        case Accepted(m) =>
          control := Delivering(m);
      }
    }

    method ValidatedConnectionId(peer: Option<Peer>) returns (connectionId: ConnId)
      ensures connectionId == ValidatedConnectionIdOrZero(NetView(), peer)
      ensures connectionId != 0 ==> peer.Some?
    {
      if peer.None? || peer.value !in peerData {
        return 0;
      }
      var id := peerData[peer.value];
      if id == 0 || id !in connectionIdToEnetPeer || connectionIdToEnetPeer[id] != peer.value {
        return 0;
      }
      return id;
    }

    method PushReceived()
      requires QueuesOk() && control.Delivering?
      modifies this`control, this`ins, netToSim
      ensures QueuesOk() && View() == ReceivePush(old(View()))
    {
      hide HttpView, GameView;
      var m := control.msg;
      control := NetIdle;
      PushToSimulation(m);
    }

    // -------------------------------------------------------------------------
    // Network thread: sending
    // -------------------------------------------------------------------------

    method DrainOutgoingQueue()
      requires QueuesOk()
      modifies this`control, simToNet
      ensures QueuesOk() && View() == DrainOutgoing(old(View()))
    {
      hide HttpView, GameView, Prepare, IsPrepared;
      var outMessages := simToNet.Drain([]);
      var prepared := SplitReliableAndCoalesceUnreliable(outMessages);
      PreparedIsUnique(outMessages, prepared, Prepare(outMessages));
      control := Sending(prepared);
    }

    method IsPeerAllowedToSendPacket(peer: Peer) returns (allowed: bool)
      ensures allowed == AllowedToSend(NetView(), sessions, peer)
    {
      if peer !in peerData {
        return false;
      }
      var connectionId := peerData[peer];
      if connectionId !in sessions {
        return false;
      }
      var session := sessions[connectionId];
      return session.transport && session.secure && session.encrypted && session.auth == AuthStatus.Valid;
    }

    /** The key for the datagrams of a peer, or none when they are left alone. */
    method TryLoadSessionKeyIfEnabled(peer: Option<Peer>, forOutgoingEncryption: bool) returns (key: Option<Key>)
      ensures key == LoadKey(NetView(), sessions, peer, forOutgoingEncryption)
    {
      if peer.None? || peer.value !in peerData {
        return None;
      }
      var connectionId := peerData[peer.value];
      if connectionId == 0 || connectionId !in sessions {
        return None;
      }
      var session := sessions[connectionId];
      if !session.encrypted {
        return None;
      }
      return Some(if forOutgoingEncryption then session.txKey else session.rxKey);
    }

    /** A datagram leaves sealed under the key that the last handshake of the connection
        bound to its slot left, and otherwise, when it returns 0, as it is. */
    method EncryptDatagram(c: Frames.Cipher, peer: Peer, inBuffers: Option<seq<Frames.Fragment>>, inLimit: nat,
                           nonce: seq<byte>, sealFails: bool,
                           outData: array<byte>, outLimit: nat) returns (written: nat)
      requires Valid() && Frames.IsAead(c) && |nonce| == Frames.FRAME_NONCE_BYTES && outLimit <= outData.Length
      modifies outData
      ensures Valid() && View() == old(View()) && written <= outLimit
      ensures written > 0 ==>
                && peer in peerData && peerData[peer] in sessions && sessions[peerData[peer]].encrypted
                && Frames.GatherFrom(inBuffers, inLimit).Some?
                && var h := LastHandshake(run, steps, |steps|, peerData[peer]);
                h.Some? && outData[..written] == Frames.FrameOf(c, KeyLeft(h.value, true), nonce, Frames.GatherFrom(inBuffers, inLimit).value)
      ensures written == 0 <==>
                || !(peer in peerData && peerData[peer] in sessions && sessions[peerData[peer]].encrypted)
                || Frames.HEADER_BYTES + inLimit + Frames.TAG_BYTES > outLimit || Frames.GatherFrom(inBuffers, inLimit).None? || sealFails
    {
      hide Goes, Initial, LastHandshake, LoadKey, Frames.GatherFrom, Frames.FrameOf, Frames.IsAead;
      DatagramsUseTheirOwnKey(run, steps, |run| - 1, peer, true);
      var key := TryLoadSessionKeyIfEnabled(Some(peer), true);
      written := Frames.EncryptCallback(c, key, inBuffers, inLimit, nonce, sealFails, outData, outLimit);
    }

    /** A datagram is accepted exactly when it is a frame under that connection's own key
        for the other direction, and then what it carried is returned. */
    method DecryptDatagram(c: Frames.Cipher, peer: Peer, inData: Option<seq<byte>>, outData: array<byte>, outLimit: nat)
      returns (plaintextLen: nat)
      requires Valid() && Frames.IsAead(c) && outLimit <= outData.Length
      modifies outData
      ensures Valid() && View() == old(View())
      ensures
        var p :=
          if inData.Some? && peer in peerData && peerData[peer] in sessions && sessions[peerData[peer]].encrypted then
            var h := LastHandshake(run, steps, |steps|, peerData[peer]);
            if h.Some? then Frames.Unframe(c, KeyLeft(h.value, false), inData.value, outLimit) else None
          else None;
        && plaintextLen == (if p.Some? then |p.value| else 0)
        && plaintextLen <= outLimit
        && (p.Some? ==> outData[..plaintextLen] == p.value)
    {
      hide Goes, Initial, LastHandshake, LoadKey, Frames.Unframe, Frames.IsAead;
      DatagramsUseTheirOwnKey(run, steps, |run| - 1, peer, false);
      var key := TryLoadSessionKeyIfEnabled(Some(peer), false);
      plaintextLen := Frames.DecryptCallback(c, key, inData, outData, outLimit);
    }

    method SendPacketToPeer(peer: Peer, reliable: bool, disconnectAfterAck: bool, enableEncryptionAfterAck: bool,
                            requireValidatedSession: bool, o: SendOutcome)
      returns (r: SendResult)
      ensures r == SendPacket(NetView(), sessions, peer, reliable, disconnectAfterAck, enableEncryptionAfterAck,
          requireValidatedSession, o)
    {
      if requireValidatedSession {
        var allowed := IsPeerAllowedToSendPacket(peer);
        if !allowed {
          return SendResult(false, false, None);
        }
      }
      if o == CreateFails {
        return SendResult(false, false, None);
      }
      var context := None;
      if (disconnectAfterAck || enableEncryptionAfterAck) && reliable {
        if peer !in peerData || o == ContextFails {
          return SendResult(false, disconnectAfterAck, None);
        }
        context := Some(AckContext(peer, peerData[peer], disconnectAfterAck, enableEncryptionAfterAck));
      }
      if o == SendFails {
        return SendResult(false, disconnectAfterAck, None);
      }
      return SendResult(true, false, context);
    }

    /** The routine chosen by message type. */
    method SendMessage(peer: Peer, msg: OutMsg, o: SendOutcome) returns (r: SendResult)
      ensures r == SendReliableMsg(NetView(), sessions, peer, msg, o)
    {
      hide NetView, SendPacket;
      match msg.kind {
        case HelloResponseOut => r := SendPacketToPeer(peer, true, msg.disconnectAfterAck,
            msg.enableEncryptionAfterAck, false, o);
        case AuthResponseOut => r := SendPacketToPeer(peer, true, msg.disconnectAfterAck, false, false, o);
        case MatchInitOut => r := SendPacketToPeer(peer, true, false, false, true, o);
        case WorldInitOut => r := SendPacketToPeer(peer, true, false, false, true, o);
        case MatchStartOut => r := SendPacketToPeer(peer, true, false, false, true, o);
        case _ => r := SendResult(false, false, None);
      }
    }

    method FindPeerByConnectionId(connectionId: ConnId) returns (peer: Option<Peer>)
      ensures peer == if connectionId in NetView().peers then Some(NetView().peers[connectionId]) else None
    {
      if connectionId !in connectionIdToEnetPeer {
        return None;
      }
      return Some(connectionIdToEnetPeer[connectionId]);
    }

    method PopReliable() returns (msg: OutMsg)
      requires control.Sending? && control.prepared.reliable != []
      modifies this`control
      ensures old(NetView()).control.Sending? && old(NetView()).control.prepared.reliable != []
      ensures msg == old(NetView()).control.prepared.reliable[0] && NetView() == PopHead(old(NetView()))
    {
      msg := control.prepared.reliable[0];
      control := Sending(control.prepared.(reliable := control.prepared.reliable[1..]));
    }

    /** One iteration of the reliable loop, on the message at its head. */
    method SendNextReliable(o: SendOutcome, uid: nat)
      requires control.Sending? && control.prepared.reliable != []
      modifies this`control, this`inFlight, this`outs
      ensures View() == SendReliable(old(View()), o, uid)
    {
      hide NetView, HttpView, GameView, SendReliableMsg, BoundId, SendReliable, PopHead, NoteSend, NoteFlight;
      ghost var before := View();
      var msg := PopReliable();
      PopKeepsPeers(before.net);
      SendReliableShape(before, o, uid);
      var peer := FindPeerByConnectionId(msg.id);
      if peer.None? {
        outs := outs.(handled := outs.handled + [msg]);
        return;
      }
      var r := SendMessage(peer.value, msg, o);
      SendIgnoresControl(NetView(), old(NetView()), sessions, peer.value, msg, o);
      AfterSend(peer.value, msg, r, uid);
    }

    method AfterSend(peer: Peer, msg: OutMsg, r: SendResult, uid: nat)
      modifies this`inFlight, this`outs
      ensures NetView() == NoteFlight(old(NetView()), uid, r.context)
      ensures outs == NoteSend(old(outs), msg, peer, BoundId(old(NetView()), peer), r)
    {
      if r.context.Some? {
        inFlight := inFlight[uid := r.context.value];
      }
      ghost var bound := BoundId(NetView(), peer);
      if r.sent {
        outs := outs.(reliableSent := outs.reliableSent + [SentReliable(peer, bound, msg, |outs.handled|)]);
      }
      if r.disconnectNow {
        outs := outs.(kicks := outs.kicks + [Kick(peer, bound)]);
      }
      outs := outs.(handled := outs.handled + [msg]);
    }

    /** Hands out the next snapshot id of a session. */
    method TakeSnapshotId(id: ConnId) returns (snapshotId: nat)
      requires id in sessions
      modifies this`sessions
      ensures snapshotId == old(sessions)[id].nextSnapshot
      ensures sessions == old(sessions)[id := AfterAllocation(old(sessions)[id])]
    {
      var session := sessions[id];
      snapshotId := session.nextSnapshot;
      session := session.(nextSnapshot := (session.nextSnapshot + 1) % TWO_32);
      session := session.(lastSnapshot := snapshotId, allocations := session.allocations + 1);
      sessions := sessions[id := session];
    }

    /** The locked part of sending the snapshot kept for `c`. */
    method AllocateSnapshotId(c: ConnId)
      requires control.Sending? && c in control.prepared.snapshots
      modifies this`control, this`sessions
      ensures View() == AllocateSnapshot(old(View()), c)
    {
      hide HttpView, GameView, AfterAllocation;
      var msg := control.prepared.snapshots[c];
      var rest := control.prepared.(snapshots := control.prepared.snapshots - {c});
      if msg.id !in connectionIdToEnetPeer || msg.kind != SnapshotOut || !msg.payload.SnapshotReply? || msg.id !in sessions {
        control := Sending(rest);
        return;
      }
      var index := sessions[msg.id].allocations + 1;
      var snapshotId := TakeSnapshotId(msg.id);
      var patched := msg.(payload := msg.payload.(snapshotId := snapshotId));
      control := SendingSnapshot(connectionIdToEnetPeer[msg.id], patched, index, rest);
    }

    method SendPatchedSnapshot(o: SendOutcome)
      requires control.SendingSnapshot? && control.snapshot.payload.SnapshotReply?
      modifies this`control, this`outs
      ensures View() == SendSnapshot(old(View()), o)
    {
      hide HttpView, GameView, SendPacket;
      var c := control;
      var r := SendPacketToPeer(c.peer, false, false, false, true, o);
      if r.sent {
        outs := outs.(snapshotsSent := outs.snapshotsSent +
          [SentSnapshot(c.peer, BoundId(NetView(), c.peer), c.snapshot.id, c.index, c.snapshot.payload.snapshotId,
              c.snapshot.payload.tick)]);
      }
      control := Sending(c.prepared);
    }

    method FinishSending()
      modifies this`control
      ensures View() == SendingDone(old(View()))
    {
      control := NetIdle;
    }

    method IsPeerStillBound(peer: Peer, expectedConnectionId: ConnId) returns (bound: bool)
      ensures bound == StillBound(NetView(), peer, expectedConnectionId)
    {
      if expectedConnectionId == 0 || peer !in peerData || peerData[peer] != expectedConnectionId {
        return false;
      }
      if expectedConnectionId !in connectionIdToEnetPeer {
        return false;
      }
      return connectionIdToEnetPeer[expectedConnectionId] == peer;
    }

    method SetPeerEncryptionEnabled(peer: Peer)
      modifies this`connectionIdToEncryptionEnabled, this`sessions, this`secures
      ensures View() == EnableEncryption(old(View()), peer)
    {
      hide HttpView, GameView;
      if peer !in peerData {
        return;
      }
      var connectionId := peerData[peer];
      if connectionId !in connectionIdToEnetPeer || connectionIdToEnetPeer[connectionId] != peer {
        return;
      }
      connectionIdToEncryptionEnabled := connectionIdToEncryptionEnabled[connectionId := true];
      if connectionId in sessions {
        sessions := sessions[connectionId := sessions[connectionId].(encrypted := true)];
      }
      secures := secures.(acked := secures.acked + {connectionId});
    }

    method OnReliablePacketAcknowledged(uid: nat)
      requires uid in inFlight
      modifies this`connectionIdToEncryptionEnabled, this`sessions, this`secures, this`outs
      ensures View() == Acknowledge(old(View()), uid)
    {
      hide HttpView, GameView, StillBound;
      var context := inFlight[uid];
      var bound := IsPeerStillBound(context.peer, context.id);
      if !bound {
        return;
      }
      ghost var boundId := BoundId(NetView(), context.peer);
      if context.enableEncryptionAfterAck {
        SetPeerEncryptionEnabled(context.peer);
      }
      if context.disconnectAfterAck {
        outs := outs.(kicks := outs.kicks + [Kick(context.peer, boundId)]);
      }
    }

    method OnReliablePacketFreed(uid: nat)
      modifies this`inFlight
      ensures View() == FreePacket(old(View()), uid)
    {
      inFlight := inFlight - {uid};
    }

    // -------------------------------------------------------------------------
    // Simulation thread: messages
    // -------------------------------------------------------------------------

    method DrainNetworkIncoming(tick: nat)
      requires QueuesOk()
      modifies this`sim, netToSim
      ensures QueuesOk() && View() == BeginTick(old(View()), tick)
    {
      hide NetView, HttpView, GameView;
      var messages := netToSim.Drain([]);
      sim := sim.(tick := tick, phase := DrainingVerdicts, inBatch := messages);
    }

    method DrainHttpResponses()
      requires QueuesOk()
      modifies this`sim, httpToSim
      ensures QueuesOk() && View() == DrainVerdicts(old(View()))
    {
      hide NetView, GameView;
      var messages := httpToSim.Drain([]);
      sim := sim.(phase := InMessages, verdicts := messages);
    }

    method HandleConnectMessage(id: ConnId, ghost h: Handshake) returns (hand: Hand)
      modifies this`sessions
      ensures Handled(sessions, hand) == HandleIncoming(old(sessions), ConnectMsg(id), h)
    {
      var session := FreshSession(id);
      sessions := sessions[id := session];
      hand := EmptyHand;
    }

    method HandleDisconnectMessage(id: ConnId, ghost h: Handshake) returns (hand: Hand)
      modifies this`sessions
      ensures Handled(sessions, hand) == HandleIncoming(old(sessions), DisconnectMsg(id), h)
    {
      hand := EmptyHand;
      if id in sessions {
        sessions := sessions - {id};
      }
    }

    method HandleInputMessage(id: ConnId, input: InputPacket, ghost h: Handshake) returns (hand: Hand)
      modifies this`sessions
      ensures Handled(sessions, hand) == HandleIncoming(old(sessions), InputMsg(id, input), h)
    {
      hand := EmptyHand;
      if id !in sessions {
        return;
      }
      hide AfterInput;
      var session := NoteInput(sessions[id], input);
      sessions := sessions[id := session];
    }

    static method NoteInput(before: Session, input: InputPacket) returns (session: Session)
      ensures session == AfterInput(before, input)
    {
      session := before.(latestInput := Some(input), ackedSnapshot := input.lastSnapshotId);
      if input.sequenceNumber > before.lastProcessed {
        session := session.(pending := session.pending + [input]);
      }
    }

    method HandleReadyMessage(id: ConnId, ghost h: Handshake) returns (hand: Hand)
      modifies this`sessions
      ensures Handled(sessions, hand) == HandleIncoming(old(sessions), ReadyMsg(id), h)
    {
      hand := EmptyHand;
      if id in sessions {
        sessions := sessions[id := sessions[id].(ready := true)];
      }
    }

    method HandleAuthMessage(id: ConnId, token: seq<byte>, ghost h: Handshake) returns (hand: Hand)
      modifies this`sessions
      ensures Handled(sessions, hand) == HandleIncoming(old(sessions), AuthMsg(id, token), h)
    {
      hand := EmptyHand;
      if id !in sessions {
        return;
      }
      var status := sessions[id].auth;
      if status == AuthStatus.Invalid || status == AuthStatus.Valid || status == WaitingAuth {
        return;
      }
      sessions := sessions[id := sessions[id].(auth := WaitingAuth)];
      hand := HoldingRequest(Request(id, token));
    }

    method HandleHelloMessage(id: ConnId, hello: HelloPacket, h: Handshake) returns (hand: Hand)
      modifies this`sessions
      ensures Handled(sessions, hand) == HandleIncoming(old(sessions), HelloMsg(id, hello), h)
    {
      hand := EmptyHand;
      if id !in sessions {
        return;
      }
      var session := sessions[id].(clientKey := hello.clientKey);
      var status, nonceEcho, accepted := InvalidClientKey, seq(NONCE_BYTES, i => 0), false;
      if !h.KeyExchangeFails? {
        nonceEcho := hello.nonce;
        if h.HandshakeOk? {
          session := session.(rxKey := h.rxKey, txKey := h.txKey, secure := true);
          status, accepted := HelloSuccess, true;
        } else {
          session := session.(secure := false, rxKey := ZERO_KEY, txKey := ZERO_KEY);
          status := AttestationFailed;
        }
      }
      sessions := sessions[id := session];
      hand := HoldingReply(OutMsg(HelloResponseOut, id, !accepted, accepted, HelloReply(status, nonceEcho)));
    }

    /** The handler chosen by message type. */
    method DispatchIncoming(msg: InMsg, h: Handshake) returns (hand: Hand)
      modifies this`sessions
      ensures Handled(sessions, hand) == HandleIncoming(old(sessions), msg, h)
    {
      hide HandleIncoming;
      match msg {
        case ConnectMsg(id) => hand := HandleConnectMessage(id, h);
        case DisconnectMsg(id) => hand := HandleDisconnectMessage(id, h);
        case HelloMsg(id, hello) => hand := HandleHelloMessage(id, hello, h);
        case AuthMsg(id, token) => hand := HandleAuthMessage(id, token, h);
        case ReadyMsg(id) => hand := HandleReadyMessage(id, h);
        case InputMsg(id, input) => hand := HandleInputMessage(id, input, h);
      }
    }

    /** One iteration of the network dispatcher, up to the push the handler leaves. */
    method HandleNextIncoming(h: Handshake)
      requires sim.inBatch != []
      modifies this`sessions, this`sim, this`ins, this`auths, this`secures
      ensures View() == HandleIn(old(View()), h)
    {
      hide NetView, HttpView, GameView, HandleIncoming;
      var msg := sim.inBatch[0];
      var hand := DispatchIncoming(msg, h);
      sim := sim.(inBatch := sim.inBatch[1..], hand := hand);
      NoteHandled(msg, hand, h);
    }

    ghost method NoteHandled(msg: InMsg, hand: Hand, h: Handshake)
      modifies this`ins, this`auths, this`secures
      ensures ins == old(ins).(processed := old(ins.processed) + [msg], seen := if msg.ConnectMsg? then old(ins.seen) + {msg.id} else old(ins.seen))
      ensures auths == if hand.HoldingRequest? then old(auths).(asked := old(auths.asked) + [msg.id]) else old(auths)
      ensures secures == if !hand.HoldingReply? then old(secures)
                         else if h.HandshakeOk? then old(secures).(accepted := old(secures.accepted) + {msg.id})
                         else old(secures).(refused := old(secures.refused) + {msg.id})
    {
      ins := ins.(processed := ins.processed + [msg], seen := if msg.ConnectMsg? then ins.seen + {msg.id} else ins.seen);
      if hand.HoldingRequest? {
        auths := auths.(asked := auths.asked + [msg.id]);
      }
      if hand.HoldingReply? {
        secures := if h.HandshakeOk? then secures.(accepted := secures.accepted + {msg.id}) else secures.(refused := secures.refused + {msg.id});
      }
    }

    method PushToNetwork(m: OutMsg)
      requires QueuesOk()
      modifies this`outs, simToNet
      ensures QueuesOk() && View() == EnqueueOut(old(View()), m)
    {
      hide NetView, HttpView, GameView;
      simToNet.Push(m);
      outs := outs.(log := outs.log + [m]);
    }

    method PushRequest(r: Request)
      requires QueuesOk()
      modifies simToHttp
      ensures QueuesOk() && HttpView() == old(HttpView()).(requests := old(HttpView()).requests + [r])
    {
      simToHttp.Push(r);
    }

    /** The push at the end of a handler, outside the session lock. */
    method PushFromHand()
      requires QueuesOk()
      modifies this`sim, this`outs, simToNet, simToHttp
      ensures QueuesOk() && View() == PushHand(old(View()))
    {
      hide NetView, HttpView, GameView;
      var hand := sim.hand;
      sim := sim.(hand := EmptyHand);
      match hand {
        case EmptyHand =>
        case HoldingRequest(r) => PushRequest(r);
        case HoldingReply(m) => PushToNetwork(m);
      }
    }

    /** Writes a verdict to its session, whatever the session says, and builds the reply. */
    method HandleAuthResponse(v: Verdict) returns (hand: Hand)
      modifies this`sessions
      ensures Handled(sessions, hand) == ApplyVerdict(old(sessions), v)
    {
      hand := EmptyHand;
      if v.id !in sessions {
        return;
      }
      var session := sessions[v.id];
      if v.valid {
        session := session.(auth := AuthStatus.Valid, accountId := v.accountId, username := v.username, authError := "");
      } else {
        session := session.(auth := AuthStatus.Invalid, authError := v.error);
      }
      sessions := sessions[v.id := session];
      hand := HoldingReply(OutMsg(AuthResponseOut, v.id, !v.valid, false, AuthReply(v.valid)));
    }

    /** One iteration of the HTTP dispatcher. */
    ghost method RecordVerdict(v: Verdict, found: bool)
      modifies this`auths, this`secures
      ensures auths == old(auths).(answered := old(auths).answered + [v], applied := if found then old(auths).applied + [v] else old(auths).applied)
      ensures secures == if found && !v.valid then old(secures).(refused := old(secures).refused + {v.id}) else old(secures)
    {
      auths := auths.(answered := auths.answered + [v], applied := if found then auths.applied + [v] else auths.applied);
      secures := if found && !v.valid then secures.(refused := secures.refused + {v.id}) else secures;
    }

    method HandleNextVerdict()
      requires sim.verdicts != []
      modifies this`sessions, this`sim, this`auths, this`secures
      ensures View() == HandleVerdict(old(View()))
    {
      hide NetView, HttpView, GameView, ApplyVerdict, AfterVerdict, AuthReplyMsg;
      var v := sim.verdicts[0];
      RecordVerdict(v, v.id in sessions);
      var hand := HandleAuthResponse(v);
      sim := sim.(verdicts := sim.verdicts[1..], hand := hand);
    }

    // -------------------------------------------------------------------------
    // Simulation thread: match flow, world and snapshots
    // -------------------------------------------------------------------------

    method GoTo(phase: Phase)
      modifies this`sim
      ensures View() == AtPhase(old(View()), phase)
    {
      hide NetView, HttpView, GameView;
      sim := sim.(phase := phase);
    }

    /** Enough sessions, and every one of them ready. */
    method AreAllSessionsReadyForMatch() returns (ready: bool)
      ensures ready == AllReady(sessions)
    {
      if |sessions| < MAX_CLIENTS {
        return false;
      }
      var rest := sessions.Keys;
      while rest != {}
        invariant rest <= sessions.Keys
        invariant forall c :: c in sessions && c !in rest ==> sessions[c].ready
        decreases |rest|
      {
        var c :| c in rest;
        if !sessions[c].ready {
          return false;
        }
        rest := rest - {c};
      }
      return true;
    }

    method CheckEnoughSessions()
      modifies this`sim
      ensures View() == CheckGate(old(View()))
    {
      if |sessions| < MAX_CLIENTS {
        GoTo(Simulating);
      } else {
        GoTo(Deciding(InitStage));
      }
    }

    /** Everybody is ready: the start tick is fixed. */
    method FixStart(countdownTicks: nat)
      requires sim.phase == Deciding(StartStage) && !matchStartSent && AllReady(sessions)
      modifies this`sim, this`matchStartTick, this`matches
      ensures View() == Decide(old(View()), countdownTicks)
    {
      hide NetView, HttpView, AllReady;
      var tick := if sim.tick >= 0 then sim.tick else 0;
      matchStartTick := (tick + countdownTicks) % TWO_64;
      sim := sim.(phase := Locking(StartStage), countdown := countdownTicks);
      matches := matches.(record := Some(StartRecord(tick, countdownTicks, sessions)));
    }

    method DecideStart(countdownTicks: nat)
      requires sim.phase == Deciding(StartStage)
      modifies this`sim, this`matchStartTick, this`matches
      ensures View() == Decide(old(View()), countdownTicks)
    {
      hide NetView, HttpView, AllReady;
      var ready := AreAllSessionsReadyForMatch();
      if !matchStartSent && ready {
        FixStart(countdownTicks);
      } else {
        GoTo(Opening);
      }
    }

    method DecideStage(countdownTicks: nat)
      requires sim.phase.Deciding?
      modifies this`sim, this`matchStartTick, this`matches
      ensures View() == Decide(old(View()), countdownTicks)
    {
      hide NetView, HttpView, AllReady;
      match sim.phase.stage {
        case InitStage => sim := sim.(phase := if !matchInitSent then Locking(InitStage) else Deciding(WorldStage));
        case WorldStage => sim := sim.(phase := if !worldStaticStateInitSent then Locking(WorldStage) else Deciding(StartStage));
        case StartStage => DecideStart(countdownTicks);
      }
    }

    method LockSessions()
      requires sim.phase.Locking?
      modifies this`sim
      ensures View() == Lock(old(View()))
    {
      hide NetView, HttpView, GameView;
      sim := sim.(phase := Broadcasting(sim.phase.stage), todo := sessions.Keys);
    }

    /** The packet of a stage, for one session. */
    method BuildStageMessage(stage: Stage, id: ConnId) returns (m: OutMsg)
      ensures m == StageMsg(View(), stage, id)
    {
      var tick := if sim.tick >= 0 then sim.tick else 0;
      match stage {
        case InitStage => m := OutMsg(MatchInitOut, id, false, false, InitReply(tick));
        case WorldStage => m := OutMsg(WorldInitOut, id, false, false, WorldReply);
        case StartStage => m := OutMsg(MatchStartOut, id, false, false, StartReply(tick, matchStartTick, sim.countdown));
      }
    }

    /** One iteration of a broadcast loop of CheckMatchFlow. */
    method BroadcastTo(c: ConnId)
      requires QueuesOk() && sim.phase.Broadcasting? && c in sessions
      modifies this`sim, this`outs, this`matches, simToNet
      ensures QueuesOk() && View() == Broadcast(old(View()), c)
    {
      hide NetView, HttpView, GameView, StageMsg;
      var msg := BuildStageMessage(sim.phase.stage, sessions[c].id);
      PushToNetwork(msg);
      NotePushed(sim.phase.stage, c);
      sim := sim.(todo := sim.todo - {c});
    }

    ghost method NotePushed(stage: Stage, c: ConnId)
      modifies this`matches
      ensures matches ==
        match stage
        case InitStage => old(matches).(init := old(matches.init) + {c})
        case WorldStage => old(matches).(world := old(matches.world) + {c})
        case StartStage => old(matches).(start := old(matches.start) + {c})
    {
      match stage {
        case InitStage => matches := matches.(init := matches.init + {c});
        case WorldStage => matches := matches.(world := matches.world + {c});
        case StartStage => matches := matches.(start := matches.start + {c});
      }
    }

    method FinishBroadcast()
      requires sim.phase.Broadcasting?
      modifies this`sim, this`matchInitSent, this`worldStaticStateInitSent, this`matchStartSent
      ensures View() == BroadcastDone(old(View()))
    {
      hide NetView, HttpView;
      match sim.phase.stage {
        case InitStage =>
          matchInitSent := true;
          sim := sim.(phase := Deciding(WorldStage));
        case WorldStage =>
          worldStaticStateInitSent := true;
          sim := sim.(phase := Deciding(StartStage));
        case StartStage =>
          matchStartSent := true;
          sim := sim.(phase := Opening);
      }
    }

    method OpenGate()
      modifies this`sim, this`matchStarted
      ensures View() == Open(old(View()))
    {
      hide NetView, HttpView;
      if !matchStarted && matchStartSent && sim.tick >= matchStartTick {
        matchStarted := true;
      }
      sim := sim.(phase := Simulating);
    }

    method SimulateWorld()
      modifies this`sim, this`matches
      ensures View() == Simulate(old(View()))
    {
      hide NetView, HttpView;
      if matchStarted && sim.tick >= 0 {
        matches := matches.(worldTicks := matches.worldTicks + [sim.tick]);
      }
      sim := sim.(phase := ChoosingSnapshots);
    }

    method StartSnapshots(production: bool)
      modifies this`sim
      ensures View() == ChooseSnapshots(old(View()), production)
    {
      hide NetView, HttpView, GameView;
      if production {
        sim := sim.(phase := Snapshots, todo := sessions.Keys);
      } else {
        sim := sim.(phase := Idle);
      }
    }

    method CreateSnapshotFor(c: ConnId)
      requires QueuesOk() && c in sessions
      modifies this`sim, this`outs, simToNet
      ensures QueuesOk() && View() == BroadcastSnapshot(old(View()), c)
    {
      hide NetView, HttpView, GameView;
      var tick := if sim.tick >= 0 then sim.tick else 0;
      PushToNetwork(OutMsg(SnapshotOut, sessions[c].id, false, false, SnapshotReply(0, tick, sessions[c].lastProcessed)));
      sim := sim.(todo := sim.todo - {c});
    }

    // -------------------------------------------------------------------------
    // HTTP thread
    // -------------------------------------------------------------------------

    method WaitAndDrain()
      requires QueuesOk() && simToHttp.q != []
      modifies this`httpBatch, simToHttp
      ensures QueuesOk() && View() == HttpDrain(old(View()))
    {
      var ok, batch := simToHttp.WaitAndDrain([]);
      httpBatch := batch;
    }

    method TakeJob()
      requires httpBatch != []
      modifies this`httpBatch, this`httpJob
      ensures View() == HttpTake(old(View()))
    {
      hide NetView, GameView;
      httpJob := Some(httpBatch[0]);
      httpBatch := httpBatch[1..];
    }

    method AnswerJob(a: Answer)
      requires QueuesOk() && httpJob.Some?
      modifies this`httpJob, httpToSim
      ensures QueuesOk() && View() == HttpAnswer(old(View()), a)
    {
      hide NetView, GameView;
      httpToSim.Push(Verdict(httpJob.value.id, a.valid, a.accountId, a.username, a.error));
      httpJob := None;
    }

    method StopHttp()
      requires QueuesOk()
      modifies simToHttp
      ensures QueuesOk() && View() == old(View()).(http := old(View()).http.(stopped := true))
    {
      hide NetView, GameView;
      simToHttp.Stop();
    }

    // -------------------------------------------------------------------------
    // One step, and the steps of other threads
    // -------------------------------------------------------------------------

    lemma ViewNet()
      ensures View().net.control == control && View().net.inFlight == inFlight
    {
    }

    lemma ViewHttp()
      ensures View().http.batch == httpBatch && View().http.job == httpJob && View().http.requests == simToHttp.q
    {
    }

    method PerformNetworkStep(step: Step)
      requires QueuesOk() && Allowed(View(), step) && IsNetworkStep(step)
      modifies this`nextConnectionId, this`peerData, this`connectionIdToEnetPeer, this`connectionIdToEncryptionEnabled,
               this`inFlight, this`control,
               this`sessions, this`ins, this`secures, this`outs, netToSim, simToNet
      ensures QueuesOk() && View() == Next(old(View()), step)
    {
      hide View, NetView, HttpView, GameView, Connect, Disconnect, Receive, ReceivePush, DrainOutgoing, SendReliable,
           AllocateSnapshot, SendSnapshot, SendingDone, Acknowledge, FreePacket;
      ViewNet();
      match step {
        case ConnectStep(p) => HandleConnect(p);
        case DisconnectStep(p) => HandleDisconnect(p);
        case ReceiveStep(p, channel, data) => HandleReceive(p, channel, data);
        case ReceivePushStep => PushReceived();
        case DrainOutgoingStep => DrainOutgoingQueue();
        case SendReliableStep(o, uid) => SendNextReliable(o, uid);
        case AllocateSnapshotStep(c) => AllocateSnapshotId(c);
        case SendSnapshotStep(o) => SendPatchedSnapshot(o);
        case SendingDoneStep => FinishSending();
        case AcknowledgeStep(uid) => OnReliablePacketAcknowledged(uid);
        case FreeStep(uid) => OnReliablePacketFreed(uid);
        case _ =>
      }
    }

    method PerformSimulationStep(step: Step)
      requires QueuesOk() && Allowed(View(), step) && IsSimulationStep(step)
      modifies this`sessions, this`sim, this`matchInitSent, this`worldStaticStateInitSent, this`matchStartSent,
               this`matchStarted, this`matchStartTick,
               this`ins, this`auths, this`secures, this`outs, this`matches, netToSim, httpToSim, simToNet, simToHttp
      ensures QueuesOk() && View() == Next(old(View()), step)
    {
      hide NetView, HttpView, GameView, BeginTick, DrainVerdicts, HandleIn, PushHand, HandleVerdict, CheckGate,
           AtPhase, Decide, Lock, Broadcast, BroadcastDone, Open, Simulate,
           ChooseSnapshots, BroadcastSnapshot;
      match step {
        case BeginTickStep(tick) => DrainNetworkIncoming(tick);
        case DrainVerdictsStep => DrainHttpResponses();
        case HandleInStep(h) => HandleNextIncoming(h);
        case PushHandStep => PushFromHand();
        case InMessagesDoneStep => GoTo(VerdictMessages);
        case HandleVerdictStep => HandleNextVerdict();
        case VerdictMessagesDoneStep => GoTo(Gate);
        case CheckGateStep => CheckEnoughSessions();
        case DecideStep(countdown) => DecideStage(countdown);
        case LockStep => LockSessions();
        case BroadcastStep(c) => BroadcastTo(c);
        case BroadcastDoneStep => FinishBroadcast();
        case OpenStep => OpenGate();
        case SimulateStep => SimulateWorld();
        case ChooseSnapshotsStep(production) => StartSnapshots(production);
        case BroadcastSnapshotStep(c) => CreateSnapshotFor(c);
        case SnapshotsDoneStep => GoTo(Idle);
        case _ =>
      }
    }

    method PerformHttpStep(step: Step)
      requires QueuesOk() && Allowed(View(), step) && IsHttpStep(step)
      modifies this`httpBatch, this`httpJob, httpToSim, simToHttp
      ensures QueuesOk() && View() == Next(old(View()), step)
    {
      hide View, NetView, HttpView, GameView, HttpDrain, HttpTake, HttpAnswer, Allowed, Next;
      HttpSteps(View(), step);
      ViewHttp();
      match step {
        case HttpDrainStep => WaitAndDrain();
        case HttpTakeStep => TakeJob();
        case HttpAnswerStep(a) => AnswerJob(a);
        case HttpStopStep => StopHttp();
        case _ =>
      }
    }

    /** Takes one step that can be taken now. */
    method Perform(step: Step)
      requires Valid() && Allowed(View(), step)
      modifies Repr()
      ensures Valid() && View() == Next(old(View()), step)
      ensures run == old(run) + [View()] && steps == old(steps) + [step]
    {
      hide View, IsRun, Allowed, Next;
      if IsNetworkStep(step) {
        PerformNetworkStep(step);
      } else if IsHttpStep(step) {
        PerformHttpStep(step);
      } else {
        PerformSimulationStep(step);
      }
      Record(step);
    }

    method Enabled(step: Step) returns (enabled: bool)
      ensures enabled == Allowed(View(), step)
    {
      var net := Net(nextConnectionId, peerData, connectionIdToEnetPeer, connectionIdToEncryptionEnabled, control, inFlight);
      var http := Http(simToHttp.q, simToHttp.stopped, httpBatch, httpJob, httpToSim.q);
      var game := Match(matchInitSent, worldStaticStateInitSent, matchStartSent, matchStarted, matchStartTick);
      var now := State(net, sessions, netToSim.q, http, simToNet.q, sim, game, Initial().ins, Initial().auths,
          Initial().secures, Initial().outs, Initial().matches);
      hide Allowed;
      enabled := Allowed(now, step);
      AllowedIgnoresHistory(View(), step, now.ins, now.auths, now.secures, now.outs, now.matches);
    }

    /** Lets the other threads take the steps of `others`, in order, each if it can be
        taken at that point. Any interleaving is some value of `others`. */
    method Interfere(me: Thread, others: seq<Step>)
      requires Valid()
      modifies Repr()
      ensures Valid() && Quiet(me, old(View()), View())
      ensures View() == AfterOthers(me, old(View()), others) && steps == old(steps) + TakenByOthers(me, old(View()), others)
      ensures old(run) <= run && old(steps) <= steps && Main(me, steps) == Main(me, old(steps))
    {
      hide View, Valid, Allowed, Next, Quiet, Main, AfterOthers, TakenByOthers;
      ghost var before := View();
      QuietRefl(me, before);
      NoOthers(me, before);
      for i := 0 to |others|
        invariant Valid() && Quiet(me, before, View()) && old(run) <= run
        invariant View() == AfterOthers(me, before, others[..i]) && steps == old(steps) + TakenByOthers(me, before, others[..i])
      {
        assert others[..i + 1] == others[..i] + [others[i]];
        OthersPush(me, before, others[..i], others[i]);
        if ThreadOf(others[i]) != me {
          var enabled := Enabled(others[i]);
          if enabled {
            OthersAreQuiet(me, View(), others[i]);
            QuietTrans(me, before, View(), Next(View(), others[i]));
            Perform(others[i]);
          }
        }
      }
      assert others[..|others|] == others;
      OthersAreNotMain(me, old(steps), before, others);
    }

    // -------------------------------------------------------------------------
    // Whole passes of the threads, with the other threads running in between
    // -------------------------------------------------------------------------

    lemma ViewSim()
      ensures View().sim == sim
    {
    }

    /** One message of the batch: its handler under the lock, and the push after it. */
    method ProcessOneIncoming(h: Handshake, during: seq<Step>, after: seq<Step>)
      requires Valid() && View().sim.phase == InMessages && View().sim.hand == EmptyHand && View().sim.inBatch != []
      modifies Repr()
      ensures Valid() && old(run) <= run && old(steps) <= steps
      ensures View().sim == old(View()).sim.(inBatch := old(View()).sim.inBatch[1..])
      ensures View().ins.processed == old(View()).ins.processed + [old(View()).sim.inBatch[0]]
          && View().auths.answered == old(View()).auths.answered
      ensures MainGrew(SimulationThread, old(steps), steps, [HandleInStep(h)])
    {
      hide View, Valid, Next, Allowed, Main, AfterOthers, TakenByOthers, QuietForNetwork, QuietForHttp;
      HandleInEffect(View(), h);
      MainPush(SimulationThread, steps, HandleInStep(h));
      Perform(HandleInStep(h));
      Interfere(SimulationThread, during);
      ViewSim();
      if sim.hand != EmptyHand {
        PushHandEffect(View());
        MainPush(SimulationThread, steps, PushHandStep);
        Perform(PushHandStep);
      }
      Interfere(SimulationThread, after);
    }

    /** The loop over the drained batch of network messages. */
    method ProcessNetworkIncoming(others: nat -> seq<Step>, handshakes: nat -> Handshake)
      requires Valid() && View().sim.phase == InMessages && View().sim.hand == EmptyHand
      modifies Repr()
      ensures Valid() && old(run) <= run && old(steps) <= steps
      ensures View().sim == old(View()).sim.(phase := VerdictMessages, inBatch := [])
      ensures View().ins.processed == old(View()).ins.processed + old(View()).sim.inBatch
          && View().auths.answered == old(View()).auths.answered
      ensures MainGrew(SimulationThread, old(steps), steps, HandleSteps(|old(View()).sim.inBatch|,
          handshakes) + [InMessagesDoneStep])
    {
      hide View, Valid, Next, Allowed, Main, AfterOthers, TakenByOthers;
      hide MainGrew;
      ghost var before := View();
      var n := 0;
      ViewSim();
      MainGrewRefl(SimulationThread, steps);
      while sim.inBatch != []
        invariant Valid() && old(run) <= run && old(steps) <= steps && View().sim == sim
        invariant View().sim == before.sim.(inBatch := View().sim.inBatch)
        invariant View().ins.processed + View().sim.inBatch == before.ins.processed + before.sim.inBatch
            && View().auths.answered == before.auths.answered
        invariant n + |sim.inBatch| == |before.sim.inBatch| && MainGrew(SimulationThread, old(steps), steps,
            HandleSteps(n, handshakes))
        decreases |sim.inBatch|
      {
        ghost var sofar := steps;
        ProcessOneIncoming(handshakes(n), others(2 * n), others(2 * n + 1));
        ViewSim();
        MainGrewTrans(SimulationThread, old(steps), sofar, steps, HandleSteps(n, handshakes), [HandleInStep(handshakes(n))]);
        n := n + 1;
      }
      MainGrewPush(SimulationThread, steps, InMessagesDoneStep);
      MainGrewTrans(SimulationThread, old(steps), steps, steps + [InMessagesDoneStep], HandleSteps(n, handshakes),
          [InMessagesDoneStep]);
      PhaseEffect(View(), InMessagesDoneStep, VerdictMessages);
      Perform(InMessagesDoneStep);
    }

    method ProcessOneResponse(during: seq<Step>, after: seq<Step>)
      requires Valid() && View().sim.phase == VerdictMessages && View().sim.hand == EmptyHand && View().sim.verdicts != []
      modifies Repr()
      ensures Valid() && old(run) <= run && old(steps) <= steps
      ensures View().sim == old(View()).sim.(verdicts := old(View()).sim.verdicts[1..])
      ensures View().auths.answered == old(View()).auths.answered + [old(View()).sim.verdicts[0]]
    {
      hide View, Valid, Next, Allowed, Main, AfterOthers, TakenByOthers, QuietForNetwork, QuietForHttp;
      HandleVerdictEffect(View());
      Perform(HandleVerdictStep);
      Interfere(SimulationThread, during);
      ViewSim();
      if sim.hand != EmptyHand {
        PushHandEffect(View());
        Perform(PushHandStep);
      }
      Interfere(SimulationThread, after);
    }

    /** The loop over the drained backend responses. */
    method ProcessHttpResponses(others: nat -> seq<Step>)
      requires Valid() && View().sim.phase == VerdictMessages && View().sim.hand == EmptyHand
      modifies Repr()
      ensures Valid() && old(run) <= run && old(steps) <= steps
      ensures View().sim == old(View()).sim.(phase := Gate, verdicts := [])
      ensures View().auths.answered == old(View()).auths.answered + old(View()).sim.verdicts
    {
      hide View, Valid, Next, Allowed, Main, AfterOthers, TakenByOthers;
      ghost var before := View();
      var n := 0;
      ViewSim();
      while sim.verdicts != []
        invariant Valid() && old(run) <= run && old(steps) <= steps && View().sim == sim
        invariant View().sim == before.sim.(verdicts := View().sim.verdicts)
        invariant View().auths.answered + View().sim.verdicts == before.auths.answered + before.sim.verdicts
        decreases |sim.verdicts|
      {
        ProcessOneResponse(others(2 * n), others(2 * n + 1));
        ViewSim();
        n := n + 1;
      }
      PhaseEffect(View(), VerdictMessagesDoneStep, Gate);
      Perform(VerdictMessagesDoneStep);
    }

    method BroadcastToOne(stage: Stage, c: ConnId, during: seq<Step>)
      requires Valid() && View().sim.phase == Broadcasting(stage) && c in View().sim.todo && c in View().sessions
      modifies Repr()
      ensures Valid() && old(run) <= run && old(steps) <= steps
      ensures View().sim == old(View()).sim.(todo := old(View()).sim.todo - {c}) && View().game == old(View()).game
      ensures View().matches == StageResult(old(View()).matches, stage, {c})
      ensures SessionsSameForSimulation(old(View()).sessions, View().sessions)
    {
      hide View, Valid, Next, Allowed, Main, AfterOthers, TakenByOthers, SessionsSameForSimulation, QuietForNetwork,
           QuietForHttp, StageResult;
      BroadcastEffect(View(), stage, c);
      Perform(BroadcastStep(c));
      Interfere(SimulationThread, during);
    }

    /** One broadcast loop of CheckMatchFlow. The packets of the stage go to every
        session of the table as it is when the lock is taken, once each. */
    method BroadcastToAll(stage: Stage, others: nat -> seq<Step>)
      requires Valid() && View().sim.phase == Locking(stage)
      modifies Repr()
      ensures Valid() && old(run) <= run && old(steps) <= steps
      ensures View().sim == old(View()).sim.(phase := PhaseAfter(stage), todo := {})
      ensures View().game == AfterStage(old(View()).game, stage)
      ensures View().matches == StageResult(old(View()).matches, stage, old(View()).sessions.Keys)
      ensures SessionsSameForSimulation(old(View()).sessions, View().sessions)
    {
      hide View, Valid, Next, Allowed, Main, AfterOthers, TakenByOthers, SessionsSameForSimulation, StageResult,
           AllReady, AfterStage, PhaseAfter;
      ghost var before := View();
      LockEffect(before, stage);
      Perform(LockStep);
      SessionsSameRefl(before.sessions);
      BroadcastLoop(stage, others, before);
      BroadcastDoneEffect(View(), stage);
      Perform(BroadcastDoneStep);
    }

    method BroadcastLoop(stage: Stage, others: nat -> seq<Step>, ghost before: State)
      requires Valid() && View().sim.phase == Broadcasting(stage) && View().sim.todo == before.sessions.Keys
      requires View().sessions == before.sessions && View().matches == before.matches
      modifies Repr()
      ensures Valid() && old(run) <= run && old(steps) <= steps
      ensures View().sim == old(View()).sim.(todo := {}) && View().game == old(View()).game
      ensures View().matches == StageResult(before.matches, stage, before.sessions.Keys)
      ensures SessionsSameForSimulation(before.sessions, View().sessions)
    {
      hide View, Valid, Next, Allowed, Main, AfterOthers, TakenByOthers, SessionsSameForSimulation, StageResult,
           AllReady;
      ghost var done: set<ConnId> := {};
      StageResultMore(before.matches, stage, done, 0);
      SessionsSameRefl(before.sessions);
      ViewSim();
      var n := 0;
      while sim.todo != {}
        invariant Valid() && old(run) <= run && old(steps) <= steps && View().sim == sim
        invariant sim == old(View()).sim.(todo := sim.todo) && View().game == old(View()).game
        invariant done + sim.todo == before.sessions.Keys
        invariant View().matches == StageResult(before.matches, stage, done)
        invariant SessionsSameForSimulation(before.sessions, View().sessions)
        decreases |sim.todo|
      {
        var c :| c in sim.todo;
        ghost var middle := View();
        SameTablesReady(before.sessions, middle.sessions);
        assert c in before.sessions.Keys;
        BroadcastToOne(stage, c, others(n));
        StageResultMore(before.matches, stage, done, c);
        done := done + {c};
        SameTablesTrans(before.sessions, middle.sessions, View().sessions);
        ViewSim();
        n := n + 1;
      }
      assert done == before.sessions.Keys;
    }

    /** One stage of CheckMatchFlow: decide, then perhaps lock and broadcast. */
    method RunStage(stage: Stage, countdownTicks: nat, during: seq<Step>, others: nat -> seq<Step>)
      requires Valid() && View().sim.phase == Deciding(stage) && countdownTicks < TWO_32
      modifies Repr()
      ensures Valid() && old(run) <= run && old(steps) <= steps
      ensures View().sim == old(View()).sim.(phase := PhaseAfter(stage), todo := View().sim.todo,
          countdown := View().sim.countdown)
      ensures View().game == StageGame(old(View()).game, old(View()).sessions, stage, old(View()).sim.tick, countdownTicks)
      ensures
        var due := StageDue(old(View()).game, old(View()).sessions, stage);
        Addressees(View().matches) == Addressees(StageResult(old(View()).matches, stage, if due then old(View()).sessions.Keys else {}))
      ensures SessionsSameForSimulation(old(View()).sessions, View().sessions)
    {
      hide View, Valid, Next, Allowed, Main, AfterOthers, TakenByOthers, SessionsSameForSimulation, StageResult,
           AllReady, AfterStage, StageStarts, StageDue, Addressees, QuietForNetwork, QuietForHttp;
      ghost var before := View();
      DecideEffect(before, stage, countdownTicks);
      Perform(DecideStep(countdownTicks));
      ghost var decided := View();
      Interfere(SimulationThread, during);
      ghost var middle := View();
      ViewSim();
      AddresseesStage(before.matches, middle.matches, stage, before.sessions.Keys);
      SameTablesReady(before.sessions, middle.sessions);
      if sim.phase == Locking(stage) {
        BroadcastToAll(stage, others);
        SameTablesTrans(before.sessions, middle.sessions, View().sessions);
      }
    }

    /** CheckMatchFlow takes the session lock up to six times in a tick and the other
        threads run in between; the result is the one of a single look at the table. */
    method CheckMatchFlow(countdownTicks: nat, during: nat -> seq<Step>, others: nat -> nat -> seq<Step>)
      requires Valid() && View().sim.phase == Gate && countdownTicks < TWO_32
      modifies Repr()
      ensures Valid() && old(run) <= run && old(steps) <= steps
      ensures View().sim == old(View()).sim.(phase := Simulating, todo := View().sim.todo, countdown := View().sim.countdown)
      ensures View().game == FlowResult(old(View()).game, old(View()).sessions, old(View()).sim.tick, countdownTicks)
      ensures Addressees(View().matches) == FlowAddressees(old(View()).matches, old(View()).game, old(View()).sessions)
      ensures SessionsSameForSimulation(old(View()).sessions, View().sessions)
    {
      hide View, Valid, Next, Allowed, Main, AfterOthers, TakenByOthers, SessionsSameForSimulation, StageResult,
           AllReady, StageGame, StageDue, Addressees;
      ghost var s0 := View();
      CheckGateEffect(s0);
      Perform(CheckGateStep);
      SessionsSameRefl(s0.sessions);
      ViewSim();
      if sim.phase == Simulating {
        return;
      }
      StagesMakeFlow(s0.game, s0.sessions, s0.sim.tick, countdownTicks);
      RunStage(InitStage, countdownTicks, during(0), others(0));
      ghost var s1 := View();
      RunStage(WorldStage, countdownTicks, during(1), others(1));
      ghost var s2 := View();
      SameTablesTrans(s0.sessions, s1.sessions, s2.sessions);
      RunStage(StartStage, countdownTicks, during(2), others(2));
      ghost var s3 := View();
      SameTablesTrans(s0.sessions, s2.sessions, s3.sessions);
      StagesUnderSameTables(s0, s1, s2, s3, countdownTicks);
      OpenEffect(s3);
      Perform(OpenStep);
    }

    lemma SnapshotTarget(c: ConnId)
      requires Valid() && c in View().sessions
      ensures SnapshotMsg(View(), View().sessions[c]).kind == SnapshotOut && SnapshotMsg(View(), View().sessions[c]).id == c
    {
      hide View, IsRun, SnapshotMsg;
      SnapshotIsForItsSession(run, steps, c);
    }

    method CreateOneSnapshot(c: ConnId, during: seq<Step>, ghost first: seq<OutMsg>, ghost done: set<ConnId>)
      requires Valid() && View().sim.phase == Snapshots && c in View().sim.todo && c in View().sessions
      requires OneSnapshotEach(first, View().outs.log, done) && c !in done
      modifies Repr()
      ensures Valid() && old(run) <= run && old(steps) <= steps
      ensures View().sim == old(View()).sim.(todo := old(View()).sim.todo - {c}) && View().game == old(View()).game
      ensures OneSnapshotEach(first, View().outs.log, done + {c})
      ensures SessionsSameForSimulation(old(View()).sessions, View().sessions)
    {
      hide View, Valid, Next, Allowed, Main, AfterOthers, TakenByOthers, SessionsSameForSimulation, QuietForNetwork,
           QuietForHttp, SnapshotMsg, OneSnapshotEach;
      SnapshotTarget(c);
      SnapshotEffect(View(), c);
      OneSnapshotMore(first, View().outs.log, done, SnapshotMsg(View(), View().sessions[c]));
      Perform(BroadcastSnapshotStep(c));
      Interfere(SimulationThread, during);
    }

    method SnapshotLoop(others: nat -> seq<Step>, ghost before: State)
      requires Valid() && View().sim.phase == Snapshots && View().sim.todo == before.sessions.Keys
      requires View().sessions == before.sessions && View().outs.log == before.outs.log
      modifies Repr()
      ensures Valid() && old(run) <= run && old(steps) <= steps
      ensures View().sim == old(View()).sim.(todo := {}) && View().game == old(View()).game
      ensures OneSnapshotEach(before.outs.log, View().outs.log, before.sessions.Keys)
    {
      hide View, Valid, Next, Allowed, Main, AfterOthers, TakenByOthers, SessionsSameForSimulation, SnapshotMsg,
           SnapshotCount, AllReady, OneSnapshotEach;
      ghost var keys := before.sessions.Keys;
      ghost var done: set<ConnId> := {};
      NoSnapshotYet(before.outs.log);
      SessionsSameRefl(before.sessions);
      ViewSim();
      var n := 0;
      while sim.todo != {}
        invariant Valid() && old(run) <= run && old(steps) <= steps && View().sim == sim
        invariant sim == old(View()).sim.(todo := sim.todo) && View().game == old(View()).game
        invariant sim.todo <= keys && done == keys - sim.todo
        invariant OneSnapshotEach(before.outs.log, View().outs.log, done)
        invariant SessionsSameForSimulation(before.sessions, View().sessions)
        decreases |sim.todo|
      {
        var c :| c in sim.todo;
        ghost var middle := View();
        SameTablesReady(before.sessions, middle.sessions);
        assert c in keys;
        CreateOneSnapshot(c, others(n), before.outs.log, done);
        done := done + {c};
        SameTablesTrans(before.sessions, middle.sessions, View().sessions);
        ViewSim();
        n := n + 1;
      }
      assert done == keys;
    }

    /** On a production tick every session gets one snapshot, and nobody else does. */
    method CreateFullSnapshots(production: bool, others: nat -> seq<Step>)
      requires Valid() && View().sim.phase == ChoosingSnapshots
      modifies Repr()
      ensures Valid() && old(run) <= run && old(steps) <= steps
      ensures View().sim == old(View()).sim.(phase := Idle, todo := View().sim.todo) && View().game == old(View()).game
      ensures OneSnapshotEach(old(View()).outs.log, View().outs.log, if production then old(View()).sessions.Keys else {})
    {
      hide View, Valid, Next, Allowed, Main, AfterOthers, TakenByOthers, SnapshotMsg, OneSnapshotEach;
      ghost var before := View();
      ChooseSnapshotsEffect(before, production);
      Perform(ChooseSnapshotsStep(production));
      NoSnapshotYet(before.outs.log);
      if production {
        SnapshotLoop(others, before);
        PhaseEffect(View(), SnapshotsDoneStep, Idle);
        Perform(SnapshotsDoneStep);
      }
    }

    /** History only grows along the run of the object. */
    lemma GrownSince(before: seq<State>)
      requires Valid() && before != [] && before <= run
      ensures Later(before[|before| - 1], View())
    {
      hide View, Goes, Later;
      LaterRun(run, steps, |before| - 1, |run| - 1);
    }

    lemma IdleIsEmpty()
      requires Valid() && View().sim.phase == Idle
      ensures View().sim.hand == EmptyHand && View().sim.inBatch == [] && View().sim.verdicts == []
    {
      hide View, Goes, Inv;
      RunInv(run, steps, |run| - 1);
      InvFlow(View());
      InvHandEmpty(View());
    }

    lemma RunEndsHere()
      requires Valid()
      ensures run != [] && run[|run| - 1] == View()
    {
    }

    lemma NoSnapshotSince(before: seq<State>)
      requires Valid() && before != [] && before <= run
      requires before[|before| - 1].sim.tick == View().sim.tick && (View().sim.phase == Gate || View().sim.phase == ChoosingSnapshots)
      ensures OneSnapshotEach(before[|before| - 1].outs.log, View().outs.log, {})
    {
      hide View, Goes, OneSnapshotEach;
      NoSnapshotBetween(run, steps, |before| - 1, |run| - 1);
    }

    /** Both queues are swapped out; what came in between is left for the next tick. */
    method DrainQueues(tick: nat, during: seq<Step>)
      requires Valid() && View().sim.phase == Idle && View().sim.tick < tick && tick + TWO_32 <= TWO_64
      modifies Repr()
      ensures Valid() && old(run) < run && old(steps) < steps
      ensures View().sim.phase == InMessages && View().sim.tick == tick && View().sim.hand == EmptyHand
      ensures View().sim.inBatch == old(View()).incoming && old(View()).http.verdicts <= View().sim.verdicts
      ensures View().outs.log == old(View()).outs.log
      ensures View().ins.processed == old(View()).ins.processed && View().auths.answered == old(View()).auths.answered
    {
      hide View, Valid, Next, Allowed, Main, AfterOthers, TakenByOthers, SessionsSameForSimulation, Later;
      IdleIsEmpty();
      DrainsEffect(View(), tick);
      Perform(BeginTickStep(tick));
      Interfere(SimulationThread, during);
      DrainVerdictsEffect(View());
      Perform(DrainVerdictsStep);
    }

    /** The first half of a tick: drain both queues, then handle both batches. */
    method HandleQueues(tick: nat, handshakes: nat -> Handshake, others: nat -> nat -> seq<Step>)
      requires Valid() && View().sim.phase == Idle && View().sim.tick < tick && tick + TWO_32 <= TWO_64
      modifies Repr()
      ensures Valid() && old(run) < run && old(steps) < steps
      ensures View().sim.phase == Gate && View().sim.tick == tick && View().sim.hand == EmptyHand
      ensures old(View()).ins.processed + old(View()).incoming <= View().ins.processed
      ensures old(View()).auths.answered + old(View()).http.verdicts <= View().auths.answered
      ensures OneSnapshotEach(old(View()).outs.log, View().outs.log, {})
    {
      hide MainGrew;
      hide View, Valid, Next, Allowed, Main, AfterOthers, TakenByOthers, SessionsSameForSimulation, Later, OneSnapshotEach, Rank;
      DrainQueues(tick, others(0)(0));
      RunEndsHere();
      ghost var start := run;
      ProcessNetworkIncoming(others(1), handshakes);
      RunEndsHere();
      ghost var middle, reached := run, View();
      ProcessHttpResponses(others(2));
      GrownSince(middle);
      LaterProcessed(reached, View());
      NoSnapshotSince(start);
    }

    /** A whole simulation tick, with the other threads running at every point where the
        tick holds no lock. Everything queued when it began is handled, in order; the
        match fields become what one look at the table makes of them; and on a production
        tick every session gets one snapshot, and nobody else any. */
    method RunSimulationTick(tick: nat, production: bool, countdownTicks: nat, handshakes: nat -> Handshake,
                             others: nat -> nat -> seq<Step>)
      requires Valid() && View().sim.phase == Idle && View().sim.tick < tick && tick + TWO_32 <= TWO_64 && countdownTicks < TWO_32
      modifies Repr()
      ensures Valid() && old(run) <= run && old(steps) <= steps
      ensures View().sim.phase == Idle && View().sim.tick == tick
      ensures old(View()).ins.processed + old(View()).incoming <= View().ins.processed
      ensures old(View()).auths.answered + old(View()).http.verdicts <= View().auths.answered
      ensures exists i :: |old(run)| <= i < |run| && run[i].sim.phase == Gate && View().game == FlowResult(run[i].game, run[i].sessions, tick, countdownTicks)
      ensures exists i :: |old(run)| <= i < |run| && run[i].sim.phase == ChoosingSnapshots && run[i].sim.tick == tick &&
                OneSnapshotEach(old(View()).outs.log, View().outs.log, if production then run[i].sessions.Keys else {})
    {
      hide MainGrew;
      hide View, Valid, Next, Allowed, Main, AfterOthers, TakenByOthers, SessionsSameForSimulation, FlowResult,
           FlowAddressees, OneSnapshotEach, Later;
      HandleQueues(tick, handshakes, others);
      RunEndsHere();
      ghost var middle, reached := run, View();
      CheckMatchFlow(countdownTicks, others(3), n => others(4 + n));
      SimulateEffect(View());
      Perform(SimulateStep);
      RunEndsHere();
      ghost var choosing, chooser := run, View();
      NoSnapshotSince(middle);
      CreateFullSnapshots(production, others(7));
      OneSnapshotAfterNone(old(View()).outs.log, reached.outs.log, chooser.outs.log, {});
      OneSnapshotAfterNone(old(View()).outs.log, chooser.outs.log, View().outs.log, if production then chooser.sessions.Keys else {});
      assert run[|choosing| - 1] == chooser;
      GrownSince(middle);
      LaterProcessed(reached, View());
      assert run[|middle| - 1] == reached;
    }

    method SendOneReliable(o: SendOutcome, during: seq<Step>) returns (uid: nat)
      requires Valid() && View().net.control.Sending? && View().net.control.prepared.reliable != []
      modifies Repr()
      ensures Valid() && old(run) <= run && old(steps) <= steps
      ensures
        var p := old(View()).net.control.prepared;
        && View().net.control == Sending(p.(reliable := p.reliable[1..]))
        && View().outs.handled == old(View()).outs.handled + [p.reliable[0]] && View().net.peers == old(View()).net.peers
      ensures MainGrew(NetworkThread, old(steps), steps, [SendReliableStep(o, uid)])
    {
      hide View, Valid, Next, Allowed, Main, AfterOthers, TakenByOthers, QuietForSimulation, QuietForHttp;
      FreshUid(inFlight.Keys);
      ViewNet();
      uid :| uid !in inFlight;
      SendReliableEffect(View(), o, uid);
      MainPush(NetworkThread, steps, SendReliableStep(o, uid));
      Perform(SendReliableStep(o, uid));
      Interfere(NetworkThread, during);
    }

    lemma KeptGoesWhenBound(c: ConnId)
      requires Valid() && View().net.control.Sending? && c in View().net.control.prepared.snapshots
      ensures SnapshotGoes(View(), c) <==> c in View().net.peers
    {
      hide View, IsRun, SnapshotGoes;
      GoesWhenBound(run, steps, c);
    }

    method SendOneSnapshot(c: ConnId, o: SendOutcome, during: seq<Step>, after: seq<Step>)
      requires Valid() && View().net.control.Sending? && View().net.control.prepared.reliable == []
          && c in View().net.control.prepared.snapshots
      modifies Repr()
      ensures Valid() && old(run) <= run && old(steps) <= steps
      ensures
        var p := old(View()).net.control.prepared;
        View().net.control == Sending(p.(snapshots := p.snapshots - {c})) && View().outs.handled == old(View()).outs.handled
      ensures View().net.peers == old(View()).net.peers
      ensures MainGrew(NetworkThread, old(steps), steps, SnapshotStepsFor(c, old(View()).net.peers, o))
    {
      hide View, Valid, Next, Allowed, Main, AfterOthers, TakenByOthers, QuietForSimulation, QuietForHttp, SnapshotGoes;
      AllocateEffect(View(), c);
      KeptGoesWhenBound(c);
      MainPush(NetworkThread, steps, AllocateSnapshotStep(c));
      Perform(AllocateSnapshotStep(c));
      Interfere(NetworkThread, during);
      ViewNet();
      if control.SendingSnapshot? {
        SendSnapshotEffect(View(), o);
        MainPush(NetworkThread, steps, SendSnapshotStep(o));
        Perform(SendSnapshotStep(o));
      }
      Interfere(NetworkThread, after);
    }

    /** The ordered loop over the reliable messages. */
    method SendReliables(outcomes: nat -> SendOutcome, others: nat -> seq<Step>) returns (uids: seq<nat>)
      requires Valid() && View().net.control.Sending?
      modifies Repr()
      ensures Valid() && old(run) <= run && old(steps) <= steps
      ensures
        var p := old(View()).net.control.prepared;
        View().net.control == Sending(p.(reliable := []))
            && View().outs.handled == old(View()).outs.handled + p.reliable && |uids| == |p.reliable|
      ensures View().net.peers == old(View()).net.peers
      ensures MainGrew(NetworkThread, old(steps), steps, SendSteps(outcomes, uids))
    {
      hide View, Valid, Next, Allowed, Main, AfterOthers, TakenByOthers;
      ghost var before := View();
      ViewNet();
      hide MainGrew;
      uids := [];
      MainGrewRefl(NetworkThread, steps);
      while control.prepared.reliable != []
        invariant Valid() && old(run) <= run && old(steps) <= steps && View().net.control == control
        invariant control.Sending? && control.prepared == before.net.control.prepared.(reliable := control.prepared.reliable)
        invariant View().outs.handled + control.prepared.reliable == before.outs.handled + before.net.control.prepared.reliable
        invariant |uids| + |control.prepared.reliable| == |before.net.control.prepared.reliable| && View().net.peers == before.net.peers
        invariant MainGrew(NetworkThread, old(steps), steps, SendSteps(outcomes, uids))
        decreases |control.prepared.reliable|
      {
        ghost var sofar := steps;
        var n := |uids|;
        var uid := SendOneReliable(outcomes(n), others(n));
        ViewNet();
        MainGrewTrans(NetworkThread, old(steps), sofar, steps, SendSteps(outcomes, uids), [SendReliableStep(outcomes(n), uid)]);
        assert (uids + [uid])[..n] == uids;
        uids := uids + [uid];
      }
    }

    /** The loop over the snapshots kept, in whatever order the table yields them: every
        one is allocated once and, when its connection is bound, sent once. */
    method SendSnapshots(outcomes: nat -> SendOutcome, others: nat -> seq<Step>) returns (order: seq<ConnId>)
      requires Valid() && View().net.control.Sending? && View().net.control.prepared.reliable == []
      modifies Repr()
      ensures Valid() && old(run) <= run && old(steps) <= steps
      ensures View().net.control.Sending? && View().net.control.prepared == old(View()).net.control.prepared.(snapshots := map[])
      ensures View().outs.handled == old(View()).outs.handled
      ensures Distinct(order) && forall c :: c in order <==> c in old(View()).net.control.prepared.snapshots
      ensures MainGrew(NetworkThread, old(steps), steps, SnapshotSteps(order, old(View()).net.peers, outcomes))
    {
      hide View, Valid, Next, Allowed, Main, AfterOthers, TakenByOthers, MainGrew, SnapshotStepsFor;
      ghost var before := View();
      ghost var kept := before.net.control.prepared.snapshots;
      ViewNet();
      order := [];
      MainGrewRefl(NetworkThread, steps);
      while control.prepared.snapshots != map[]
        invariant Valid() && old(run) <= run && old(steps) <= steps && View().net.control == control && View().net.peers == before.net.peers
        invariant control.Sending? && control.prepared == before.net.control.prepared.(snapshots := control.prepared.snapshots)
        invariant View().outs.handled == before.outs.handled
        invariant Distinct(order) && forall c :: c in order <==> c in kept && c !in control.prepared.snapshots
        invariant control.prepared.snapshots.Keys <= kept.Keys
        invariant MainGrew(NetworkThread, old(steps), steps, SnapshotSteps(order, before.net.peers, outcomes))
        decreases |control.prepared.snapshots|
      {
        var c :| c in control.prepared.snapshots;
        FewerKeys(control.prepared.snapshots, c);
        ghost var sofar := steps;
        var n := |order|;
        SendOneSnapshot(c, outcomes(n), others(2 * n), others(2 * n + 1));
        ViewNet();
        MainGrewTrans(NetworkThread, old(steps), sofar, steps, SnapshotSteps(order, before.net.peers, outcomes),
                      SnapshotStepsFor(c, before.net.peers, outcomes(n)));
        assert (order + [c])[..n] == order;
        DistinctPush(order, c);
        order := order + [c];
      }
    }

    /** A whole outgoing pass: drain, prepare, send the reliable messages in order, then
        one snapshot per connection. Every reliable message queued when it began is sent
        once, in order; of every connection with a queued snapshot the last one is
        allocated an id once and sent once if the connection is bound. The other threads
        run between any two sends, and the pass does nothing else. */
    method RunOutgoingPass(outcomes: nat -> nat -> SendOutcome, others: nat -> nat -> seq<Step>)
      returns (uids: seq<nat>, order: seq<ConnId>)
      requires Valid() && View().net.control == NetIdle
      modifies Repr()
      ensures Valid() && old(run) <= run && old(steps) <= steps
      ensures View().net.control == NetIdle
      ensures View().outs.handled == old(View()).outs.handled + Reliable(old(View()).outgoing)
      ensures |uids| == |Reliable(old(View()).outgoing)|
      ensures Distinct(order) && forall c :: c in order <==> LastIndex(old(View()).outgoing, SnapshotOut, c) >= 0
      ensures MainGrew(NetworkThread, old(steps), steps,
                       [DrainOutgoingStep] + SendSteps(outcomes(0), uids)
                       + SnapshotSteps(order, old(View()).net.peers, outcomes(1)) + [SendingDoneStep])
    {
      hide View, Valid, Next, Allowed, Main, AfterOthers, TakenByOthers, MainGrew, Reliable, Prepare, SendSteps, SnapshotSteps, LastIndex;
      ghost var before := View();
      DrainOutgoingEffect(before);
      MainGrewPush(NetworkThread, steps, DrainOutgoingStep);
      Perform(DrainOutgoingStep);
      ghost var drained := steps;
      uids := SendReliables(outcomes(0), others(0));
      MainGrewTrans(NetworkThread, old(steps), drained, steps, [DrainOutgoingStep], SendSteps(outcomes(0), uids));
      ghost var sent := steps;
      order := SendSnapshots(outcomes(1), others(1));
      ghost var program := [DrainOutgoingStep] + SendSteps(outcomes(0), uids);
      ghost var snapshots := SnapshotSteps(order, before.net.peers, outcomes(1));
      MainGrewTrans(NetworkThread, old(steps), sent, steps, program, snapshots);
      SendingDoneEffect(View());
      MainGrewPush(NetworkThread, steps, SendingDoneStep);
      ghost var done := steps;
      Perform(SendingDoneStep);
      MainGrewTrans(NetworkThread, old(steps), done, steps, program + snapshots, [SendingDoneStep]);
      KeptAreQueued(before.outgoing);
    }

    method AnswerOne(a: Answer, during: seq<Step>, after: seq<Step>)
      requires Valid() && View().http.job == None && View().http.batch != []
      modifies Repr()
      ensures Valid() && old(run) <= run && old(steps) <= steps
      ensures View().http.job == None && View().http.batch == old(View()).http.batch[1..]
      ensures MainGrew(HttpThread, old(steps), steps, [HttpTakeStep, HttpAnswerStep(a)])
    {
      hide View, Valid, Next, Allowed, Main, AfterOthers, TakenByOthers, QuietForSimulation, QuietForNetwork;
      HttpTakeEffect(View());
      MainPush(HttpThread, steps, HttpTakeStep);
      Perform(HttpTakeStep);
      Interfere(HttpThread, during);
      HttpAnswerEffect(View(), a);
      MainPush(HttpThread, steps, HttpAnswerStep(a));
      Perform(HttpAnswerStep(a));
      Interfere(HttpThread, after);
    }

    /** One pass of the HTTP thread after its wait: everything it drained is answered when
        it returns; a stopped and empty queue ends it at once. */
    method RunHttpPass(answers: nat -> Answer, others: nat -> nat -> seq<Step>)
      requires Valid() && View().http.job == None && View().http.batch == [] && (View().http.requests != [] || View().http.stopped)
      modifies Repr()
      ensures Valid() && old(run) <= run && old(steps) <= steps
      ensures View().http.job == None && View().http.batch == []
      ensures old(View()).http.requests == [] ==> View() == old(View()) && steps == old(steps)
      ensures old(View()).http.requests != [] ==>
                MainGrew(HttpThread, old(steps), steps, [HttpDrainStep] + AnswerSteps(|old(View()).http.requests|, answers))
    {
      hide View, Valid, Next, Allowed, Main, AfterOthers, TakenByOthers, QuietForSimulation, QuietForNetwork;
      hide MainGrew;
      ViewHttp();
      if simToHttp.q == [] {
        return;
      }
      ghost var waiting := |View().http.requests|;
      HttpDrainEffect(View());
      MainGrewPush(HttpThread, steps, HttpDrainStep);
      Perform(HttpDrainStep);
      ViewHttp();
      assert [HttpDrainStep] + AnswerSteps(0, answers) == [HttpDrainStep];
      var n := 0;
      while httpBatch != []
        invariant Valid() && old(run) <= run && old(steps) <= steps && View().http.batch == httpBatch && View().http.job == None
        invariant n + |httpBatch| == waiting && MainGrew(HttpThread, old(steps), steps, [HttpDrainStep] + AnswerSteps(n, answers))
        decreases |httpBatch|
      {
        ghost var sofar := steps;
        AnswerOne(answers(n), others(n)(0), others(n)(1));
        ViewHttp();
        MainGrewTrans(HttpThread, old(steps), sofar, steps, [HttpDrainStep] + AnswerSteps(n, answers), [HttpTakeStep,
            HttpAnswerStep(answers(n))]);
        assert [HttpDrainStep] + AnswerSteps(n + 1, answers) == [HttpDrainStep] + AnswerSteps(n,
            answers) + [HttpTakeStep, HttpAnswerStep(answers(n))];
        n := n + 1;
      }
    }
  }
}
