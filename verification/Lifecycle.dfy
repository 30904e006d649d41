/** The connection lifecycle as one state machine. Three threads take turns at the
    granularity of the locks they hold: the network thread, the simulation thread and
    the HTTP thread share the session table and four queues. A step is one critical
    section together with the thread-local work around it. */
module Lifecycle {
  import opened Wrappers
  import opened Bytes
  import opened Packets
  import opened Messages
  import opened Preparation

  const MAX_CLIENTS: nat := 4000

  // ---------------------------------------------------------------------------
  // State
  // ---------------------------------------------------------------------------

  /** Attached to a reliable packet whose acknowledgement must trigger something. */
  datatype AckContext = AckContext(peer: Peer, id: ConnId, disconnectAfterAck: bool, enableEncryptionAfterAck: bool)

  /** Where the network thread is: between events, holding a message that passed the
      channel guards, working through a prepared batch, or about to send a snapshot
      whose id it has just allocated. */
  datatype NetControl =
    | NetIdle
    | Delivering(msg: InMsg)
    | Sending(prepared: Prepared)
    | SendingSnapshot(peer: Peer, snapshot: OutMsg, index: nat, prepared: Prepared)

  /** Touched by the network thread only. `data` is `peer->data`; a peer missing from
      it has a null pointer there. `nextId` counts connections without wrapping: the
      32-bit counter of the source is `nextId % 2^32`. */
  datatype Net = Net(
    nextId: nat, data: map<Peer, ConnId>, peers: map<ConnId, Peer>, encryption: map<ConnId, bool>,
    control: NetControl, inFlight: map<nat, AckContext>)

  datatype Stage = InitStage | WorldStage | StartStage

  datatype Phase =
    | Idle
    | DrainingVerdicts
    | InMessages
    | VerdictMessages
    | Gate
    | Deciding(stage: Stage)
    | Locking(stage: Stage)
    | Broadcasting(stage: Stage)
    | Opening
    | Simulating
    | ChoosingSnapshots
    | Snapshots

  /** A message the simulation built under the session lock and pushes after it. */
  datatype Hand = EmptyHand | HoldingRequest(request: Request) | HoldingReply(reply: OutMsg)

  datatype Sim = Sim(tick: int, phase: Phase, inBatch: seq<InMsg>, verdicts: seq<Verdict>, hand: Hand,
      todo: set<ConnId>, countdown: nat)

  /** The two HTTP queues and the HTTP thread's batch and job. */
  datatype Http = Http(requests: seq<Request>, stopped: bool, batch: seq<Request>, job: Option<Request>, verdicts: seq<Verdict>)

  datatype Match = Match(initSent: bool, worldSent: bool, startSent: bool, started: bool, startTick: nat)

  // What happened so far. None of this is read by a step; it gives the run-level
  // statements something to speak about.

  datatype InHistory = InHistory(log: seq<InMsg>, processed: seq<InMsg>, seen: set<ConnId>)
  datatype AuthHistory = AuthHistory(asked: seq<ConnId>, answered: seq<Verdict>, applied: seq<Verdict>)
  datatype SecureHistory = SecureHistory(accepted: set<ConnId>, acked: set<ConnId>, refused: set<ConnId>)
  datatype SentReliable = SentReliable(peer: Peer, bound: ConnId, msg: OutMsg, position: nat)
  datatype SentSnapshot = SentSnapshot(peer: Peer, bound: ConnId, id: ConnId, index: nat, wireId: nat, tick: nat)
  datatype Kick = Kick(peer: Peer, id: ConnId)
  datatype OutHistory = OutHistory(
    log: seq<OutMsg>, handled: seq<OutMsg>, reliableSent: seq<SentReliable>, snapshotsSent: seq<SentSnapshot>, kicks: seq<Kick>)
  datatype StartRecord = StartRecord(tick: nat, countdown: nat, sessions: map<ConnId, Session>)
  datatype MatchHistory = MatchHistory(init: set<ConnId>, world: set<ConnId>, start: set<ConnId>,
      record: Option<StartRecord>, worldTicks: seq<nat>)

  datatype State = State(
    net: Net, sessions: map<ConnId, Session>, incoming: seq<InMsg>, http: Http, outgoing: seq<OutMsg>, sim: Sim, game: Match,
    ins: InHistory, auths: AuthHistory, secures: SecureHistory, outs: OutHistory, matches: MatchHistory)

  function Initial(): State {
    State(
      Net(1, map[], map[], map[], NetIdle, map[]), map[], [], Http([], false, [], None, []), [],
      Sim(-1, Idle, [], [], EmptyHand, {}, 0), Match(false, false, false, false, 0),
      InHistory([], [], {}), AuthHistory([], [], []), SecureHistory({}, {}, {}), OutHistory([], [], [], [], []),
      MatchHistory({}, {}, {}, None, []))
  }

  // ---------------------------------------------------------------------------
  // Network thread: events
  // ---------------------------------------------------------------------------

  /** Storing an id in `peer->data`; storing 0 stores a null pointer. */
  function SetPeerData(data: map<Peer, ConnId>, p: Peer, id: ConnId): map<Peer, ConnId> {
    if id == 0 then data - {p} else data[p := id]
  }

  function Deliver(s: State, m: InMsg): State {
    s.(incoming := s.incoming + [m], ins := s.ins.(log := s.ins.log + [m]))
  }

  /** The id given to connection number `n`: the counter has 32 bits. */
  function IdOf(n: nat): ConnId {
    n % TWO_32
  }

  function Connect(s: State, p: Peer): State {
    var id := IdOf(s.net.nextId);
    var net := s.net.(
      nextId := s.net.nextId + 1, data := SetPeerData(s.net.data, p, id),
      peers := s.net.peers[id := p], encryption := s.net.encryption[id := false]);
    Deliver(s.(net := net), ConnectMsg(id))
  }

  function Disconnect(s: State, p: Peer): State {
    if p !in s.net.data then s
    else
      var id := s.net.data[p];
      var net := s.net.(data := s.net.data - {p}, peers := s.net.peers - {id}, encryption := s.net.encryption - {id});
      Deliver(s.(net := net), DisconnectMsg(id))
  }

  /** The connection a received packet belongs to, or 0 when peer and table disagree. */
  function ValidatedConnectionIdOrZero(net: Net, peer: Option<Peer>): ConnId {
    if peer.None? then 0
    else if peer.value !in net.data then 0
    else
      var id := net.data[peer.value];
      if id == 0 then 0
      else if id !in net.peers then 0
      else if net.peers[id] != peer.value then 0
      else id
  }

  predicate AllowedOnAuthChannel(sessions: map<ConnId, Session>, id: ConnId) {
    id in sessions &&
    var s := sessions[id];
    s.transport && s.secure && s.encrypted && s.auth != Invalid
  }

  predicate AllowedOnGameplayChannels(sessions: map<ConnId, Session>, id: ConnId) {
    id in sessions &&
    var s := sessions[id];
    s.transport && s.secure && s.encrypted && s.auth == Valid
  }

  datatype Dispatched = Dropped | VersionRefused | Accepted(msg: InMsg)

  /** Guard, then parse, by channel number: 0 handshake, 1 authentication, 2 reliable
      gameplay, 3 unreliable gameplay. */
  function DispatchByChannel(sessions: map<ConnId, Session>, id: ConnId, channel: nat, data: seq<byte>): Dispatched {
    if (channel == 2 || channel == 3) && !AllowedOnGameplayChannels(sessions, id) then Dropped
    else if channel == 1 && !AllowedOnAuthChannel(sessions, id) then Dropped
    else if channel == 0 then
      var hello := ParseHello(data);
      if hello.None? then Dropped
      else if hello.value.version != PROTOCOL_VERSION then VersionRefused
      else Accepted(HelloMsg(id, hello.value))
    else if channel == 1 then
      var auth := ParseAuth(data);
      if auth.None? then Dropped else Accepted(AuthMsg(id, auth.value.token))
    else if channel == 2 then
      if ParseReady(data).None? then Dropped else Accepted(ReadyMsg(id))
    else if channel == 3 then
      var input := ParseInput(data);
      if input.None? then Dropped else Accepted(InputMsg(id, input.value))
    else Dropped
  }

  function Receive(s: State, peer: Option<Peer>, channel: nat, data: seq<byte>): State {
    var id := ValidatedConnectionIdOrZero(s.net, peer);
    if id == 0 then s
    else
      match DispatchByChannel(s.sessions, id, channel, data)
      case Dropped => s
      case VersionRefused =>
        s.(outs := s.outs.(kicks := s.outs.kicks + [Kick(peer.value, id)]),
            secures := s.secures.(refused := s.secures.refused + {id}))
      case Accepted(m) => s.(net := s.net.(control := Delivering(m)))
  }

  function ReceivePush(s: State): State
    requires s.net.control.Delivering?
  {
    Deliver(s.(net := s.net.(control := NetIdle)), s.net.control.msg)
  }

  // ---------------------------------------------------------------------------
  // Network thread: sending
  // ---------------------------------------------------------------------------

  /** What the environment does to one send: packet creation, context allocation and
      `enet_peer_send` can each fail. */
  datatype SendOutcome = CreateFails | ContextFails | SendFails | SendOk

  datatype SendResult = SendResult(sent: bool, disconnectNow: bool, context: Option<AckContext>)

  predicate AllowedToSend(net: Net, sessions: map<ConnId, Session>, peer: Peer) {
    peer in net.data && net.data[peer] in sessions &&
    var s := sessions[net.data[peer]];
    s.transport && s.secure && s.encrypted && s.auth == Valid
  }

  function SendPacket(net: Net, sessions: map<ConnId, Session>, peer: Peer, reliable: bool,
                      disconnectAfterAck: bool, enableEncryptionAfterAck: bool, validated: bool, o: SendOutcome): SendResult {
    if validated && !AllowedToSend(net, sessions, peer) then SendResult(false, false, None)
    else if o == CreateFails then SendResult(false, false, None)
    else if (disconnectAfterAck || enableEncryptionAfterAck) && reliable && (peer !in net.data || o == ContextFails) then
      SendResult(false, disconnectAfterAck, None)
    else if o == SendFails then SendResult(false, disconnectAfterAck, None)
    else SendResult(true, false,
                    if (disconnectAfterAck || enableEncryptionAfterAck) && reliable
                    then Some(AckContext(peer, net.data[peer], disconnectAfterAck, enableEncryptionAfterAck)) else None)
  }

  /** The routine chosen by message kind: only handshake and authentication replies
      carry post-acknowledgement actions, and only they skip the session guard. */
  function SendReliableMsg(net: Net, sessions: map<ConnId, Session>, peer: Peer, m: OutMsg,
                           o: SendOutcome): SendResult {
    match m.kind
    case HelloResponseOut => SendPacket(net, sessions, peer, true, m.disconnectAfterAck, m.enableEncryptionAfterAck, false, o)
    case AuthResponseOut => SendPacket(net, sessions, peer, true, m.disconnectAfterAck, false, false, o)
    case MatchInitOut => SendPacket(net, sessions, peer, true, false, false, true, o)
    case WorldInitOut => SendPacket(net, sessions, peer, true, false, false, true, o)
    case MatchStartOut => SendPacket(net, sessions, peer, true, false, false, true, o)
    case _ => SendResult(false, false, None)
  }

  function BoundId(net: Net, peer: Peer): ConnId {
    if peer in net.data then net.data[peer] else 0
  }

  function DrainOutgoing(s: State): State {
    s.(net := s.net.(control := Sending(Prepare(s.outgoing))), outgoing := [])
  }

  function SendReliable(s: State, o: SendOutcome, uid: nat): State
    requires s.net.control.Sending? && s.net.control.prepared.reliable != []
  {
    var prepared := s.net.control.prepared;
    var m := prepared.reliable[0];
    var net := s.net.(control := Sending(prepared.(reliable := prepared.reliable[1..])));
    var outs := s.outs.(handled := s.outs.handled + [m]);
    if m.id !in s.net.peers then s.(net := net, outs := outs)
    else
      var peer := s.net.peers[m.id];
      var r := SendReliableMsg(s.net, s.sessions, peer, m, o);
      var inFlight := if r.context.Some? then s.net.inFlight[uid := r.context.value] else s.net.inFlight;
      var sent := if r.sent then outs.reliableSent + [SentReliable(peer, BoundId(s.net, peer), m, |s.outs.handled|)] else outs.reliableSent;
      var kicks := if r.disconnectNow then outs.kicks + [Kick(peer, BoundId(s.net, peer))] else outs.kicks;
      s.(net := net.(inFlight := inFlight), outs := outs.(reliableSent := sent, kicks := kicks))
  }

  function AfterAllocation(x: Session): Session {
    x.(nextSnapshot := (x.nextSnapshot + 1) % TWO_32, lastSnapshot := x.nextSnapshot, allocations := x.allocations + 1)
  }

  /** Allocating the id of the snapshot kept for `c`, under the session lock. */
  function AllocateSnapshot(s: State, c: ConnId): State
    requires s.net.control.Sending? && c in s.net.control.prepared.snapshots
  {
    var prepared := s.net.control.prepared;
    var m := prepared.snapshots[c];
    var rest := prepared.(snapshots := prepared.snapshots - {c});
    if m.id !in s.net.peers || m.kind != SnapshotOut || !m.payload.SnapshotReply? || m.id !in s.sessions then
      s.(net := s.net.(control := Sending(rest)))
    else
      var session := s.sessions[m.id];
      var patched := m.(payload := m.payload.(snapshotId := session.nextSnapshot));
      s.(sessions := s.sessions[m.id := AfterAllocation(session)],
         net := s.net.(control := SendingSnapshot(s.net.peers[m.id], patched, session.allocations + 1, rest)))
  }

  function SendSnapshot(s: State, o: SendOutcome): State
    requires s.net.control.SendingSnapshot? && s.net.control.snapshot.payload.SnapshotReply?
  {
    var c := s.net.control;
    var r := SendPacket(s.net, s.sessions, c.peer, false, false, false, true, o);
    var entry := SentSnapshot(c.peer, BoundId(s.net, c.peer), c.snapshot.id, c.index, c.snapshot.payload.snapshotId,
        c.snapshot.payload.tick);
    s.(net := s.net.(control := Sending(c.prepared)),
       outs := if r.sent then s.outs.(snapshotsSent := s.outs.snapshotsSent + [entry]) else s.outs)
  }

  function SendingDone(s: State): State {
    s.(net := s.net.(control := NetIdle))
  }

  predicate StillBound(net: Net, peer: Peer, id: ConnId) {
    && id != 0
    && peer in net.data && net.data[peer] == id
    && id in net.peers && net.peers[id] == peer
  }

  /** Switching packet encryption on: the network-side flag, then the session's. */
  function EnableEncryption(s: State, peer: Peer): State {
    if peer !in s.net.data then s
    else
      var id := s.net.data[peer];
      if id !in s.net.peers || s.net.peers[id] != peer then s
      else
        var sessions := if id in s.sessions then s.sessions[id := s.sessions[id].(encrypted := true)] else s.sessions;
        s.(net := s.net.(encryption := s.net.encryption[id := true]), sessions := sessions,
           secures := s.secures.(acked := s.secures.acked + {id}))
  }

  /** The acknowledgement callback. It may come late, and more than once. */
  function Acknowledge(s: State, uid: nat): State
    requires uid in s.net.inFlight
  {
    var context := s.net.inFlight[uid];
    if !StillBound(s.net, context.peer, context.id) then s
    else
      var s1 := if context.enableEncryptionAfterAck then EnableEncryption(s, context.peer) else s;
      if context.disconnectAfterAck then s1.(outs := s1.outs.(kicks := s1.outs.kicks + [Kick(context.peer, BoundId(s.net, context.peer))]))
      else s1
  }

  function FreePacket(s: State, uid: nat): State {
    s.(net := s.net.(inFlight := s.net.inFlight - {uid}))
  }

  // ---------------------------------------------------------------------------
  // Simulation thread: incoming messages
  // ---------------------------------------------------------------------------

  function FreshSession(id: ConnId): Session {
    Session(id, ZERO_KEY, ZERO_KEY, ZERO_KEY, NoAuth, "", true, false, false, false, 0, "", None, 0, [], 1, 0, 0, 0)
  }

  /** The oracle of one handshake: key derivation and signing can each fail. */
  datatype Handshake = KeyExchangeFails | SigningFails | HandshakeOk(rxKey: Key, txKey: Key)

  function AfterHello(session: Session, hello: HelloPacket, h: Handshake): Session {
    var seenKey := session.(clientKey := hello.clientKey);
    match h
    case KeyExchangeFails => seenKey
    case SigningFails => seenKey.(secure := false, rxKey := ZERO_KEY, txKey := ZERO_KEY)
    case HandshakeOk(rx, tx) => seenKey.(rxKey := rx, txKey := tx, secure := true)
  }

  function HelloReplyMsg(id: ConnId, hello: HelloPacket, h: Handshake): OutMsg {
    var status := match h case KeyExchangeFails => InvalidClientKey case SigningFails => AttestationFailed case HandshakeOk(_, _) => HelloSuccess;
    var echo := if h.KeyExchangeFails? then seq(NONCE_BYTES, i => 0) else hello.nonce;
    OutMsg(HelloResponseOut, id, !h.HandshakeOk?, h.HandshakeOk?, HelloReply(status, echo))
  }

  function AfterInput(session: Session, input: InputPacket): Session {
    var noted := session.(latestInput := Some(input), ackedSnapshot := input.lastSnapshotId);
    if input.sequenceNumber <= session.lastProcessed then noted
    else noted.(pending := noted.pending + [input])
  }

  datatype Handled = Handled(sessions: map<ConnId, Session>, hand: Hand)

  /** One incoming message, under the session lock, up to the push it leaves to do. */
  function HandleIncoming(sessions: map<ConnId, Session>, m: InMsg, h: Handshake): Handled {
    match m
    case ConnectMsg(id) => Handled(sessions[id := FreshSession(id)], EmptyHand)
    case DisconnectMsg(id) =>
      if id !in sessions then Handled(sessions, EmptyHand) else Handled(sessions - {id}, EmptyHand)
    case HelloMsg(id, hello) =>
      if id !in sessions then Handled(sessions, EmptyHand)
      else Handled(sessions[id := AfterHello(sessions[id], hello, h)], HoldingReply(HelloReplyMsg(id, hello, h)))
    case AuthMsg(id, token) =>
      if id !in sessions then Handled(sessions, EmptyHand)
      else if sessions[id].auth == Invalid then Handled(sessions, EmptyHand)
      else if sessions[id].auth == Valid then Handled(sessions, EmptyHand)
      else if sessions[id].auth == WaitingAuth then Handled(sessions, EmptyHand)
      else Handled(sessions[id := sessions[id].(auth := WaitingAuth)], HoldingRequest(Request(id, token)))
    case ReadyMsg(id) =>
      if id !in sessions then Handled(sessions, EmptyHand)
      else Handled(sessions[id := sessions[id].(ready := true)], EmptyHand)
    case InputMsg(id, input) =>
      if id !in sessions then Handled(sessions, EmptyHand)
      else Handled(sessions[id := AfterInput(sessions[id], input)], EmptyHand)
  }

  function BeginTick(s: State, tick: nat): State {
    s.(sim := s.sim.(tick := tick, phase := DrainingVerdicts, inBatch := s.incoming), incoming := [])
  }

  function DrainVerdicts(s: State): State {
    s.(sim := s.sim.(phase := InMessages, verdicts := s.http.verdicts), http := s.http.(verdicts := []))
  }

  function HandleIn(s: State, h: Handshake): State
    requires s.sim.inBatch != []
  {
    var m := s.sim.inBatch[0];
    var r := HandleIncoming(s.sessions, m, h);
    s.(sessions := r.sessions,
       sim := s.sim.(inBatch := s.sim.inBatch[1..], hand := r.hand),
       ins := s.ins.(processed := s.ins.processed + [m], seen := if m.ConnectMsg? then s.ins.seen + {m.id} else s.ins.seen),
       auths := if r.hand.HoldingRequest? then s.auths.(asked := s.auths.asked + [m.id]) else s.auths,
       secures := if !r.hand.HoldingReply? then s.secures
                  else if h.HandshakeOk? then s.secures.(accepted := s.secures.accepted + {m.id})
                  else s.secures.(refused := s.secures.refused + {m.id}))
  }

  function EnqueueOut(s: State, m: OutMsg): State {
    s.(outgoing := s.outgoing + [m], outs := s.outs.(log := s.outs.log + [m]))
  }

  function PushHand(s: State): State {
    var t := s.(sim := s.sim.(hand := EmptyHand));
    match s.sim.hand
    case EmptyHand => s
    case HoldingRequest(r) => t.(http := t.http.(requests := t.http.requests + [r]))
    case HoldingReply(m) => EnqueueOut(t, m)
  }

  // ---------------------------------------------------------------------------
  // Simulation thread: backend verdicts
  // ---------------------------------------------------------------------------

  /** The verdict is written without looking at the status it replaces. */
  function AfterVerdict(session: Session, v: Verdict): Session {
    if v.valid then session.(auth := Valid, accountId := v.accountId, username := v.username, authError := "")
    else session.(auth := Invalid, authError := v.error)
  }

  function AuthReplyMsg(v: Verdict): OutMsg {
    OutMsg(AuthResponseOut, v.id, !v.valid, false, AuthReply(v.valid))
  }

  function ApplyVerdict(sessions: map<ConnId, Session>, v: Verdict): Handled {
    if v.id !in sessions then Handled(sessions, EmptyHand)
    else Handled(sessions[v.id := AfterVerdict(sessions[v.id], v)], HoldingReply(AuthReplyMsg(v)))
  }

  function HandleVerdict(s: State): State
    requires s.sim.verdicts != []
  {
    var v := s.sim.verdicts[0];
    var r := ApplyVerdict(s.sessions, v);
    s.(sessions := r.sessions,
       sim := s.sim.(verdicts := s.sim.verdicts[1..], hand := r.hand),
       auths := s.auths.(answered := s.auths.answered + [v], applied := if v.id in s.sessions then s.auths.applied + [v] else s.auths.applied),
       secures := if v.id in s.sessions && !v.valid then s.secures.(refused := s.secures.refused + {v.id}) else s.secures)
  }

  // ---------------------------------------------------------------------------
  // Simulation thread: match flow, world and snapshots
  // ---------------------------------------------------------------------------

  predicate AllReady(sessions: map<ConnId, Session>) {
    |sessions| >= MAX_CLIENTS && forall c :: c in sessions ==> sessions[c].ready
  }

  function AtPhase(s: State, phase: Phase): State {
    s.(sim := s.sim.(phase := phase))
  }

  function CheckGate(s: State): State {
    if |s.sessions| < MAX_CLIENTS then AtPhase(s, Simulating) else AtPhase(s, Deciding(InitStage))
  }

  /** Whether the stage is still to be done; the start stage also needs everybody ready
      and fixes the start tick. */
  function Decide(s: State, countdown: nat): State
    requires s.sim.phase.Deciding?
  {
    match s.sim.phase.stage
    case InitStage => AtPhase(s, if !s.game.initSent then Locking(InitStage) else Deciding(WorldStage))
    case WorldStage => AtPhase(s, if !s.game.worldSent then Locking(WorldStage) else Deciding(StartStage))
    case StartStage =>
      if !s.game.startSent && AllReady(s.sessions) then
        var t := AtPhase(s, Locking(StartStage));
        var tick := if s.sim.tick >= 0 then s.sim.tick else 0;
        t.(sim := t.sim.(countdown := countdown),
           game := s.game.(startTick := (tick + countdown) % TWO_64),
           matches := s.matches.(record := Some(StartRecord(tick, countdown, s.sessions))))
      else AtPhase(s, Opening)
  }

  function Lock(s: State): State
    requires s.sim.phase.Locking?
  {
    s.(sim := s.sim.(phase := Broadcasting(s.sim.phase.stage), todo := s.sessions.Keys))
  }

  function StageKind(stage: Stage): OutKind {
    match stage case InitStage => MatchInitOut case WorldStage => WorldInitOut case StartStage => MatchStartOut
  }

  function StageMsg(s: State, stage: Stage, id: ConnId): OutMsg {
    var tick := if s.sim.tick >= 0 then s.sim.tick else 0;
    var payload :=
      match stage
      case InitStage => InitReply(tick)
      case WorldStage => WorldReply
      case StartStage => StartReply(tick, s.game.startTick, s.sim.countdown);
    OutMsg(StageKind(stage), id, false, false, payload)
  }

  /** One iteration of a broadcast loop: the message goes to the id the session carries. */
  function Broadcast(s: State, c: ConnId): State
    requires s.sim.phase.Broadcasting? && c in s.sessions
  {
    var stage := s.sim.phase.stage;
    var t := EnqueueOut(s, StageMsg(s, stage, s.sessions[c].id));
    var matches :=
      match stage
      case InitStage => s.matches.(init := s.matches.init + {c})
      case WorldStage => s.matches.(world := s.matches.world + {c})
      case StartStage => s.matches.(start := s.matches.start + {c});
    t.(sim := s.sim.(todo := s.sim.todo - {c}), matches := matches)
  }

  function BroadcastDone(s: State): State
    requires s.sim.phase.Broadcasting?
  {
    match s.sim.phase.stage
    case InitStage => AtPhase(s.(game := s.game.(initSent := true)), Deciding(WorldStage))
    case WorldStage => AtPhase(s.(game := s.game.(worldSent := true)), Deciding(StartStage))
    case StartStage => AtPhase(s.(game := s.game.(startSent := true)), Opening)
  }

  function Open(s: State): State {
    var started := s.game.started || (s.game.startSent && s.sim.tick >= s.game.startTick);
    AtPhase(s.(game := s.game.(started := started)), Simulating)
  }

  function Simulate(s: State): State {
    var t := AtPhase(s, ChoosingSnapshots);
    if s.game.started && s.sim.tick >= 0 then t.(matches := s.matches.(worldTicks := s.matches.worldTicks + [s.sim.tick])) else t
  }

  function ChooseSnapshots(s: State, production: bool): State {
    if production then s.(sim := s.sim.(phase := Snapshots, todo := s.sessions.Keys)) else AtPhase(s, Idle)
  }

  function SnapshotMsg(s: State, session: Session): OutMsg {
    OutMsg(SnapshotOut, session.id, false, false, SnapshotReply(0, if s.sim.tick >= 0 then s.sim.tick else 0, session.lastProcessed))
  }

  function BroadcastSnapshot(s: State, c: ConnId): State
    requires c in s.sessions
  {
    EnqueueOut(s, SnapshotMsg(s, s.sessions[c])).(sim := s.sim.(todo := s.sim.todo - {c}))
  }

  // ---------------------------------------------------------------------------
  // HTTP thread
  // ---------------------------------------------------------------------------

  function HttpDrain(s: State): State {
    s.(http := s.http.(batch := s.http.requests, requests := []))
  }

  function HttpTake(s: State): State
    requires s.http.batch != []
  {
    s.(http := s.http.(job := Some(s.http.batch[0]), batch := s.http.batch[1..]))
  }

  /** The backend's answer is an oracle; it is filed under the id of the request. */
  datatype Answer = Answer(valid: bool, accountId: nat, username: string, error: string)

  function HttpAnswer(s: State, a: Answer): State
    requires s.http.job.Some?
  {
    var v := Verdict(s.http.job.value.id, a.valid, a.accountId, a.username, a.error);
    s.(http := s.http.(job := None, verdicts := s.http.verdicts + [v]))
  }

  // ---------------------------------------------------------------------------
  // Steps
  // ---------------------------------------------------------------------------

  datatype Step =
    | ConnectStep(peer: Peer)
    | DisconnectStep(peer: Peer)
    | ReceiveStep(from: Option<Peer>, channel: nat, data: seq<byte>)
    | ReceivePushStep
    | DrainOutgoingStep
    | SendReliableStep(outcome: SendOutcome, uid: nat)
    | AllocateSnapshotStep(c: ConnId)
    | SendSnapshotStep(outcome: SendOutcome)
    | SendingDoneStep
    | AcknowledgeStep(uid: nat)
    | FreeStep(uid: nat)
    | BeginTickStep(tick: nat)
    | DrainVerdictsStep
    | HandleInStep(handshake: Handshake)
    | PushHandStep
    | InMessagesDoneStep
    | HandleVerdictStep
    | VerdictMessagesDoneStep
    | CheckGateStep
    | DecideStep(countdown: nat)
    | LockStep
    | BroadcastStep(c: ConnId)
    | BroadcastDoneStep
    | OpenStep
    | SimulateStep
    | ChooseSnapshotsStep(production: bool)
    | BroadcastSnapshotStep(c: ConnId)
    | SnapshotsDoneStep
    | HttpDrainStep
    | HttpTakeStep
    | HttpAnswerStep(answer: Answer)
    | HttpStopStep

  /** When a step can happen. The first three cases are assumptions about ENet and the
      deployment: a CONNECT comes only on a slot with no live connection, at most
      2^32 - 1 connections are made, ticks strictly increase and stay far from 2^64.
      The others say where each thread is. */
  predicate Allowed(s: State, step: Step) {
    match step
    case ConnectStep(p) => s.net.control.NetIdle? && p !in s.net.data && s.net.nextId < TWO_32
    case DisconnectStep(p) => s.net.control.NetIdle?
    case ReceiveStep(p, channel, data) => s.net.control.NetIdle?
    case ReceivePushStep => s.net.control.Delivering?
    case DrainOutgoingStep => s.net.control.NetIdle?
    case SendReliableStep(o, uid) => s.net.control.Sending? && s.net.control.prepared.reliable != [] && uid !in s.net.inFlight
    case AllocateSnapshotStep(c) => s.net.control.Sending? && s.net.control.prepared.reliable == []
        && c in s.net.control.prepared.snapshots
    case SendSnapshotStep(o) => s.net.control.SendingSnapshot? && s.net.control.snapshot.payload.SnapshotReply?
    case SendingDoneStep => s.net.control.Sending? && s.net.control.prepared.reliable == []
        && s.net.control.prepared.snapshots == map[]
    case AcknowledgeStep(uid) => s.net.control.NetIdle? && uid in s.net.inFlight
    case FreeStep(uid) => uid in s.net.inFlight
    case BeginTickStep(tick) => s.sim.phase.Idle? && s.sim.tick < tick && tick + TWO_32 <= TWO_64
    case DrainVerdictsStep => s.sim.phase.DrainingVerdicts?
    case HandleInStep(h) => s.sim.phase.InMessages? && s.sim.hand.EmptyHand? && s.sim.inBatch != []
    case PushHandStep => !s.sim.hand.EmptyHand?
    case InMessagesDoneStep => s.sim.phase.InMessages? && s.sim.hand.EmptyHand? && s.sim.inBatch == []
    case HandleVerdictStep => s.sim.phase.VerdictMessages? && s.sim.hand.EmptyHand? && s.sim.verdicts != []
    case VerdictMessagesDoneStep => s.sim.phase.VerdictMessages? && s.sim.hand.EmptyHand? && s.sim.verdicts == []
    case CheckGateStep => s.sim.phase.Gate?
    case DecideStep(countdown) => s.sim.phase.Deciding? && countdown < TWO_32
    case LockStep => s.sim.phase.Locking?
    case BroadcastStep(c) => s.sim.phase.Broadcasting? && c in s.sim.todo && c in s.sessions
    case BroadcastDoneStep => s.sim.phase.Broadcasting? && s.sim.todo == {}
    case OpenStep => s.sim.phase.Opening?
    case SimulateStep => s.sim.phase.Simulating?
    case ChooseSnapshotsStep(production) => s.sim.phase.ChoosingSnapshots?
    case BroadcastSnapshotStep(c) => s.sim.phase.Snapshots? && c in s.sim.todo && c in s.sessions
    case SnapshotsDoneStep => s.sim.phase.Snapshots? && s.sim.todo == {}
    case HttpDrainStep => s.http.job.None? && s.http.batch == [] && s.http.requests != []
    case HttpTakeStep => s.http.job.None? && s.http.batch != []
    case HttpAnswerStep(a) => s.http.job.Some?
    case HttpStopStep => true
  }

  function Next(s: State, step: Step): State
    requires Allowed(s, step)
  {
    match step
    case ConnectStep(p) => Connect(s, p)
    case DisconnectStep(p) => Disconnect(s, p)
    case ReceiveStep(p, channel, data) => Receive(s, p, channel, data)
    case ReceivePushStep => ReceivePush(s)
    case DrainOutgoingStep => DrainOutgoing(s)
    case SendReliableStep(o, uid) => SendReliable(s, o, uid)
    case AllocateSnapshotStep(c) => AllocateSnapshot(s, c)
    case SendSnapshotStep(o) => SendSnapshot(s, o)
    case SendingDoneStep => SendingDone(s)
    case AcknowledgeStep(uid) => Acknowledge(s, uid)
    case FreeStep(uid) => FreePacket(s, uid)
    case BeginTickStep(tick) => BeginTick(s, tick)
    case DrainVerdictsStep => DrainVerdicts(s)
    case HandleInStep(h) => HandleIn(s, h)
    case PushHandStep => PushHand(s)
    case InMessagesDoneStep => AtPhase(s, VerdictMessages)
    case HandleVerdictStep => HandleVerdict(s)
    case VerdictMessagesDoneStep => AtPhase(s, Gate)
    case CheckGateStep => CheckGate(s)
    case DecideStep(countdown) => Decide(s, countdown)
    case LockStep => Lock(s)
    case BroadcastStep(c) => Broadcast(s, c)
    case BroadcastDoneStep => BroadcastDone(s)
    case OpenStep => Open(s)
    case SimulateStep => Simulate(s)
    case ChooseSnapshotsStep(production) => ChooseSnapshots(s, production)
    case BroadcastSnapshotStep(c) => BroadcastSnapshot(s, c)
    case SnapshotsDoneStep => AtPhase(s, Idle)
    case HttpDrainStep => HttpDrain(s)
    case HttpTakeStep => HttpTake(s)
    case HttpAnswerStep(a) => HttpAnswer(s, a)
    case HttpStopStep => s.(http := s.http.(stopped := true))
  }
}
