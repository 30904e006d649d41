/** Who writes what. The simulation thread takes the session lock several times in one
    tick; this module says what the other two threads can do in between. */
module Threads {
  import opened Wrappers
  import opened Bytes
  import opened Messages
  import opened Preparation
  import opened Lifecycle

  predicate IsNetworkStep(step: Step) {
    step.ConnectStep? || step.DisconnectStep? || step.ReceiveStep? || step.ReceivePushStep? || step.DrainOutgoingStep? || IsSendStep(step) ||
    step.SendingDoneStep? || step.AcknowledgeStep? || step.FreeStep?
  }

  predicate IsSendStep(step: Step) {
    step.SendReliableStep? || step.AllocateSnapshotStep? || step.SendSnapshotStep?
  }

  predicate IsHttpStep(step: Step) {
    step.HttpDrainStep? || step.HttpTakeStep? || step.HttpAnswerStep? || step.HttpStopStep?
  }

  predicate IsSimulationStep(step: Step) {
    !IsNetworkStep(step) && !IsHttpStep(step)
  }

  // ---------------------------------------------------------------------------
  // What only grows
  // ---------------------------------------------------------------------------

  /** The start is decided, or its messages are under way, or sent. */
  predicate Decided(s: State) {
    s.game.startSent || s.sim.phase == Locking(StartStage) || s.sim.phase == Broadcasting(StartStage)
  }

  predicate LaterHistory(a: State, b: State) {
    && a.ins.log <= b.ins.log && a.ins.processed <= b.ins.processed && a.ins.seen <= b.ins.seen
    && a.auths.asked <= b.auths.asked && a.auths.answered <= b.auths.answered && a.auths.applied <= b.auths.applied
    && a.secures.accepted <= b.secures.accepted && a.secures.acked <= b.secures.acked && a.secures.refused <= b.secures.refused
    && a.outs.log <= b.outs.log && a.outs.handled <= b.outs.handled && a.outs.kicks <= b.outs.kicks
    && a.outs.reliableSent <= b.outs.reliableSent && a.outs.snapshotsSent <= b.outs.snapshotsSent
  }

  predicate LaterMatch(a: State, b: State) {
    && (a.game.initSent ==> b.game.initSent)
    && (a.game.worldSent ==> b.game.worldSent)
    && (a.game.startSent ==> b.game.startSent)
    && (a.game.started ==> b.game.started)
    && a.matches.worldTicks <= b.matches.worldTicks
    && a.sim.tick <= b.sim.tick
    && a.net.nextId <= b.net.nextId
    && (Decided(a) ==> Decided(b) && b.game.startTick == a.game.startTick && b.matches.record == a.matches.record)
  }

  predicate Later(a: State, b: State) {
    LaterHistory(a, b) && LaterMatch(a, b)
  }

  // ---------------------------------------------------------------------------
  // Frames
  // ---------------------------------------------------------------------------

  /** Equal but for the packet encryption flag and the snapshot counters. */
  predicate SameForSimulation(x: Session, y: Session) {
    y == x.(encrypted := y.encrypted, nextSnapshot := y.nextSnapshot, lastSnapshot := y.lastSnapshot,
        allocations := y.allocations)
  }

  ghost predicate SessionsSameForSimulation(a: map<ConnId, Session>, b: map<ConnId, Session>) {
    a.Keys == b.Keys && forall c :: c in a ==> SameForSimulation(a[c], b[c]) && (a[c].encrypted ==> b[c].encrypted)
  }

  /** A step of the network thread, seen from the other threads. */
  ghost predicate NetworkFrame(s: State, t: State) {
    && t.sim == s.sim && t.http == s.http && t.auths == s.auths && t.matches == s.matches && t.game == s.game
    && t.secures.accepted == s.secures.accepted && t.ins.processed == s.ins.processed && t.ins.seen == s.ins.seen
        && t.outs.log == s.outs.log
    && SessionsSameForSimulation(s.sessions, t.sessions)
    && s.incoming <= t.incoming
    && Later(s, t)
  }

  /** A step of the HTTP thread touches the HTTP queues only. */
  predicate HttpFrame(s: State, t: State) {
    t == s.(http := t.http) && s.http.verdicts <= t.http.verdicts
  }

  /** The simulation only takes verdicts: the queue as a whole, then one at a time. */
  predicate VerdictsTaken(s: State, t: State) {
    || (t.sim.verdicts == s.sim.verdicts && t.http.verdicts == s.http.verdicts)
    || (t.sim.verdicts == s.http.verdicts && t.http.verdicts == [])
    || (s.sim.verdicts != [] && t.sim.verdicts == s.sim.verdicts[1..] && t.http.verdicts == s.http.verdicts)
  }

  /** A step of the simulation thread, seen from the network thread. */
  predicate SimulationFrame(s: State, t: State) {
    && t.net == s.net && t.secures.acked == s.secures.acked && t.ins.log == s.ins.log
    && t.outs == s.outs.(log := t.outs.log)
    && VerdictsTaken(s, t)
    && t.http.batch == s.http.batch && t.http.job == s.http.job && s.http.requests <= t.http.requests
    && Later(s, t)
  }

  lemma SessionsSameRefl(a: map<ConnId, Session>)
    ensures SessionsSameForSimulation(a, a)
  {
  }

  /** Writing one session, in what the simulation does not read. */
  lemma SessionsSameUpdate(a: map<ConnId, Session>, c: ConnId, x: Session)
    requires c in a && SameForSimulation(a[c], x) && (a[c].encrypted ==> x.encrypted)
    ensures SessionsSameForSimulation(a, a[c := x])
  {
    hide SameForSimulation;
    assert a[c := x].Keys == a.Keys;
    forall d | d in a
      ensures SameForSimulation(a[d], a[c := x][d])
    {
      SameRefl(a[d]);
    }
  }

  lemma SameRefl(x: Session)
    ensures SameForSimulation(x, x)
  {
  }

  lemma ConnectFrame(s: State, p: Peer)
    ensures NetworkFrame(s, Connect(s, p)) && NetworkFrame(s, Disconnect(s, p))
    ensures Connect(s, p).secures.acked == Disconnect(s, p).secures.acked == s.secures.acked
  {
    hide SessionsSameForSimulation;
    SessionsSameRefl(s.sessions);
  }

  lemma ReceiveFrame(s: State, p: Option<Peer>, channel: nat, data: seq<byte>)
    ensures NetworkFrame(s, Receive(s, p, channel, data)) && Receive(s, p, channel, data).secures.acked == s.secures.acked
    ensures s.net.control.Delivering? ==> NetworkFrame(s, ReceivePush(s)) && ReceivePush(s).secures.acked == s.secures.acked
  {
    hide SessionsSameForSimulation, DispatchByChannel, ValidatedConnectionIdOrZero;
    SessionsSameRefl(s.sessions);
  }

  lemma SendReliableFrame(s: State, o: SendOutcome, uid: nat)
    requires s.net.control.Sending? && s.net.control.prepared.reliable != []
    ensures NetworkFrame(s, SendReliable(s, o, uid)) && SendReliable(s, o, uid).secures.acked == s.secures.acked
  {
    hide SessionsSameForSimulation, SendReliableMsg, BoundId;
    SessionsSameRefl(s.sessions);
  }

  lemma NetAndSessionsFrame(s: State, net: Net, sessions: map<ConnId, Session>)
    requires net.nextId == s.net.nextId && SessionsSameForSimulation(s.sessions, sessions)
    ensures NetworkFrame(s, s.(net := net, sessions := sessions))
  {
    hide SessionsSameForSimulation;
  }

  lemma AllocateFrame(s: State, c: ConnId)
    requires s.net.control.Sending? && c in s.net.control.prepared.snapshots
    ensures NetworkFrame(s, AllocateSnapshot(s, c)) && AllocateSnapshot(s, c).secures.acked == s.secures.acked
  {
    hide NetworkFrame, SessionsSameForSimulation, SameForSimulation, AfterAllocation;
    var t := AllocateSnapshot(s, c);
    var id := s.net.control.prepared.snapshots[c].id;
    SessionsSameRefl(s.sessions);
    if id in s.sessions {
      AllocationIsTheirs(s.sessions[id]);
      SessionsSameUpdate(s.sessions, id, AfterAllocation(s.sessions[id]));
    }
    NetAndSessionsFrame(s, t.net, t.sessions);
    assert t == s.(net := t.net, sessions := t.sessions);
  }

  lemma AllocationIsTheirs(x: Session)
    ensures SameForSimulation(x, AfterAllocation(x)) && AfterAllocation(x).encrypted == x.encrypted
  {
  }

  lemma SendSnapshotFrame(s: State, o: SendOutcome)
    requires s.net.control.SendingSnapshot? && s.net.control.snapshot.payload.SnapshotReply?
    ensures NetworkFrame(s, SendSnapshot(s, o)) && SendSnapshot(s, o).secures.acked == s.secures.acked
  {
    hide SessionsSameForSimulation, SendPacket, BoundId;
    SessionsSameRefl(s.sessions);
  }

  lemma DrainFrame(s: State)
    ensures NetworkFrame(s, DrainOutgoing(s)) && NetworkFrame(s, SendingDone(s))
    ensures DrainOutgoing(s).secures.acked == SendingDone(s).secures.acked == s.secures.acked
    ensures forall uid :: NetworkFrame(s, FreePacket(s, uid)) && FreePacket(s, uid).secures.acked == s.secures.acked
  {
    hide SessionsSameForSimulation, Prepare;
    SessionsSameRefl(s.sessions);
  }

  lemma EnableFrame(s: State, p: Peer)
    ensures NetworkFrame(s, EnableEncryption(s, p))
  {
    if p in s.net.data && s.net.data[p] in s.sessions {
      var id := s.net.data[p];
      EncryptionIsTheirs(s.sessions[id]);
      SessionsSameUpdate(s.sessions, id, s.sessions[id].(encrypted := true));
    }
    SessionsSameRefl(s.sessions);
    hide SessionsSameForSimulation;
  }

  lemma EncryptionIsTheirs(x: Session)
    ensures SameForSimulation(x, x.(encrypted := true))
  {
  }

  lemma KickFrame(s: State, t: State, k: Kick)
    requires NetworkFrame(s, t)
    ensures NetworkFrame(s, t.(outs := t.outs.(kicks := t.outs.kicks + [k])))
  {
    hide SessionsSameForSimulation;
  }

  lemma AcknowledgeFrame(s: State, uid: nat)
    requires uid in s.net.inFlight
    ensures NetworkFrame(s, Acknowledge(s, uid))
  {
    hide NetworkFrame, StillBound, EnableEncryption;
    var x := s.net.inFlight[uid];
    EnableFrame(s, x.peer);
    KickFrame(s, EnableEncryption(s, x.peer), Kick(x.peer, BoundId(s.net, x.peer)));
    SameFrame(s);
    KickFrame(s, s, Kick(x.peer, BoundId(s.net, x.peer)));
  }

  lemma SameFrame(s: State)
    ensures NetworkFrame(s, s)
  {
  }

  lemma NetworkKeeps(s: State, step: Step)
    requires Allowed(s, step) && IsNetworkStep(step)
    ensures NetworkFrame(s, Next(s, step))
    ensures !step.AcknowledgeStep? ==> Next(s, step).secures.acked == s.secures.acked
  {
    hide NetworkFrame, Connect, Disconnect, Receive, ReceivePush, DrainOutgoing, SendReliable, AllocateSnapshot,
         SendSnapshot, SendingDone, Acknowledge, FreePacket;
    match step
    case ConnectStep(p) => ConnectFrame(s, p);
    case DisconnectStep(p) => ConnectFrame(s, p);
    case ReceiveStep(p, channel, data) => ReceiveFrame(s, p, channel, data);
    case ReceivePushStep => ReceiveFrame(s, None, 0, []);
    case SendReliableStep(o, uid) => SendReliableFrame(s, o, uid);
    case AllocateSnapshotStep(c) => AllocateFrame(s, c);
    case SendSnapshotStep(o) => SendSnapshotFrame(s, o);
    case AcknowledgeStep(uid) => AcknowledgeFrame(s, uid);
    case DrainOutgoingStep => DrainFrame(s);
    case SendingDoneStep => DrainFrame(s);
    case FreeStep(uid) => DrainFrame(s);
    case _ =>
  }

  lemma HttpKeeps(s: State, step: Step)
    requires Allowed(s, step) && IsHttpStep(step)
    ensures HttpFrame(s, Next(s, step)) && Later(s, Next(s, step))
  {
    hide Later, LaterHistory, LaterMatch;
    HttpKeepsHistories(s, step);
  }

  lemma HttpKeepsHistories(s: State, step: Step)
    requires Allowed(s, step) && IsHttpStep(step)
    ensures Later(s, Next(s, step))
  {
  }

  lemma DrainsFrame(s: State, tick: nat)
    ensures s.sim.phase.DrainingVerdicts? ==> SimulationFrame(s, DrainVerdicts(s))
    ensures s.sim.phase.Idle? && s.sim.tick < tick ==> SimulationFrame(s, BeginTick(s, tick))
  {
  }

  lemma HandleInFrame(s: State, h: Handshake)
    requires s.sim.inBatch != [] && s.sim.phase.InMessages?
    ensures SimulationFrame(s, HandleIn(s, h))
  {
    hide HandleIncoming;
  }

  lemma HandleVerdictFrame(s: State)
    requires s.sim.verdicts != [] && s.sim.phase.VerdictMessages?
    ensures SimulationFrame(s, HandleVerdict(s))
  {
    hide ApplyVerdict;
  }

  lemma PushFrame(s: State, c: ConnId)
    ensures SimulationFrame(s, PushHand(s))
    ensures s.sim.phase.Broadcasting? && c in s.sessions ==> SimulationFrame(s, Broadcast(s, c))
    ensures c in s.sessions ==> SimulationFrame(s, BroadcastSnapshot(s, c))
  {
    hide StageMsg, SnapshotMsg;
  }

  lemma PhaseFrame(s: State, phase: Phase)
    requires !s.sim.phase.Locking? && !s.sim.phase.Broadcasting?
    ensures SimulationFrame(s, AtPhase(s, phase))
  {
  }

  lemma DecideFrame(s: State, countdown: nat)
    requires s.sim.phase.Deciding?
    ensures SimulationFrame(s, Decide(s, countdown))
  {
    hide AllReady;
  }

  lemma LockFrame(s: State)
    requires s.sim.phase.Locking?
    ensures SimulationFrame(s, Lock(s))
  {
  }

  lemma BroadcastDoneFrame(s: State)
    requires s.sim.phase.Broadcasting?
    ensures SimulationFrame(s, BroadcastDone(s))
  {
  }

  lemma EndFrame(s: State, production: bool)
    ensures s.sim.phase.Opening? ==> SimulationFrame(s, Open(s))
    ensures s.sim.phase.Simulating? ==> SimulationFrame(s, Simulate(s))
    ensures s.sim.phase.ChoosingSnapshots? ==> SimulationFrame(s, ChooseSnapshots(s, production))
  {
  }

  lemma SimulationKeeps(s: State, step: Step)
    requires Allowed(s, step) && IsSimulationStep(step)
    ensures SimulationFrame(s, Next(s, step))
  {
    hide SimulationFrame, BeginTick, DrainVerdicts, HandleIn, PushHand, HandleVerdict, AtPhase, Decide, Lock,
         Broadcast, BroadcastDone, Open, Simulate,
         ChooseSnapshots, BroadcastSnapshot;
    match step
    case BeginTickStep(tick) => DrainsFrame(s, tick);
    case DrainVerdictsStep => DrainsFrame(s, 0);
    case HandleInStep(h) => HandleInFrame(s, h);
    case HandleVerdictStep => HandleVerdictFrame(s);
    case PushHandStep => PushFrame(s, 0);
    case BroadcastStep(c) => PushFrame(s, c);
    case BroadcastSnapshotStep(c) => PushFrame(s, c);
    case InMessagesDoneStep => PhaseFrame(s, VerdictMessages);
    case VerdictMessagesDoneStep => PhaseFrame(s, Gate);
    case CheckGateStep => PhaseFrame(s, Simulating); PhaseFrame(s, Deciding(InitStage));
    case SnapshotsDoneStep => PhaseFrame(s, Idle);
    case DecideStep(countdown) => DecideFrame(s, countdown);
    case LockStep => LockFrame(s);
    case BroadcastDoneStep => BroadcastDoneFrame(s);
    case OpenStep => EndFrame(s, false);
    case SimulateStep => EndFrame(s, false);
    case ChooseSnapshotsStep(production) => EndFrame(s, production);
    case _ =>
  }

  /** Only the two message handlers of the simulation write sessions. */
  lemma OnlyHandlersWriteSessions(s: State, step: Step)
    requires Allowed(s, step) && !IsNetworkStep(step) && !step.HandleInStep? && !step.HandleVerdictStep?
    ensures Next(s, step).sessions == s.sessions && Next(s, step).net == s.net
  {
    hide StageMsg, SnapshotMsg, AllReady;
  }

  lemma LaterStep(s: State, step: Step)
    requires Allowed(s, step)
    ensures Later(s, Next(s, step))
  {
    hide Later, Allowed, Next;
    if IsNetworkStep(step) {
      NetworkKeeps(s, step);
    } else if IsHttpStep(step) {
      HttpKeeps(s, step);
    } else {
      SimulationKeeps(s, step);
    }
  }

  /** Between two lock acquisitions of one tick the other threads neither add nor
      remove a session nor change a readiness or an authentication status, so the
      several looks CheckMatchFlow takes at the table agree. */
  lemma OtherThreadsKeepReadiness(s: State, step: Step)
    requires Allowed(s, step) && !IsSimulationStep(step)
    ensures
      var t := Next(s, step);
      t.sim == s.sim && t.sessions.Keys == s.sessions.Keys && AllReady(t.sessions) == AllReady(s.sessions)
    ensures forall c :: c in s.sessions ==> c in Next(s, step).sessions && Next(s, step).sessions[c].auth == s.sessions[c].auth
  {
    hide Allowed, Next;
    if IsNetworkStep(step) {
      NetworkKeeps(s, step);
      assert |Next(s, step).sessions.Keys| == |s.sessions.Keys|;
    } else {
      HttpKeeps(s, step);
    }
  }
}
