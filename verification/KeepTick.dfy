/** The phases of a simulation tick and the HTTP thread keep the invariant. */
module KeepTick {
  import opened Wrappers
  import opened Messages
  import opened Sequences
  import opened Membership
  import opened Lifecycle
  import opened Invariant
  import opened KeepEvents
  import opened KeepSending
  import opened KeepIncoming

  ghost predicate KeepsRecent(sim: Sim, sim': Sim) {
    forall t: nat, c: ConnId :: Recent(t, c, sim) ==> Recent(t, c, sim')
  }

  /** A step of the simulation thread that pushes nothing and touches no session. */
  lemma KeepFlowStep(s: State, sim: Sim, game: Match, matches: MatchHistory)
    requires Inv(s)
    requires sim.inBatch == s.sim.inBatch && sim.verdicts == s.sim.verdicts && sim.hand == s.sim.hand
    requires KeepsRecent(s.sim, sim) && PhaseOk(sim)
    requires Flow(game, sim, s.sessions.Keys, matches) && StartRecorded(game, sim, matches) && MatchPushes(s.outs.log, matches)
    ensures Inv(s.(sim := sim, game := game, matches := matches))
  {
    hide Binding, Life, LogGrammar, GuardsHold, SessionsOk, Mirror, AuthLine, VerdictsApplied, AuthReplies,
         ReliableLine, ReliableSent, Outgoing;
    hide Stream, MatchPushes, Flow, StartRecorded, AuthItems, Recent;
    StreamUnderSim(s.outs.snapshotsSent, s.net.control, s.outgoing, s.sim, sim, s.sessions, s.ins.seen);
    assert Pending(s.(sim := sim, game := game, matches := matches)) == Pending(s);
  }

  /** The changes of phase that change nothing else. */
  predicate PhaseStep(game: Match, sim: Sim, phase: Phase) {
    match sim.phase
    case InMessages => phase == VerdictMessages && sim.inBatch == []
    case VerdictMessages => phase == Gate && sim.verdicts == []
    case Gate => phase == Simulating || phase == Deciding(InitStage)
    case Deciding(InitStage) => phase == if !game.initSent then Locking(InitStage) else Deciding(WorldStage)
    case Deciding(WorldStage) => phase == if !game.worldSent then Locking(WorldStage) else Deciding(StartStage)
    case Deciding(StartStage) => phase == Opening
    case ChoosingSnapshots => phase == Idle
    case Snapshots => phase == Idle && sim.todo == {}
    case _ => false
  }

  lemma FlowAtPhase(game: Match, sim: Sim, phase: Phase, keys: set<ConnId>, matches: MatchHistory)
    requires Flow(game, sim, keys, matches) && StartRecorded(game, sim, matches) && PhaseOk(sim)
    requires PhaseStep(game, sim, phase) && sim.hand == EmptyHand
    ensures
      var sim' := sim.(phase := phase);
      KeepsRecent(sim, sim') && PhaseOk(sim') && Flow(game, sim', keys, matches) && StartRecorded(game, sim', matches)
  {
  }

  lemma KeepPhase(s: State, phase: Phase)
    requires Inv(s) && PhaseStep(s.game, s.sim, phase) && s.sim.hand == EmptyHand
    ensures Inv(AtPhase(s, phase))
  {
    hide Inv, Flow, StartRecorded, MatchPushes, PhaseStep, PhaseOk, KeepsRecent;
    InvFlow(s);
    InvMatchPushes(s);
    FlowAtPhase(s.game, s.sim, phase, s.sessions.Keys, s.matches);
    KeepFlowStep(s, s.sim.(phase := phase), s.game, s.matches);
    assert AtPhase(s, phase) == s.(sim := s.sim.(phase := phase), game := s.game, matches := s.matches);
  }

  /** Outside the message phases the hand is empty. */
  lemma InvHandEmpty(s: State)
    requires Inv(s) && s.sim.phase != InMessages && s.sim.phase != VerdictMessages
    ensures s.sim.hand == EmptyHand
  {
  }

  lemma InvMatchPushes(s: State)
    requires Inv(s)
    ensures MatchPushes(s.outs.log, s.matches)
  {
  }

  /** The groups a change of phase must re-establish. */
  lemma InvFlow(s: State)
    requires Inv(s)
    ensures Flow(s.game, s.sim, s.sessions.Keys, s.matches) && StartRecorded(s.game, s.sim, s.matches) && PhaseOk(s.sim)
  {
  }

  lemma KeepBeginTick(s: State, tick: nat)
    requires Inv(s) && s.sim.phase.Idle? && s.sim.tick < tick && tick + TWO_32 <= TWO_64
    ensures Inv(BeginTick(s, tick))
  {
    hide Binding, Life, LogGrammar, GuardsHold, SessionsOk, Mirror, AuthLine, VerdictsApplied, AuthReplies,
         ReliableLine, ReliableSent, Outgoing;
    hide Stream, MatchPushes, AuthItems;
    var t := BeginTick(s, tick);
    StreamUnderSim(s.outs.snapshotsSent, s.net.control, s.outgoing, s.sim, t.sim, s.sessions, s.ins.seen);
    assert Pending(t) == Pending(s);
    assert s.sim.inBatch + s.incoming == t.sim.inBatch + t.incoming;
  }

  lemma KeepDrainVerdicts(s: State)
    requires Inv(s) && s.sim.phase.DrainingVerdicts?
    ensures Inv(DrainVerdicts(s))
  {
    hide Binding, Life, LogGrammar, GuardsHold, SessionsOk, Mirror, AuthLine, VerdictsApplied, AuthReplies,
         ReliableLine, ReliableSent, Outgoing;
    hide Stream, MatchPushes;
    var t := DrainVerdicts(s);
    StreamUnderSim(s.outs.snapshotsSent, s.net.control, s.outgoing, s.sim, t.sim, s.sessions, s.ins.seen);
    assert Pending(t) == Pending(s);
    assert Items(t) == Items(s);
  }

  lemma KeepInMessagesDone(s: State)
    requires Inv(s) && s.sim.phase.InMessages? && s.sim.hand.EmptyHand? && s.sim.inBatch == []
    ensures Inv(AtPhase(s, VerdictMessages))
  {
    hide Inv;
    KeepPhase(s, VerdictMessages);
  }

  lemma KeepVerdictMessagesDone(s: State)
    requires Inv(s) && s.sim.phase.VerdictMessages? && s.sim.hand.EmptyHand? && s.sim.verdicts == []
    ensures Inv(AtPhase(s, Gate))
  {
    hide Inv;
    KeepPhase(s, Gate);
  }

  lemma KeepCheckGate(s: State)
    requires Inv(s) && s.sim.phase.Gate?
    ensures Inv(CheckGate(s))
  {
    hide Inv;
    InvHandEmpty(s);
    KeepPhase(s, if |s.sessions| < MAX_CLIENTS then Simulating else Deciding(InitStage));
  }

  /** Everybody ready means everybody authenticated and encrypted: readiness was only
      ever set behind those guards. */
  lemma ReadyMeansValidAndEncrypted(sessions: map<ConnId, Session>, acked: set<ConnId>)
    requires SessionsOk(sessions, acked) && AllReady(sessions)
    ensures forall c :: c in sessions ==> sessions[c].ready && sessions[c].auth == Valid && sessions[c].encrypted
  {
  }

  lemma InvSessions(s: State)
    requires Inv(s)
    ensures SessionsOk(s.sessions, s.secures.acked) && (s.sim.phase != Idle ==> s.sim.tick >= 0)
  {
  }

  /** Deciding the start: the record is made of what the readiness test saw. */
  lemma FlowStart(game: Match, sim: Sim, keys: set<ConnId>, matches: MatchHistory, countdown: nat, r: StartRecord)
    requires Flow(game, sim, keys, matches) && StartRecorded(game, sim, matches) && PhaseOk(sim)
    requires sim.phase == Deciding(StartStage) && !game.startSent && countdown < TWO_32
    requires StartDecided(r) && r.tick == sim.tick && r.countdown == countdown
    ensures
      var sim' := sim.(phase := Locking(StartStage), countdown := countdown);
      var game' := game.(startTick := (r.tick + countdown) % TWO_64);
      var matches' := matches.(record := Some(r));
      KeepsRecent(sim, sim') && PhaseOk(sim') && Flow(game', sim', keys, matches') && StartRecorded(game', sim', matches')
  {
    hide StartDecided;
  }

  lemma DecideStart(s: State, countdown: nat)
    requires s.sim.phase == Deciding(StartStage) && !s.game.startSent && AllReady(s.sessions) && s.sim.tick >= 0
    ensures Decide(s, countdown) == s.(
      sim := s.sim.(phase := Locking(StartStage), countdown := countdown),
      game := s.game.(startTick := (s.sim.tick + countdown) % TWO_64),
      matches := s.matches.(record := Some(StartRecord(s.sim.tick, countdown, s.sessions))))
  {
  }

  lemma KeepDecideStart(s: State, countdown: nat)
    requires Inv(s) && s.sim.phase == Deciding(StartStage) && countdown < TWO_32
    requires !s.game.startSent && AllReady(s.sessions)
    ensures Inv(Decide(s, countdown))
  {
    hide Inv, MatchPushes, Flow, StartRecorded, PhaseOk, KeepsRecent, SessionsOk, Decide, StartDecided, AllReady;
    InvFlow(s);
    InvMatchPushes(s);
    InvSessions(s);
    var r := StartRecord(s.sim.tick, countdown, s.sessions);
    var matches := s.matches.(record := Some(r));
    StartIsDecided(s.sessions, s.secures.acked, r);
    FlowStart(s.game, s.sim, s.sessions.Keys, s.matches, countdown, r);
    MatchPushesSameSets(s.outs.log, s.matches, matches);
    DecideStart(s, countdown);
    KeepFlowStep(s, s.sim.(phase := Locking(StartStage), countdown := countdown),
        s.game.(startTick := (s.sim.tick + countdown) % TWO_64), matches);
  }

  lemma StartIsDecided(sessions: map<ConnId, Session>, acked: set<ConnId>, r: StartRecord)
    requires SessionsOk(sessions, acked) && AllReady(sessions) && r.sessions == sessions && r.countdown < TWO_32
    ensures StartDecided(r)
  {
    ReadyMeansValidAndEncrypted(sessions, acked);
  }

  lemma KeepDecide(s: State, countdown: nat)
    requires Inv(s) && s.sim.phase.Deciding? && countdown < TWO_32
    ensures Inv(Decide(s, countdown))
  {
    hide Inv, AllReady;
    InvHandEmpty(s);
    if s.sim.phase == Deciding(StartStage) && !s.game.startSent && AllReady(s.sessions) {
      KeepDecideStart(s, countdown);
    } else {
      KeepPhase(s, Decide(s, countdown).sim.phase);
    }
  }

  lemma MatchPushesSameSets(log: seq<OutMsg>, a: MatchHistory, b: MatchHistory)
    requires MatchPushes(log, a) && a.init == b.init && a.world == b.world && a.start == b.start
    ensures MatchPushes(log, b)
  {
  }

  lemma FlowLock(game: Match, sim: Sim, keys: set<ConnId>, matches: MatchHistory)
    requires Flow(game, sim, keys, matches) && StartRecorded(game, sim, matches) && PhaseOk(sim) && sim.phase.Locking?
    ensures
      var sim' := sim.(phase := Broadcasting(sim.phase.stage), todo := keys);
      KeepsRecent(sim, sim') && PhaseOk(sim') && Flow(game, sim', keys, matches) && StartRecorded(game, sim', matches)
  {
    hide StartDecided;
  }

  lemma KeepLock(s: State)
    requires Inv(s) && s.sim.phase.Locking?
    ensures Inv(Lock(s))
  {
    hide Inv, MatchPushes, Flow, StartRecorded, PhaseOk, KeepsRecent;
    InvFlow(s);
    InvMatchPushes(s);
    var t := Lock(s);
    FlowLock(s.game, s.sim, s.sessions.Keys, s.matches);
    KeepFlowStep(s, t.sim, s.game, s.matches);
    assert t == s.(sim := t.sim, game := s.game, matches := s.matches);
  }

  lemma FlowBroadcastDone(s: State)
    requires Flow(s.game, s.sim, s.sessions.Keys, s.matches) && StartRecorded(s.game, s.sim, s.matches) && PhaseOk(s.sim)
    requires s.sim.phase.Broadcasting? && s.sim.todo == {}
    ensures
      var t := BroadcastDone(s);
      KeepsRecent(s.sim, t.sim) && PhaseOk(t.sim) && Flow(t.game, t.sim, s.sessions.Keys, s.matches)
          && StartRecorded(t.game, t.sim, s.matches)
  {
    hide StartDecided;
  }

  lemma KeepBroadcastDone(s: State)
    requires Inv(s) && s.sim.phase.Broadcasting? && s.sim.todo == {}
    ensures Inv(BroadcastDone(s))
  {
    hide Inv, MatchPushes, Flow, StartRecorded, PhaseOk, KeepsRecent;
    InvFlow(s);
    InvMatchPushes(s);
    var t := BroadcastDone(s);
    FlowBroadcastDone(s);
    KeepFlowStep(s, t.sim, t.game, s.matches);
    assert t == s.(sim := t.sim, game := t.game, matches := s.matches);
  }

  lemma FlowOpen(s: State)
    requires Flow(s.game, s.sim, s.sessions.Keys, s.matches) && StartRecorded(s.game, s.sim, s.matches)
        && PhaseOk(s.sim) && s.sim.phase.Opening?
    ensures
      var t := Open(s);
      KeepsRecent(s.sim, t.sim) && PhaseOk(t.sim) && Flow(t.game, t.sim, s.sessions.Keys, s.matches)
          && StartRecorded(t.game, t.sim, s.matches)
  {
    hide StartDecided;
  }

  lemma KeepOpen(s: State)
    requires Inv(s) && s.sim.phase.Opening?
    ensures Inv(Open(s))
  {
    hide Inv, MatchPushes, Flow, StartRecorded, PhaseOk, KeepsRecent;
    InvFlow(s);
    InvMatchPushes(s);
    var t := Open(s);
    FlowOpen(s);
    KeepFlowStep(s, t.sim, t.game, s.matches);
    assert t == s.(sim := t.sim, game := t.game, matches := s.matches);
  }

  lemma FlowSimulate(s: State)
    requires Flow(s.game, s.sim, s.sessions.Keys, s.matches) && StartRecorded(s.game, s.sim, s.matches)
        && PhaseOk(s.sim) && s.sim.phase.Simulating?
    ensures
      var t := Simulate(s);
      KeepsRecent(s.sim, t.sim) && PhaseOk(t.sim) && Flow(s.game, t.sim, s.sessions.Keys, t.matches)
          && StartRecorded(s.game, t.sim, t.matches)
  {
    hide StartDecided;
  }

  lemma KeepSimulate(s: State)
    requires Inv(s) && s.sim.phase.Simulating?
    ensures Inv(Simulate(s))
  {
    hide Inv, MatchPushes, Flow, StartRecorded, PhaseOk, KeepsRecent;
    InvFlow(s);
    InvMatchPushes(s);
    var t := Simulate(s);
    FlowSimulate(s);
    MatchPushesSameSets(s.outs.log, s.matches, t.matches);
    KeepFlowStep(s, t.sim, s.game, t.matches);
    assert t == s.(sim := t.sim, game := s.game, matches := t.matches);
  }

  lemma FlowChooseSnapshots(s: State)
    requires Flow(s.game, s.sim, s.sessions.Keys, s.matches) && StartRecorded(s.game, s.sim, s.matches) && PhaseOk(s.sim)
    requires s.sim.phase.ChoosingSnapshots?
    ensures
      var t := ChooseSnapshots(s, true);
      KeepsRecent(s.sim, t.sim) && PhaseOk(t.sim) && Flow(s.game, t.sim, s.sessions.Keys, s.matches)
          && StartRecorded(s.game, t.sim, s.matches)
  {
    hide StartDecided;
  }

  lemma KeepChooseSnapshots(s: State, production: bool)
    requires Inv(s) && s.sim.phase.ChoosingSnapshots?
    ensures Inv(ChooseSnapshots(s, production))
  {
    hide Inv, MatchPushes, Flow, StartRecorded, PhaseOk, KeepsRecent;
    InvHandEmpty(s);
    InvFlow(s);
    InvMatchPushes(s);
    var t := ChooseSnapshots(s, production);
    if production {
      FlowChooseSnapshots(s);
      KeepFlowStep(s, t.sim, s.game, s.matches);
      assert t == s.(sim := t.sim, game := s.game, matches := s.matches);
    } else {
      KeepPhase(s, Idle);
    }
  }

  lemma KeepSnapshotsDone(s: State)
    requires Inv(s) && s.sim.phase.Snapshots? && s.sim.todo == {}
    ensures Inv(AtPhase(s, Idle))
  {
    hide Inv;
    InvHandEmpty(s);
    KeepPhase(s, Idle);
  }

  // ---------------------------------------------------------------------------
  // Pushes to every session
  // ---------------------------------------------------------------------------

  lemma AuthRepliesPushOther(log: seq<OutMsg>, applied: seq<Verdict>, m: OutMsg)
    requires AuthReplies(log, EmptyHand, applied) && m.kind != AuthResponseOut
    ensures AuthReplies(log + [m], EmptyHand, applied)
  {
    assert log + HandReply(EmptyHand) == log && log + [m] + HandReply(EmptyHand) == log + [m];
    FilterPush(AuthReplyKind(), log, m);
  }

  /** A step of the simulation thread that pushes one message with an empty hand. */
  lemma KeepPushStep(s: State, m: OutMsg, sim: Sim, matches: MatchHistory)
    requires Inv(s) && s.sim.hand == EmptyHand
    requires sim.inBatch == s.sim.inBatch && sim.verdicts == s.sim.verdicts && sim.hand == s.sim.hand && PhaseOk(sim)
    requires OutOk(m, s.ins.seen, s.secures) && m.kind != AuthResponseOut
    requires Stream(s.outs.snapshotsSent, s.net.control, s.outgoing + [m], sim, s.sessions, s.ins.seen)
    requires Flow(s.game, sim, s.sessions.Keys, matches) && StartRecorded(s.game, sim, matches)
        && MatchPushes(s.outs.log + [m], matches)
    ensures Inv(EnqueueOut(s, m).(sim := sim, matches := matches))
  {
    hide Binding, Life, LogGrammar, GuardsHold, SessionsOk, Mirror, AuthLine, VerdictsApplied, AuthReplies,
         ReliableLine, ReliableSent, Outgoing;
    hide Stream, MatchPushes, Flow, StartRecorded, AuthItems, OutOk;
    var t := EnqueueOut(s, m).(sim := sim, matches := matches);
    OutgoingPush(s.net.control, s.outgoing, s.sim.hand, s.net.inFlight, s.outs.kicks, s.ins.seen, s.secures, m);
    ReliableLinePush(s.outs.log, s.outs.handled, s.net.control, s.outgoing, m);
    AuthRepliesPushOther(s.outs.log, s.auths.applied, m);
    assert Pending(t) == Pending(s);
  }

  /** The id a session carries is its key, so a message for a session goes to the
      connection it belongs to, which was seen. */
  lemma SessionTarget(s: State, c: ConnId)
    requires Inv(s) && c in s.sessions
    ensures s.sessions[c].id == c && c in s.ins.seen
  {
    hide Binding, LogGrammar, GuardsHold, Mirror, AuthLine, VerdictsApplied, AuthReplies, ReliableLine, ReliableSent,
         Outgoing;
    hide Stream, MatchPushes, Flow, StartRecorded, AuthItems, Life;
    assert SessionOk(c, s.sessions[c], s.secures.acked);
    LiveIsSeen(s.net.nextId, s.net.peers.Keys, s.sessions.Keys, s.ins.seen, Pending(s), c);
  }

  lemma MatchPushesPush(log: seq<OutMsg>, a: MatchHistory, b: MatchHistory, m: OutMsg, c: ConnId)
    requires MatchPushes(log, a) && m.id == c && IsMatchKind(m.kind)
    requires ExpectedKinds(b, c) == ExpectedKinds(a, c) + [m.kind]
    requires forall d: ConnId :: d != c ==> ExpectedKinds(b, d) == ExpectedKinds(a, d)
    ensures MatchPushes(log + [m], b)
  {
  }

  lemma InvStream(s: State)
    requires Inv(s)
    ensures Stream(s.outs.snapshotsSent, s.net.control, s.outgoing, s.sim, s.sessions, s.ins.seen)
  {
  }

  lemma BroadcastKinds(s: State, c: ConnId)
    requires Flow(s.game, s.sim, s.sessions.Keys, s.matches) && s.sim.phase.Broadcasting? && c in s.sim.todo && c in s.sessions
    ensures
      var t := Broadcast(s, c);
      && ExpectedKinds(t.matches, c) == ExpectedKinds(s.matches, c) + [StageKind(s.sim.phase.stage)]
      && (forall d: ConnId :: d != c ==> ExpectedKinds(t.matches, d) == ExpectedKinds(s.matches, d))
      && Flow(s.game, t.sim, s.sessions.Keys, t.matches)
      && (StartRecorded(s.game, s.sim, s.matches) ==> StartRecorded(s.game, t.sim, t.matches))
      && KeepsRecent(s.sim, t.sim) && (PhaseOk(s.sim) ==> PhaseOk(t.sim))
  {
    hide StartDecided;
    var t := Broadcast(s, c);
    assert c !in s.matches.start;
    match s.sim.phase.stage
    case InitStage => assert c !in s.matches.init && c !in s.matches.world;
    case WorldStage => assert c in s.matches.init && c !in s.matches.world;
    case StartStage =>
  }

  lemma KeepBroadcast(s: State, c: ConnId)
    requires Inv(s) && s.sim.phase.Broadcasting? && c in s.sim.todo && c in s.sessions
    ensures Inv(Broadcast(s, c))
  {
    hide Inv, MatchPushes, Stream, ExpectedKinds, Flow, StartRecorded, PhaseOk, Recent;
    InvFlow(s);
    InvMatchPushes(s);
    InvStream(s);
    SessionTarget(s, c);
    InvHandEmpty(s);
    var t := Broadcast(s, c);
    var m := StageMsg(s, s.sim.phase.stage, c);
    BroadcastKinds(s, c);
    MatchPushesPush(s.outs.log, s.matches, t.matches, m, c);
    StreamUnderSim(s.outs.snapshotsSent, s.net.control, s.outgoing, s.sim, t.sim, s.sessions, s.ins.seen);
    StreamPushOther(s.outs.snapshotsSent, s.net.control, s.outgoing, t.sim, s.sessions, s.ins.seen, m);
    KeepPushStep(s, m, t.sim, t.matches);
    assert t == EnqueueOut(s, m).(sim := t.sim, matches := t.matches);
  }

  /** The snapshot of this tick is newer than everything under way for `c`. */
  lemma StreamPushSnapshot(sent: seq<SentSnapshot>, control: NetControl, outgoing: seq<OutMsg>, sim: Sim,
                           sessions: map<ConnId, Session>, seen: set<ConnId>,
                           m: OutMsg, c: ConnId)
    requires Stream(sent, control, outgoing, sim, sessions, seen)
    requires sim.phase == Snapshots && c in sim.todo && IsSnapshotFor(m, c) && m.payload.tick == sim.tick
    ensures Stream(sent, control, outgoing + [m], sim.(todo := sim.todo - {c}), sessions, seen)
  {
    var sim' := sim.(todo := sim.todo - {c});
    var outgoing' := outgoing + [m];
    forall t: nat, d: ConnId | Recent(t, d, sim)
      ensures Recent(t, d, sim') && (OlderThanQueued(t, d, outgoing) ==> OlderThanQueued(t, d, outgoing'))
    {
    }
    QueuedPushSnapshot(outgoing, sim, m, c);
    hide Recent, OlderThanQueued, QueuedSnapshots;
    forall i | 0 <= i < |sent|
      ensures SentOk(sent[i], control, outgoing', sim', sessions, seen)
    {
      assert SentOk(sent[i], control, outgoing, sim, sessions, seen);
    }
  }

  lemma QueuedPushSnapshot(outgoing: seq<OutMsg>, sim: Sim, m: OutMsg, c: ConnId)
    requires QueuedSnapshots(outgoing, sim)
    requires sim.phase == Snapshots && c in sim.todo && IsSnapshotFor(m, c) && m.payload.tick == sim.tick
    ensures QueuedSnapshots(outgoing + [m], sim.(todo := sim.todo - {c}))
  {
  }

  lemma FlowSnapshotPushed(game: Match, sim: Sim, keys: set<ConnId>, matches: MatchHistory, c: ConnId)
    requires Flow(game, sim, keys, matches) && StartRecorded(game, sim, matches) && PhaseOk(sim) && sim.phase.Snapshots?
    ensures
      var sim' := sim.(todo := sim.todo - {c});
      PhaseOk(sim') && Flow(game, sim', keys, matches) && StartRecorded(game, sim', matches)
  {
    hide StartDecided;
  }

  lemma KeepBroadcastSnapshot(s: State, c: ConnId)
    requires Inv(s) && s.sim.phase.Snapshots? && c in s.sim.todo && c in s.sessions
    ensures Inv(BroadcastSnapshot(s, c))
  {
    hide Inv, MatchPushes, Stream, Flow, StartRecorded, PhaseOk, SessionsOk;
    InvFlow(s);
    InvMatchPushes(s);
    InvStream(s);
    InvSessions(s);
    SessionTarget(s, c);
    InvHandEmpty(s);
    FlowSnapshotPushed(s.game, s.sim, s.sessions.Keys, s.matches, c);
    var t := BroadcastSnapshot(s, c);
    var m := SnapshotMsg(s, s.sessions[c]);
    MatchPushesOtherKind(s.outs.log, s.matches, m);
    StreamPushSnapshot(s.outs.snapshotsSent, s.net.control, s.outgoing, s.sim, s.sessions, s.ins.seen, m, c);
    KeepPushStep(s, m, t.sim, s.matches);
    assert t == EnqueueOut(s, m).(sim := t.sim, matches := s.matches);
  }

  // ---------------------------------------------------------------------------
  // HTTP thread
  // ---------------------------------------------------------------------------

  /** A step of the HTTP thread moves items along the line without changing it. */
  lemma KeepHttp(s: State, http: Http)
    requires Inv(s) && AuthItems(s.sim.verdicts, http, s.sim.hand) == Items(s)
    ensures Inv(s.(http := http))
  {
    hide Binding, Life, LogGrammar, GuardsHold, SessionsOk, Mirror, AuthLine, VerdictsApplied, AuthReplies,
         ReliableLine, ReliableSent, Outgoing;
    hide Stream, MatchPushes, Flow, StartRecorded, AuthItems;
    assert Pending(s.(http := http)) == Pending(s);
  }

  lemma KeepHttpDrain(s: State)
    requires Inv(s) && s.http.job.None? && s.http.batch == [] && s.http.requests != []
    ensures Inv(HttpDrain(s))
  {
    hide Inv;
    KeepHttp(s, HttpDrain(s).http);
  }

  lemma KeepHttpTake(s: State)
    requires Inv(s) && s.http.job.None? && s.http.batch != []
    ensures Inv(HttpTake(s))
  {
    hide Inv;
    var http := HttpTake(s).http;
    assert RequestIds(s.http.batch) == [s.http.batch[0].id] + RequestIds(http.batch);
    KeepHttp(s, http);
  }

  lemma KeepHttpAnswer(s: State, a: Answer)
    requires Inv(s) && s.http.job.Some?
    ensures Inv(HttpAnswer(s, a))
  {
    hide Inv;
    var http := HttpAnswer(s, a).http;
    assert VerdictIds(http.verdicts) == VerdictIds(s.http.verdicts) + [s.http.job.value.id];
    KeepHttp(s, http);
  }

  // ---------------------------------------------------------------------------
  // Every step
  // ---------------------------------------------------------------------------

  lemma InvNext(s: State, step: Step)
    requires Inv(s) && Allowed(s, step)
    ensures Inv(Next(s, step))
  {
    hide Inv;
    match step
    case ConnectStep(p) => KeepConnect(s, p);
    case DisconnectStep(p) => KeepDisconnect(s, p);
    case ReceiveStep(p, channel, data) => KeepReceive(s, p, channel, data);
    case ReceivePushStep => KeepReceivePush(s);
    case DrainOutgoingStep => KeepDrainOutgoing(s);
    case SendReliableStep(o, uid) => KeepSendReliable(s, o, uid);
    case AllocateSnapshotStep(c) => KeepAllocateSnapshot(s, c);
    case SendSnapshotStep(o) => KeepSendSnapshot(s, o);
    case SendingDoneStep => KeepSendingDone(s);
    case AcknowledgeStep(uid) => KeepAcknowledge(s, uid);
    case FreeStep(uid) => KeepFreePacket(s, uid);
    case BeginTickStep(tick) => KeepBeginTick(s, tick);
    case DrainVerdictsStep => KeepDrainVerdicts(s);
    case HandleInStep(h) => KeepHandleIn(s, h);
    case PushHandStep => KeepPushHand(s);
    case InMessagesDoneStep => KeepInMessagesDone(s);
    case HandleVerdictStep => KeepHandleVerdict(s);
    case VerdictMessagesDoneStep => KeepVerdictMessagesDone(s);
    case CheckGateStep => KeepCheckGate(s);
    case DecideStep(countdown) => KeepDecide(s, countdown);
    case LockStep => KeepLock(s);
    case BroadcastStep(c) => KeepBroadcast(s, c);
    case BroadcastDoneStep => KeepBroadcastDone(s);
    case OpenStep => KeepOpen(s);
    case SimulateStep => KeepSimulate(s);
    case ChooseSnapshotsStep(production) => KeepChooseSnapshots(s, production);
    case BroadcastSnapshotStep(c) => KeepBroadcastSnapshot(s, c);
    case SnapshotsDoneStep => KeepSnapshotsDone(s);
    case HttpDrainStep => KeepHttpDrain(s);
    case HttpTakeStep => KeepHttpTake(s);
    case HttpAnswerStep(a) => KeepHttpAnswer(s, a);
    case HttpStopStep => KeepHttp(s, s.http.(stopped := true));
  }
}
