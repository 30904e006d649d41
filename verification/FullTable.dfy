/** Runs with a full table: the broadcast it sets off misses a client that has only
    connected, and the world does start once everybody is ready. */
module FullTable {
  import opened Wrappers
  import opened Packets
  import opened Messages
  import opened Sequences
  import opened Preparation
  import opened Lifecycle
  import opened Invariant
  import opened Runs
  import opened Deliveries
  import opened Effects
  import opened Witness

  // ---------------------------------------------------------------------------
  // A full table
  // ---------------------------------------------------------------------------

  /** `n` clients connected one after another and nothing was handled yet. */
  predicate Queueing(s: State, n: nat) {
    && s.net.control.NetIdle? && s.net.inFlight == map[] && s.net.nextId == n + 1 && s.sessions == map[] && s.outgoing == []
    && s.http == Http([], false, [], None, []) && s.game == Match(false, false, false, false, 0) && IdleSim(s.sim) && s.sim.tick == -1
    && |s.incoming| == n && (forall i :: 0 <= i < n ==> s.incoming[i] == ConnectMsg(i + 1))
    && (forall p :: p in s.net.data ==> p < n)
    && (n > 0 ==> StillBound(s.net, 0, 1))
  }

  lemma {:induction false} ManyConnect(n: nat) returns (s: State)
    requires n <= MAX_CLIENTS
    ensures Reachable(s) && Queueing(s, n)
  {
    hide Reachable, Queueing;
    if n == 0 {
      Begins();
      s := Initial();
      EmptyQueue();
    } else {
      var a := ManyConnect(n - 1);
      s := OneConnects(a, n - 1);
    }
  }

  lemma EmptyQueue()
    ensures Queueing(Initial(), 0)
  {
  }

  lemma OneConnects(s: State, n: nat) returns (t: State)
    requires Reachable(s) && Queueing(s, n) && n < MAX_CLIENTS
    ensures Reachable(t) && Queueing(t, n + 1)
  {
    hide Reachable;
    assert IdOf(n + 1) == n + 1;
    t := Take(s, ConnectStep(n));
  }

  /** The batch is handled up to message `k`; client 1 has a fresh session. */
  predicate Filling(s: State, n: nat, k: nat) {
    && s.net.control.NetIdle? && s.net.inFlight == map[] && StillBound(s.net, 0, 1) && s.outgoing == [] && s.incoming == []
    && s.game == Match(false, false, false, false, 0)
    && s.sim.phase == InMessages && s.sim.hand == EmptyHand && s.sim.verdicts == []
    && |s.sim.inBatch| == n - k && (forall i :: 0 <= i < n - k ==> s.sim.inBatch[i] == ConnectMsg(k + i + 1))
    && |s.sessions| == k && (forall c :: c in s.sessions ==> 0 < c <= k)
    && (k > 0 ==> 1 in s.sessions && s.sessions[1] == FreshSession(1))
  }

  lemma {:induction false} ManyHandled(s: State, n: nat, k: nat) returns (t: State)
    requires Reachable(s) && Filling(s, n, k) && k <= n
    ensures Reachable(t) && Filling(t, n, n)
    decreases n - k
  {
    hide Reachable, Filling;
    if k == n {
      t := s;
    } else {
      var a := OneHandled(s, n, k);
      t := ManyHandled(a, n, k + 1);
    }
  }

  lemma OneHandled(s: State, n: nat, k: nat) returns (t: State)
    requires Reachable(s) && Filling(s, n, k) && k < n
    ensures Reachable(t) && Filling(t, n, k + 1)
  {
    hide Reachable;
    t := Take(s, HandleInStep(SigningFails));
    assert k + 1 !in s.sessions;
    assert t.sessions == s.sessions[k + 1 := FreshSession(k + 1)];
    assert t.sessions.Keys == s.sessions.Keys + {k + 1};
    assert |t.sessions| == |t.sessions.Keys| && |s.sessions| == |s.sessions.Keys|;
  }

  /** The first broadcast of a full table, up to its first packet. */
  lemma InitStageBegins(s: State, c: ConnId) returns (t: State)
    requires Reachable(s) && s.sim.phase == Gate && |s.sessions| >= MAX_CLIENTS && !s.game.initSent && c in s.sessions
    ensures Reachable(t) && t.net == s.net && t.sessions == s.sessions && t.outgoing == s.outgoing
    ensures t.sim.phase == Broadcasting(InitStage) && c in t.sim.todo
  {
    hide Reachable, Allowed, Next;
    CheckGateEffect(s);
    var a := Take(s, CheckGateStep);
    t := StageLocks(a, InitStage);
  }

  /** The packet is pushed and the network thread drains it at once. */
  lemma PacketIsPrepared(s: State, c: ConnId) returns (t: State)
    requires Reachable(s) && s.sim.phase == Broadcasting(InitStage) && c in s.sim.todo && c in s.sessions && s.sessions[c].id == c
    requires s.net.control.NetIdle? && s.outgoing == [] && s.net.inFlight == map[]
    ensures Reachable(t) && t.net == s.net.(control := t.net.control) && t.sessions == s.sessions
    ensures t.net.control.Sending? && t.net.control.prepared.reliable != []
    ensures HeadToSend(t).id == c && HeadToSend(t).kind == MatchInitOut
  {
    hide Reachable, Prepare;
    var a := Take(s, BroadcastStep(c));
    PrepareOne(a.outgoing[0]);
    t := Take(a, DrainOutgoingStep);
  }

  /** The table fills with clients that have only connected. The packet that opens the
      match reaches the head of the line for client 1, which is bound; ENet would take
      it; it is handled and not handed over. */
  lemma FullTableLosesMatchInit() returns (run: seq<State>, steps: seq<Step>)
    ensures IsRun(run, steps) && |steps| > 0
    ensures
      var s, step, t := run[|steps| - 1], steps[|steps| - 1], run[|steps|];
      && HandlesFor(s, step, 1, MatchInitOut) && step.outcome == SendOk
      && StillBound(s.net, 0, 1) && 1 in s.sessions && s.sessions[1].auth == NoAuth
      && t.outs.handled == s.outs.handled + [HeadToSend(s)] && t.outs.reliableSent == s.outs.reliableSent
  {
    hide Reachable, Allowed, Next, Goes, Initial, Leaves;
    var s := FullTable();
    var a := InitStageBegins(s, 1);
    var b := PacketIsPrepared(a, 1);
    SendNowAllowed(b);
    run, steps := OneMore(b, SendReliableStep(SendOk, 0));
    SendGoesToItsConnection(run, steps, |steps| - 1);
    assert Goes(run[|steps| - 1], steps[|steps| - 1], run[|steps|]);
    SendsHandle(b, SendReliableStep(SendOk, 0), run[|steps|]);
    assert !Leaves(b, HeadToSend(b), SendOk) by { NotAuthenticated(b); }
  }

  lemma SendNowAllowed(s: State)
    requires s.net.control.Sending? && s.net.control.prepared.reliable != [] && s.net.inFlight == map[]
    ensures Allowed(s, SendReliableStep(SendOk, 0))
  {
  }

  lemma NotAuthenticated(s: State)
    requires s.net.control.Sending? && s.net.control.prepared.reliable != []
    requires HeadToSend(s).id in s.sessions && s.sessions[HeadToSend(s).id].auth == NoAuth && IsMatchKind(HeadToSend(s).kind)
    ensures !Leaves(s, HeadToSend(s), SendOk)
  {
  }

  /** Every place of the table is taken, in the tick that handled the connections. */
  lemma FullTable() returns (s: State)
    ensures Reachable(s) && s.sim.phase == Gate && |s.sessions| >= MAX_CLIENTS && !s.game.initSent
    ensures 1 in s.sessions && s.sessions[1] == FreshSession(1) && StillBound(s.net, 0, 1)
    ensures s.net.control.NetIdle? && s.outgoing == [] && s.net.inFlight == map[]
  {
    hide Reachable, Allowed, Next;
    var a := ManyConnect(MAX_CLIENTS);
    var b := StartTick(a);
    var d := ManyHandled(b, MAX_CLIENTS, 0);
    PhaseEffect(d, InMessagesDoneStep, VerdictMessages);
    var e := Take(d, InMessagesDoneStep);
    PhaseEffect(e, VerdictMessagesDoneStep, Gate);
    s := Take(e, VerdictMessagesDoneStep);
  }

  // ---------------------------------------------------------------------------
  // Broadcasting to everybody, and sending it all
  // ---------------------------------------------------------------------------

  ghost predicate OnlyMatchPackets(ms: seq<OutMsg>) {
    forall m :: m in ms ==> IsMatchKind(m.kind)
  }

  /** Nothing else happened. */
  predicate OnlyPushed(s: State, t: State) {
    t.net == s.net && t.sessions == s.sessions && t.http == s.http && t.incoming == s.incoming
  }

  lemma {:induction false} BroadcastsAll(s: State, stage: Stage) returns (t: State)
    requires Reachable(s) && s.sim.phase == Broadcasting(stage) && s.sim.todo <= s.sessions.Keys && OnlyMatchPackets(s.outgoing)
    ensures Reachable(t) && OnlyPushed(s, t) && t.game == s.game && OnlyMatchPackets(t.outgoing)
    ensures t.sim == s.sim.(todo := {})
    decreases |s.sim.todo|
  {
    hide Reachable, OnlyMatchPackets;
    if s.sim.todo == {} {
      t := s;
    } else {
      var c :| c in s.sim.todo;
      var a := BroadcastsOne(s, stage, c);
      assert |s.sim.todo| == |a.sim.todo| + 1;
      t := BroadcastsAll(a, stage);
    }
  }

  lemma BroadcastsOne(s: State, stage: Stage, c: ConnId) returns (t: State)
    requires Reachable(s) && s.sim.phase == Broadcasting(stage) && c in s.sim.todo && c in s.sessions && OnlyMatchPackets(s.outgoing)
    ensures Reachable(t) && OnlyPushed(s, t) && t.game == s.game && OnlyMatchPackets(t.outgoing)
    ensures t.sim == s.sim.(todo := s.sim.todo - {c})
  {
    hide Reachable;
    t := Take(s, BroadcastStep(c));
  }

  /** One of the first two stages, from its question to the next one. */
  lemma StageRound(s: State, stage: Stage, next: Stage) returns (t: State)
    requires Reachable(s) && s.sim.phase == Deciding(stage) && OnlyMatchPackets(s.outgoing)
    requires (stage == InitStage && !s.game.initSent && next == WorldStage) || (stage == WorldStage && !s.game.worldSent && next == StartStage)
    ensures Reachable(t) && OnlyPushed(s, t) && t.game == AfterStage(s.game, stage) && OnlyMatchPackets(t.outgoing)
    ensures t.sim == s.sim.(phase := Deciding(next), todo := {})
  {
    hide Reachable, Allowed, Next, OnlyMatchPackets, AfterStage;
    var a := StageLocks(s, stage);
    var b := BroadcastsAll(a, stage);
    t := StageEnds(b, stage);
  }

  lemma StageLocks(s: State, stage: Stage) returns (t: State)
    requires Reachable(s) && s.sim.phase == Deciding(stage)
    requires (stage == InitStage && !s.game.initSent) || (stage == WorldStage && !s.game.worldSent)
    ensures Reachable(t) && OnlyPushed(s, t) && t.game == s.game && t.outgoing == s.outgoing
    ensures t.sim == s.sim.(phase := Broadcasting(stage), todo := s.sessions.Keys)
  {
    hide Reachable, AllReady;
    var a := Take(s, DecideStep(0));
    t := Take(a, LockStep);
  }

  lemma StageEnds(s: State, stage: Stage) returns (t: State)
    requires Reachable(s) && s.sim.phase == Broadcasting(stage) && s.sim.todo == {}
    ensures Reachable(t) && OnlyPushed(s, t) && t.game == AfterStage(s.game, stage) && t.outgoing == s.outgoing
    ensures t.sim == s.sim.(phase := PhaseAfter(stage))
  {
    hide Reachable;
    t := Take(s, BroadcastDoneStep);
  }

  lemma PrepareMatchPackets(ms: seq<OutMsg>)
    requires OnlyMatchPackets(ms)
    ensures Prepare(ms).reliable == Reliable(ms) && Prepare(ms).snapshots == map[] && OnlyMatchPackets(Reliable(ms))
  {
    hide Prepare, Filter;
    var p := Prepare(ms);
    assert IsPrepared(ms, p);
    forall c
      ensures c !in p.snapshots
    {
      assert IsLastOf(ms, SnapshotOut, p.snapshots, c);
      NoSnapshotAmong(ms, c);
    }
  }

  lemma {:induction false} NoSnapshotAmong(ms: seq<OutMsg>, c: ConnId)
    requires OnlyMatchPackets(ms)
    ensures LastIndex(ms, SnapshotOut, c) == -1
  {
    if ms != [] {
      assert IsMatchKind(ms[|ms| - 1].kind);
      NoSnapshotAmong(ms[..|ms| - 1], c);
    }
  }

  /** The network thread sends everything that waits. */
  lemma SendsAll(s: State) returns (t: State)
    requires Reachable(s) && s.net.control.NetIdle? && s.net.inFlight == map[] && OnlyMatchPackets(s.outgoing)
    ensures Reachable(t) && t.net == s.net && t.outgoing == [] && t.sessions == s.sessions && t.http == s.http
    ensures t.incoming == s.incoming && t.sim == s.sim && t.game == s.game
  {
    hide Reachable, Prepare, Reliable, OnlyMatchPackets;
    var a := Take(s, DrainOutgoingStep);
    PrepareMatchPackets(s.outgoing);
    var b := SendsPrepared(a);
    t := Take(b, SendingDoneStep);
  }

  lemma {:induction false} SendsPrepared(s: State) returns (t: State)
    requires Reachable(s) && s.net.control.Sending? && s.net.inFlight == map[] && OnlyMatchPackets(s.net.control.prepared.reliable)
    ensures Reachable(t) && t.outgoing == s.outgoing && t.sessions == s.sessions && t.http == s.http
    ensures t.incoming == s.incoming && t.sim == s.sim && t.game == s.game
    ensures t.net == s.net.(control := Sending(s.net.control.prepared.(reliable := [])))
    decreases |s.net.control.prepared.reliable|
  {
    hide Reachable, OnlyMatchPackets;
    if s.net.control.prepared.reliable == [] {
      t := s;
    } else {
      var a := SendsMatchPacket(s);
      t := SendsPrepared(a);
    }
  }

  lemma SendsMatchPacket(s: State) returns (t: State)
    requires Reachable(s) && s.net.control.Sending? && s.net.inFlight == map[] && OnlyMatchPackets(s.net.control.prepared.reliable)
    requires s.net.control.prepared.reliable != []
    ensures Reachable(t) && t.outgoing == s.outgoing && t.sessions == s.sessions && t.http == s.http
    ensures t.incoming == s.incoming && t.sim == s.sim && t.game == s.game
    ensures t.net == s.net.(control := Sending(s.net.control.prepared.(reliable := s.net.control.prepared.reliable[1..])))
    ensures OnlyMatchPackets(t.net.control.prepared.reliable)
  {
    hide Reachable, SendReliableMsg, AllowedToSend;
    var m := s.net.control.prepared.reliable[0];
    if m.id in s.net.peers {
      NoContext(s.net, s.sessions, s.net.peers[m.id], m);
    }
    t := Take(s, SendReliableStep(SendOk, 0));
  }

  lemma NoContext(net: Net, sessions: map<ConnId, Session>, p: Peer, m: OutMsg)
    requires IsMatchKind(m.kind)
    ensures SendReliableMsg(net, sessions, p, m, SendOk).context.None?
  {
  }

  // ---------------------------------------------------------------------------
  // Everybody joins
  // ---------------------------------------------------------------------------

  predicate Playing(x: Session) {
    x.transport && x.secure && x.encrypted && x.auth == Valid && x.ready
  }

  /** `n` clients joined, one on each of the first `n` peers, and nothing is under way. */
  predicate Gathered(s: State, n: nat) {
    && Resting(s) && s.net.nextId == n + 1 && (forall p :: p in s.net.data ==> p < n) && s.sim.tick == 5 * n - 1
    && |s.sessions| == n && (forall c :: c in s.sessions ==> c <= n && Playing(s.sessions[c]))
    && s.game == Match(false, false, false, false, 0)
  }

  lemma ReadyPasses(s: State, p: Peer, x: Session)
    requires Settled(s, p, x) && Trusted(x, x.rxKey, x.txKey)
    ensures ValidatedConnectionIdOrZero(s.net, Some(p)) == x.id
    ensures DispatchByChannel(s.sessions, x.id, 2, ReadyBytes()) == Accepted(ReadyMsg(x.id))
  {
  }

  lemma ReadyHandled(sessions: map<ConnId, Session>, c: ConnId)
    requires c in sessions
    ensures HandleIncoming(sessions, ReadyMsg(c), SigningFails) == Handled(sessions[c := sessions[c].(ready := true)], EmptyHand)
  {
  }

  /** A trusted client says it is ready, and the table is not full. */
  lemma ReadyAct(s: State, p: Peer, x: Session) returns (t: State)
    requires Reachable(s) && Settled(s, p, x) && Trusted(x, x.rxKey, x.txKey) && s.sim.tick + 1 < TWO_32 && |s.sessions| < MAX_CLIENTS
    ensures Reachable(t) && Resting(t) && Became(s, t, x, x.(ready := true)) && t.sim.tick == s.sim.tick + 1
  {
    hide Reachable, DispatchByChannel, ValidatedConnectionIdOrZero, HandleIncoming, Allowed, Next, Trusted, AllReady;
    ReadyPasses(s, p, x);
    var a := ReceiveOne(s, p, 2, ReadyBytes(), ReadyMsg(x.id));
    ReadyHandled(s.sessions, x.id);
    KeepsTheTable(s.sessions, x.id, x.(ready := true));
    t := TickWithMessage(a, ReadyMsg(x.id), SigningFails);
  }

  /** Hello and token of a client that has just connected. */
  lemma TrustAct(s: State, p: Peer, c: ConnId, hello: HelloPacket) returns (t: State, x: Session)
    requires Reachable(s) && Settled(s, p, FreshSession(c)) && WellFormedHello(hello) && hello.version == PROTOCOL_VERSION
    requires s.sim.tick + 3 < TWO_32
    ensures Reachable(t) && Settled(t, p, x) && x.id == c && Trusted(x, x.rxKey, x.txKey)
    ensures Became(s, t, FreshSession(c), x) && t.sim.tick == s.sim.tick + 3
  {
    hide Reachable, Settled;
    var a := HelloAct(s, p, FreshSession(c), hello, hello.clientKey, hello.clientKey);
    var y := AfterHello(FreshSession(c), hello, HandshakeOk(hello.clientKey, hello.clientKey)).(encrypted := true);
    t := TokenAct(a, p, y, [], 0, "");
    x := y.(auth := Valid, accountId := 0, username := "", authError := "");
  }

  lemma NewSession(sessions: map<ConnId, Session>, c: ConnId, x: Session, y: Session)
    requires c !in sessions
    ensures |sessions[c := x]| == |sessions| + 1 && sessions[c := x][c := y] == sessions[c := y]
  {
    assert sessions[c := x].Keys == sessions.Keys + {c};
    assert |sessions[c := x].Keys| == |sessions[c := x]| && |sessions.Keys| == |sessions|;
  }

  lemma OneTrusted(s: State, n: nat, hello: HelloPacket) returns (t: State, x: Session)
    requires Reachable(s) && Gathered(s, n) && n + 1 < MAX_CLIENTS && WellFormedHello(hello) && hello.version == PROTOCOL_VERSION
    ensures Reachable(t) && Settled(t, n, x) && x.id == n + 1 && Trusted(x, x.rxKey, x.txKey)
    ensures t.net.nextId == n + 2 && t.net.data == s.net.data[n := n + 1] && t.game == s.game && t.sim.tick == s.sim.tick + 4
    ensures t.sessions == s.sessions[n + 1 := x] && |t.sessions| == n + 1
  {
    hide Reachable, Settled, Trusted, FreshSession;
    FreshIsNamed(n + 1);
    var a := ConnectAct(s, n);
    t, x := TrustAct(a, n, n + 1, hello);
    NewSession(s.sessions, n + 1, FreshSession(n + 1), x);
    NewSession(s.sessions, n + 1, x, x);
  }

  lemma FreshIsNamed(c: ConnId)
    ensures FreshSession(c).id == c
  {
  }

  lemma OneJoins(s: State, n: nat, hello: HelloPacket) returns (t: State)
    requires Reachable(s) && Gathered(s, n) && n + 1 < MAX_CLIENTS && WellFormedHello(hello) && hello.version == PROTOCOL_VERSION
    ensures Reachable(t) && Gathered(t, n + 1)
  {
    hide Reachable, Settled;
    var a, x := OneTrusted(s, n, hello);
    t := ReadyAct(a, n, x);
    NewSession(s.sessions, n + 1, x, x.(ready := true));
    NewSession(s.sessions, n + 1, x.(ready := true), x);
  }

  lemma {:induction false} ManyJoin(n: nat, hello: HelloPacket) returns (s: State)
    requires n < MAX_CLIENTS && WellFormedHello(hello) && hello.version == PROTOCOL_VERSION
    ensures Reachable(s) && Gathered(s, n)
  {
    hide Reachable;
    if n == 0 {
      Begins();
      s := Initial();
    } else {
      var a := ManyJoin(n - 1, hello);
      s := OneJoins(a, n - 1, hello);
    }
  }

  // ---------------------------------------------------------------------------
  // The last client
  // ---------------------------------------------------------------------------

  predicate AtGate(sim: Sim, tick: int) {
    sim.phase == Gate && sim.hand == EmptyHand && sim.inBatch == [] && sim.verdicts == [] && sim.tick == tick
  }

  /** A tick that finds one message nobody is answered for, up to its gate. */
  lemma TickToGate(s: State, m: InMsg) returns (t: State)
    requires Reachable(s) && IdleSim(s.sim) && s.sim.tick >= -1 && s.incoming == [m] && s.http.verdicts == []
    requires HandleIncoming(s.sessions, m, SigningFails).hand == EmptyHand
    ensures Reachable(t) && t.net == s.net && t.game == s.game && t.incoming == [] && t.http == s.http && t.outgoing == s.outgoing
    ensures t.sessions == HandleIncoming(s.sessions, m, SigningFails).sessions && AtGate(t.sim, s.sim.tick + 1)
  {
    hide Reachable, Allowed, Next, HandleIncoming;
    var a := StartTick(s);
    var b := HandleMessage(a, SigningFails);
    PhaseEffect(b, InMessagesDoneStep, VerdictMessages);
    var d := Take(b, InMessagesDoneStep);
    PhaseEffect(d, VerdictMessagesDoneStep, Gate);
    t := Take(d, VerdictMessagesDoneStep);
  }

  /** The first tick that sees a full table: two broadcasts to everybody. */
  lemma TwoStages(s: State) returns (t: State)
    requires Reachable(s) && AtGate(s.sim, s.sim.tick) && |s.sessions| >= MAX_CLIENTS && !AllReady(s.sessions)
    requires s.game == Match(false, false, false, false, 0) && s.outgoing == []
    ensures Reachable(t) && OnlyPushed(s, t) && OnlyMatchPackets(t.outgoing) && t.game == Match(true, true, false, false, 0)
    ensures t.sim == s.sim.(phase := Idle, todo := {})
  {
    hide Reachable, Allowed, Next, AllReady, OnlyMatchPackets;
    CheckGateEffect(s);
    var a := Take(s, CheckGateStep);
    assert OnlyMatchPackets([]) by { NothingIsOnly(); }
    var b := StageRound(a, InitStage, WorldStage);
    var d := StageRound(b, WorldStage, StartStage);
    var e := NotStarting(d);
    t := EndTick(e);
  }

  lemma NothingIsOnly()
    ensures OnlyMatchPackets([])
  {
  }

  /** Everybody but the last client is ready. */
  lemma LastConnects(hello: HelloPacket) returns (s: State)
    requires WellFormedHello(hello) && hello.version == PROTOCOL_VERSION
    ensures Reachable(s) && Settled(s, MAX_CLIENTS - 1, FreshSession(MAX_CLIENTS)) && s.game == Match(true, true, false, false, 0)
    ensures |s.sessions| == MAX_CLIENTS && s.sim.tick < 5 * MAX_CLIENTS
    ensures forall c :: c in s.sessions && c != MAX_CLIENTS ==> Playing(s.sessions[c])
  {
    hide Reachable, Allowed, Next, HandleIncoming, AllReady, OnlyMatchPackets;
    var a := ManyJoin(MAX_CLIENTS - 1, hello);
    var b := ConnectOne(a, MAX_CLIENTS - 1);
    ConnectHandled(a.sessions, MAX_CLIENTS);
    var d := TickToGate(b, ConnectMsg(MAX_CLIENTS));
    assert !AllReady(d.sessions) by { NotReadyYet(d.sessions, MAX_CLIENTS); }
    var e := TwoStages(d);
    s := SendsAll(e);
  }

  lemma NotReadyYet(sessions: map<ConnId, Session>, c: ConnId)
    requires c in sessions && !sessions[c].ready
    ensures !AllReady(sessions)
  {
  }

  // ---------------------------------------------------------------------------
  // The start
  // ---------------------------------------------------------------------------

  /** The question of the start, when everybody is ready. */
  lemma StartIsDecided(s: State, countdown: nat) returns (t: State)
    requires Reachable(s) && s.sim.phase == Deciding(StartStage) && !s.game.startSent && AllReady(s.sessions) && 0 <= s.sim.tick < TWO_32
    requires countdown < TWO_32
    ensures Reachable(t) && OnlyPushed(s, t) && t.game == s.game.(startTick := s.sim.tick + countdown) && t.outgoing == s.outgoing
    ensures t.sim == s.sim.(phase := Locking(StartStage), countdown := countdown)
  {
    hide Reachable, AllReady;
    t := Take(s, DecideStep(countdown));
  }

  lemma StartLocks(s: State) returns (t: State)
    requires Reachable(s) && s.sim.phase == Locking(StartStage)
    ensures Reachable(t) && OnlyPushed(s, t) && t.game == s.game && t.outgoing == s.outgoing
    ensures t.sim == s.sim.(phase := Broadcasting(StartStage), todo := s.sessions.Keys)
  {
    hide Reachable;
    t := Take(s, LockStep);
  }

  lemma WorldTicks(s: State) returns (t: State)
    requires Reachable(s) && s.sim.phase == Opening && s.game.startSent && 0 <= s.game.startTick <= s.sim.tick
    ensures Reachable(t) && t.sessions == s.sessions && t.game.started && s.sim.tick in t.matches.worldTicks
  {
    hide Reachable;
    var a := Take(s, OpenStep);
    t := Take(a, SimulateStep);
  }

  /** From a gate with everybody ready to the end of the start broadcast. */
  lemma StartIsAnnounced(s: State, countdown: nat) returns (t: State)
    requires Reachable(s) && AtGate(s.sim, s.sim.tick) && 0 <= s.sim.tick < TWO_32 && s.outgoing == [] && countdown < TWO_32
    requires s.game == Match(true, true, false, false, 0) && AllReady(s.sessions)
    ensures Reachable(t) && OnlyPushed(s, t) && t.game == Match(true, true, true, false, s.sim.tick + countdown)
    ensures t.sim == s.sim.(phase := Opening, todo := {}, countdown := countdown)
  {
    hide Reachable, Allowed, Next, AllReady, OnlyMatchPackets;
    assert |s.sessions| >= MAX_CLIENTS by { EnoughClients(s.sessions); }
    CheckGateEffect(s);
    var a := Take(s, CheckGateStep);
    var b := NotDue(a, InitStage, WorldStage);
    var d := NotDue(b, WorldStage, StartStage);
    var e := StartIsDecided(d, countdown);
    var f := StartLocks(e);
    assert OnlyMatchPackets([]) by { NothingIsOnly(); }
    var g := BroadcastsAll(f, StartStage);
    t := StageEnds(g, StartStage);
  }

  lemma EnoughClients(sessions: map<ConnId, Session>)
    requires AllReady(sessions)
    ensures |sessions| >= MAX_CLIENTS
  {
  }

  /** The last client says it is ready. */
  lemma LastIsReady(s: State, p: Peer, x: Session) returns (t: State)
    requires Reachable(s) && Settled(s, p, x) && Trusted(x, x.rxKey, x.txKey) && |s.sessions| == MAX_CLIENTS && s.sim.tick + 1 < TWO_32
    requires forall c :: c in s.sessions && c != x.id ==> Playing(s.sessions[c])
    ensures Reachable(t) && AtGate(t.sim, s.sim.tick + 1) && t.outgoing == [] && t.game == s.game
    ensures t.net == s.net && t.incoming == [] && t.http == s.http && x.id in t.sessions
    ensures |t.sessions| == MAX_CLIENTS && forall c :: c in t.sessions ==> Playing(t.sessions[c])
  {
    hide Reachable, DispatchByChannel, ValidatedConnectionIdOrZero, HandleIncoming;
    ReadyPasses(s, p, x);
    var a := ReceiveOne(s, p, 2, ReadyBytes(), ReadyMsg(x.id));
    ReadyHandled(s.sessions, x.id);
    KeepsTheTable(s.sessions, x.id, x.(ready := true));
    t := TickToGate(a, ReadyMsg(x.id));
  }

  lemma EverybodyIsReady(sessions: map<ConnId, Session>)
    requires |sessions| == MAX_CLIENTS && forall c :: c in sessions ==> Playing(sessions[c])
    ensures AllReady(sessions)
  {
  }

  lemma RunTo(s: State) returns (run: seq<State>, steps: seq<Step>)
    requires Reachable(s)
    ensures IsRun(run, steps) && run[|run| - 1] == s
  {
    hide Goes, Initial;
    run, steps :| IsRun(run, steps) && run[|run| - 1] == s;
  }

  /** Every place is taken, everybody is ready, and the last client is on its peer. */
  lemma EverybodyArrives(hello: HelloPacket) returns (s: State)
    requires WellFormedHello(hello) && hello.version == PROTOCOL_VERSION
    ensures Reachable(s) && AtGate(s.sim, s.sim.tick) && 0 <= s.sim.tick < 6 * MAX_CLIENTS && s.outgoing == [] && s.incoming == []
    ensures s.game == Match(true, true, false, false, 0) && s.http == Http([], false, [], None, []) && AllReady(s.sessions)
    ensures |s.sessions| == MAX_CLIENTS && forall c :: c in s.sessions ==> Playing(s.sessions[c])
    ensures MAX_CLIENTS in s.sessions && s.net.control.NetIdle? && StillBound(s.net, MAX_CLIENTS - 1, MAX_CLIENTS)
  {
    hide Playing, AllReady, Reachable, Trusted;
    var a := LastConnects(hello);
    FreshIsNamed(MAX_CLIENTS);
    var b, x := TrustAct(a, MAX_CLIENTS - 1, MAX_CLIENTS, hello);
    KeepsTheTable(a.sessions, MAX_CLIENTS, x);
    s := LastIsReady(b, MAX_CLIENTS - 1, x);
    EverybodyIsReady(s.sessions);
  }

  /** A world can start: in some run every place of the table is taken by a client that
      is authenticated over a secure and encrypted session and ready, and the world
      ticks. Whatever the hello says, one will do for all. */
  lemma TheWorldStarts(hello: HelloPacket) returns (run: seq<State>, steps: seq<Step>)
    requires WellFormedHello(hello) && hello.version == PROTOCOL_VERSION
    ensures IsRun(run, steps)
    ensures
      var s := run[|run| - 1];
      && s.game.started && s.matches.worldTicks != []
      && |s.sessions| == MAX_CLIENTS && (forall c :: c in s.sessions ==> Playing(s.sessions[c]))
  {
    hide Playing, AllReady, Goes, Initial, Reachable;
    var s := EverybodyArrives(hello);
    var a := StartIsAnnounced(s, 0);
    var t := WorldTicks(a);
    run, steps := RunTo(t);
  }

  // ---------------------------------------------------------------------------
  // A start that is put off
  // ---------------------------------------------------------------------------

  lemma NotOpenYet(s: State) returns (t: State)
    requires Reachable(s) && s.sim.phase == Opening && !s.game.started && s.sim.tick < s.game.startTick
    ensures Reachable(t) && SameButSim(s, t) && t.sim == s.sim.(phase := Simulating)
  {
    hide Reachable;
    t := Take(s, OpenStep);
  }

  lemma OneLeaves(s: State, p: Peer, c: ConnId) returns (t: State)
    requires Reachable(s) && s.net.control.NetIdle? && StillBound(s.net, p, c)
    ensures Reachable(t) && t.incoming == s.incoming + [DisconnectMsg(c)] && t.sessions == s.sessions && t.game == s.game
    ensures t.sim == s.sim && t.http == s.http
  {
    hide Reachable;
    t := Take(s, DisconnectStep(p));
  }

  lemma LeavingHandled(sessions: map<ConnId, Session>, c: ConnId)
    requires c in sessions
    ensures HandleIncoming(sessions, DisconnectMsg(c), SigningFails) == Handled(sessions - {c}, EmptyHand)
    ensures |sessions - {c}| == |sessions| - 1
  {
  }

  /** The start is announced for tick `T`, its tick is here, and one client is missing. */
  predicate Waiting(s: State, delay: nat) {
    && AtGate(s.sim, s.sim.tick) && s.http.verdicts == [] && s.incoming == [] && |s.sessions| < MAX_CLIENTS
    && s.game.startSent && !s.game.started && 0 <= s.sim.tick == s.game.startTick + delay && s.game.startTick < TWO_32
  }

  /** One client leaves during the countdown. */
  lemma StartIsDue(hello: HelloPacket) returns (s: State)
    requires WellFormedHello(hello) && hello.version == PROTOCOL_VERSION
    ensures Reachable(s) && Waiting(s, 0)
  {
    hide Playing, AllReady, Reachable, HandleIncoming;
    var a := EverybodyArrives(hello);
    var b := StartIsAnnounced(a, 1);
    var d := NotOpenYet(b);
    var e := EndTick(d);
    var f := OneLeaves(e, MAX_CLIENTS - 1, MAX_CLIENTS);
    LeavingHandled(f.sessions, MAX_CLIENTS);
    s := TickToGate(f, DisconnectMsg(MAX_CLIENTS));
  }

  /** A tick with too few clients, from its gate to the next one. */
  lemma WaitsOneTick(s: State, delay: nat) returns (t: State)
    requires Reachable(s) && Waiting(s, delay) && delay < TWO_32
    ensures Reachable(t) && Waiting(t, delay + 1)
  {
    hide Reachable, Allowed, Next;
    CheckGateEffect(s);
    var a := Take(s, CheckGateStep);
    var b := EndTick(a);
    var d := StartTick(b);
    PhaseEffect(d, InMessagesDoneStep, VerdictMessages);
    var e := Take(d, InMessagesDoneStep);
    PhaseEffect(e, VerdictMessagesDoneStep, Gate);
    t := Take(e, VerdictMessagesDoneStep);
  }

  lemma {:induction false} Waits(hello: HelloPacket, delay: nat) returns (s: State)
    requires WellFormedHello(hello) && hello.version == PROTOCOL_VERSION && delay <= TWO_32
    ensures Reachable(s) && Waiting(s, delay)
  {
    hide Reachable, Waiting;
    if delay == 0 {
      s := StartIsDue(hello);
    } else {
      var a := Waits(hello, delay - 1);
      s := WaitsOneTick(a, delay - 1);
    }
  }

  /** An announced start can be put off, and as long as one likes: one client leaves
      during the countdown, and a world is still simulated without running `delay` ticks
      after the tick that every client was told. */
  lemma AnnouncedStartIsPutOff(hello: HelloPacket, delay: nat) returns (run: seq<State>, steps: seq<Step>)
    requires WellFormedHello(hello) && hello.version == PROTOCOL_VERSION && delay <= TWO_32
    ensures IsRun(run, steps) && |steps| > 0 && steps[|steps| - 1].SimulateStep?
    ensures
      var s := run[|steps| - 1];
      s.game.startSent && s.sim.tick == s.game.startTick + delay && !s.game.started && run[|steps|].matches.worldTicks == s.matches.worldTicks
  {
    hide Reachable, Allowed, Next, Goes, Initial;
    var a := Waits(hello, delay);
    CheckGateEffect(a);
    var b := Take(a, CheckGateStep);
    SimulateEffect(b);
    run, steps := OneMore(b, SimulateStep);
  }
}
