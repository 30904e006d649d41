/** A run that happens: a client connects, is authenticated, and then loses its secure
    flag to a second hello. */
module Witness {
  import opened Wrappers
  import opened Bytes
  import opened Packets
  import opened Messages
  import opened Preparation
  import opened Lifecycle
  import opened Runs
  import opened Effects
  import opened Handshakes

  ghost predicate Reachable(s: State) {
    exists run: seq<State>, steps: seq<Step> :: IsRun(run, steps) && run[|run| - 1] == s
  }

  /** A run that ends with a given step out of a reachable state. */
  lemma OneMore(s: State, step: Step) returns (run: seq<State>, steps: seq<Step>)
    requires Reachable(s) && Allowed(s, step)
    ensures IsRun(run, steps) && |steps| > 0 && steps[|steps| - 1] == step
    ensures run[|steps| - 1] == s && run[|steps|] == Next(s, step)
  {
    hide Allowed, Next, Initial;
    var before: seq<State>, taken: seq<Step> :| IsRun(before, taken) && before[|before| - 1] == s;
    run, steps := before + [Next(s, step)], taken + [step];
    forall i | 0 <= i < |steps|
      ensures Goes(run[i], steps[i], run[i + 1])
    {
      if i < |taken| {
        assert Goes(before[i], taken[i], before[i + 1]);
      }
    }
  }

  lemma Take(s: State, step: Step) returns (t: State)
    requires Reachable(s) && Allowed(s, step)
    ensures Reachable(t) && t == Next(s, step)
  {
    hide Allowed, Next, Goes, Initial;
    var run, steps := OneMore(s, step);
    t := run[|steps|];
    assert IsRun(run, steps) && run[|run| - 1] == t;
  }

  // ---------------------------------------------------------------------------
  // Rounds of the three threads
  // ---------------------------------------------------------------------------

  predicate IdleSim(sim: Sim) {
    sim.phase == Idle && sim.hand == EmptyHand && sim.inBatch == [] && sim.verdicts == [] && sim.tick + 1 + TWO_32 <= TWO_64
  }

  predicate SameButSim(s: State, t: State) {
    t.net == s.net && t.sessions == s.sessions && t.http == s.http && t.outgoing == s.outgoing && t.incoming == s.incoming
        && t.game == s.game
  }

  /** The gate leads to no broadcast: the table is not full, or the first two stages are
      done and somebody is not ready. */
  predicate QuietGate(game: Match, sessions: map<ConnId, Session>) {
    |sessions| < MAX_CLIENTS || (game.initSent && game.worldSent && !game.startSent && !AllReady(sessions))
  }

  lemma EndTick(s: State) returns (t: State)
    requires Reachable(s) && s.sim.phase == Simulating
    ensures Reachable(t) && SameButSim(s, t) && t.sim == s.sim.(phase := Idle)
  {
    hide Reachable;
    var a := Take(s, SimulateStep);
    t := Take(a, ChooseSnapshotsStep(false));
  }

  /** The three questions of the gate, all answered with no. */
  lemma NothingToBroadcast(s: State) returns (t: State)
    requires Reachable(s) && s.sim.phase == Deciding(InitStage) && s.game.initSent && s.game.worldSent && !s.game.startSent
    requires !AllReady(s.sessions)
    ensures Reachable(t) && SameButSim(s, t) && t.sim == s.sim.(phase := Simulating)
  {
    hide Reachable, Allowed, Next, AllReady;
    var a := NotDue(s, InitStage, WorldStage);
    var b := NotDue(a, WorldStage, StartStage);
    t := NotStarting(b);
  }

  lemma NotDue(s: State, stage: Stage, next: Stage) returns (t: State)
    requires Reachable(s) && s.sim.phase == Deciding(stage)
    requires (stage == InitStage && s.game.initSent && next == WorldStage) || (stage == WorldStage && s.game.worldSent && next == StartStage)
    ensures Reachable(t) && SameButSim(s, t) && t.sim == s.sim.(phase := Deciding(next))
  {
    hide Reachable, AllReady;
    t := Take(s, DecideStep(0));
  }

  lemma NotStarting(s: State) returns (t: State)
    requires Reachable(s) && s.sim.phase == Deciding(StartStage) && !s.game.startSent && !AllReady(s.sessions)
    ensures Reachable(t) && SameButSim(s, t) && t.sim == s.sim.(phase := Simulating)
  {
    hide Reachable, AllReady;
    var a := Take(s, DecideStep(0));
    t := Take(a, OpenStep);
  }

  /** From an empty batch of verdicts to the end of a tick that broadcasts nothing. */
  lemma FinishTick(s: State) returns (t: State)
    requires Reachable(s) && s.sim.phase == VerdictMessages && s.sim.hand == EmptyHand && s.sim.verdicts == []
    requires QuietGate(s.game, s.sessions)
    ensures Reachable(t) && SameButSim(s, t) && t.sim == s.sim.(phase := Idle)
  {
    hide Reachable, Allowed, Next, AllReady;
    PhaseEffect(s, VerdictMessagesDoneStep, Gate);
    var a := Take(s, VerdictMessagesDoneStep);
    CheckGateEffect(a);
    var b := Take(a, CheckGateStep);
    if |s.sessions| >= MAX_CLIENTS {
      b := NothingToBroadcast(b);
    }
    t := EndTick(b);
  }

  lemma StartTick(s: State) returns (t: State)
    requires Reachable(s) && IdleSim(s.sim) && s.sim.tick >= -1
    ensures Reachable(t) && t.net == s.net && t.sessions == s.sessions && t.game == s.game && t.outgoing == s.outgoing && t.incoming == []
    ensures t.sim == s.sim.(tick := s.sim.tick + 1, phase := InMessages, inBatch := s.incoming, verdicts := s.http.verdicts)
    ensures t.http == s.http.(verdicts := [])
  {
    hide Reachable;
    var a := Take(s, BeginTickStep(s.sim.tick + 1));
    t := Take(a, DrainVerdictsStep);
  }

  /** A tick that finds one message and broadcasts nothing. */
  lemma TickWithMessage(s: State, m: InMsg, h: Handshake) returns (t: State)
    requires Reachable(s) && IdleSim(s.sim) && s.sim.tick >= -1 && s.incoming == [m] && s.http.verdicts == []
    requires QuietGate(s.game, HandleIncoming(s.sessions, m, h).sessions)
    ensures Reachable(t) && t.net == s.net && t.game == s.game && t.incoming == [] && t.sim == s.sim.(tick := s.sim.tick + 1)
    ensures
      var r := HandleIncoming(s.sessions, m, h);
      && t.sessions == r.sessions
      && t.http == (if r.hand.HoldingRequest? then s.http.(requests := s.http.requests + [r.hand.request]) else s.http)
      && t.outgoing == if r.hand.HoldingReply? then s.outgoing + [r.hand.reply] else s.outgoing
  {
    hide Reachable, Allowed, Next, HandleIncoming;
    var a := StartTick(s);
    var b := HandleMessage(a, h);
    PhaseEffect(b, InMessagesDoneStep, VerdictMessages);
    var d := Take(b, InMessagesDoneStep);
    t := FinishTick(d);
  }

  /** One message of the batch, and the push it leaves to do. */
  lemma HandleMessage(s: State, h: Handshake) returns (t: State)
    requires Reachable(s) && s.sim.phase == InMessages && s.sim.hand == EmptyHand && s.sim.inBatch != []
    ensures Reachable(t) && t.net == s.net && t.game == s.game && t.incoming == s.incoming && t.sim == s.sim.(inBatch := s.sim.inBatch[1..])
    ensures
      var r := HandleIncoming(s.sessions, s.sim.inBatch[0], h);
      && t.sessions == r.sessions
      && t.http == (if r.hand.HoldingRequest? then s.http.(requests := s.http.requests + [r.hand.request]) else s.http)
      && t.outgoing == if r.hand.HoldingReply? then s.outgoing + [r.hand.reply] else s.outgoing
  {
    hide Reachable, HandleIncoming;
    t := Take(s, HandleInStep(h));
    if t.sim.hand != EmptyHand {
      t := Take(t, PushHandStep);
    }
  }

  /** A tick that finds one verdict and broadcasts nothing. */
  lemma TickWithVerdict(s: State, v: Verdict) returns (t: State)
    requires Reachable(s) && IdleSim(s.sim) && s.sim.tick >= -1 && s.incoming == [] && s.http.verdicts == [v]
    requires v.id in s.sessions && QuietGate(s.game, s.sessions[v.id := AfterVerdict(s.sessions[v.id], v)])
    ensures Reachable(t) && t.net == s.net && t.game == s.game && t.incoming == [] && t.sim == s.sim.(tick := s.sim.tick + 1)
    ensures t.sessions == s.sessions[v.id := AfterVerdict(s.sessions[v.id], v)]
    ensures t.http == s.http.(verdicts := []) && t.outgoing == s.outgoing + [AuthReplyMsg(v)]
  {
    hide Reachable, Allowed, Next, AfterVerdict, AuthReplyMsg;
    var a := StartTick(s);
    PhaseEffect(a, InMessagesDoneStep, VerdictMessages);
    var b := Take(a, InMessagesDoneStep);
    var d := HandleOneVerdict(b);
    t := FinishTick(d);
  }

  lemma HandleOneVerdict(s: State) returns (t: State)
    requires Reachable(s) && s.sim.phase == VerdictMessages && s.sim.hand == EmptyHand && s.sim.verdicts != []
    requires s.sim.verdicts[0].id in s.sessions
    ensures Reachable(t) && t.net == s.net && t.game == s.game && t.incoming == s.incoming && t.http == s.http
    ensures t.sim == s.sim.(verdicts := s.sim.verdicts[1..])
    ensures
      var v := s.sim.verdicts[0];
      t.sessions == s.sessions[v.id := AfterVerdict(s.sessions[v.id], v)] && t.outgoing == s.outgoing + [AuthReplyMsg(v)]
  {
    hide Reachable, AfterVerdict, AuthReplyMsg;
    var a := Take(s, HandleVerdictStep);
    t := Take(a, PushHandStep);
  }

  /** The client's packet arrives and passes its channel. */
  lemma ReceiveOne(s: State, p: Peer, channel: nat, data: seq<byte>, m: InMsg) returns (t: State)
    requires Reachable(s) && s.net.control.NetIdle? && s.incoming == []
    requires DispatchByChannel(s.sessions, ValidatedConnectionIdOrZero(s.net, Some(p)), channel, data) == Accepted(m)
    requires ValidatedConnectionIdOrZero(s.net, Some(p)) != 0
    ensures Reachable(t) && t == s.(incoming := [m], ins := t.ins)
  {
    hide Reachable, DispatchByChannel, ValidatedConnectionIdOrZero;
    var a := Take(s, ReceiveStep(Some(p), channel, data));
    t := Take(a, ReceivePushStep);
  }

  /** The network thread sends the one message that waits. */
  lemma SendOne(s: State, m: OutMsg) returns (t: State)
    requires Reachable(s) && s.net.control.NetIdle? && s.outgoing == [m] && IsReliableKind(m.kind) && m.id in s.net.peers
    requires s.net.inFlight == map[]
    ensures Reachable(t) && t.sessions == s.sessions && t.incoming == s.incoming && t.outgoing == [] && t.http == s.http && t.sim == s.sim
    ensures t.game == s.game
    ensures
      var r := SendReliableMsg(s.net, s.sessions, s.net.peers[m.id], m, SendOk);
      t.net == s.net.(inFlight := if r.context.Some? then map[0 := r.context.value] else map[])
  {
    hide Reachable, SendReliableMsg, Prepare;
    var a := Take(s, DrainOutgoingStep);
    PrepareOne(m);
    SendMsgIgnoresControl(s, a, m);
    var b := Take(a, SendReliableStep(SendOk, 0));
    t := Take(b, SendingDoneStep);
  }

  lemma PrepareOne(m: OutMsg)
    requires IsReliableKind(m.kind)
    ensures Prepare([m]) == Prepared([m], map[], map[])
  {
    assert [m][..0] == [];
    assert Prepare([m][..0]) == Prepared([], map[], map[]);
  }

  lemma SendMsgIgnoresControl(s: State, a: State, m: OutMsg)
    requires a.net.data == s.net.data && m.id in s.net.peers && a.sessions == s.sessions
    ensures SendReliableMsg(s.net, s.sessions, s.net.peers[m.id], m, SendOk) == SendReliableMsg(a.net, a.sessions, s.net.peers[m.id], m, SendOk)
  {
  }

  // ---------------------------------------------------------------------------
  // One client, act by act
  // ---------------------------------------------------------------------------

  /** Nothing is under way. */
  predicate Resting(s: State) {
    && s.net.control.NetIdle? && s.net.inFlight == map[] && s.incoming == [] && s.outgoing == []
    && s.http == Http([], false, [], None, []) && IdleSim(s.sim) && -1 <= s.sim.tick < TWO_32
  }

  /** `x` is the session of the client on peer `p`, which the match waits for. */
  predicate Settled(s: State, p: Peer, x: Session) {
    && Resting(s) && StillBound(s.net, p, x.id) && x.id in s.sessions && s.sessions[x.id] == x && !x.ready
    && (|s.sessions| < MAX_CLIENTS || (s.game.initSent && s.game.worldSent && !s.game.startSent))
  }

  /** Only the session of `x` changed. */
  predicate Became(s: State, t: State, x: Session, y: Session) {
    t.net.data == s.net.data && t.net.peers == s.net.peers && t.net.nextId == s.net.nextId && t.game == s.game
        && t.sessions == s.sessions[x.id := y]
  }

  lemma GateStaysQuiet(s: State, p: Peer, x: Session, y: Session)
    requires Settled(s, p, x) && !y.ready
    ensures QuietGate(s.game, s.sessions[x.id := y]) && |s.sessions[x.id := y]| == |s.sessions|
  {
    KeepsTheTable(s.sessions, x.id, y);
    assert !s.sessions[x.id := y][x.id].ready;
  }

  lemma ConnectOne(s: State, p: Peer) returns (t: State)
    requires Reachable(s) && s.net.control.NetIdle? && p !in s.net.data && 0 < s.net.nextId < TWO_32
    ensures
      var c := s.net.nextId;
      && Reachable(t) && t == s.(net := t.net, incoming := s.incoming + [ConnectMsg(c)], ins := t.ins)
      && t.net == s.net.(nextId := c + 1, data := s.net.data[p := c], peers := s.net.peers[c := p], encryption := t.net.encryption)
  {
    hide Reachable;
    assert IdOf(s.net.nextId) == s.net.nextId;
    t := Take(s, ConnectStep(p));
  }

  lemma ConnectAct(s: State, p: Peer) returns (t: State)
    requires Reachable(s) && Resting(s) && p !in s.net.data && 0 < s.net.nextId < TWO_32 && s.net.nextId !in s.sessions
    requires |s.sessions| + 1 < MAX_CLIENTS && s.sim.tick + 1 < TWO_32
    ensures
      var c := s.net.nextId;
      && Reachable(t) && Settled(t, p, FreshSession(c)) && t.sessions == s.sessions[c := FreshSession(c)]
      && t.net.nextId == c + 1 && t.net.data == s.net.data[p := c] && t.game == s.game && t.sim.tick == s.sim.tick + 1
  {
    hide Reachable, HandleIncoming, AllReady, Allowed, Next;
    var c := s.net.nextId;
    var a := ConnectOne(s, p);
    ConnectHandled(s.sessions, c);
    t := TickWithMessage(a, ConnectMsg(c), SigningFails);
  }

  lemma ConnectHandled(sessions: map<ConnId, Session>, c: ConnId)
    requires c !in sessions
    ensures HandleIncoming(sessions, ConnectMsg(c), SigningFails) == Handled(sessions[c := FreshSession(c)], EmptyHand)
    ensures |sessions[c := FreshSession(c)]| == |sessions| + 1
  {
    assert sessions[c := FreshSession(c)].Keys == sessions.Keys + {c};
    assert |sessions[c := FreshSession(c)].Keys| == |sessions[c := FreshSession(c)]| && |sessions.Keys| == |sessions|;
  }

  lemma HelloPasses(s: State, p: Peer, x: Session, hello: HelloPacket)
    requires Settled(s, p, x) && WellFormedHello(hello) && hello.version == PROTOCOL_VERSION
    ensures ValidatedConnectionIdOrZero(s.net, Some(p)) == x.id
    ensures DispatchByChannel(s.sessions, x.id, 0, HelloBytes(hello)) == Accepted(HelloMsg(x.id, hello))
  {
    HelloExact(HelloBytes(hello), hello);
    hide HelloBytes, ParseHello;
  }

  lemma KeepsTheTable(sessions: map<ConnId, Session>, c: ConnId, x: Session)
    requires c in sessions
    ensures |sessions[c := x]| == |sessions|
  {
    assert sessions[c := x].Keys == sessions.Keys;
    assert |sessions.Keys| == |sessions|;
  }

  lemma HelloHandled(sessions: map<ConnId, Session>, c: ConnId, hello: HelloPacket, h: Handshake)
    requires c in sessions
    ensures HandleIncoming(sessions, HelloMsg(c, hello), h) ==
              Handled(sessions[c := AfterHello(sessions[c], hello, h)], HoldingReply(HelloReplyMsg(c, hello, h)))
  {
  }

  /** The hello, the success reply, and its acknowledgement. */
  lemma HelloAct(s: State, p: Peer, x: Session, hello: HelloPacket, rx: Key, tx: Key) returns (t: State)
    requires Reachable(s) && Settled(s, p, x) && WellFormedHello(hello) && hello.version == PROTOCOL_VERSION && s.sim.tick + 1 < TWO_32
    ensures Reachable(t) && Settled(t, p, AfterHello(x, hello, HandshakeOk(rx, tx)).(encrypted := true))
    ensures Became(s, t, x, AfterHello(x, hello, HandshakeOk(rx, tx)).(encrypted := true)) && t.sim.tick == s.sim.tick + 1
  {
    hide Reachable, DispatchByChannel, ValidatedConnectionIdOrZero, HandleIncoming, AfterHello, HelloReplyMsg, SendReliableMsg, Allowed, Next;
    var h := HandshakeOk(rx, tx);
    HelloPasses(s, p, x, hello);
    var a := ReceiveOne(s, p, 0, HelloBytes(hello), HelloMsg(x.id, hello));
    HelloHandled(s.sessions, x.id, hello, h);
    HelloKeepsId(x, hello, h);
    GateStaysQuiet(s, p, x, AfterHello(x, hello, h));
    var b := TickWithMessage(a, HelloMsg(x.id, hello), h);
    HelloReply(b, p, x.id, hello, h);
    var d := SendOne(b, HelloReplyMsg(x.id, hello, h));
    t := AckAct(d, p, x.id);
    KeepsTheTable(d.sessions, x.id, d.sessions[x.id].(encrypted := true));
  }

  lemma HelloKeepsId(x: Session, hello: HelloPacket, h: Handshake)
    requires h.HandshakeOk?
    ensures AfterHello(x, hello, h).id == x.id && AfterHello(x, hello, h).ready == x.ready
  {
  }

  lemma HelloReply(s: State, p: Peer, c: ConnId, hello: HelloPacket, h: Handshake)
    requires StillBound(s.net, p, c) && h.HandshakeOk?
    ensures HelloReplyMsg(c, hello, h).kind == HelloResponseOut && HelloReplyMsg(c, hello, h).id == c
    ensures SendReliableMsg(s.net, s.sessions, p, HelloReplyMsg(c, hello, h), SendOk).context == Some(AckContext(p, c, false, true))
  {
  }

  lemma AckAct(s: State, p: Peer, c: ConnId) returns (t: State)
    requires Reachable(s) && s.net.control.NetIdle? && s.net.inFlight == map[0 := AckContext(p, c, false, true)]
    requires StillBound(s.net, p, c) && c in s.sessions
    ensures Reachable(t) && t.sessions == s.sessions[c := s.sessions[c].(encrypted := true)]
    ensures t.net == s.net.(inFlight := map[], encryption := s.net.encryption[c := true])
    ensures t.incoming == s.incoming && t.outgoing == s.outgoing && t.http == s.http && t.sim == s.sim && t.game == s.game
  {
    hide Reachable;
    var a := Take(s, AcknowledgeStep(0));
    t := Take(a, FreeStep(0));
  }

  predicate MayAsk(x: Session) {
    x.transport && x.secure && x.encrypted && x.auth == NoAuth
  }

  lemma TokenPasses(s: State, p: Peer, x: Session, token: seq<byte>)
    requires Settled(s, p, x) && |token| <= MAX_TOKEN_BYTES && MayAsk(x)
    ensures ValidatedConnectionIdOrZero(s.net, Some(p)) == x.id
    ensures DispatchByChannel(s.sessions, x.id, 1, AuthBytes(AuthPacket(token))) == Accepted(AuthMsg(x.id, token))
  {
    AuthExact(AuthBytes(AuthPacket(token)), AuthPacket(token));
    hide AuthBytes, ParseAuth;
  }

  lemma TokenHandled(sessions: map<ConnId, Session>, c: ConnId, token: seq<byte>, h: Handshake)
    requires c in sessions && sessions[c].auth == NoAuth
    ensures HandleIncoming(sessions, AuthMsg(c, token), h) ==
              Handled(sessions[c := sessions[c].(auth := WaitingAuth)], HoldingRequest(Request(c, token)))
  {
  }

  /** The token is on its way to the backend. */
  predicate Asking(s: State, p: Peer, x: Session, r: Request) {
    Settled(s.(http := s.http.(requests := [])), p, x) && s.http == Http([r], false, [], None, [])
  }

  lemma AskAct(s: State, p: Peer, x: Session, token: seq<byte>) returns (t: State)
    requires Reachable(s) && Settled(s, p, x) && |token| <= MAX_TOKEN_BYTES && s.sim.tick + 1 < TWO_32 && MayAsk(x)
    ensures Reachable(t) && Asking(t, p, x.(auth := WaitingAuth), Request(x.id, token))
    ensures Became(s, t, x, x.(auth := WaitingAuth)) && t.sim.tick == s.sim.tick + 1
  {
    hide Reachable, DispatchByChannel, ValidatedConnectionIdOrZero, HandleIncoming, Allowed, Next, QuietGate;
    TokenPasses(s, p, x, token);
    var a := ReceiveOne(s, p, 1, AuthBytes(AuthPacket(token)), AuthMsg(x.id, token));
    TokenHandled(s.sessions, x.id, token, SigningFails);
    GateStaysQuiet(s, p, x, x.(auth := WaitingAuth));
    t := TickWithMessage(a, AuthMsg(x.id, token), SigningFails);
  }

  lemma VerdictAct(s: State, p: Peer, x: Session, token: seq<byte>, accountId: nat, username: string) returns (t: State)
    requires Reachable(s) && Asking(s, p, x, Request(x.id, token)) && s.sim.tick + 1 < TWO_32
    ensures
      var y := AfterVerdict(x, Verdict(x.id, true, accountId, username, ""));
      Reachable(t) && Settled(t, p, y) && Became(s, t, x, y) && t.sim.tick == s.sim.tick + 1
  {
    hide Reachable, SendReliableMsg, Allowed, Next, QuietGate;
    var v := Verdict(x.id, true, accountId, username, "");
    var a := AnswerAct(s, Request(x.id, token), Answer(true, accountId, username, ""));
    GateStaysQuiet(s.(http := s.http.(requests := [])), p, x, AfterVerdict(x, v));
    var b := TickWithVerdict(a, v);
    PlainReply(b, p, v);
    t := SendOne(b, AuthReplyMsg(v));
  }

  /** The token, the backend's answer, and the reply. */
  lemma TokenAct(s: State, p: Peer, x: Session, token: seq<byte>, accountId: nat, username: string) returns (t: State)
    requires Reachable(s) && Settled(s, p, x) && |token| <= MAX_TOKEN_BYTES && s.sim.tick + 2 < TWO_32 && MayAsk(x)
    ensures
      var y := x.(auth := Valid, accountId := accountId, username := username, authError := "");
      Reachable(t) && Settled(t, p, y) && Became(s, t, x, y) && t.sim.tick == s.sim.tick + 2
  {
    hide Reachable, Settled, Asking;
    var a := AskAct(s, p, x, token);
    t := VerdictAct(a, p, x.(auth := WaitingAuth), token, accountId, username);
  }

  lemma PlainReply(s: State, p: Peer, v: Verdict)
    requires v.valid
    ensures AuthReplyMsg(v).kind == AuthResponseOut && AuthReplyMsg(v).id == v.id
    ensures SendReliableMsg(s.net, s.sessions, p, AuthReplyMsg(v), SendOk).context.None?
  {
  }

  lemma AnswerAct(s: State, r: Request, answer: Answer) returns (t: State)
    requires Reachable(s) && s.http == Http([r], false, [], None, [])
    ensures Reachable(t) && t.net == s.net && t.sessions == s.sessions && t.incoming == s.incoming && t.outgoing == s.outgoing
    ensures t.sim == s.sim && t.game == s.game
    ensures t.http == Http([], false, [], None, [Verdict(r.id, answer.valid, answer.accountId, answer.username, answer.error)])
  {
    hide Reachable;
    var a := Take(s, HttpDrainStep);
    var b := Take(a, HttpTakeStep);
    t := Take(b, HttpAnswerStep(answer));
  }

  // ---------------------------------------------------------------------------
  // The whole story of one client
  // ---------------------------------------------------------------------------

  predicate Trusted(x: Session, rx: Key, tx: Key) {
    x.transport && x.secure && x.encrypted && x.auth == Valid && x.rxKey == rx && x.txKey == tx
  }

  /** Whatever the keys, the token and the account, a client can be authenticated over
      a secure and encrypted session. */
  lemma SomebodyIsTrusted(p: Peer, hello: HelloPacket, rx: Key, tx: Key, token: seq<byte>, accountId: nat, username: string)
      returns (s: State, x: Session)
    requires WellFormedHello(hello) && hello.version == PROTOCOL_VERSION && |token| <= MAX_TOKEN_BYTES
    ensures Reachable(s) && Settled(s, p, x) && x.id == 1 && Trusted(x, rx, tx) && s.sim.tick == 3
  {
    hide Reachable, Settled, Initial;
    Begins();
    var a := ConnectAct(Initial(), p);
    var b := HelloAct(a, p, FreshSession(1), hello, rx, tx);
    var y := AfterHello(FreshSession(1), hello, HandshakeOk(rx, tx)).(encrypted := true);
    s := TokenAct(b, p, y, token, accountId, username);
    x := y.(auth := Valid, accountId := accountId, username := username, authError := "");
  }

  lemma Begins()
    ensures Reachable(Initial()) && Resting(Initial())
    ensures Initial().net.data == map[] && Initial().net.nextId == 1 && Initial().sessions == map[] && Initial().sim.tick == -1
  {
    assert IsRun([Initial()], []) && [Initial()][|[Initial()]| - 1] == Initial();
  }

  /** And a second hello of that client, whose signing fails, takes the secure flag and
      both keys away, while the session stays authenticated and encrypted. */
  lemma SecureFlagIsLost(p: Peer, hello: HelloPacket, again: HelloPacket, rx: Key, tx: Key, token: seq<byte>)
      returns (run: seq<State>, steps: seq<Step>)
    requires WellFormedHello(hello) && hello.version == PROTOCOL_VERSION && |token| <= MAX_TOKEN_BYTES
    requires WellFormedHello(again) && again.version == PROTOCOL_VERSION
    ensures IsRun(run, steps) && |steps| > 0
    ensures
      var s, t := run[|steps| - 1], run[|steps|];
      && HandshakeBy(s, steps[|steps| - 1], 1) == Some(SigningFails)
      && 1 in s.sessions && Trusted(s.sessions[1], rx, tx)
      && 1 in t.sessions && t.sessions[1].auth == Valid && t.sessions[1].encrypted
      && !t.sessions[1].secure && t.sessions[1].rxKey == ZERO_KEY && t.sessions[1].txKey == ZERO_KEY
  {
    hide Reachable, DispatchByChannel, ValidatedConnectionIdOrZero, Goes, Initial;
    var s, x := SomebodyIsTrusted(p, hello, rx, tx, token, 0, "");
    HelloPasses(s, p, x, again);
    var a := ReceiveOne(s, p, 0, HelloBytes(again), HelloMsg(1, again));
    var b := StartTick(a);
    run, steps := OneMore(b, HandleInStep(SigningFails));
  }
}
