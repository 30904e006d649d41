/** What the server says, message by message: everything it pushes, the reply every
    hello gets, and what the match packets announce. */
module Replies {
  import opened Packets
  import opened Messages
  import opened Sequences
  import opened Membership
  import opened Lifecycle
  import opened Invariant
  import opened Threads
  import opened Runs
  import opened Chain
  import opened Guarantees
  import opened WorldOpening
  import opened SessionContents

  // ---------------------------------------------------------------------------
  // Everything that is pushed
  // ---------------------------------------------------------------------------

  /** A packet nothing is attached to. */
  function Plain(kind: OutKind, c: ConnId, payload: Payload): OutMsg {
    OutMsg(kind, c, false, false, payload)
  }

  /** What the packet of a stage announces. */
  function Announces(s: State, stage: Stage): Payload
    requires s.sim.tick >= 0
  {
    match stage
    case InitStage => InitReply(s.sim.tick)
    case WorldStage => WorldReply
    case StartStage => StartReply(s.sim.tick, s.game.startTick, s.sim.countdown)
  }

  /** The messages a step pushes for the network thread. */
  function PushedBy(s: State, step: Step): seq<OutMsg> {
    if s.sim.tick < 0 then []
    else
      match step
      case PushHandStep => if s.sim.hand.HoldingReply? then [s.sim.hand.reply] else []
      case BroadcastStep(c) =>
        if s.sim.phase == Broadcasting(InitStage) then [Plain(MatchInitOut, c, Announces(s, InitStage))]
        else if s.sim.phase == Broadcasting(WorldStage) then [Plain(WorldInitOut, c, Announces(s, WorldStage))]
        else [Plain(MatchStartOut, c, Announces(s, StartStage))]
      case BroadcastSnapshotStep(c) => [Plain(SnapshotOut, c, SnapshotReply(0, s.sim.tick, 0))]
      case _ => []
  }

  lemma HandPushes(s: State)
    ensures PushHand(s).outs.log == s.outs.log + if s.sim.hand.HoldingReply? then [s.sim.hand.reply] else []
  {
  }

  lemma StagePushes(s: State, c: ConnId)
    requires s.sim.phase.Broadcasting? && c in s.sessions && s.sessions[c].id == c && s.sim.tick >= 0
    ensures Broadcast(s, c).outs.log == s.outs.log + PushedBy(s, BroadcastStep(c))
  {
  }

  lemma SnapshotPushes(s: State, c: ConnId)
    requires c in s.sessions && s.sessions[c].id == c && s.sessions[c].lastProcessed == 0 && s.sim.tick >= 0
    ensures BroadcastSnapshot(s, c).outs.log == s.outs.log + PushedBy(s, BroadcastSnapshotStep(c))
  {
  }

  predicate IsPush(step: Step) {
    step.PushHandStep? || step.BroadcastStep? || step.BroadcastSnapshotStep?
  }

  lemma PushesAre(s: State, step: Step)
    requires Allowed(s, step)
    ensures step.PushHandStep? ==> s.sim.hand != EmptyHand && Next(s, step) == PushHand(s)
    ensures step.BroadcastStep? ==> s.sim.phase.Broadcasting? && step.c in s.sim.todo && step.c in s.sessions && Next(s, step) == Broadcast(s, step.c)
    ensures step.BroadcastSnapshotStep? ==> s.sim.phase == Snapshots && step.c in s.sessions && Next(s, step) == BroadcastSnapshot(s, step.c)
  {
    hide PushHand, Broadcast, BroadcastSnapshot;
  }

  lemma OthersPushNothing(s: State, step: Step, t: State)
    requires Goes(s, step, t) && !IsPush(step)
    ensures t.outs.log == s.outs.log
  {
    if IsNetworkStep(step) {
      hide Allowed, Next, Later, SessionsSameForSimulation;
      FrameOf(s, step, t);
    } else {
      hide HandleIncoming, ApplyVerdict, AllReady;
    }
  }

  lemma HandIsLater(s: State)
    requires Inv(s) && s.sim.phase != Idle
    ensures s.sim.tick >= 0
  {
    hide Inv;
    TickIsOn(s);
  }

  lemma HandHasItsPhase(s: State)
    requires Inv(s) && s.sim.hand != EmptyHand
    ensures s.sim.phase == InMessages || s.sim.phase == VerdictMessages
  {
  }

  /** The messages pushed by every step of a run, in full: to whom, with which content,
      and with what to do on acknowledgement. */
  lemma PushesExactly(run: seq<State>, steps: seq<Step>, i: nat)
    requires IsRun(run, steps) && i < |steps|
    ensures run[i + 1].outs.log == run[i].outs.log + PushedBy(run[i], steps[i])
  {
    hide Inv, Allowed, Next, PushHand, Broadcast, BroadcastSnapshot, Reflects, PushedBy;
    var s, step, t := run[i], steps[i], run[i + 1];
    RunInv(run, steps, i);
    assert Goes(s, step, t);
    PushesAre(s, step);
    match step {
      case PushHandStep =>
        HandHasItsPhase(s);
        HandIsLater(s);
        HandPushes(s);
        assert PushedBy(s, step) == if s.sim.hand.HoldingReply? then [s.sim.hand.reply] else [] by { HandPushed(s); }
      case BroadcastStep(c) =>
        SessionFacts(s, c);
        HandIsLater(s);
        StagePushes(s, c);
      case BroadcastSnapshotStep(c) =>
        SessionFacts(s, c);
        HandIsLater(s);
        NothingIsProcessed(run, steps, i, c);
        SnapshotPushes(s, c);
      case _ =>
        OthersPushNothing(s, step, t);
        NothingPushed(s, step);
    }
  }

  lemma HandPushed(s: State)
    requires s.sim.tick >= 0
    ensures PushedBy(s, PushHandStep) == if s.sim.hand.HoldingReply? then [s.sim.hand.reply] else []
  {
  }

  lemma NothingPushed(s: State, step: Step)
    requires !IsPush(step)
    ensures PushedBy(s, step) == []
  {
  }

  lemma NothingIsProcessed(run: seq<State>, steps: seq<Step>, i: nat, c: ConnId)
    requires IsRun(run, steps) && i < |run| && c in run[i].sessions
    ensures run[i].sessions[c].lastProcessed == 0
  {
    hide Goes, InputsOf, FirstTokenOf, LastKeyOf;
    SessionReflectsItsMessages(run, steps, i, c);
  }

  // ---------------------------------------------------------------------------
  // The reply to a hello
  // ---------------------------------------------------------------------------

  /** A hello that was handled, with the outcome of its handshake. */
  datatype HandledHello = HandledHello(id: ConnId, hello: HelloPacket, outcome: Handshake)

  function HelloBy(s: State, step: Step): seq<HandledHello> {
    if step.HandleInStep? && s.sim.inBatch != [] && s.sim.inBatch[0].HelloMsg?
    then [HandledHello(s.sim.inBatch[0].id, s.sim.inBatch[0].hello, step.handshake)] else []
  }

  /** Those before step `k`, in order. */
  function HandledHellos(run: seq<State>, steps: seq<Step>, k: nat): seq<HandledHello>
    requires k <= |steps| < |run|
  {
    if k == 0 then [] else HandledHellos(run, steps, k - 1) + HelloBy(run[k - 1], steps[k - 1])
  }

  /** `m` is the right reply to `x`: the status tells the outcome, the nonce comes back
      when the keys could be derived and zeros otherwise, and the client is to be
      disconnected, or encrypted, on acknowledgement. */
  predicate Answers(m: OutMsg, x: HandledHello) {
    && m.kind == HelloResponseOut && m.id == x.id && m.payload.HelloReply?
    && (m.payload.status == HelloSuccess <==> x.outcome.HandshakeOk?)
    && (m.payload.status == AttestationFailed <==> x.outcome.SigningFails?)
    && (m.payload.status == InvalidClientKey <==> x.outcome.KeyExchangeFails?)
    && |m.payload.nonceEcho| == (if x.outcome.KeyExchangeFails? then NONCE_BYTES else |x.hello.nonce|)
    && (forall i :: 0 <= i < |m.payload.nonceEcho| ==> m.payload.nonceEcho[i] == if x.outcome.KeyExchangeFails? then 0 else x.hello.nonce[i])
    && (m.disconnectAfterAck <==> m.payload.status != HelloSuccess)
    && (m.enableEncryptionAfterAck <==> m.payload.status == HelloSuccess)
  }

  function HelloReplyKind(): OutMsg -> bool {
    (m: OutMsg) => m.kind == HelloResponseOut
  }

  function HelloKind(): InMsg -> bool {
    (m: InMsg) => m.HelloMsg?
  }

  /** The replies to hellos, pushed or about to be. */
  function HelloReplies(s: State): seq<OutMsg> {
    Filter(HelloReplyKind(), s.outs.log + HandReply(s.sim.hand))
  }

  lemma HelloIsAnswered(s: State, h: Handshake)
    requires s.sim.inBatch != [] && s.sim.inBatch[0].HelloMsg? && s.sim.inBatch[0].id in s.sessions && s.sim.hand == EmptyHand
    ensures
      var t := HandleIn(s, h);
      && t.sim.hand.HoldingReply? && Answers(t.sim.hand.reply, HelloBy(s, HandleInStep(h))[0])
      && t.outs.log == s.outs.log && t.ins.processed == s.ins.processed + [s.sim.inBatch[0]]
  {
  }

  lemma OthersAreNotAnswered(s: State, h: Handshake)
    requires s.sim.inBatch != [] && !s.sim.inBatch[0].HelloMsg?
    ensures
      var t := HandleIn(s, h);
      !t.sim.hand.HoldingReply? && t.outs.log == s.outs.log && t.ins.processed == s.ins.processed + [s.sim.inBatch[0]]
  {
    hide AfterInput, FreshSession;
  }

  lemma HandleInReplies(s: State, h: Handshake)
    requires Inv(s) && s.sim.inBatch != [] && s.sim.hand == EmptyHand
    ensures
      var t, x := HandleIn(s, h), HelloBy(s, HandleInStep(h));
      && |HelloReplies(t)| == |HelloReplies(s)| + |x| && HelloReplies(s) <= HelloReplies(t)
      && (x != [] ==> Answers(HelloReplies(t)[|HelloReplies(s)|], x[0]))
      && Filter(HelloKind(), t.ins.processed) == Filter(HelloKind(), s.ins.processed) + if x == [] then [] else [HelloMsg(x[0].id, x[0].hello)]
  {
    hide Inv, HandleIn, Life, Filter, Answers;
    var m, t := s.sim.inBatch[0], HandleIn(s, h);
    LineFacts(s);
    HeadFindsItsSession(s.net.nextId, s.net.peers.Keys, s.sessions.Keys, s.ins.seen, Pending(s));
    FilterPush(HelloKind(), s.ins.processed, m);
    assert s.outs.log + HandReply(s.sim.hand) == s.outs.log;
    if m.HelloMsg? {
      HelloIsAnswered(s, h);
      AnswersAreReplies(t.sim.hand.reply, HelloBy(s, HandleInStep(h))[0]);
      FilterPush(HelloReplyKind(), s.outs.log, t.sim.hand.reply);
    } else {
      OthersAreNotAnswered(s, h);
      assert t.outs.log + HandReply(t.sim.hand) == s.outs.log;
    }
  }

  lemma AnswersAreReplies(m: OutMsg, x: HandledHello)
    requires Answers(m, x)
    ensures m.kind == HelloResponseOut
  {
  }

  /** Pushing what is held, and pushing anything else, leaves the replies to hellos alone. */
  lemma PushesKeepHelloReplies(s: State, step: Step, t: State)
    requires Inv(s) && Goes(s, step, t) && IsPush(step) && t.outs.log == s.outs.log + PushedBy(s, step)
    ensures HelloReplies(t) == HelloReplies(s)
  {
    hide Inv, Allowed, Next, PushHand, Broadcast, BroadcastSnapshot, Filter;
    PushesAre(s, step);
    if step.PushHandStep? {
      HandHasItsPhase(s);
      HandIsLater(s);
      HandIsEmptied(s);
      assert t.outs.log + HandReply(t.sim.hand) == s.outs.log + HandReply(s.sim.hand);
    } else {
      BroadcastsHoldNothing(s, step);
      HandIsLater(s);
      var m := PushedBy(s, step)[0];
      assert t.outs.log == s.outs.log + [m];
      FilterPush(HelloReplyKind(), s.outs.log, m);
      assert s.outs.log + HandReply(s.sim.hand) == s.outs.log && t.outs.log + HandReply(t.sim.hand) == t.outs.log;
    }
  }

  lemma HandIsEmptied(s: State)
    requires s.sim.hand != EmptyHand
    ensures PushHand(s).sim.hand == EmptyHand
  {
  }

  lemma BroadcastsHoldNothing(s: State, step: Step)
    requires Inv(s) && Allowed(s, step) && (step.BroadcastStep? || step.BroadcastSnapshotStep?)
    ensures s.sim.hand == EmptyHand && Next(s, step).sim.hand == EmptyHand && s.sim.phase != Idle
  {
    hide Inv, StageMsg, SnapshotMsg;
    if s.sim.hand != EmptyHand {
      HandHasItsPhase(s);
    }
  }

  lemma VerdictHolds(s: State)
    requires s.sim.verdicts != [] && s.sim.hand == EmptyHand
    ensures
      var t := HandleVerdict(s);
      && t.outs.log == s.outs.log
      && (t.sim.hand == EmptyHand || (t.sim.hand.HoldingReply? && t.sim.hand.reply.kind == AuthResponseOut))
  {
    hide AfterVerdict;
  }

  lemma VerdictsKeepHelloReplies(s: State)
    requires s.sim.verdicts != [] && s.sim.hand == EmptyHand
    ensures HelloReplies(HandleVerdict(s)) == HelloReplies(s)
  {
    hide HandleVerdict, Filter;
    VerdictHolds(s);
    var t := HandleVerdict(s);
    assert s.outs.log + HandReply(s.sim.hand) == s.outs.log;
    if t.sim.hand.HoldingReply? {
      FilterPush(HelloReplyKind(), s.outs.log, t.sim.hand.reply);
    } else {
      assert t.outs.log + HandReply(t.sim.hand) == s.outs.log;
    }
  }

  lemma HandStays(s: State, step: Step, t: State)
    requires Goes(s, step, t) && !IsPush(step) && !step.HandleInStep? && !step.HandleVerdictStep?
    ensures t.sim.hand == s.sim.hand
  {
    if IsNetworkStep(step) {
      hide Allowed, Next, Later, SessionsSameForSimulation;
      FrameOf(s, step, t);
    } else {
      hide AllReady;
    }
  }

  lemma HandlersHoldNothing(s: State, step: Step)
    requires Allowed(s, step) && (step.HandleInStep? || step.HandleVerdictStep?)
    ensures s.sim.hand == EmptyHand
  {
  }

  lemma OthersKeepHelloReplies(run: seq<State>, steps: seq<Step>, i: nat)
    requires IsRun(run, steps) && i < |steps| && !steps[i].HandleInStep?
    ensures HelloReplies(run[i + 1]) == HelloReplies(run[i]) && run[i + 1].ins.processed == run[i].ins.processed
  {
    hide Inv, Allowed, Next, Filter, PushedBy, HandleVerdict, HelloReplies;
    var s, step, t := run[i], steps[i], run[i + 1];
    RunInv(run, steps, i);
    assert Goes(s, step, t);
    OnlyHandlingProcesses(s, step, t);
    if IsPush(step) {
      PushesExactly(run, steps, i);
      PushesKeepHelloReplies(s, step, t);
    } else if step.HandleVerdictStep? {
      HandlersAre(s, step);
      HandlersHoldNothing(s, step);
      VerdictsKeepHelloReplies(s);
    } else {
      OthersPushNothing(s, step, t);
      HandStays(s, step, t);
      SameHelloReplies(s, t);
    }
  }

  lemma SameHelloReplies(s: State, t: State)
    requires t.outs.log == s.outs.log && t.sim.hand == s.sim.hand
    ensures HelloReplies(t) == HelloReplies(s)
  {
  }

  /** Every hello that was handled gets one reply, in the order they were handled, and it
      is the right one. */
  lemma {:induction false} HellosAreAnswered(run: seq<State>, steps: seq<Step>, k: nat)
    requires IsRun(run, steps) && k <= |steps|
    ensures
      var replies, handled, hellos := HelloReplies(run[k]), HandledHellos(run, steps, k), Filter(HelloKind(), run[k].ins.processed);
      && |replies| == |handled| == |hellos|
      && (forall i :: 0 <= i < |handled| ==> Answers(replies[i], handled[i]))
      && (forall i :: 0 <= i < |handled| ==> hellos[i] == HelloMsg(handled[i].id, handled[i].hello))
  {
    hide Inv, Goes, HelloReplies, Answers, Filter;
    if k == 0 {
      NobodyIsAnsweredAtFirst();
    } else {
      var s, step := run[k - 1], steps[k - 1];
      HellosAreAnswered(run, steps, k - 1);
      RunInv(run, steps, k - 1);
      assert Goes(s, step, run[k]);
      if step.HandleInStep? {
        HandlesNow(s, step, run[k]);
        HandleInReplies(s, step.handshake);
      } else {
        OthersKeepHelloReplies(run, steps, k - 1);
      }
    }
  }

  lemma HandlesNow(s: State, step: Step, t: State)
    requires Goes(s, step, t) && step.HandleInStep?
    ensures s.sim.inBatch != [] && s.sim.hand == EmptyHand && t == HandleIn(s, step.handshake)
  {
    hide HandleIn;
  }

  lemma NobodyIsAnsweredAtFirst()
    ensures HelloReplies(Initial()) == [] && Filter(HelloKind(), Initial().ins.processed) == []
  {
  }

  // ---------------------------------------------------------------------------
  // The reply to a token
  // ---------------------------------------------------------------------------

  /** Every verdict that was applied gets one reply, in order: its sign, for its
      connection, and a disconnection on acknowledgement exactly when it is negative. */
  lemma VerdictsAreAnswered(run: seq<State>, steps: seq<Step>, k: nat)
    requires IsRun(run, steps) && k < |run|
    ensures
      var replies, applied := Filter(AuthReplyKind(), run[k].outs.log + HandReply(run[k].sim.hand)), run[k].auths.applied;
      && |replies| == |applied|
      && forall i :: 0 <= i < |applied| ==>
           replies[i] == OutMsg(AuthResponseOut, applied[i].id, !applied[i].valid, false, AuthReply(applied[i].valid))
  {
    hide IsRun, Inv, Filter;
    RunInv(run, steps, k);
    AuthFacts(run[k]);
  }

  // ---------------------------------------------------------------------------
  // What the match packets announce
  // ---------------------------------------------------------------------------

  /** What a start packet must say: the tick of the decision, the tick of the opening,
      and the countdown between the two. */
  predicate AnnouncesStart(m: OutMsg, s: State) {
    && s.matches.record.Some?
    && m.payload == StartReply(s.matches.record.value.tick, s.game.startTick, s.matches.record.value.countdown)
    && s.game.startTick == s.matches.record.value.tick + s.matches.record.value.countdown
  }

  ghost predicate StartSays(s: State) {
    forall m :: m in s.outs.log && m.kind == MatchStartOut ==> Decided(s) && AnnouncesStart(m, s)
  }

  lemma NewStartSays(s: State, step: Step, m: OutMsg)
    requires Inv(s) && Allowed(s, step) && m in PushedBy(s, step) && m.kind == MatchStartOut
    ensures Decided(s) && AnnouncesStart(m, s)
  {
    hide Inv, Allowed, Next, StartDecided;
    PushesAre(s, step);
    TickIsOn(s);
    HandHoldsReplies(s);
  }

  lemma DecisionStays(s: State, t: State, m: OutMsg)
    requires Later(s, t) && Decided(s) && AnnouncesStart(m, s)
    ensures Decided(t) && AnnouncesStart(m, t)
  {
  }

  /** Every start packet ever pushed says the tick at which the start was decided, the
      tick at which the world may open, and the countdown between them. */
  lemma {:induction false} StartPacketsSay(run: seq<State>, steps: seq<Step>, k: nat, m: OutMsg)
    requires IsRun(run, steps) && k < |run| && m in run[k].outs.log && m.kind == MatchStartOut
    ensures Decided(run[k]) && AnnouncesStart(m, run[k])
  {
    hide Inv, Goes, Later, PushedBy, Decided, AnnouncesStart;
    if k > 0 {
      var s, step := run[k - 1], steps[k - 1];
      RunInv(run, steps, k - 1);
      assert Goes(s, step, run[k]);
      PushesExactly(run, steps, k - 1);
      LaterRun(run, steps, k - 1, k);
      if m in s.outs.log {
        StartPacketsSay(run, steps, k - 1, m);
      } else {
        GoesIsAllowed(s, step, run[k]);
        NewStartSays(s, step, m);
      }
      DecisionStays(s, run[k], m);
    } else {
      NothingPushedAtFirst();
    }
  }

  lemma GoesIsAllowed(s: State, step: Step, t: State)
    requires Goes(s, step, t)
    ensures Allowed(s, step)
  {
    hide Allowed, Next;
  }

  lemma NothingPushedAtFirst()
    ensures Initial().outs.log == []
  {
  }

  /** The init packets pushed so far all name one tick, which is the present one while
      the stage lasts. */
  ghost predicate InitSays(s: State) {
    forall m :: m in s.outs.log && m.kind == MatchInitOut ==>
      && (s.game.initSent || s.sim.phase == Broadcasting(InitStage))
      && m.payload.InitReply?
      && (s.sim.phase == Broadcasting(InitStage) ==> m.payload.tick == s.sim.tick)
      && forall n :: n in s.outs.log && n.kind == MatchInitOut ==> n.payload == m.payload
  }

  /** A step may enter the stage, be inside it, or leave it. */
  lemma InitStageMoves(s: State, step: Step, t: State)
    requires Inv(s) && Goes(s, step, t)
    ensures t.sim.phase == Broadcasting(InitStage) && s.sim.phase != Broadcasting(InitStage) ==> !s.game.initSent
    ensures t.sim.phase == Broadcasting(InitStage) && s.sim.phase == Broadcasting(InitStage) ==> t.sim.tick == s.sim.tick
    ensures s.game.initSent ==> t.game.initSent
    ensures s.sim.phase == Broadcasting(InitStage) && t.sim.phase != Broadcasting(InitStage) ==> t.game.initSent
  {
    hide Inv, Allowed, Next, Later;
    StepMoves(s, step, t);
    LaterStep(s, step);
    LaterFlags(s, t);
    FlowFacts(s);
    LockingIsDue(s);
    BeginsIdle(s, step);
    if step.BroadcastDoneStep? {
      InitStageEnds(s, step);
    }
  }

  lemma LaterFlags(s: State, t: State)
    requires Later(s, t)
    ensures s.game.initSent ==> t.game.initSent
  {
  }

  lemma LockingIsDue(s: State)
    requires Flow(s.game, s.sim, s.sessions.Keys, s.matches)
    ensures s.sim.phase == Locking(InitStage) ==> !s.game.initSent
  {
  }

  lemma BeginsIdle(s: State, step: Step)
    requires Allowed(s, step)
    ensures step.BeginTickStep? ==> s.sim.phase == Idle
    ensures step.DecideStep? ==> s.sim.phase.Deciding?
    ensures step.LockStep? ==> s.sim.phase.Locking?
    ensures s.sim.phase == Broadcasting(InitStage) && IsSimulationStep(step) ==> step.BroadcastStep? || step.BroadcastDoneStep? || step.PushHandStep?
  {
  }

  lemma InitStageEnds(s: State, step: Step)
    requires Allowed(s, step) && step.BroadcastDoneStep?
    ensures s.sim.phase == Broadcasting(InitStage) ==> Next(s, step).game.initSent
  {
  }

  lemma NewInitSays(s: State, step: Step, m: OutMsg)
    requires Inv(s) && Allowed(s, step) && m in PushedBy(s, step) && m.kind == MatchInitOut
    ensures s.sim.tick >= 0 && s.sim.phase == Broadcasting(InitStage) && m.payload == InitReply(s.sim.tick) && Next(s, step).sim.phase == s.sim.phase
  {
    hide Inv, Broadcast, BroadcastSnapshot, PushHand, Next;
    PushesAre(s, step);
    HandHoldsReplies(s);
    if step.BroadcastStep? {
      BroadcastStays(s, step.c);
    }
  }

  lemma BroadcastStays(s: State, c: ConnId)
    requires s.sim.phase.Broadcasting? && c in s.sessions
    ensures Broadcast(s, c).sim.phase == s.sim.phase
  {
    hide StageMsg;
  }

  lemma StepInitSays(s: State, step: Step, t: State)
    requires Inv(s) && Goes(s, step, t) && InitSays(s) && t.outs.log == s.outs.log + PushedBy(s, step)
    ensures InitSays(t)
  {
    hide Inv, Allowed, Next, PushedBy;
    InitStageMoves(s, step, t);
    forall m | m in PushedBy(s, step) && m.kind == MatchInitOut
      ensures s.sim.tick >= 0 && s.sim.phase == Broadcasting(InitStage) && m.payload == InitReply(s.sim.tick) && t.sim.phase == s.sim.phase
    {
      NewInitSays(s, step, m);
    }
  }

  lemma {:induction false} RunInitSays(run: seq<State>, steps: seq<Step>, k: nat)
    requires IsRun(run, steps) && k < |run|
    ensures InitSays(run[k])
  {
    hide Inv, Goes, InitSays, PushedBy;
    if k == 0 {
      NoInitAtFirst();
    } else {
      RunInitSays(run, steps, k - 1);
      RunInv(run, steps, k - 1);
      assert Goes(run[k - 1], steps[k - 1], run[k]);
      PushesExactly(run, steps, k - 1);
      StepInitSays(run[k - 1], steps[k - 1], run[k]);
    }
  }

  lemma NoInitAtFirst()
    ensures InitSays(Initial())
  {
  }

  /** Every client is told the same tick by MATCH_INIT, that of the step that pushed it. */
  lemma InitPacketsAgree(run: seq<State>, steps: seq<Step>, i: nat, k: nat, m: OutMsg, n: OutMsg)
    requires IsRun(run, steps) && i < |steps| && k < |run|
    requires m in PushedBy(run[i], steps[i]) && m.kind == MatchInitOut && n in run[k].outs.log && n.kind == MatchInitOut
    ensures run[i].sim.tick >= 0 && m.payload == InitReply(run[i].sim.tick) && n.payload == m.payload
  {
    hide Inv, Goes, InitSays, PushedBy;
    RunInv(run, steps, i);
    assert Goes(run[i], steps[i], run[i + 1]);
    GoesIsAllowed(run[i], steps[i], run[i + 1]);
    NewInitSays(run[i], steps[i], m);
    PushesExactly(run, steps, i);
    var j := if k < i + 1 then i + 1 else k;
    PushedStays(run, steps, i + 1, j, m);
    PushedStays(run, steps, k, j, n);
    RunInitSays(run, steps, j);
    BothSay(run[j], m, n);
  }

  lemma PushedStays(run: seq<State>, steps: seq<Step>, i: nat, j: nat, m: OutMsg)
    requires IsRun(run, steps) && i <= j < |run| && m in run[i].outs.log
    ensures m in run[j].outs.log
  {
    hide Goes;
    LaterRun(run, steps, i, j);
  }

  lemma BothSay(s: State, m: OutMsg, n: OutMsg)
    requires InitSays(s) && m in s.outs.log && n in s.outs.log && m.kind == MatchInitOut && n.kind == MatchInitOut
    ensures n.payload == m.payload
  {
  }
}
