/** What single steps do, in the words a caller needs, and the passes of the threads as
    if nothing ran in between. The methods of the server are proved against these. */
module Effects {
  import opened Wrappers
  import opened Messages
  import opened Sequences
  import opened Preparation
  import opened Membership
  import opened Lifecycle
  import opened Invariant
  import opened Threads
  import opened Runs
  import opened Chain
  import opened Guarantees

  datatype Thread = NetworkThread | SimulationThread | HttpThread

  function ThreadOf(step: Step): Thread {
    if IsNetworkStep(step) then NetworkThread else if IsHttpStep(step) then HttpThread else SimulationThread
  }

  /** Whether a step can be taken depends on no history. */
  lemma AllowedIgnoresHistory(s: State, step: Step, ins: InHistory, auths: AuthHistory, secures: SecureHistory,
                              outs: OutHistory, matches: MatchHistory)
    ensures Allowed(s, step) == Allowed(s.(ins := ins, auths := auths, secures := secures, outs := outs,
        matches := matches), step)
  {
  }

  /** What the simulation thread can rely on while the other two run. */
  ghost predicate QuietForSimulation(s: State, t: State) {
    && t.sim == s.sim && t.game == s.game && t.matches == s.matches && t.outs.log == s.outs.log
    && t.ins.processed == s.ins.processed && t.auths == s.auths && s.http.verdicts <= t.http.verdicts
    && SessionsSameForSimulation(s.sessions, t.sessions)
  }

  ghost predicate QuietForNetwork(s: State, t: State) {
    t.net == s.net && t.outs == s.outs.(log := t.outs.log)
  }

  ghost predicate QuietForHttp(s: State, t: State) {
    t.http.batch == s.http.batch && t.http.job == s.http.job && s.http.requests <= t.http.requests
  }

  ghost predicate Quiet(me: Thread, s: State, t: State) {
    match me
    case SimulationThread => QuietForSimulation(s, t)
    case NetworkThread => QuietForNetwork(s, t)
    case HttpThread => QuietForHttp(s, t)
  }

  lemma OthersAreQuiet(me: Thread, s: State, step: Step)
    requires Allowed(s, step) && ThreadOf(step) != me
    ensures Quiet(me, s, Next(s, step))
  {
    hide Allowed, Next, Later, VerdictsTaken;
    if IsNetworkStep(step) {
      NetworkKeeps(s, step);
    } else if IsHttpStep(step) {
      HttpKeeps(s, step);
      SessionsSameRefl(s.sessions);
    } else {
      SimulationKeeps(s, step);
    }
  }

  lemma QuietRefl(me: Thread, s: State)
    ensures Quiet(me, s, s)
  {
  }

  lemma QuietTrans(me: Thread, s: State, t: State, u: State)
    requires Quiet(me, s, t) && Quiet(me, t, u)
    ensures Quiet(me, s, u)
  {
  }

  // ---------------------------------------------------------------------------
  // Interference, exactly
  // ---------------------------------------------------------------------------

  /** A step another thread can take now. */
  predicate CanInterfere(me: Thread, s: State, step: Step) {
    ThreadOf(step) != me && Allowed(s, step)
  }

  /** The state after the steps of `others` that the other threads can take, in order. */
  function AfterOthers(me: Thread, s: State, others: seq<Step>): State {
    if others == [] then s
    else
      var n := |others| - 1;
      var t := AfterOthers(me, s, others[..n]);
      if CanInterfere(me, t, others[n]) then Next(t, others[n]) else t
  }

  /** Those steps. */
  function TakenByOthers(me: Thread, s: State, others: seq<Step>): seq<Step> {
    if others == [] then []
    else
      var n := |others| - 1;
      TakenByOthers(me, s, others[..n]) + if CanInterfere(me, AfterOthers(me, s, others[..n]), others[n]) then [others[n]] else []
  }

  lemma OthersPush(me: Thread, s: State, others: seq<Step>, step: Step)
    ensures
      var t := AfterOthers(me, s, others);
      && AfterOthers(me, s, others + [step]) == (if CanInterfere(me, t, step) then Next(t, step) else t)
      && TakenByOthers(me, s, others + [step]) == TakenByOthers(me, s, others) + if CanInterfere(me, t, step) then [step] else []
  {
    hide CanInterfere, Next;
    assert (others + [step])[..|others|] == others;
  }

  lemma NoOthers(me: Thread, s: State)
    ensures AfterOthers(me, s, []) == s && TakenByOthers(me, s, []) == []
  {
  }

  function OwnMain(me: Thread): Step -> bool {
    (step: Step) => ThreadOf(step) == me && !step.PushHandStep?
  }

  /** The steps of one thread, leaving out the pushes that end a handler. */
  function Main(me: Thread, steps: seq<Step>): seq<Step> {
    Filter(OwnMain(me), steps)
  }

  lemma MainPush(me: Thread, steps: seq<Step>, step: Step)
    ensures Main(me, steps + [step]) == Main(me, steps) + if ThreadOf(step) == me && !step.PushHandStep? then [step] else []
  {
    hide ThreadOf;
    FilterPush(OwnMain(me), steps, step);
  }

  lemma {:induction false} OthersAreNotMain(me: Thread, steps: seq<Step>, s: State, others: seq<Step>)
    ensures Main(me, steps + TakenByOthers(me, s, others)) == Main(me, steps)
  {
    hide Main, ThreadOf, AfterOthers;
    if others == [] {
      assert steps + [] == steps;
    } else {
      var n := |others| - 1;
      OthersAreNotMain(me, steps, s, others[..n]);
      var taken := TakenByOthers(me, s, others[..n]);
      if CanInterfere(me, AfterOthers(me, s, others[..n]), others[n]) {
        MainPush(me, steps + taken, others[n]);
        assert steps + (taken + [others[n]]) == steps + taken + [others[n]];
      } else {
        assert steps + (taken + []) == steps + taken;
      }
    }
  }

  /** The main steps of a thread that took `steps`, then one of its own. */
  predicate MainGrew(me: Thread, before: seq<Step>, after: seq<Step>, program: seq<Step>) {
    Main(me, after) == Main(me, before) + program
  }

  lemma MainGrewTrans(me: Thread, a: seq<Step>, b: seq<Step>, c: seq<Step>, p: seq<Step>, q: seq<Step>)
    requires MainGrew(me, a, b, p) && MainGrew(me, b, c, q)
    ensures MainGrew(me, a, c, p + q)
  {
    hide Main;
    assert Main(me, a) + p + q == Main(me, a) + (p + q);
  }

  lemma MainGrewRefl(me: Thread, a: seq<Step>)
    ensures MainGrew(me, a, a, [])
  {
    hide Main;
  }

  lemma MainGrewPush(me: Thread, a: seq<Step>, step: Step)
    ensures MainGrew(me, a, a + [step], if ThreadOf(step) == me && !step.PushHandStep? then [step] else [])
  {
    MainPush(me, a, step);
  }

  /** The handlers of a batch, with the outcomes of its handshakes. */
  function HandleSteps(n: nat, handshakes: nat -> Handshake): seq<Step> {
    if n == 0 then [] else HandleSteps(n - 1, handshakes) + [HandleInStep(handshakes(n - 1))]
  }

  function SendSteps(outcomes: nat -> SendOutcome, uids: seq<nat>): seq<Step> {
    if uids == [] then [] else SendSteps(outcomes, uids[..|uids| - 1]) + [SendReliableStep(outcomes(|uids| - 1), uids[|uids| - 1])]
  }

  function AnswerSteps(n: nat, answers: nat -> Answer): seq<Step> {
    if n == 0 then [] else AnswerSteps(n - 1, answers) + [HttpTakeStep, HttpAnswerStep(answers(n - 1))]
  }

  /** Every kept snapshot is allocated once and, when its connection is bound, sent once. */
  function SnapshotSteps(order: seq<ConnId>, peers: map<ConnId, Peer>, outcomes: nat -> SendOutcome): seq<Step> {
    if order == [] then []
    else
      var n := |order| - 1;
      SnapshotSteps(order[..n], peers, outcomes) + SnapshotStepsFor(order[n], peers, outcomes(n))
  }

  function SnapshotStepsFor(c: ConnId, peers: map<ConnId, Peer>, o: SendOutcome): seq<Step> {
    if c in peers then [AllocateSnapshotStep(c), SendSnapshotStep(o)] else [AllocateSnapshotStep(c)]
  }

  /** The snapshot kept for `c` gets an id and is sent; otherwise it is dropped. */
  predicate SnapshotGoes(s: State, c: ConnId)
    requires s.net.control.Sending? && c in s.net.control.prepared.snapshots
  {
    var m := s.net.control.prepared.snapshots[c];
    m.id in s.net.peers && m.kind == SnapshotOut && m.payload.SnapshotReply? && m.id in s.sessions
  }

  lemma HandleInEffect(s: State, h: Handshake)
    requires s.sim.phase == InMessages && s.sim.hand == EmptyHand && s.sim.inBatch != []
    ensures Allowed(s, HandleInStep(h))
    ensures
      var t := Next(s, HandleInStep(h));
      && t.sim == s.sim.(inBatch := s.sim.inBatch[1..], hand := t.sim.hand)
          && t.ins.processed == s.ins.processed + [s.sim.inBatch[0]]
      && t.auths.answered == s.auths.answered
  {
    hide HandleIncoming;
  }

  lemma PushHandEffect(s: State)
    requires s.sim.hand != EmptyHand
    ensures Allowed(s, PushHandStep)
    ensures
      var t := Next(s, PushHandStep);
      t.sim == s.sim.(hand := EmptyHand) && t.ins == s.ins && t.auths == s.auths
  {
  }

  predicate PhaseOnly(s: State, step: Step, phase: Phase) {
    match step
    case InMessagesDoneStep => s.sim.phase == InMessages && s.sim.hand == EmptyHand && s.sim.inBatch == []
        && phase == VerdictMessages
    case VerdictMessagesDoneStep => s.sim.phase == VerdictMessages && s.sim.hand == EmptyHand
        && s.sim.verdicts == [] && phase == Gate
    case SnapshotsDoneStep => s.sim.phase == Snapshots && s.sim.todo == {} && phase == Idle
    case _ => false
  }

  lemma PhaseEffect(s: State, step: Step, phase: Phase)
    requires PhaseOnly(s, step, phase)
    ensures Allowed(s, step) && Next(s, step) == AtPhase(s, phase)
  {
  }

  lemma HandleVerdictEffect(s: State)
    requires s.sim.phase == VerdictMessages && s.sim.hand == EmptyHand && s.sim.verdicts != []
    ensures Allowed(s, HandleVerdictStep)
    ensures
      var t := Next(s, HandleVerdictStep);
      t.sim == s.sim.(verdicts := s.sim.verdicts[1..], hand := t.sim.hand)
          && t.auths.answered == s.auths.answered + [s.sim.verdicts[0]]
  {
    hide ApplyVerdict;
  }

  // ---------------------------------------------------------------------------
  // CheckMatchFlow as if nothing ran in between
  // ---------------------------------------------------------------------------

  function StartTickAt(tick: int, countdown: nat): nat {
    ((if tick >= 0 then tick else 0) + countdown) % TWO_64
  }

  /** What CheckMatchFlow makes of the match fields when it runs on its own. */
  function FlowResult(game: Match, sessions: map<ConnId, Session>, tick: int, countdown: nat): Match {
    if |sessions| < MAX_CLIENTS then game
    else
      var sent := game.(initSent := true, worldSent := true);
      var decided :=
        if !game.startSent && AllReady(sessions) then sent.(startSent := true, startTick := StartTickAt(tick, countdown)) else sent;
      if decided.startSent && tick >= decided.startTick then decided.(started := true) else decided
  }

  /** Who it sends the packets of a stage to: everybody in the table, once. */
  function StageResult(matches: MatchHistory, stage: Stage, keys: set<ConnId>): MatchHistory {
    match stage
    case InitStage => matches.(init := matches.init + keys)
    case WorldStage => matches.(world := matches.world + keys)
    case StartStage => matches.(start := matches.start + keys)
  }

  function AfterStage(game: Match, stage: Stage): Match {
    match stage
    case InitStage => game.(initSent := true)
    case WorldStage => game.(worldSent := true)
    case StartStage => game.(startSent := true)
  }

  function PhaseAfter(stage: Stage): Phase {
    match stage
    case InitStage => Deciding(WorldStage)
    case WorldStage => Deciding(StartStage)
    case StartStage => Opening
  }

  /** The stage is still to be done, and can be. */
  predicate StageDue(game: Match, sessions: map<ConnId, Session>, stage: Stage) {
    match stage
    case InitStage => !game.initSent
    case WorldStage => !game.worldSent
    case StartStage => !game.startSent && AllReady(sessions)
  }

  function StageStarts(game: Match, stage: Stage, tick: int, countdown: nat): Match {
    if stage == StartStage then game.(startTick := StartTickAt(tick, countdown)) else game
  }

  /** The sets of addressees, leaving aside the record of the decision. */
  function Addressees(matches: MatchHistory): MatchHistory {
    matches.(record := None)
  }

  lemma CheckGateEffect(s: State)
    requires s.sim.phase == Gate
    ensures Allowed(s, CheckGateStep)
    ensures Next(s, CheckGateStep) == AtPhase(s, if |s.sessions| < MAX_CLIENTS then Simulating else Deciding(InitStage))
  {
  }

  lemma DecideEffect(s: State, stage: Stage, countdown: nat)
    requires s.sim.phase == Deciding(stage) && countdown < TWO_32
    ensures Allowed(s, DecideStep(countdown))
    ensures
      var t := Next(s, DecideStep(countdown));
      var due := StageDue(s.game, s.sessions, stage);
      && t.sessions == s.sessions && Addressees(t.matches) == Addressees(s.matches)
      && t.game == (if due then StageStarts(s.game, stage, s.sim.tick, countdown) else s.game)
      && t.sim == s.sim.(phase := if due then Locking(stage) else PhaseAfter(stage), countdown := t.sim.countdown)
  {
    hide AllReady;
  }

  lemma OpenEffect(s: State)
    requires s.sim.phase == Opening
    ensures Allowed(s, OpenStep)
    ensures
      var t := Next(s, OpenStep);
      && t.sim == s.sim.(phase := Simulating) && t.sessions == s.sessions && t.matches == s.matches
      && t.game == s.game.(started := s.game.started || (s.game.startSent && s.sim.tick >= s.game.startTick))
  {
  }

  lemma AddresseesStage(m: MatchHistory, n: MatchHistory, stage: Stage, keys: set<ConnId>)
    requires Addressees(m) == Addressees(n)
    ensures Addressees(StageResult(m, stage, keys)) == Addressees(StageResult(n, stage, keys))
    ensures Addressees(StageResult(m, stage, {})) == Addressees(m)
  {
    StageResultMore(m, stage, {}, 0);
  }

  /** The three stages and the gate, one after the other, are FlowResult. */
  lemma StagesMakeFlow(g0: Match, sessions: map<ConnId, Session>, tick: int, countdown: nat)
    requires |sessions| >= MAX_CLIENTS
    ensures
      var g1 := StageGame(g0, sessions, InitStage, tick, countdown);
      var g2 := StageGame(g1, sessions, WorldStage, tick, countdown);
      var g3 := StageGame(g2, sessions, StartStage, tick, countdown);
      FlowResult(g0, sessions, tick, countdown) == g3.(started := g3.started || (g3.startSent && tick >= g3.startTick))
    ensures
      var g1 := StageGame(g0, sessions, InitStage, tick, countdown);
      var g2 := StageGame(g1, sessions, WorldStage, tick, countdown);
      && StageDue(g1, sessions, WorldStage) == StageDue(g0, sessions, WorldStage)
      && StageDue(g2, sessions, StartStage) == StageDue(g0, sessions, StartStage)
  {
    hide AllReady;
  }

  function StageGame(game: Match, sessions: map<ConnId, Session>, stage: Stage, tick: int, countdown: nat): Match {
    if StageDue(game, sessions, stage) then AfterStage(StageStarts(game, stage, tick, countdown), stage) else game
  }

  /** Who the flow addresses in one tick, all stages together. */
  function FlowAddressees(matches: MatchHistory, game: Match, sessions: map<ConnId, Session>): MatchHistory {
    if |sessions| < MAX_CLIENTS then Addressees(matches)
    else
      var m1 := StageResult(matches, InitStage, if StageDue(game, sessions, InitStage) then sessions.Keys else {});
      var m2 := StageResult(m1, WorldStage, if StageDue(game, sessions, WorldStage) then sessions.Keys else {});
      Addressees(StageResult(m2, StartStage, if StageDue(game, sessions, StartStage) then sessions.Keys else {}))
  }

  lemma LockEffect(s: State, stage: Stage)
    requires s.sim.phase == Locking(stage)
    ensures Allowed(s, LockStep)
    ensures Next(s, LockStep) == s.(sim := s.sim.(phase := Broadcasting(stage), todo := s.sessions.Keys))
  {
  }

  lemma BroadcastEffect(s: State, stage: Stage, c: ConnId)
    requires s.sim.phase == Broadcasting(stage) && c in s.sim.todo && c in s.sessions
    ensures Allowed(s, BroadcastStep(c))
    ensures
      var t := Next(s, BroadcastStep(c));
      && t.sim == s.sim.(todo := s.sim.todo - {c}) && t.game == s.game && t.sessions == s.sessions
      && t.matches == StageResult(s.matches, stage, {c})
  {
    hide StageMsg;
  }

  lemma BroadcastDoneEffect(s: State, stage: Stage)
    requires s.sim.phase == Broadcasting(stage) && s.sim.todo == {}
    ensures Allowed(s, BroadcastDoneStep)
    ensures Next(s, BroadcastDoneStep) == s.(sim := s.sim.(phase := PhaseAfter(stage)), game := AfterStage(s.game, stage))
  {
  }

  lemma StageResultMore(m: MatchHistory, stage: Stage, done: set<ConnId>, c: ConnId)
    ensures StageResult(StageResult(m, stage, done), stage, {c}) == StageResult(m, stage, done + {c})
    ensures StageResult(m, stage, {}) == m
  {
  }

  lemma SameTablesTrans(a: map<ConnId, Session>, b: map<ConnId, Session>, c: map<ConnId, Session>)
    requires SessionsSameForSimulation(a, b) && SessionsSameForSimulation(b, c)
    ensures SessionsSameForSimulation(a, c)
  {
  }

  lemma SameTablesReady(a: map<ConnId, Session>, b: map<ConnId, Session>)
    requires SessionsSameForSimulation(a, b)
    ensures a.Keys == b.Keys && |a| == |b| && AllReady(a) == AllReady(b)
  {
  }

  /** The three stages see tables that differ only in what they do not read. */
  lemma StagesUnderSameTables(s0: State, s1: State, s2: State, s3: State, countdown: nat)
    requires |s0.sessions| >= MAX_CLIENTS
    requires SessionsSameForSimulation(s0.sessions, s1.sessions) && SessionsSameForSimulation(s0.sessions, s2.sessions)
    requires s1.game == StageGame(s0.game, s0.sessions, InitStage, s0.sim.tick, countdown)
    requires s2.game == StageGame(s1.game, s1.sessions, WorldStage, s0.sim.tick, countdown)
    requires s3.game == StageGame(s2.game, s2.sessions, StartStage, s0.sim.tick, countdown)
    requires Addressees(s1.matches) == Addressees(StageResult(s0.matches, InitStage, if StageDue(s0.game, s0.sessions, InitStage) then s0.sessions.Keys else {}))
    requires Addressees(s2.matches) == Addressees(StageResult(s1.matches, WorldStage, if StageDue(s1.game, s1.sessions, WorldStage) then s1.sessions.Keys else {}))
    requires Addressees(s3.matches) == Addressees(StageResult(s2.matches, StartStage, if StageDue(s2.game, s2.sessions, StartStage) then s2.sessions.Keys else {}))
    ensures FlowResult(s0.game, s0.sessions, s0.sim.tick, countdown) ==
              s3.game.(started := s3.game.started || (s3.game.startSent && s0.sim.tick >= s3.game.startTick))
    ensures Addressees(s3.matches) == FlowAddressees(s0.matches, s0.game, s0.sessions)
  {
    hide SessionsSameForSimulation, AllReady, StageResult, FlowResult;
    SameTablesReady(s0.sessions, s1.sessions);
    SameTablesReady(s0.sessions, s2.sessions);
    StagesMakeFlow(s0.game, s0.sessions, s0.sim.tick, countdown);
    var k1 := if StageDue(s0.game, s0.sessions, InitStage) then s0.sessions.Keys else {};
    var k2 := if StageDue(s0.game, s0.sessions, WorldStage) then s0.sessions.Keys else {};
    AddresseesStage(s1.matches, StageResult(s0.matches, InitStage, k1), WorldStage, k2);
    var k3 := if StageDue(s0.game, s0.sessions, StartStage) then s0.sessions.Keys else {};
    AddresseesStage(s2.matches, StageResult(StageResult(s0.matches, InitStage, k1), WorldStage, k2), StartStage, k3);
  }

  // ---------------------------------------------------------------------------
  // Snapshots of one tick
  // ---------------------------------------------------------------------------

  function IsSnapshotTo(c: ConnId): OutMsg -> bool {
    (m: OutMsg) => m.kind == SnapshotOut && m.id == c
  }

  /** How many snapshots were ever pushed for `c`. */
  function SnapshotCount(log: seq<OutMsg>, c: ConnId): nat {
    |Filter(IsSnapshotTo(c), log)|
  }

  /** Between the two logs everybody of `keys` got one snapshot and nobody else any. */
  ghost predicate OneSnapshotEach(a: seq<OutMsg>, b: seq<OutMsg>, keys: set<ConnId>) {
    forall c: ConnId :: SnapshotCount(b, c) == SnapshotCount(a, c) + if c in keys then 1 else 0
  }

  /** Two stretches of the log, no snapshot in the first. */
  lemma OneSnapshotAfterNone(a: seq<OutMsg>, b: seq<OutMsg>, c: seq<OutMsg>, keys: set<ConnId>)
    requires OneSnapshotEach(a, b, {}) && OneSnapshotEach(b, c, keys)
    ensures OneSnapshotEach(a, c, keys)
  {
    hide SnapshotCount;
  }

  lemma OneSnapshotMore(a: seq<OutMsg>, b: seq<OutMsg>, keys: set<ConnId>, m: OutMsg)
    requires OneSnapshotEach(a, b, keys) && m.kind == SnapshotOut && m.id !in keys
    ensures OneSnapshotEach(a, b + [m], keys + {m.id})
  {
    forall c: ConnId
      ensures SnapshotCount(b + [m], c) == SnapshotCount(a, c) + if c in keys + {m.id} then 1 else 0
    {
      FilterPush(IsSnapshotTo(c), b, m);
    }
  }

  lemma NoSnapshotYet(log: seq<OutMsg>)
    ensures OneSnapshotEach(log, log, {})
  {
  }

  lemma LaterProcessed(s: State, t: State)
    requires Later(s, t)
    ensures s.ins.processed <= t.ins.processed && s.auths.answered <= t.auths.answered
  {
  }

  lemma ChooseSnapshotsEffect(s: State, production: bool)
    requires s.sim.phase == ChoosingSnapshots
    ensures Allowed(s, ChooseSnapshotsStep(production))
    ensures Next(s, ChooseSnapshotsStep(production)) ==
              if production then s.(sim := s.sim.(phase := Snapshots, todo := s.sessions.Keys)) else AtPhase(s, Idle)
  {
  }

  lemma SnapshotEffect(s: State, c: ConnId)
    requires s.sim.phase == Snapshots && c in s.sim.todo && c in s.sessions
    ensures Allowed(s, BroadcastSnapshotStep(c))
    ensures
      var t := Next(s, BroadcastSnapshotStep(c));
      && t.sim == s.sim.(todo := s.sim.todo - {c}) && t.sessions == s.sessions && t.game == s.game
      && t.outs.log == s.outs.log + [SnapshotMsg(s, s.sessions[c])]
  {
    hide SnapshotMsg;
  }

  lemma SnapshotIsForItsSession(run: seq<State>, steps: seq<Step>, c: ConnId)
    requires IsRun(run, steps) && c in run[|run| - 1].sessions
    ensures
      var s := run[|run| - 1];
      SnapshotMsg(s, s.sessions[c]).kind == SnapshotOut && SnapshotMsg(s, s.sessions[c]).id == c
  {
    hide Inv, Goes;
    RunInv(run, steps, |run| - 1);
    SessionFacts(run[|run| - 1], c);
  }

  lemma SimulateEffect(s: State)
    requires s.sim.phase == Simulating
    ensures Allowed(s, SimulateStep)
    ensures
      var t := Next(s, SimulateStep);
      && t.sim == s.sim.(phase := ChoosingSnapshots) && t.sessions == s.sessions && t.game == s.game && t.outs == s.outs
      && t.matches.worldTicks == s.matches.worldTicks + if s.game.started && s.sim.tick >= 0 then [s.sim.tick] else []
  {
  }

  lemma DrainsEffect(s: State, tick: nat)
    requires s.sim.phase == Idle && s.sim.tick < tick && tick + TWO_32 <= TWO_64
    ensures Allowed(s, BeginTickStep(tick))
    ensures
      var t := Next(s, BeginTickStep(tick));
      t.sim == s.sim.(tick := tick, phase := DrainingVerdicts, inBatch := s.incoming) && t.ins == s.ins
          && t.auths == s.auths && t.http == s.http && t.outs == s.outs
  {
  }

  lemma DrainVerdictsEffect(s: State)
    requires s.sim.phase == DrainingVerdicts
    ensures Allowed(s, DrainVerdictsStep)
    ensures
      var t := Next(s, DrainVerdictsStep);
      t.sim == s.sim.(phase := InMessages, verdicts := s.http.verdicts) && t.ins == s.ins && t.auths == s.auths
      && t.outs == s.outs
  {
  }

  // ---------------------------------------------------------------------------
  // The outgoing pass and the HTTP pass
  // ---------------------------------------------------------------------------

  lemma FreshUid(used: set<nat>)
    ensures exists uid: nat :: uid !in used
  {
    var bound := Bound(used);
    assert bound !in used;
  }

  /** A number above all of `used`. */
  lemma {:induction false} Bound(used: set<nat>) returns (bound: nat)
    ensures forall u :: u in used ==> u < bound
  {
    if used == {} {
      bound := 0;
    } else {
      var u :| u in used;
      var rest := Bound(used - {u});
      bound := if u < rest then rest else u + 1;
      forall v | v in used
        ensures v < bound
      {
        assert v == u || v in used - {u};
      }
    }
  }

  lemma FewerKeys<T>(m: map<ConnId, T>, c: ConnId)
    requires c in m
    ensures |m - {c}| < |m|
  {
  }

  lemma DrainOutgoingEffect(s: State)
    requires s.net.control == NetIdle
    ensures Allowed(s, DrainOutgoingStep)
    ensures
      var t := Next(s, DrainOutgoingStep);
      t.net == s.net.(control := Sending(Prepare(s.outgoing))) && t.outs == s.outs
  {
    hide Prepare;
  }

  lemma SendReliableEffect(s: State, o: SendOutcome, uid: nat)
    requires s.net.control.Sending? && s.net.control.prepared.reliable != [] && uid !in s.net.inFlight
    ensures Allowed(s, SendReliableStep(o, uid))
    ensures
      var t := Next(s, SendReliableStep(o, uid));
      && t.net.control == Sending(s.net.control.prepared.(reliable := s.net.control.prepared.reliable[1..]))
      && t.outs.handled == s.outs.handled + [s.net.control.prepared.reliable[0]] && t.outs.snapshotsSent == s.outs.snapshotsSent
      && t.net.peers == s.net.peers
  {
    hide SendReliableMsg, BoundId;
  }

  function PopHead(net: Net): Net
    requires net.control.Sending? && net.control.prepared.reliable != []
  {
    net.(control := Sending(net.control.prepared.(reliable := net.control.prepared.reliable[1..])))
  }

  /** What a send leaves in the histories of the outgoing line. */
  function NoteSend(outs: OutHistory, msg: OutMsg, peer: Peer, bound: ConnId, r: SendResult): OutHistory {
    outs.(
      handled := outs.handled + [msg],
      reliableSent := if r.sent then outs.reliableSent + [SentReliable(peer, bound, msg, |outs.handled|)] else outs.reliableSent,
      kicks := if r.disconnectNow then outs.kicks + [Kick(peer, bound)] else outs.kicks)
  }

  function NoteFlight(net: Net, uid: nat, context: Option<AckContext>): Net {
    net.(inFlight := if context.Some? then net.inFlight[uid := context.value] else net.inFlight)
  }

  lemma SendReliableShape(s: State, o: SendOutcome, uid: nat)
    requires s.net.control.Sending? && s.net.control.prepared.reliable != []
    ensures
      var m := s.net.control.prepared.reliable[0];
      SendReliable(s, o, uid) ==
        if m.id !in s.net.peers then s.(net := PopHead(s.net), outs := s.outs.(handled := s.outs.handled + [m]))
        else
          var peer := s.net.peers[m.id];
          var r := SendReliableMsg(s.net, s.sessions, peer, m, o);
          s.(net := NoteFlight(PopHead(s.net), uid, r.context), outs := NoteSend(s.outs, m, peer, BoundId(s.net, peer), r))
  {
    hide SendReliableMsg, BoundId;
  }

  lemma AllocateEffect(s: State, c: ConnId)
    requires s.net.control.Sending? && s.net.control.prepared.reliable == [] && c in s.net.control.prepared.snapshots
    ensures Allowed(s, AllocateSnapshotStep(c))
    ensures
      var t := Next(s, AllocateSnapshotStep(c));
      var rest := s.net.control.prepared.(snapshots := s.net.control.prepared.snapshots - {c});
      && t.outs == s.outs && t.net.peers == s.net.peers
      && (if SnapshotGoes(s, c) then t.net.control.SendingSnapshot? && t.net.control.prepared == rest && t.net.control.snapshot.payload.SnapshotReply?
          else t.net.control == Sending(rest))
  {
  }

  lemma SendSnapshotEffect(s: State, o: SendOutcome)
    requires s.net.control.SendingSnapshot? && s.net.control.snapshot.payload.SnapshotReply?
    ensures Allowed(s, SendSnapshotStep(o))
    ensures
      var t := Next(s, SendSnapshotStep(o));
      t.net == s.net.(control := Sending(s.net.control.prepared)) && t.outs.handled == s.outs.handled
  {
    hide SendPacket, BoundId;
  }

  lemma SendingDoneEffect(s: State)
    requires s.net.control.Sending? && s.net.control.prepared.reliable == [] && s.net.control.prepared.snapshots == map[]
    ensures Allowed(s, SendingDoneStep)
    ensures Next(s, SendingDoneStep) == s.(net := s.net.(control := NetIdle))
  {
  }

  lemma HttpTakeEffect(s: State)
    requires s.http.job == None && s.http.batch != []
    ensures Allowed(s, HttpTakeStep)
    ensures Next(s, HttpTakeStep) == s.(http := s.http.(job := Some(s.http.batch[0]), batch := s.http.batch[1..]))
  {
  }

  lemma HttpAnswerEffect(s: State, a: Answer)
    requires s.http.job.Some?
    ensures Allowed(s, HttpAnswerStep(a))
    ensures
      var t := Next(s, HttpAnswerStep(a));
      t.http == s.http.(job := None, verdicts := t.http.verdicts)
  {
  }

  lemma HttpDrainEffect(s: State)
    requires s.http.job == None && s.http.batch == [] && s.http.requests != []
    ensures Allowed(s, HttpDrainStep)
    ensures Next(s, HttpDrainStep) == s.(http := s.http.(batch := s.http.requests, requests := []))
  {
  }

  // ---------------------------------------------------------------------------
  // Kept snapshots
  // ---------------------------------------------------------------------------

  lemma KeptFacts(s: State, c: ConnId)
    requires Inv(s) && s.net.control.Sending? && c in s.net.control.prepared.snapshots
    ensures
      var m := s.net.control.prepared.snapshots[c];
      m.id == c && m.kind == SnapshotOut && m.payload.SnapshotReply? && c in s.ins.seen
  {
    hide AuthLine, VerdictsApplied, AuthReplies, Binding, Life, LogGrammar, GuardsHold, SessionsOk, Mirror, ReliableLine,
         ReliableSent, Stream, MatchPushes, Flow, AuthItems, AllOut, InFlightOk, KicksOk;
  }

  /** A kept snapshot goes exactly when its connection is bound: a bound connection that
      was ever seen has a session. */
  lemma GoesWhenBound(run: seq<State>, steps: seq<Step>, c: ConnId)
    requires IsRun(run, steps)
    requires run[|run| - 1].net.control.Sending? && c in run[|run| - 1].net.control.prepared.snapshots
    ensures SnapshotGoes(run[|run| - 1], c) <==> c in run[|run| - 1].net.peers
  {
    hide Inv, Goes;
    var s := run[|run| - 1];
    RunInv(run, steps, |run| - 1);
    KeptFacts(s, c);
    LineFacts(s);
    assert LifeOf(c, s.net.nextId, c in s.net.peers.Keys, c in s.sessions.Keys, c in s.ins.seen, Share(Pending(s), c));
  }
}
