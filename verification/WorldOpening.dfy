/** When the world opens. CheckMatchFlow returns at its first look when too few clients
    are connected, even after the start was announced; the opening is therefore stated
    exactly, tick by tick. */
module WorldOpening {
  import opened Messages
  import opened Sequences
  import opened Lifecycle
  import opened Invariant
  import opened Threads
  import opened Runs
  import opened Guarantees
  import opened Effects

  // ---------------------------------------------------------------------------
  // The order of a tick
  // ---------------------------------------------------------------------------

  /** Where a step leaves the simulation thread. */
  function PhaseTo(s: State, step: Step): Phase {
    match step
    case BeginTickStep(_) => DrainingVerdicts
    case DrainVerdictsStep => InMessages
    case InMessagesDoneStep => VerdictMessages
    case VerdictMessagesDoneStep => Gate
    case CheckGateStep => if |s.sessions| < MAX_CLIENTS then Simulating else Deciding(InitStage)
    case DecideStep(_) =>
      if !s.sim.phase.Deciding? then s.sim.phase
      else if StageDue(s.game, s.sessions, s.sim.phase.stage) then Locking(s.sim.phase.stage)
      else PhaseAfter(s.sim.phase.stage)
    case LockStep => if s.sim.phase.Locking? then Broadcasting(s.sim.phase.stage) else s.sim.phase
    case BroadcastDoneStep => if s.sim.phase.Broadcasting? then PhaseAfter(s.sim.phase.stage) else s.sim.phase
    case OpenStep => Simulating
    case SimulateStep => ChoosingSnapshots
    case ChooseSnapshotsStep(production) => if production then Snapshots else Idle
    case SnapshotsDoneStep => Idle
    case _ => s.sim.phase
  }

  function StartedTo(s: State, step: Step): bool {
    s.game.started || (step.OpenStep? && Due(s))
  }

  predicate Moves(s: State, step: Step, t: State) {
    && t.sim.phase == PhaseTo(s, step)
    && t.sim.tick == (if step.BeginTickStep? then step.tick else s.sim.tick)
    && t.game.started == StartedTo(s, step)
    && (s.sim.phase == Opening || s.sim.phase == Simulating ==> t.game.startSent == s.game.startSent && t.game.startTick == s.game.startTick)
  }

  /** The start was sent and its tick has come. */
  predicate Due(s: State) {
    s.game.startSent && s.sim.tick >= s.game.startTick
  }

  lemma DecideMoves(s: State, countdown: nat)
    requires s.sim.phase.Deciding?
    ensures Moves(s, DecideStep(countdown), Decide(s, countdown))
  {
    hide AllReady;
  }

  lemma PushesMove(s: State, step: Step)
    requires Allowed(s, step) && (step.HandleInStep? || step.HandleVerdictStep? || step.PushHandStep? || step.BroadcastStep? || step.BroadcastSnapshotStep?)
    ensures Moves(s, step, Next(s, step))
  {
    hide HandleIncoming, ApplyVerdict, StageMsg, SnapshotMsg;
  }

  lemma PhasesMove(s: State, step: Step)
    requires Allowed(s, step) && IsSimulationStep(step) && !step.DecideStep?
    requires !(step.HandleInStep? || step.HandleVerdictStep? || step.PushHandStep? || step.BroadcastStep? || step.BroadcastSnapshotStep?)
    ensures Moves(s, step, Next(s, step))
  {
    hide AllReady, Decide;
  }

  lemma DecideNext(s: State, step: Step)
    requires Allowed(s, step) && step.DecideStep?
    ensures s.sim.phase.Deciding? && Next(s, step) == Decide(s, step.countdown)
  {
    hide Decide;
  }

  /** What a step of another thread leaves alone, and where it cannot lead. */
  lemma UnmovedMoves(s: State, step: Step, t: State)
    requires !IsSimulationStep(step) && t.sim == s.sim && t.game == s.game
    ensures Moves(s, step, t)
  {
  }

  lemma OthersDoNotMove(s: State, step: Step, t: State)
    requires Goes(s, step, t) && !IsSimulationStep(step)
    ensures Moves(s, step, t)
  {
    hide Allowed, Next, Later, Moves, SessionsSameForSimulation;
    if IsNetworkStep(step) {
      NetworkKeeps(s, step);
    } else {
      HttpKeeps(s, step);
    }
    UnmovedMoves(s, step, t);
  }

  lemma StepMoves(s: State, step: Step, t: State)
    requires Goes(s, step, t)
    ensures Moves(s, step, t) && Allowed(s, step)
  {
    hide Allowed, Next, Moves;
    if !IsSimulationStep(step) {
      OthersDoNotMove(s, step, t);
    } else if step.DecideStep? {
      DecideNext(s, step);
      DecideMoves(s, step.countdown);
    } else if step.HandleInStep? || step.HandleVerdictStep? || step.PushHandStep? || step.BroadcastStep? || step.BroadcastSnapshotStep? {
      PushesMove(s, step);
    } else {
      PhasesMove(s, step);
    }
  }

  function StageRank(stage: Stage): nat {
    match stage case InitStage => 0 case WorldStage => 3 case StartStage => 6
  }

  function Rank(phase: Phase): nat {
    match phase
    case DrainingVerdicts => 0
    case InMessages => 1
    case VerdictMessages => 2
    case Gate => 3
    case Deciding(stage) => 4 + StageRank(stage)
    case Locking(stage) => 5 + StageRank(stage)
    case Broadcasting(stage) => 6 + StageRank(stage)
    case Opening => 13
    case Simulating => 14
    case ChoosingSnapshots => 15
    case Snapshots => 16
    case Idle => 17
  }

  /** Not an earlier point of an earlier or the same tick. */
  predicate Onward(a: Sim, b: Sim) {
    a.tick < b.tick || (a.tick == b.tick && Rank(a.phase) <= Rank(b.phase))
  }

  lemma StepGoesOnward(s: State, step: Step, t: State)
    requires Goes(s, step, t)
    ensures Onward(s.sim, t.sim)
    ensures step.CheckGateStep? ==> t.sim.tick == s.sim.tick && Rank(s.sim.phase) == 3 < Rank(t.sim.phase)
  {
    hide Next, Goes, AllReady;
    StepMoves(s, step, t);
  }

  lemma {:induction false} RunGoesOnward(run: seq<State>, steps: seq<Step>, i: nat, j: nat)
    requires IsRun(run, steps) && i <= j < |run|
    ensures Onward(run[i].sim, run[j].sim)
  {
    hide Goes, Rank;
    if i < j {
      RunGoesOnward(run, steps, i, j - 1);
      StepGoesOnward(run[j - 1], steps[j - 1], run[j]);
    }
  }

  /** A tick looks at the number of sessions once. */
  lemma OneGatePerTick(run: seq<State>, steps: seq<Step>, i: nat, j: nat)
    requires IsRun(run, steps) && i < |steps| && j < |steps| && steps[i].CheckGateStep? && steps[j].CheckGateStep?
    requires run[i].sim.tick == run[j].sim.tick
    ensures i == j
  {
    hide Goes;
    assert Goes(run[i], steps[i], run[i + 1]) && Goes(run[j], steps[j], run[j + 1]);
    StepGoesOnward(run[i], steps[i], run[i + 1]);
    StepGoesOnward(run[j], steps[j], run[j + 1]);
    if i < j {
      RunGoesOnward(run, steps, i + 1, j);
    } else if j < i {
      RunGoesOnward(run, steps, j + 1, i);
    }
  }

  // ---------------------------------------------------------------------------
  // The opening
  // ---------------------------------------------------------------------------

  predicate InFlow(phase: Phase) {
    phase.Deciding? || phase.Locking? || phase.Broadcasting? || phase.Opening?
  }

  /** `i` is where the tick of state `k` looked at the number of sessions, and what has
      become of `started` since. */
  ghost predicate SinceGate(s: State, step: Step, t: State) {
    && step.CheckGateStep? && s.sim.phase == Gate && s.sim.tick == t.sim.tick
    && (InFlow(t.sim.phase) ==> |s.sessions| >= MAX_CLIENTS && t.game.started == s.game.started)
    && (t.sim.phase == Simulating ==> t.game.started == (s.game.started || (|s.sessions| >= MAX_CLIENTS && Due(t))))
  }

  lemma GateItself(s: State, step: Step, t: State)
    requires Goes(s, step, t) && step.CheckGateStep?
    ensures SinceGate(s, step, t) && (InFlow(t.sim.phase) || t.sim.phase == Simulating)
  {
  }

  lemma SinceGateStep(g: State, gate: Step, s: State, step: Step, t: State)
    requires SinceGate(g, gate, s) && (InFlow(s.sim.phase) || s.sim.phase == Simulating)
    requires Goes(s, step, t) && (InFlow(t.sim.phase) || t.sim.phase == Simulating)
    ensures SinceGate(g, gate, t)
  {
    hide Next, Goes, AllReady;
    StepMoves(s, step, t);
  }

  lemma FlowIsEntered(s: State, step: Step, t: State)
    requires Goes(s, step, t) && (InFlow(t.sim.phase) || t.sim.phase == Simulating)
    ensures InFlow(s.sim.phase) || s.sim.phase == Simulating || step.CheckGateStep?
  {
    hide Next, Goes, AllReady;
    StepMoves(s, step, t);
  }

  /** Every tick that reaches the flow or the world passed its gate, and this is what
      the gate decided. */
  lemma {:induction false} GateOfTick(run: seq<State>, steps: seq<Step>, k: nat) returns (i: nat)
    requires IsRun(run, steps) && k < |run| && (InFlow(run[k].sim.phase) || run[k].sim.phase == Simulating)
    ensures i < k && SinceGate(run[i], steps[i], run[k])
  {
    hide Goes, SinceGate;
    assert k > 0;
    assert Goes(run[k - 1], steps[k - 1], run[k]);
    FlowIsEntered(run[k - 1], steps[k - 1], run[k]);
    if steps[k - 1].CheckGateStep? {
      GateItself(run[k - 1], steps[k - 1], run[k]);
      i := k - 1;
    } else {
      i := GateOfTick(run, steps, k - 1);
      SinceGateStep(run[i], steps[i], run[k - 1], steps[k - 1], run[k]);
    }
  }

  /** At `j` the world is simulated in a tick whose gate counted enough sessions, at or
      after the announced start. */
  ghost predicate TickOpens(run: seq<State>, steps: seq<Step>, j: nat)
    requires j < |steps| < |run|
  {
    steps[j].SimulateStep? && Due(run[j]) &&
    exists i :: 0 <= i < j && steps[i].CheckGateStep? && run[i].sim.tick == run[j].sim.tick && |run[i].sessions| >= MAX_CLIENTS
  }

  lemma SimulateIsSimulating(s: State, step: Step, t: State)
    requires Goes(s, step, t) && step.SimulateStep?
    ensures s.sim.phase == Simulating
  {
  }

  lemma TickOpensStarted(run: seq<State>, steps: seq<Step>, j: nat)
    requires IsRun(run, steps) && j < |steps| && TickOpens(run, steps, j)
    ensures run[j].game.started
  {
    hide Goes;
    assert Goes(run[j], steps[j], run[j + 1]);
    SimulateIsSimulating(run[j], steps[j], run[j + 1]);
    var i := GateOfTick(run, steps, j);
    var g :| 0 <= g < j && steps[g].CheckGateStep? && run[g].sim.tick == run[j].sim.tick && |run[g].sessions| >= MAX_CLIENTS;
    OneGatePerTick(run, steps, g, i);
  }

  /** How `started` and the phase can change in one step. */
  lemma StartedStep(s: State, step: Step, t: State)
    requires Goes(s, step, t)
    ensures t.game.started && !s.game.started ==> t.sim.phase == Simulating
    ensures s.sim.phase == Simulating && t.sim.phase != Simulating ==> step.SimulateStep?
  {
    hide Next, Goes, AllReady;
    StepMoves(s, step, t);
  }

  lemma {:induction false} StartedMeans(run: seq<State>, steps: seq<Step>, k: nat)
    requires IsRun(run, steps) && k < |run| && run[k].game.started
    ensures run[k].sim.phase == Simulating || exists j :: 0 <= j < k && TickOpens(run, steps, j)
    decreases k
  {
    hide Goes, TickOpens;
    assert k > 0;
    var s := run[k - 1];
    assert Goes(s, steps[k - 1], run[k]);
    StartedStep(s, steps[k - 1], run[k]);
    if s.game.started {
      if s.sim.phase == Simulating && run[k].sim.phase != Simulating {
        SimulatedMeans(run, steps, k - 1);
      } else {
        StartedMeans(run, steps, k - 1);
      }
    }
  }

  lemma {:induction false} SimulatedMeans(run: seq<State>, steps: seq<Step>, k: nat)
    requires IsRun(run, steps) && k < |steps| && run[k].game.started && steps[k].SimulateStep?
    ensures exists j :: 0 <= j <= k && TickOpens(run, steps, j)
    decreases k
  {
    hide Goes;
    assert Goes(run[k], steps[k], run[k + 1]);
    SimulateIsSimulating(run[k], steps[k], run[k + 1]);
    var i := GateOfTick(run, steps, k);
    if run[i].game.started {
      StartedMeans(run, steps, i);
    } else {
      assert TickOpens(run, steps, k);
    }
  }

  /** The world runs in a tick exactly when in that tick or an earlier one the gate
      counted enough sessions and the announced start had come: it opens at the first
      such tick, and each tick that begins with too few clients puts it off. */
  lemma WorldOpensExactly(run: seq<State>, steps: seq<Step>, k: nat)
    requires IsRun(run, steps) && k < |steps| && steps[k].SimulateStep?
    ensures run[k].game.started <==> exists j :: 0 <= j <= k && TickOpens(run, steps, j)
    ensures run[k + 1].matches.worldTicks == run[k].matches.worldTicks + if run[k].game.started then [run[k].sim.tick] else []
  {
    hide Goes, TickOpens, Inv;
    if run[k].game.started {
      SimulatedMeans(run, steps, k);
    }
    forall j | 0 <= j <= k && TickOpens(run, steps, j)
      ensures run[k].game.started
    {
      TickOpensStarted(run, steps, j);
      LaterRun(run, steps, j, k);
    }
    assert Goes(run[k], steps[k], run[k + 1]);
    SimulateIsSimulating(run[k], steps[k], run[k + 1]);
    RunInv(run, steps, k);
    TickIsOn(run[k]);
    WorldTick(run[k], steps[k], run[k + 1]);
  }

  lemma WorldTick(s: State, step: Step, t: State)
    requires Goes(s, step, t) && step.SimulateStep? && s.sim.tick >= 0
    ensures t.matches.worldTicks == s.matches.worldTicks + if s.game.started then [s.sim.tick] else []
  {
  }

  // ---------------------------------------------------------------------------
  // Snapshots are pushed at the end of a tick only
  // ---------------------------------------------------------------------------

  predicate GrewByOther(a: seq<OutMsg>, b: seq<OutMsg>) {
    b == a || (|b| == |a| + 1 && a <= b && b[|a|].kind != SnapshotOut)
  }

  lemma HandHoldsReplies(s: State)
    requires Inv(s)
    ensures HandOk(s.sim.hand)
  {
  }

  lemma OtherStepsPushNoSnapshot(s: State, step: Step, t: State)
    requires Inv(s) && Goes(s, step, t) && !step.BroadcastSnapshotStep?
    ensures GrewByOther(s.outs.log, t.outs.log)
  {
    hide Inv, Later, SessionsSameForSimulation, HandleIncoming, ApplyVerdict, AllReady, SnapshotMsg;
    HandHoldsReplies(s);
    if IsNetworkStep(step) {
      hide Allowed, Next;
      NetworkKeeps(s, step);
    }
  }

  lemma CountsUnderOther(first: seq<OutMsg>, a: seq<OutMsg>, b: seq<OutMsg>)
    requires OneSnapshotEach(first, a, {}) && GrewByOther(a, b)
    ensures OneSnapshotEach(first, b, {})
  {
    if b != a {
      var m := b[|a|];
      assert b == a + [m];
      forall c: ConnId
        ensures SnapshotCount(b, c) == SnapshotCount(first, c)
      {
        FilterPush(IsSnapshotTo(c), a, m);
      }
    }
  }

  lemma BroadcastsInSnapshots(s: State, step: Step, t: State)
    requires Goes(s, step, t) && step.BroadcastSnapshotStep?
    ensures s.sim.phase == Snapshots
  {
  }

  /** Nothing of a tick before its last phase pushes a snapshot. */
  lemma {:induction false} NoSnapshotBetween(run: seq<State>, steps: seq<Step>, a: nat, b: nat)
    requires IsRun(run, steps) && a <= b < |run| && run[a].sim.tick == run[b].sim.tick && Rank(run[b].sim.phase) < Rank(Snapshots)
    ensures OneSnapshotEach(run[a].outs.log, run[b].outs.log, {})
  {
    hide Goes, Inv, OneSnapshotEach, Rank;
    NoSnapshotYet(run[a].outs.log);
    if a < b {
      RunGoesOnward(run, steps, a, b - 1);
      RunGoesOnward(run, steps, b - 1, b);
      NoSnapshotBetween(run, steps, a, b - 1);
      RunInv(run, steps, b - 1);
      assert Goes(run[b - 1], steps[b - 1], run[b]);
      if steps[b - 1].BroadcastSnapshotStep? {
        BroadcastsInSnapshots(run[b - 1], steps[b - 1], run[b]);
      } else {
        OtherStepsPushNoSnapshot(run[b - 1], steps[b - 1], run[b]);
        CountsUnderOther(run[a].outs.log, run[b - 1].outs.log, run[b].outs.log);
      }
    }
  }
}
