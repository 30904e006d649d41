/** The snapshot stream of each connection over a whole run. */
module Streams {
  import opened Messages
  import opened Preparation
  import opened Membership
  import opened Lifecycle
  import opened Invariant
  import opened Threads
  import opened Runs
  import opened Chain
  import opened Guarantees

  lemma StreamFacts(s: State)
    requires Inv(s)
    ensures Stream(s.outs.snapshotsSent, s.net.control, s.outgoing, s.sim, s.sessions, s.ins.seen)
  {
    hide AuthLine, VerdictsApplied, AuthReplies, Binding, Life, LogGrammar, GuardsHold, SessionsOk, Mirror,
         ReliableLine, ReliableSent, Outgoing, Stream, MatchPushes,
         Flow, AuthItems;
  }

  /** The snapshots handed to ENet for one connection carry strictly increasing
      allocation numbers and strictly increasing ticks, however slots are reused. */
  lemma StreamIncreases(run: seq<State>, steps: seq<Step>, k: nat, i: nat, j: nat)
    requires IsRun(run, steps) && k < |run| && i < j < |run[k].outs.snapshotsSent|
    requires run[k].outs.snapshotsSent[i].id == run[k].outs.snapshotsSent[j].id
    ensures
      var a, b := run[k].outs.snapshotsSent[i], run[k].outs.snapshotsSent[j];
      a.index < b.index && a.tick < b.tick && a.bound == b.bound == a.id
  {
    hide IsRun, Inv, QueuedSnapshots, KeptSnapshots, HeldSnapshot, OlderThanQueued;
    RunInv(run, steps, k);
    StreamFacts(run[k]);
  }

  lemma WrapsOnce(a: nat, b: nat)
    requires a < b < a + TWO_32
    ensures a % TWO_32 < b % TWO_32 <==> a / TWO_32 == b / TWO_32
  {
  }

  /** The id on the wire is the allocation number in 32 bits. Of two snapshots less
      than 2^32 allocations apart the later has the larger id on the wire exactly when
      the counter did not wrap between them; below 2^32 that is always so. */
  lemma WireIdsIncrease(run: seq<State>, steps: seq<Step>, k: nat, i: nat, j: nat)
    requires IsRun(run, steps) && k < |run| && i < j < |run[k].outs.snapshotsSent|
    requires run[k].outs.snapshotsSent[i].id == run[k].outs.snapshotsSent[j].id
    ensures
      var a, b := run[k].outs.snapshotsSent[i], run[k].outs.snapshotsSent[j];
      && a.wireId == a.index % TWO_32 && b.wireId == b.index % TWO_32
      && (b.index < TWO_32 ==> a.wireId < b.wireId)
      && (b.index < a.index + TWO_32 ==> (a.wireId < b.wireId <==> a.index / TWO_32 == b.index / TWO_32))
  {
    hide IsRun, Inv, QueuedSnapshots, KeptSnapshots, HeldSnapshot, OlderThanQueued;
    RunInv(run, steps, k);
    StreamFacts(run[k]);
    StreamIncreases(run, steps, k, i, j);
    var a, b := run[k].outs.snapshotsSent[i], run[k].outs.snapshotsSent[j];
    if b.index < a.index + TWO_32 {
      WrapsOnce(a.index, b.index);
    }
  }

  /** The wrap is real: the allocation after number 2^32 - 1 sends the id 0. */
  lemma WireIdWraps(x: Session)
    requires x.nextSnapshot == (x.allocations + 1) % TWO_32 && x.allocations == TWO_32 - 2
    ensures
      var y := AfterAllocation(x);
      var z := AfterAllocation(y);
      y.lastSnapshot == TWO_32 - 1 && z.lastSnapshot == 0 < y.lastSnapshot && z.allocations > y.allocations
  {
  }

  // ---------------------------------------------------------------------------
  // Allocation over a run
  // ---------------------------------------------------------------------------

  /** The id a step allocated for `c`, if it did. */
  function AllocatedBy(step: Step, t: State, c: ConnId): seq<nat> {
    if step.AllocateSnapshotStep? && t.net.control.SendingSnapshot? && t.net.control.snapshot.id == c && t.net.control.snapshot.payload.SnapshotReply?
    then [t.net.control.snapshot.payload.snapshotId] else []
  }

  /** The ids allocated for `c` before step `k`, in order. */
  function Allocated(run: seq<State>, steps: seq<Step>, k: nat, c: ConnId): seq<nat>
    requires k <= |steps| < |run|
  {
    if k == 0 then [] else Allocated(run, steps, k - 1, c) + AllocatedBy(steps[k - 1], run[k], c)
  }

  /** 1, 2, 3, ... in 32 bits. */
  predicate CountsUp(ids: seq<nat>) {
    forall i :: 0 <= i < |ids| ==> ids[i] == (i + 1) % TWO_32
  }

  lemma CountsUpPush(ids: seq<nat>)
    requires CountsUp(ids)
    ensures CountsUp(ids + [(|ids| + 1) % TWO_32])
  {
  }

  /** What one step does to the counter of one connection. */
  ghost predicate Counts(s: State, step: Step, t: State, c: ConnId) {
    var ids := AllocatedBy(step, t, c);
    && (ids != [] ==> c in s.sessions && c in t.sessions && ids == [(s.sessions[c].allocations + 1) % TWO_32])
    && (c in s.sessions && c in t.sessions ==> t.sessions[c].allocations == s.sessions[c].allocations + |ids|)
    && (c in t.sessions && c !in s.sessions ==> c !in s.ins.seen && t.sessions[c].allocations == 0)
  }

  lemma CountsAllocate(s: State, kept: ConnId, c: ConnId)
    requires s.net.control.Sending? && kept in s.net.control.prepared.snapshots && s.net.control.prepared.snapshots[kept].id == kept
    requires kept in s.sessions ==> SessionOk(kept, s.sessions[kept], s.secures.acked)
    ensures Counts(s, AllocateSnapshotStep(kept), AllocateSnapshot(s, kept), c)
  {
  }

  lemma AllocationIs(s: State, step: Step)
    requires Allowed(s, step) && step.AllocateSnapshotStep?
    ensures s.net.control.Sending? && step.c in s.net.control.prepared.snapshots && Next(s, step) == AllocateSnapshot(s, step.c)
  {
    hide AllocateSnapshot;
  }

  lemma CountsNetwork(s: State, step: Step, t: State, c: ConnId)
    requires Inv(s) && Goes(s, step, t) && IsNetworkStep(step)
    ensures Counts(s, step, t, c)
  {
    hide Inv, Prepare, DispatchByChannel, ValidatedConnectionIdOrZero, SendReliableMsg, SendPacket, BoundId, StillBound;
    if step.AllocateSnapshotStep? {
      hide Allowed, Next, AllocateSnapshot, Counts, SessionOk;
      AllocationIs(s, step);
      KeptIsItsOwn(s, step.c);
      if step.c in s.sessions {
        SessionFacts(s, step.c);
      }
      CountsAllocate(s, step.c, c);
    }
  }

  lemma KeptIsItsOwn(s: State, c: ConnId)
    requires Inv(s) && s.net.control.Sending? && c in s.net.control.prepared.snapshots
    ensures s.net.control.prepared.snapshots[c].id == c
  {
    hide AuthLine, VerdictsApplied, AuthReplies, Binding, Life, LogGrammar, GuardsHold, SessionsOk, Mirror,
         ReliableLine, ReliableSent, Stream, MatchPushes,
         Flow, AuthItems, AllOut, InFlightOk, KicksOk;
  }

  lemma CountsHandleIn(s: State, h: Handshake, c: ConnId)
    requires Inv(s) && s.sim.inBatch != []
    ensures Counts(s, HandleInStep(h), HandleIn(s, h), c)
  {
    hide Inv, HandleIncoming, Life;
    LineFacts(s);
    HeadFindsItsSession(s.net.nextId, s.net.peers.Keys, s.sessions.Keys, s.ins.seen, Pending(s));
    HandleCounts(s.sessions, s.sim.inBatch[0], h, c);
  }

  lemma CountsVerdict(s: State, c: ConnId)
    requires s.sim.verdicts != []
    ensures Counts(s, HandleVerdictStep, HandleVerdict(s), c)
  {
  }

  lemma CountsHandlers(s: State, step: Step, t: State, c: ConnId)
    requires Inv(s) && Goes(s, step, t) && (step.HandleInStep? || step.HandleVerdictStep?)
    ensures Counts(s, step, t, c)
  {
    hide Inv, Allowed, Next, HandleIn, HandleVerdict;
    HandlersAre(s, step);
    if step.HandleInStep? {
      CountsHandleIn(s, step.handshake, c);
    } else {
      CountsVerdict(s, c);
    }
  }

  lemma CountsOthers(s: State, step: Step, t: State, c: ConnId)
    requires Goes(s, step, t) && !IsNetworkStep(step) && !step.HandleInStep? && !step.HandleVerdictStep?
    ensures Counts(s, step, t, c)
  {
    hide Allowed, Next;
    OnlyHandlersWriteSessions(s, step);
  }

  lemma HandleCounts(sessions: map<ConnId, Session>, m: InMsg, h: Handshake, c: ConnId)
    requires m.ConnectMsg? <==> m.id !in sessions
    ensures
      var after := HandleIncoming(sessions, m, h).sessions;
      c in after ==> if c in sessions then after[c].allocations == sessions[c].allocations else m == ConnectMsg(c) && after[c].allocations == 0
  {
  }

  /** The ids allocated for one connection are 1, 2, 3, ... in 32 bits, without a gap
      or a repeat, and the session's two counters are the last of them and the next. */
  lemma {:induction false} AllocatedIds(run: seq<State>, steps: seq<Step>, k: nat, c: ConnId)
    requires IsRun(run, steps) && k <= |steps|
    ensures
      var ids := Allocated(run, steps, k, c);
      && CountsUp(ids)
      && (c !in run[k].ins.seen ==> ids == [])
      && (c in run[k].sessions ==>
            && run[k].sessions[c].allocations == |ids|
            && run[k].sessions[c].lastSnapshot == |ids| % TWO_32
            && run[k].sessions[c].nextSnapshot == (|ids| + 1) % TWO_32)
  {
    hide Goes, Inv, AllocatedBy, Later;
    if k > 0 {
      AllocatedIds(run, steps, k - 1, c);
      RunInv(run, steps, k - 1);
      var s, step, t := run[k - 1], steps[k - 1], run[k];
      if IsNetworkStep(step) {
        CountsNetwork(s, step, t, c);
      } else if step.HandleInStep? || step.HandleVerdictStep? {
        CountsHandlers(s, step, t, c);
      } else {
        CountsOthers(s, step, t, c);
      }
      SeenGrows(s, step, t);
      if c in s.sessions {
        SessionIsSeen(s, c);
      }
      var before, ids := Allocated(run, steps, k - 1, c), AllocatedBy(step, t, c);
      assert Allocated(run, steps, k, c) == before + ids;
      assert ids != [] ==> ids == [(|before| + 1) % TWO_32];
      if ids != [] {
        CountsUpPush(before);
      }
    }
    RunInv(run, steps, k);
    if c in run[k].sessions {
      SessionFacts(run[k], c);
    }
  }

  lemma SeenGrows(s: State, step: Step, t: State)
    requires Goes(s, step, t)
    ensures s.ins.seen <= t.ins.seen
  {
    hide Allowed, Next;
    LaterStep(s, step);
  }
}
