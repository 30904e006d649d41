/** From the life of a connection to bytes: the key its datagrams are sealed under, and
    the snapshot packets that carry the recorded ids. */
module Wire {
  import opened Wrappers
  import opened Bytes
  import opened Packets
  import opened Messages
  import opened Preparation
  import opened Membership
  import opened Lifecycle
  import opened Invariant
  import opened Threads
  import opened Runs
  import opened Chain
  import opened Guarantees
  import opened Handshakes
  import opened Streams
  import opened WorldOpening

  // ---------------------------------------------------------------------------
  // Keys
  // ---------------------------------------------------------------------------

  /** The key the encryptor loads for a peer, or none when it must not touch the datagram. */
  function LoadKey(net: Net, sessions: map<ConnId, Session>, peer: Option<Peer>, outgoing: bool): Option<Key> {
    if peer.None? || peer.value !in net.data then None
    else
      var id := net.data[peer.value];
      if id == 0 || id !in sessions || !sessions[id].encrypted then None
      else Some(if outgoing then sessions[id].txKey else sessions[id].rxKey)
  }

  /** The key a handshake leaves. */
  function KeyLeft(h: Handshake, outgoing: bool): Key {
    if !h.HandshakeOk? then ZERO_KEY else if outgoing then h.txKey else h.rxKey
  }

  /** However slots are reused, the datagrams of a slot are sealed under the key of the
      connection bound to it: none before its encryption is on, and then the key its own
      last handshake left, which is 32 zeros when that handshake failed at signing. */
  lemma DatagramsUseTheirOwnKey(run: seq<State>, steps: seq<Step>, k: nat, p: Peer, outgoing: bool)
    requires IsRun(run, steps) && k < |run|
    ensures
      var s := run[k];
      var key := LoadKey(s.net, s.sessions, Some(p), outgoing);
      if p in s.net.data && s.net.data[p] in s.sessions && s.sessions[s.net.data[p]].encrypted
      then
        var h := LastHandshake(run, steps, k, s.net.data[p]);
        h.Some? && key == Some(KeyLeft(h.value, outgoing))
      else key == None
  {
    hide IsRun, Inv, LastHandshake;
    var s := run[k];
    RunInv(run, steps, k);
    LineFacts(s);
    if p in s.net.data && s.net.data[p] in s.sessions && s.sessions[s.net.data[p]].encrypted {
      InsecureMeansZeroKey(run, steps, k, s.net.data[p]);
    }
  }

  // ---------------------------------------------------------------------------
  // Snapshots
  // ---------------------------------------------------------------------------

  /** The packet says what the payload says, whatever its monotonic time. */
  predicate Describes(p: SnapshotPacket, x: Payload) {
    x.SnapshotReply? && Nat32(p.snapshotId) == x.snapshotId && Nat64(p.serverTick) == x.tick && p.lastInput == x.lastInput
  }

  /** Every payload whose numbers fit their fields has a packet, for any time. */
  lemma PayloadHasPacket(x: Payload, timeNs: bv64)
    requires x.SnapshotReply? && x.snapshotId < TWO_32 && x.tick < TWO_64
    ensures Describes(SnapshotPacket(Word32(x.snapshotId), Word64(x.tick), timeNs, x.lastInput), x)
  {
    hide Nat32, Nat64, Word32, Word64;
    Word32Value(x.snapshotId);
    Word64Value(x.tick);
  }

  /** The patched bytes: bytes 1 to 4 are the id in big-endian form. */
  function Patched(data: seq<byte>, id: nat): seq<byte>
    requires |data| == 25 && id < TWO_32
  {
    data[..1] + Be32(Word32(id)) + data[5..]
  }

  lemma PatchedDescribes(data: seq<byte>, p: SnapshotPacket, x: Payload, id: nat)
    requires ParseSnapshot(data) == Some(p) && Describes(p, x) && id < TWO_32
    ensures |data| == 25
    ensures
      var q := p.(snapshotId := Word32(id));
      ParseSnapshot(Patched(data, id)) == Some(q) && Describes(q, x.(snapshotId := id))
  {
    hide Nat32, Nat64, Word32, Be32, Be64, Value32, Value64;
    var q := p.(snapshotId := Word32(id));
    Word32Value(id);
    PatchOverwritesTheId(data, p, Word32(id));
    SnapshotExact(Patched(data, id), q);
  }

  // ---------------------------------------------------------------------------
  // Where the snapshot about to be sent comes from
  // ---------------------------------------------------------------------------

  /** The message as it was pushed, before it had an id. */
  function Unnumbered(m: OutMsg): OutMsg
    requires m.payload.SnapshotReply?
  {
    m.(payload := m.payload.(snapshotId := 0))
  }

  predicate IsUnnumbered(m: OutMsg) {
    m.kind == SnapshotOut ==> m.payload.SnapshotReply? && m.payload.snapshotId == 0
  }

  ghost predicate HeldFrom(control: NetControl, log: seq<OutMsg>) {
    && (forall c :: c in Kept(control) ==> Kept(control)[c] in log && Kept(control)[c].kind == SnapshotOut)
    && (control.SendingSnapshot? ==> control.snapshot.payload.SnapshotReply? && Unnumbered(control.snapshot) in log)
  }

  /** Whatever waits to be sent was pushed, and snapshots are pushed with the id 0. */
  ghost predicate FromLog(s: State) {
    && (forall m :: m in s.outs.log ==> IsUnnumbered(m))
    && (forall m :: m in s.outgoing ==> m in s.outs.log)
    && HeldFrom(s.net.control, s.outs.log)
  }

  lemma DrainFromLog(s: State)
    requires FromLog(s)
    ensures FromLog(DrainOutgoing(s))
  {
    hide Prepare;
    var p := Prepare(s.outgoing);
    forall c | c in p.snapshots
      ensures p.snapshots[c] in s.outs.log && p.snapshots[c].kind == SnapshotOut
    {
      assert IsLastOf(s.outgoing, SnapshotOut, p.snapshots, c);
    }
  }

  lemma AllocateFromLog(s: State, c: ConnId)
    requires FromLog(s) && s.net.control.Sending? && c in s.net.control.prepared.snapshots
    ensures FromLog(AllocateSnapshot(s, c))
  {
    var m := s.net.control.prepared.snapshots[c];
    assert c in Kept(s.net.control) && Kept(s.net.control)[c] == m;
    assert IsUnnumbered(m);
  }

  /** The step leaves the line of outgoing messages alone, but for sending its head. */
  ghost predicate SameLine(s: State, t: State) {
    && t.outs.log == s.outs.log && t.outgoing == s.outgoing
    && (t.net.control.SendingSnapshot? ==> t.net.control == s.net.control)
    && (forall c :: c in Kept(t.net.control) ==> c in Kept(s.net.control) && Kept(t.net.control)[c] == Kept(s.net.control)[c])
  }

  lemma SameLineFromLog(s: State, t: State)
    requires FromLog(s) && SameLine(s, t)
    ensures FromLog(t)
  {
  }

  lemma EventsKeepLine(s: State, from: Option<Peer>, channel: nat, data: seq<byte>, p: Peer)
    requires s.net.control.NetIdle?
    ensures SameLine(s, Receive(s, from, channel, data)) && SameLine(s, Connect(s, p)) && SameLine(s, Disconnect(s, p))
  {
    hide DispatchByChannel, ValidatedConnectionIdOrZero;
  }

  lemma AcksKeepLine(s: State, uid: nat)
    requires uid in s.net.inFlight
    ensures SameLine(s, Acknowledge(s, uid))
  {
    hide StillBound;
  }

  lemma SendsKeepLine(s: State, o: SendOutcome, uid: nat)
    ensures s.net.control.Sending? && s.net.control.prepared.reliable != [] ==> SameLine(s, SendReliable(s, o, uid))
    ensures s.net.control.SendingSnapshot? && s.net.control.snapshot.payload.SnapshotReply? ==> SameLine(s, SendSnapshot(s, o))
  {
    hide SendReliableMsg, SendPacket, BoundId;
  }

  lemma NetworkFromLog(s: State, step: Step, t: State)
    requires FromLog(s) && Goes(s, step, t) && IsNetworkStep(step)
    ensures FromLog(t)
  {
    hide Connect, Disconnect, Receive, DrainOutgoing, SendReliable, AllocateSnapshot, SendSnapshot, Acknowledge, FromLog;
    match step {
      case DrainOutgoingStep => DrainFromLog(s);
      case AllocateSnapshotStep(c) => AllocateFromLog(s, c);
      case _ =>
        RestKeepsLine(s, step, t);
        SameLineFromLog(s, t);
    }
  }

  lemma RestKeepsLine(s: State, step: Step, t: State)
    requires Goes(s, step, t) && IsNetworkStep(step) && !step.DrainOutgoingStep? && !step.AllocateSnapshotStep?
    ensures SameLine(s, t)
  {
    hide Connect, Disconnect, Receive, DrainOutgoing, SendReliable, AllocateSnapshot, SendSnapshot, Acknowledge;
    match step {
      case ConnectStep(p) => EventsKeepLine(s, None, 0, [], p);
      case DisconnectStep(p) => EventsKeepLine(s, None, 0, [], p);
      case ReceiveStep(from, channel, data) => EventsKeepLine(s, from, channel, data, 0);
      case SendReliableStep(o, uid) => SendsKeepLine(s, o, uid);
      case SendSnapshotStep(o) => SendsKeepLine(s, o, 0);
      case AcknowledgeStep(uid) => AcksKeepLine(s, uid);
      case _ =>
    }
  }

  /** What a simulation step pushes goes to the queue and to the history alike. */
  ghost predicate PushesAlike(s: State, t: State) {
    t.net == s.net &&
    ((t.outs.log == s.outs.log && t.outgoing == s.outgoing) ||
     exists m :: IsUnnumbered(m) && t.outs.log == s.outs.log + [m] && t.outgoing == s.outgoing + [m])
  }

  lemma PushHandAlike(s: State)
    requires HandOk(s.sim.hand)
    ensures PushesAlike(s, PushHand(s))
  {
    if s.sim.hand.HoldingReply? {
      assert IsUnnumbered(s.sim.hand.reply);
    }
  }

  lemma BroadcastsAlike(s: State, c: ConnId)
    requires c in s.sessions
    ensures s.sim.phase.Broadcasting? ==> PushesAlike(s, Broadcast(s, c))
    ensures PushesAlike(s, BroadcastSnapshot(s, c))
  {
    assert IsUnnumbered(SnapshotMsg(s, s.sessions[c]));
    if s.sim.phase.Broadcasting? {
      assert IsUnnumbered(StageMsg(s, s.sim.phase.stage, s.sessions[c].id));
    }
  }

  lemma SimulationPushesAlike(s: State, step: Step, t: State)
    requires Goes(s, step, t) && IsSimulationStep(step) && HandOk(s.sim.hand)
    ensures PushesAlike(s, t)
  {
    hide PushHand, Broadcast, BroadcastSnapshot, HandleIncoming, ApplyVerdict, AllReady, HandOk;
    match step {
      case PushHandStep => PushHandAlike(s);
      case BroadcastStep(c) => BroadcastsAlike(s, c);
      case BroadcastSnapshotStep(c) => BroadcastsAlike(s, c);
      case _ =>
    }
  }

  lemma AlikeFromLog(s: State, t: State)
    requires FromLog(s) && PushesAlike(s, t)
    ensures FromLog(t)
  {
  }

  lemma OthersFromLog(s: State, step: Step, t: State)
    requires Inv(s) && FromLog(s) && Goes(s, step, t) && !IsNetworkStep(step)
    ensures FromLog(t)
  {
    hide Inv, FromLog, PushesAlike, Allowed, Next, Later, HandOk;
    if IsHttpStep(step) {
      HttpKeeps(s, step);
      SameLineFromLog(s, t);
    } else {
      HandHoldsReplies(s);
      SimulationPushesAlike(s, step, t);
      AlikeFromLog(s, t);
    }
  }

  lemma {:induction false} RunFromLog(run: seq<State>, steps: seq<Step>, k: nat)
    requires IsRun(run, steps) && k < |run|
    ensures FromLog(run[k])
  {
    hide Inv, Goes, FromLog;
    if k == 0 {
      NothingWaitsAtFirst();
    } else {
      RunFromLog(run, steps, k - 1);
      RunInv(run, steps, k - 1);
      assert Goes(run[k - 1], steps[k - 1], run[k]);
      if IsNetworkStep(steps[k - 1]) {
        NetworkFromLog(run[k - 1], steps[k - 1], run[k]);
      } else {
        OthersFromLog(run[k - 1], steps[k - 1], run[k]);
      }
    }
  }

  lemma NothingWaitsAtFirst()
    ensures FromLog(Initial())
  {
  }

  // ---------------------------------------------------------------------------
  // The bytes of a sent snapshot
  // ---------------------------------------------------------------------------

  /** What the simulation serializes for a payload, at some monotonic time. */
  function Serialized(x: Payload, timeNs: bv64): seq<byte>
    requires x.SnapshotReply? && x.snapshotId < TWO_32 && x.tick < TWO_64
  {
    SnapshotBytes(SnapshotPacket(Word32(x.snapshotId), Word64(x.tick), timeNs, x.lastInput))
  }

  lemma SerializedDescribes(x: Payload, timeNs: bv64)
    requires x.SnapshotReply? && x.snapshotId < TWO_32 && x.tick < TWO_64
    ensures ParseSnapshot(Serialized(x, timeNs)).Some? && Describes(ParseSnapshot(Serialized(x, timeNs)).value, x)
  {
    hide Describes, ParseSnapshot, SnapshotBytes, Word32, Word64;
    PayloadHasPacket(x, timeNs);
    var p := SnapshotPacket(Word32(x.snapshotId), Word64(x.tick), timeNs, x.lastInput);
    SnapshotExact(SnapshotBytes(p), p);
  }

  lemma HeldFits(s: State)
    requires Inv(s) && s.net.control.SendingSnapshot?
    ensures s.net.control.snapshot.payload.SnapshotReply?
    ensures s.net.control.snapshot.payload.snapshotId < TWO_32 && s.net.control.snapshot.payload.tick < TWO_64
  {
    hide Inv, QueuedSnapshots, KeptSnapshots, SentSnapshots, OlderThanQueued;
    StreamFacts(s);
    TickIsOn(s);
  }

  /** The snapshot sent at step `i` was pushed with the id 0. Whenever the simulation
      serialized it, overwriting bytes 1 to 4 of those bytes with the allocated id gives
      a packet that decodes to the pushed tick and last input, and to the wire id that
      the run records if ENet takes it. */
  lemma SentBytesCarryTheWireId(run: seq<State>, steps: seq<Step>, i: nat, timeNs: bv64)
    requires IsRun(run, steps) && i < |steps| && steps[i].SendSnapshotStep?
    ensures run[i].net.control.SendingSnapshot? && run[i].net.control.snapshot.payload.SnapshotReply?
    ensures
      var m := run[i].net.control.snapshot;
      var pushed := Unnumbered(m);
      && pushed in run[i].outs.log
      && m.payload.snapshotId < TWO_32 && pushed.payload.tick < TWO_64
      && var data := Serialized(pushed.payload, timeNs);
      && |data| == 25 && ParseSnapshot(Patched(data, m.payload.snapshotId)).Some?
      && var q := ParseSnapshot(Patched(data, m.payload.snapshotId)).value;
      && Describes(q, m.payload)
      && var before, after := run[i].outs.snapshotsSent, run[i + 1].outs.snapshotsSent;
      (after == before || (|after| == |before| + 1 && before <= after
                           && after[|before|].wireId == Nat32(q.snapshotId) && after[|before|].tick == Nat64(q.serverTick)))
  {
    hide Inv, Initial, Goes, Nat32, Nat64, ParseSnapshot, Patched, Serialized;
    assert Goes(run[i], steps[i], run[i + 1]);
    SendHolds(run[i], steps[i], run[i + 1]);
    RunInv(run, steps, i);
    HeldFits(run[i]);
    RunFromLog(run, steps, i);
    var m := run[i].net.control.snapshot;
    var x := Unnumbered(m).payload;
    SerializedDescribes(x, timeNs);
    var data := Serialized(x, timeNs);
    PatchedDescribes(data, ParseSnapshot(data).value, x, m.payload.snapshotId);
    SnapshotRecord(run[i], steps[i], run[i + 1]);
  }

  lemma SendHolds(s: State, step: Step, t: State)
    requires Goes(s, step, t) && step.SendSnapshotStep?
    ensures s.net.control.SendingSnapshot? && s.net.control.snapshot.payload.SnapshotReply?
  {
  }

  lemma SnapshotRecord(s: State, step: Step, t: State)
    requires Goes(s, step, t) && step.SendSnapshotStep? && s.net.control.SendingSnapshot? && s.net.control.snapshot.payload.SnapshotReply?
    ensures
      var before, after := s.outs.snapshotsSent, t.outs.snapshotsSent;
      after == before || (|after| == |before| + 1 && before <= after
                          && after[|before|].wireId == s.net.control.snapshot.payload.snapshotId
                          && after[|before|].tick == s.net.control.snapshot.payload.tick)
  {
    hide SendPacket, BoundId;
  }

  // ---------------------------------------------------------------------------
  // When a snapshot leaves
  // ---------------------------------------------------------------------------

  /** The held snapshot is handed to ENet: its own session is authenticated and secure,
      and ENet takes it. */
  predicate SnapshotLeaves(s: State, o: SendOutcome)
    requires s.net.control.SendingSnapshot?
  {
    var c := s.net.control.snapshot.id;
    c in s.sessions && s.sessions[c].auth == Valid && s.sessions[c].secure && o != CreateFails && o != SendFails
  }

  lemma SnapshotSendIsExact(s: State, o: SendOutcome)
    requires s.net.control.SendingSnapshot? && s.net.control.snapshot.payload.SnapshotReply?
    requires Binding(s.net.nextId, s.net.data, s.net.peers) && HeldBound(s.net.control, s.net.peers)
    requires s.net.control.snapshot.id in s.sessions ==> SessionOk(s.net.control.snapshot.id, s.sessions[s.net.control.snapshot.id], s.secures.acked)
    ensures
      var x, m := s.net.control, s.net.control.snapshot;
      SendSnapshot(s, o).outs.snapshotsSent == s.outs.snapshotsSent +
        if SnapshotLeaves(s, o) then [SentSnapshot(s.net.peers[m.id], m.id, m.id, x.index, m.payload.snapshotId, m.payload.tick)] else []
  {
  }

  lemma HeldIsBound(s: State)
    requires Inv(s)
    ensures HeldBound(s.net.control, s.net.peers)
  {
    hide AuthLine, VerdictsApplied, AuthReplies, Binding, Life, LogGrammar, GuardsHold, SessionsOk, Mirror, ReliableLine,
         ReliableSent, Outgoing, Stream, MatchPushes, Flow, AuthItems;
  }

  /** One snapshot send in any reachable state: it reaches ENet exactly when its own
      session is authenticated and secure and ENet takes it, on the slot of that
      connection and with the id that was allocated for it. */
  lemma SnapshotLeavesExactly(run: seq<State>, steps: seq<Step>, i: nat)
    requires IsRun(run, steps) && i < |steps| && steps[i].SendSnapshotStep?
    ensures run[i].net.control.SendingSnapshot? && run[i].net.control.snapshot.payload.SnapshotReply?
    ensures run[i].net.control.snapshot.id in run[i].net.peers
    ensures
      var s, x, m := run[i], run[i].net.control, run[i].net.control.snapshot;
      run[i + 1].outs.snapshotsSent == s.outs.snapshotsSent +
        if SnapshotLeaves(s, steps[i].outcome)
        then [SentSnapshot(s.net.peers[m.id], m.id, m.id, x.index, m.payload.snapshotId, m.payload.tick)] else []
  {
    hide Inv, Allowed, Next, SendSnapshot, SessionOk, SnapshotLeaves;
    var s := run[i];
    RunInv(run, steps, i);
    assert Goes(s, steps[i], run[i + 1]);
    SendSnapshotIs(s, steps[i]);
    HeldIsBound(s);
    LineFacts(s);
    if s.net.control.snapshot.id in s.sessions {
      SessionFacts(s, s.net.control.snapshot.id);
    }
    SnapshotSendIsExact(s, steps[i].outcome);
  }

  lemma SendSnapshotIs(s: State, step: Step)
    requires Allowed(s, step) && step.SendSnapshotStep?
    ensures s.net.control.SendingSnapshot? && s.net.control.snapshot.payload.SnapshotReply?
    ensures Next(s, step) == SendSnapshot(s, step.outcome)
  {
    hide SendSnapshot;
  }
}
