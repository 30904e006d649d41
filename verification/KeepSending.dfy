/** Draining, sending and acknowledgements keep the invariant. */
module KeepSending {
  import opened Messages
  import opened Sequences
  import opened Preparation
  import opened Membership
  import opened Lifecycle
  import opened Invariant
  import opened KeepEvents

  // ---------------------------------------------------------------------------
  // Draining the outgoing queue
  // ---------------------------------------------------------------------------

  lemma PreparedFromQueue(xs: seq<OutMsg>, seen: set<ConnId>, secures: SecureHistory)
    requires AllOut(xs, seen, secures)
    ensures PreparedOk(Prepare(xs), seen, secures)
  {
    hide OutOk;
    var p := Prepare(xs);
    forall c | c in p.snapshots
      ensures p.snapshots[c].id == c && p.snapshots[c].kind == SnapshotOut && OutOk(p.snapshots[c], seen, secures)
    {
      assert IsLastOf(xs, SnapshotOut, p.snapshots, c);
    }
  }

  /** A drained snapshot is newer than everything sent and older than nothing queued. */
  lemma StreamDrain(sent: seq<SentSnapshot>, before: NetControl, outgoing: seq<OutMsg>, sim: Sim, sessions: map<ConnId,
                    Session>, seen: set<ConnId>)
    requires Stream(sent, before, outgoing, sim, sessions, seen) && before.NetIdle?
    ensures Stream(sent, Sending(Prepare(outgoing)), [], sim, sessions, seen)
  {
    hide Recent;
    var after := Sending(Prepare(outgoing));
    var kept := Prepare(outgoing).snapshots;
    forall c | c in kept
      ensures exists i :: 0 <= i < |outgoing| && kept[c] == outgoing[i] && IsSnapshotFor(outgoing[i], c)
    {
      assert IsLastOf(outgoing, SnapshotOut, kept, c);
      var i := LastIndex(outgoing, SnapshotOut, c);
      assert kept[c] == outgoing[i];
    }
    forall i | 0 <= i < |sent|
      ensures SentOk(sent[i], after, [], sim, sessions, seen)
    {
      assert SentOk(sent[i], before, outgoing, sim, sessions, seen);
    }
  }

  lemma KeepDrainOutgoing(s: State)
    requires Inv(s) && s.net.control.NetIdle?
    ensures Inv(DrainOutgoing(s))
  {
    hide Binding, Life, LogGrammar, GuardsHold, SessionsOk, Mirror, AuthLine, VerdictsApplied, AuthReplies,
         ReliableSent;
    hide Stream, MatchPushes, Flow, StartRecorded, AuthItems, PreparedOk, AllOut, InFlightOk, KicksOk;
    var t := DrainOutgoing(s);
    PreparedFromQueue(s.outgoing, s.ins.seen, s.secures);
    assert AllOut([], s.ins.seen, s.secures) by { EmptyAllOut(s.ins.seen, s.secures); }
    StreamDrain(s.outs.snapshotsSent, s.net.control, s.outgoing, s.sim, s.sessions, s.ins.seen);
    assert Pending(t) == Pending(s);
  }

  lemma EmptyAllOut(seen: set<ConnId>, secures: SecureHistory)
    ensures AllOut([], seen, secures)
  {
  }

  // ---------------------------------------------------------------------------
  // Reliable sends
  // ---------------------------------------------------------------------------

  /** A send to the peer found for `m.id` concerns `m.id` and nobody else. */
  lemma SendConcernsItsTarget(net: Net, sessions: map<ConnId, Session>, m: OutMsg, o: SendOutcome)
    requires Binding(net.nextId, net.data, net.peers) && m.id in net.peers
    ensures
      var peer := net.peers[m.id];
      var r := SendReliableMsg(net, sessions, peer, m, o);
      && BoundId(net, peer) == m.id
      && (r.disconnectNow ==> m.disconnectAfterAck)
      && (r.context.Some? ==>
            && r.context.value.id == m.id && r.context.value.peer == peer
            && (r.context.value.enableEncryptionAfterAck ==> m.enableEncryptionAfterAck)
            && (r.context.value.disconnectAfterAck ==> m.disconnectAfterAck))
  {
  }

  lemma OutgoingSendHead(p: Prepared, outgoing: seq<OutMsg>, hand: Hand, inFlight: map<nat, AckContext>,
                         kicks: seq<Kick>,
                         seen: set<ConnId>, secures: SecureHistory)
    requires Outgoing(Sending(p), outgoing, hand, inFlight, kicks, seen, secures) && p.reliable != []
    ensures Outgoing(Sending(p.(reliable := p.reliable[1..])), outgoing, hand, inFlight, kicks, seen, secures)
    ensures OutOk(p.reliable[0], seen, secures)
  {
    hide OutOk, InFlightOk, KicksOk;
    assert PreparedOk(p.(reliable := p.reliable[1..]), seen, secures);
  }

  lemma OutgoingFlight(control: NetControl, outgoing: seq<OutMsg>, hand: Hand, inFlight: map<nat, AckContext>,
                       kicks: seq<Kick>,
                       seen: set<ConnId>, secures: SecureHistory, m: OutMsg, uid: nat, context: AckContext)
    requires Outgoing(control, outgoing, hand, inFlight, kicks, seen, secures) && OutOk(m, seen, secures)
    requires context.id == m.id
    requires context.enableEncryptionAfterAck ==> m.enableEncryptionAfterAck
    requires context.disconnectAfterAck ==> m.disconnectAfterAck
    ensures Outgoing(control, outgoing, hand, inFlight[uid := context], kicks, seen, secures)
  {
    hide AllOut, ControlOk, KicksOk;
  }

  /** The control after one reliable send keeps the same snapshots. */
  lemma StreamSameKept(sent: seq<SentSnapshot>, p: Prepared, q: Prepared, outgoing: seq<OutMsg>, sim: Sim,
                       sessions: map<ConnId, Session>, seen: set<ConnId>)
    requires Stream(sent, Sending(p), outgoing, sim, sessions, seen) && p.snapshots == q.snapshots
    ensures Stream(sent, Sending(q), outgoing, sim, sessions, seen)
  {
    hide OlderThanQueued, QueuedSnapshots, Recent;
  }

  lemma ReliableSentPush(handled: seq<OutMsg>, sent: seq<SentReliable>, e: SentReliable)
    requires ReliableSent(handled, sent) && e.position == |handled| && e.bound == e.msg.id
    ensures ReliableSent(handled + [e.msg], sent) && ReliableSent(handled + [e.msg], sent + [e])
  {
  }

  lemma ReliableLineSend(log: seq<OutMsg>, handled: seq<OutMsg>, p: Prepared, outgoing: seq<OutMsg>)
    requires ReliableLine(log, handled, Sending(p), outgoing) && p.reliable != []
    ensures ReliableLine(log, handled + [p.reliable[0]], Sending(p.(reliable := p.reliable[1..])), outgoing)
  {
    hide Reliable;
    assert p.reliable == [p.reliable[0]] + p.reliable[1..];
  }

  lemma KeepSendReliable(s: State, o: SendOutcome, uid: nat)
    requires Inv(s) && s.net.control.Sending? && s.net.control.prepared.reliable != [] && uid !in s.net.inFlight
    ensures Inv(SendReliable(s, o, uid))
  {
    hide Binding, Life, LogGrammar, GuardsHold, SessionsOk, Mirror, AuthLine, VerdictsApplied, AuthReplies,
         ReliableSent, Outgoing;
    hide Stream, MatchPushes, Flow, StartRecorded, AuthItems, SendReliableMsg, BoundId, ReliableLine, OutOk;
    var t := SendReliable(s, o, uid);
    var p := s.net.control.prepared;
    var m := p.reliable[0];
    ReliableLineSend(s.outs.log, s.outs.handled, p, s.outgoing);
    OutgoingSendHead(p, s.outgoing, s.sim.hand, s.net.inFlight, s.outs.kicks, s.ins.seen, s.secures);
    StreamSameKept(s.outs.snapshotsSent, p, t.net.control.prepared, s.outgoing, s.sim, s.sessions, s.ins.seen);
    assert Pending(t) == Pending(s);
    if m.id in s.net.peers {
      SendConcernsItsTarget(s.net, s.sessions, m, o);
      var peer := s.net.peers[m.id];
      var r := SendReliableMsg(s.net, s.sessions, peer, m, o);
      if r.context.Some? {
        OutgoingFlight(t.net.control, s.outgoing, s.sim.hand, s.net.inFlight, s.outs.kicks, s.ins.seen, s.secures, m,
            uid, r.context.value);
      }
      if r.disconnectNow {
        RefusedByFlag(m, s.ins.seen, s.secures);
        OutgoingKick(t.net.control, s.outgoing, s.sim.hand, t.net.inFlight, s.outs.kicks, s.ins.seen, s.secures,
            Kick(peer, m.id));
      }
      ReliableSentPush(s.outs.handled, s.outs.reliableSent, SentReliable(peer, BoundId(s.net, peer), m, |s.outs.handled|));
    } else {
      ReliableSentPush(s.outs.handled, s.outs.reliableSent, SentReliable(0, m.id, m, |s.outs.handled|));
    }
  }

  lemma RefusedByFlag(m: OutMsg, seen: set<ConnId>, secures: SecureHistory)
    requires OutOk(m, seen, secures) && m.disconnectAfterAck
    ensures m.id in secures.refused
  {
  }

  // ---------------------------------------------------------------------------
  // Snapshots
  // ---------------------------------------------------------------------------

  /** `b` differs from `a` in snapshot counters only. */
  ghost predicate SameButCounters(a: map<ConnId, Session>, b: map<ConnId, Session>) {
    && a.Keys == b.Keys
    && forall c :: c in a ==>
      b[c] == a[c].(nextSnapshot := b[c].nextSnapshot, lastSnapshot := b[c].lastSnapshot, allocations := b[c].allocations)
  }

  lemma TablesUnderCounters(a: map<ConnId, Session>, b: map<ConnId, Session>, pending: seq<InMsg>, peers: map<ConnId,
                            Peer>, encryption: map<ConnId, bool>,
                            seen: set<ConnId>, auths: AuthHistory, items: seq<ConnId>)
    requires SameButCounters(a, b)
    requires GuardsHold(a, pending) && Mirror(peers, encryption, a) && AuthLine(a, seen, auths, items)
        && VerdictsApplied(a, auths)
    ensures GuardsHold(b, pending) && Mirror(peers, encryption, b) && AuthLine(b, seen, auths, items) && VerdictsApplied(b, auths)
  {
    hide Answered, StatusMatches, Distinct;
    assert forall c :: c in a ==> a[c].auth == b[c].auth && a[c].encrypted == b[c].encrypted;
    forall m | m in pending
      ensures GuardHolds(b, m)
    {
      assert GuardHolds(a, m);
    }
  }

  lemma StreamAllocate(sent: seq<SentSnapshot>, p: Prepared, c: ConnId, peer: Peer, outgoing: seq<OutMsg>, sim: Sim,
                       sessions: map<ConnId, Session>, sessions': map<ConnId, Session>, seen: set<ConnId>)
    requires Stream(sent, Sending(p), outgoing, sim, sessions, seen)
    requires c in p.snapshots && c in sessions && c in seen
    requires sessions'.Keys == sessions.Keys && sessions'[c].allocations == sessions[c].allocations + 1
    requires forall d :: d in sessions && d != c ==> sessions'[d].allocations == sessions[d].allocations
    ensures
      var k := sessions[c].allocations + 1;
      var m := p.snapshots[c];
      m.payload.SnapshotReply? &&
      Stream(sent, SendingSnapshot(peer, m.(payload := m.payload.(snapshotId := k % TWO_32)), k,
          p.(snapshots := p.snapshots - {c})),
             outgoing, sim, sessions', seen)
  {
    hide OlderThanQueued, QueuedSnapshots, Recent;
    var k := sessions[c].allocations + 1;
    var m := p.snapshots[c];
    var control := SendingSnapshot(peer, m.(payload := m.payload.(snapshotId := k % TWO_32)), k,
        p.(snapshots := p.snapshots - {c}));
    forall i | 0 <= i < |sent|
      ensures SentOk(sent[i], control, outgoing, sim, sessions', seen)
    {
      assert SentOk(sent[i], Sending(p), outgoing, sim, sessions, seen);
    }
  }

  lemma StreamSkip(sent: seq<SentSnapshot>, p: Prepared, c: ConnId, outgoing: seq<OutMsg>, sim: Sim,
                   sessions: map<ConnId, Session>, seen: set<ConnId>)
    requires Stream(sent, Sending(p), outgoing, sim, sessions, seen)
    ensures Stream(sent, Sending(p.(snapshots := p.snapshots - {c})), outgoing, sim, sessions, seen)
  {
    hide OlderThanQueued, QueuedSnapshots, Recent;
  }

  lemma SessionsOkAllocate(sessions: map<ConnId, Session>, acked: set<ConnId>, c: ConnId)
    requires SessionsOk(sessions, acked) && c in sessions
    ensures
      SessionsOk(sessions[c := AfterAllocation(sessions[c])], acked)
    ensures sessions[c].nextSnapshot == (sessions[c].allocations + 1) % TWO_32
    ensures SameButCounters(sessions, sessions[c := AfterAllocation(sessions[c])])
    ensures sessions[c := AfterAllocation(sessions[c])].Keys == sessions.Keys
  {
    assert SessionOk(c, sessions[c], acked);
  }

  lemma OutgoingTakeSnapshot(p: Prepared, c: ConnId, peer: Peer, k: nat, id: nat, outgoing: seq<OutMsg>, hand: Hand,
                             inFlight: map<nat, AckContext>, kicks: seq<Kick>,
                             seen: set<ConnId>, secures: SecureHistory)
    requires Outgoing(Sending(p), outgoing, hand, inFlight, kicks, seen, secures) && p.reliable == [] && c in p.snapshots
    ensures
      var m, rest := p.snapshots[c], p.(snapshots := p.snapshots - {c});
      && m.id == c && m.kind == SnapshotOut && m.payload.SnapshotReply? && c in seen
      && Outgoing(Sending(rest), outgoing, hand, inFlight, kicks, seen, secures)
      && Outgoing(SendingSnapshot(peer, m.(payload := m.payload.(snapshotId := id)), k, rest), outgoing, hand,
          inFlight, kicks, seen, secures)
  {
    hide AllOut, InFlightOk, KicksOk;
    assert OutOk(p.snapshots[c], seen, secures);
  }

  lemma KeepAllocateSnapshot(s: State, c: ConnId)
    requires Inv(s) && s.net.control.Sending? && s.net.control.prepared.reliable == [] && c in s.net.control.prepared.snapshots
    ensures Inv(AllocateSnapshot(s, c))
  {
    hide Binding, Life, LogGrammar, GuardsHold, SessionsOk, Mirror, AuthLine, VerdictsApplied, AuthReplies,
         ReliableSent, Outgoing;
    hide Stream, MatchPushes, Flow, StartRecorded, AuthItems, SameButCounters;
    var t := AllocateSnapshot(s, c);
    var p := s.net.control.prepared;
    assert Pending(t) == Pending(s);
    if c in s.net.peers && c in s.sessions {
      var peer, k := s.net.peers[c], s.sessions[c].allocations + 1;
      SessionsOkAllocate(s.sessions, s.secures.acked, c);
      OutgoingTakeSnapshot(p, c, peer, k, k % TWO_32, s.outgoing, s.sim.hand, s.net.inFlight, s.outs.kicks, s.ins.seen,
          s.secures);
      TablesUnderCounters(s.sessions, t.sessions, Pending(s), s.net.peers, s.net.encryption, s.ins.seen, s.auths, Items(s));
      StreamAllocate(s.outs.snapshotsSent, p, c, peer, s.outgoing, s.sim, s.sessions, t.sessions, s.ins.seen);
    } else {
      OutgoingTakeSnapshot(p, c, 0, 0, 0, s.outgoing, s.sim.hand, s.net.inFlight, s.outs.kicks, s.ins.seen, s.secures);
      StreamSkip(s.outs.snapshotsSent, p, c, s.outgoing, s.sim, s.sessions, s.ins.seen);
    }
  }

  lemma StreamSend(sent: seq<SentSnapshot>, control: NetControl, outgoing: seq<OutMsg>, sim: Sim, sessions: map<ConnId,
                   Session>, seen: set<ConnId>, e: SentSnapshot)
    requires Stream(sent, control, outgoing, sim, sessions, seen) && control.SendingSnapshot?
    requires
      var m := control.snapshot;
      m.payload.SnapshotReply? && e == SentSnapshot(e.peer, m.id, m.id, control.index, m.payload.snapshotId, m.payload.tick)
    ensures Stream(sent, Sending(control.prepared), outgoing, sim, sessions, seen)
    ensures Stream(sent + [e], Sending(control.prepared), outgoing, sim, sessions, seen)
  {
    hide OlderThanQueued, QueuedSnapshots, Recent;
    var after := Sending(control.prepared);
    forall i | 0 <= i < |sent|
      ensures SentOk(sent[i], after, outgoing, sim, sessions, seen)
      ensures sent[i].id == e.id ==> sent[i].index < e.index && sent[i].tick < e.tick
    {
      assert SentOk(sent[i], control, outgoing, sim, sessions, seen);
    }
    assert SentOk(e, after, outgoing, sim, sessions, seen);
  }

  lemma OutgoingSnapshotGone(control: NetControl, outgoing: seq<OutMsg>, hand: Hand, inFlight: map<nat, AckContext>,
                             kicks: seq<Kick>,
                             seen: set<ConnId>, secures: SecureHistory)
    requires Outgoing(control, outgoing, hand, inFlight, kicks, seen, secures) && control.SendingSnapshot?
    ensures Outgoing(Sending(control.prepared), outgoing, hand, inFlight, kicks, seen, secures)
    ensures control.prepared.reliable == []
  {
    hide AllOut, InFlightOk, KicksOk, PreparedOk;
  }

  lemma PeerOf(nextId: nat, data: map<Peer, ConnId>, peers: map<ConnId, Peer>, c: ConnId)
    requires Binding(nextId, data, peers) && c in peers
    ensures peers[c] in data && data[peers[c]] == c
  {
  }

  lemma KeepSendSnapshot(s: State, o: SendOutcome)
    requires Inv(s) && s.net.control.SendingSnapshot? && s.net.control.snapshot.payload.SnapshotReply?
    ensures Inv(SendSnapshot(s, o))
  {
    hide Binding, Life, LogGrammar, GuardsHold, SessionsOk, Mirror, AuthLine, VerdictsApplied, AuthReplies,
         ReliableSent, Outgoing;
    hide Stream, MatchPushes, Flow, StartRecorded, AuthItems, SendPacket;
    var c := s.net.control;
    PeerOf(s.net.nextId, s.net.data, s.net.peers, c.snapshot.id);
    OutgoingSnapshotGone(c, s.outgoing, s.sim.hand, s.net.inFlight, s.outs.kicks, s.ins.seen, s.secures);
    StreamSend(s.outs.snapshotsSent, c, s.outgoing, s.sim, s.sessions, s.ins.seen,
               SentSnapshot(c.peer, BoundId(s.net, c.peer), c.snapshot.id, c.index, c.snapshot.payload.snapshotId,
                   c.snapshot.payload.tick));
    assert Pending(SendSnapshot(s, o)) == Pending(s);
  }

  lemma StreamSendingDone(sent: seq<SentSnapshot>, p: Prepared, outgoing: seq<OutMsg>, sim: Sim, sessions: map<ConnId,
                          Session>, seen: set<ConnId>)
    requires Stream(sent, Sending(p), outgoing, sim, sessions, seen)
    ensures Stream(sent, NetIdle, outgoing, sim, sessions, seen)
  {
    hide OlderThanQueued, QueuedSnapshots, Recent;
  }

  lemma KeepSendingDone(s: State)
    requires Inv(s) && s.net.control.Sending? && s.net.control.prepared.reliable == []
    ensures Inv(SendingDone(s))
  {
    hide Binding, Life, LogGrammar, GuardsHold, SessionsOk, Mirror, AuthLine, VerdictsApplied, AuthReplies,
         ReliableSent, Outgoing;
    hide Stream, MatchPushes, Flow, StartRecorded, AuthItems;
    var t := SendingDone(s);
    StreamSendingDone(s.outs.snapshotsSent, s.net.control.prepared, s.outgoing, s.sim, s.sessions, s.ins.seen);
    OutgoingUnderPlainControl(s.net.control, t.net.control, s.outgoing, s.sim.hand, s.net.inFlight, s.outs.kicks,
        s.ins.seen, s.secures);
    assert Pending(t) == Pending(s);
  }

  // ---------------------------------------------------------------------------
  // Acknowledgements
  // ---------------------------------------------------------------------------

  /** Encryption switched on for a live connection, on both sides at once. */
  lemma TablesUnderEncryption(sessions: map<ConnId, Session>, c: ConnId, pending: seq<InMsg>, peers: map<ConnId, Peer>,
                              encryption: map<ConnId, bool>,
                              seen: set<ConnId>, auths: AuthHistory, items: seq<ConnId>, acked: set<ConnId>)
    requires c in sessions && c in peers
    requires GuardsHold(sessions, pending) && Mirror(peers, encryption, sessions) && AuthLine(sessions, seen, auths, items)
    requires VerdictsApplied(sessions, auths) && SessionsOk(sessions, acked)
    ensures
      var after := sessions[c := sessions[c].(encrypted := true)];
      && GuardsHold(after, pending) && Mirror(peers, encryption[c := true], after) && AuthLine(after, seen, auths, items)
      && VerdictsApplied(after, auths) && SessionsOk(after, acked + {c}) && after.Keys == sessions.Keys
  {
    hide Answered, StatusMatches, Distinct;
    var after := sessions[c := sessions[c].(encrypted := true)];
    assert after.Keys == sessions.Keys;
    assert forall d :: d in sessions ==> after[d].auth == sessions[d].auth;
    forall m | m in pending
      ensures GuardHolds(after, m)
    {
      assert GuardHolds(sessions, m);
    }
    forall d | d in after
      ensures SessionOk(d, after[d], acked + {c})
    {
      assert SessionOk(d, sessions[d], acked);
    }
  }

  /** Sessions may go, or come for connections that sent nothing yet; a session that
      stays keeps its counter. */
  lemma StreamUnderSessions(sent: seq<SentSnapshot>, control: NetControl, outgoing: seq<OutMsg>, sim: Sim,
                            sessions: map<ConnId, Session>, sessions': map<ConnId, Session>, seen: set<ConnId>,
                                seen': set<ConnId>)
    requires Stream(sent, control, outgoing, sim, sessions, seen) && seen <= seen'
    requires forall c :: c in sessions' ==> (c in sessions && sessions'[c].allocations == sessions[c].allocations) || c !in seen
    ensures Stream(sent, control, outgoing, sim, sessions', seen')
  {
    hide OlderThanQueued, QueuedSnapshots, Recent, KeptSnapshots;
    forall i | 0 <= i < |sent|
      ensures SentOk(sent[i], control, outgoing, sim, sessions', seen')
    {
      assert SentOk(sent[i], control, outgoing, sim, sessions, seen);
    }
  }

  /** A connection that was seen and is still bound has a session. */
  lemma SeenAndBoundIsLive(nextId: nat, bound: set<ConnId>, live: set<ConnId>, seen: set<ConnId>, pending: seq<InMsg>,
                           c: ConnId)
    requires Life(nextId, bound, live, seen, pending) && c in seen && c in bound
    ensures c in live
  {
    assert LifeOf(c, nextId, c in bound, c in live, c in seen, Share(pending, c));
  }

  lemma ContextOk(control: NetControl, outgoing: seq<OutMsg>, hand: Hand, inFlight: map<nat, AckContext>,
                  kicks: seq<Kick>,
                  seen: set<ConnId>, secures: SecureHistory, uid: nat)
    requires Outgoing(control, outgoing, hand, inFlight, kicks, seen, secures) && uid in inFlight
    ensures inFlight[uid].id in seen
    ensures inFlight[uid].enableEncryptionAfterAck ==> inFlight[uid].id in secures.accepted
    ensures inFlight[uid].disconnectAfterAck ==> inFlight[uid].id in secures.refused
    ensures Outgoing(control, outgoing, hand, inFlight - {uid}, kicks, seen, secures)
  {
    hide AllOut, ControlOk, KicksOk;
  }

  lemma KeepEnableEncryption(s: State, peer: Peer)
    requires Inv(s) && peer in s.net.data && s.net.data[peer] in s.ins.seen && s.net.data[peer] in s.secures.accepted
    ensures Inv(EnableEncryption(s, peer))
  {
    hide Life, LogGrammar, GuardsHold, SessionsOk, Mirror, AuthLine, VerdictsApplied, AuthReplies, ReliableSent,
         Outgoing;
    hide Stream, MatchPushes, Flow, StartRecorded, AuthItems;
    var t := EnableEncryption(s, peer);
    var c := s.net.data[peer];
    assert c in s.net.peers && s.net.peers[c] == peer;
    hide Binding;
    SeenAndBoundIsLive(s.net.nextId, s.net.peers.Keys, s.sessions.Keys, s.ins.seen, Pending(s), c);
    TablesUnderEncryption(s.sessions, c, Pending(s), s.net.peers, s.net.encryption, s.ins.seen, s.auths, Items(s),
        s.secures.acked);
    StreamUnderSessions(s.outs.snapshotsSent, s.net.control, s.outgoing, s.sim, s.sessions, t.sessions, s.ins.seen, s.ins.seen);
    OutgoingUnderMoreHistory(s.net.control, s.outgoing, s.sim.hand, s.net.inFlight, s.outs.kicks, s.ins.seen,
        s.secures, s.ins.seen, t.secures);
    assert Pending(t) == Pending(s);
  }

  lemma KeepAcknowledge(s: State, uid: nat)
    requires Inv(s) && uid in s.net.inFlight
    ensures Inv(Acknowledge(s, uid))
  {
    hide Binding, Life, LogGrammar, GuardsHold, SessionsOk, Mirror, AuthLine, VerdictsApplied, AuthReplies,
         ReliableSent, Outgoing;
    hide Stream, MatchPushes, Flow, StartRecorded, AuthItems;
    var context := s.net.inFlight[uid];
    ContextOk(s.net.control, s.outgoing, s.sim.hand, s.net.inFlight, s.outs.kicks, s.ins.seen, s.secures, uid);
    if StillBound(s.net, context.peer, context.id) {
      if context.enableEncryptionAfterAck {
        KeepEnableEncryption(s, context.peer);
      }
      var s1 := if context.enableEncryptionAfterAck then EnableEncryption(s, context.peer) else s;
      if context.disconnectAfterAck {
        OutgoingKick(s1.net.control, s1.outgoing, s1.sim.hand, s1.net.inFlight, s1.outs.kicks, s1.ins.seen, s1.secures,
            Kick(context.peer, context.id));
        assert Pending(Acknowledge(s, uid)) == Pending(s1);
      }
    }
  }

  lemma KeepFreePacket(s: State, uid: nat)
    requires Inv(s) && uid in s.net.inFlight
    ensures Inv(FreePacket(s, uid))
  {
    hide Binding, Life, LogGrammar, GuardsHold, SessionsOk, Mirror, AuthLine, VerdictsApplied, AuthReplies,
         ReliableSent, Outgoing;
    hide Stream, MatchPushes, Flow, StartRecorded, AuthItems;
    ContextOk(s.net.control, s.outgoing, s.sim.hand, s.net.inFlight, s.outs.kicks, s.ins.seen, s.secures, uid);
    assert Pending(FreePacket(s, uid)) == Pending(s);
  }
}
