/** Who misses the match packets. The outgoing line is one queue, so a client that has
    no success reply in it when a packet is pushed cannot be authenticated in time. */
module Latecomers {
  import opened Messages
  import opened Sequences
  import opened Preparation
  import opened Membership
  import opened Lifecycle
  import opened Invariant
  import opened KeepIncoming
  import opened Threads
  import opened Runs
  import opened Chain
  import opened Guarantees
  import opened Deliveries

  /** A success reply for `c`: the message whose acknowledgement switches encryption on. */
  predicate Welcomes(m: OutMsg, c: ConnId) {
    m.id == c && m.enableEncryptionAfterAck
  }

  ghost predicate WelcomeIn(ms: seq<OutMsg>, c: ConnId) {
    exists m :: m in ms && Welcomes(m, c)
  }

  ghost predicate WelcomeInFlight(inFlight: map<nat, AckContext>, c: ConnId) {
    exists u :: u in inFlight && inFlight[u].id == c && inFlight[u].enableEncryptionAfterAck
  }

  // ---------------------------------------------------------------------------
  // A success reply is pushed only after the hello was accepted
  // ---------------------------------------------------------------------------

  /** What one step adds to everything ever pushed. */
  lemma PushedByStep(s: State, step: Step, t: State)
    requires Goes(s, step, t)
    ensures t.outs.log == s.outs.log ||
            exists m :: t.outs.log == s.outs.log + [m] && (m.enableEncryptionAfterAck ==> m in HandReply(s.sim.hand))
  {
    if IsNetworkStep(step) {
      hide Allowed, Next, Later;
      FrameOf(s, step, t);
    } else {
      hide HandleIncoming, ApplyVerdict, AllReady;
      if t.outs.log != s.outs.log {
        var m := t.outs.log[|t.outs.log| - 1];
        assert t.outs.log == s.outs.log + [m];
      }
    }
  }

  lemma HandIsOk(s: State, m: OutMsg)
    requires Inv(s) && m in HandReply(s.sim.hand)
    ensures m.enableEncryptionAfterAck ==> m.id in s.secures.accepted
  {
    hide Binding, Life, LogGrammar, GuardsHold, SessionsOk, Mirror, AuthLine, VerdictsApplied, AuthReplies,
         ReliableLine, ReliableSent, Stream, MatchPushes, Flow;
  }

  lemma {:induction false} WelcomesWereAccepted(run: seq<State>, steps: seq<Step>, k: nat, c: ConnId)
    requires IsRun(run, steps) && k < |run| && WelcomeIn(run[k].outs.log, c)
    ensures c in run[k].secures.accepted
  {
    hide Inv, Goes;
    if k > 0 {
      var s, t := run[k - 1], run[k];
      LaterRun(run, steps, k - 1, k);
      RunInv(run, steps, k - 1);
      PushedByStep(s, steps[k - 1], t);
      if WelcomeIn(s.outs.log, c) {
        WelcomesWereAccepted(run, steps, k - 1, c);
      } else {
        var m :| m in t.outs.log && Welcomes(m, c);
        HandIsOk(s, m);
      }
    }
  }

  // ---------------------------------------------------------------------------
  // An acknowledgement that switches encryption on is of a handled success reply
  // ---------------------------------------------------------------------------

  lemma ContextIsOfItsMessage(net: Net, sessions: map<ConnId, Session>, p: Peer, m: OutMsg, o: SendOutcome)
    requires p in net.data && net.data[p] == m.id
    ensures
      var x := SendReliableMsg(net, sessions, p, m, o).context;
      x.Some? && x.value.enableEncryptionAfterAck ==> x.value.id == m.id && m.enableEncryptionAfterAck
  {
  }

  lemma SendAddsItsContext(s: State, step: Step, t: State, c: ConnId)
    requires Goes(s, step, t) && step.SendReliableStep? && Binding(s.net.nextId, s.net.data, s.net.peers)
    requires !WelcomeInFlight(s.net.inFlight, c) && WelcomeInFlight(t.net.inFlight, c)
    ensures WelcomeIn(t.outs.handled, c)
  {
    hide SendReliableMsg, WelcomeIn, Binding;
    var m := HeadToSend(s);
    var u :| u in t.net.inFlight && t.net.inFlight[u].id == c && t.net.inFlight[u].enableEncryptionAfterAck;
    if m.id in s.net.peers {
      BoundBack(s.net, m.id);
      ContextIsOfItsMessage(s.net, s.sessions, s.net.peers[m.id], m, step.outcome);
      LastWelcomes(s.outs.handled, m, c);
    }
  }

  lemma BoundBack(net: Net, c: ConnId)
    requires Binding(net.nextId, net.data, net.peers) && c in net.peers
    ensures net.peers[c] in net.data && net.data[net.peers[c]] == c
  {
  }

  lemma LastWelcomes(ms: seq<OutMsg>, m: OutMsg, c: ConnId)
    ensures Welcomes(m, c) ==> WelcomeIn(ms + [m], c)
  {
    assert m in ms + [m];
  }

  lemma WelcomeStays(ms: seq<OutMsg>, more: seq<OutMsg>, c: ConnId)
    requires ms <= more && WelcomeIn(ms, c)
    ensures WelcomeIn(more, c)
  {
  }

  lemma {:induction false} InFlightWasHandled(run: seq<State>, steps: seq<Step>, k: nat, c: ConnId)
    requires IsRun(run, steps) && k < |run| && WelcomeInFlight(run[k].net.inFlight, c)
    ensures WelcomeIn(run[k].outs.handled, c)
  {
    hide Inv, Goes, WelcomeIn, Binding;
    if k > 0 {
      var s, t := run[k - 1], run[k];
      HandledGrows(run, steps, k - 1, k);
      RunInv(run, steps, k - 1);
      LineFacts(s);
      assert Goes(s, steps[k - 1], t);
      if WelcomeInFlight(s.net.inFlight, c) {
        InFlightWasHandled(run, steps, k - 1, c);
        WelcomeStays(s.outs.handled, t.outs.handled, c);
      } else if steps[k - 1].SendReliableStep? {
        SendAddsItsContext(s, steps[k - 1], t, c);
      } else {
        OnlySendsSend(s, steps[k - 1], t);
      }
    }
  }

  // ---------------------------------------------------------------------------
  // Places in the outgoing line
  // ---------------------------------------------------------------------------

  /** When no kind recurs, two match messages of one kind for one connection are one. */
  lemma OnePlace(log: seq<OutMsg>, c: ConnId, p: nat, n: nat)
    requires Ascending(MatchKinds(log, c)) && p < |log| && n < |log|
    requires log[p].id == c && log[n].id == c && IsMatchKind(log[p].kind) && log[n].kind == log[p].kind
    ensures p == n
  {
    hide MatchKinds;
    var a := KindsAt(log, c, p);
    var b := KindsAt(log, c, n);
    if p < n {
      KindsGrow(log, c, p, n);
    } else if n < p {
      KindsGrow(log, c, n, p);
    }
  }

  lemma ReliablePrefix(log: seq<OutMsg>, longer: seq<OutMsg>)
    requires log <= longer
    ensures Reliable(log) <= Reliable(longer)
  {
    FilterSplit(ReliableMsg(), longer, |log|);
    assert longer[..|log|] == log;
  }

  /** The step pushes the packet of a stage for `c`. */
  predicate Pushes(s: State, step: Step, c: ConnId, stage: Stage) {
    step == BroadcastStep(c) && s.sim.phase == Broadcasting(stage)
  }

  lemma PushIsAtTheEnd(s: State, step: Step, t: State, c: ConnId, stage: Stage) returns (m: OutMsg)
    requires Inv(s) && Goes(s, step, t) && Pushes(s, step, c, stage)
    ensures t.outs.log == s.outs.log + [m] && m.id == c && m.kind == StageKind(stage)
  {
    hide Inv;
    SessionFacts(s, c);
    m := StageMsg(s, stage, c);
  }

  lemma ReliableOfPush(log: seq<OutMsg>, m: OutMsg)
    requires IsReliableKind(m.kind)
    ensures Reliable(log + [m]) == Reliable(log) + [m]
  {
    ReliablePush(log, m);
  }

  lemma HeadPlace(run: seq<State>, steps: seq<Step>, d: nat, c: ConnId, kind: OutKind)
    requires IsRun(run, steps) && d < |steps| && HandlesFor(run[d], steps[d], c, kind)
    ensures
      var line, p := Reliable(run[d].outs.log), |run[d].outs.handled|;
      p < |line| && line[..p] == run[d].outs.handled && line[p].id == c && line[p].kind == kind
  {
    hide Goes, Reliable;
    ReliableOrder(run, steps, d);
  }

  /** A packet pushed at `i` and handled at `d` has in the line, at `d`, exactly the
      messages before it that were before it when it was pushed. */
  lemma HandledBehindItsPush(run: seq<State>, steps: seq<Step>, i: nat, d: nat, c: ConnId, stage: Stage)
    requires IsRun(run, steps) && i < |steps| && d < |steps|
    requires Pushes(run[i], steps[i], c, stage) && HandlesFor(run[d], steps[d], c, StageKind(stage))
    ensures i < d && run[d].outs.handled == Reliable(run[i].outs.log)
  {
    hide Inv, Goes, HandlesFor, Pushes, Reliable, MatchKinds, Ascending;
    RunInv(run, steps, i);
    var m := PushIsAtTheEnd(run[i], steps[i], run[i + 1], c, stage);
    ReliableOfPush(run[i].outs.log, m);
    HeadPlace(run, steps, d, c, StageKind(stage));
    var j := if d <= i then i + 1 else d;
    LogsOf(run, steps, i + 1, j);
    LogsOf(run, steps, d, j);
    var all := Reliable(run[j].outs.log);
    MatchPacketsOnce(run, steps, j, c);
    MatchKindsOfReliable(run[j].outs.log, c);
    var p, n := |run[d].outs.handled|, |Reliable(run[i].outs.log)|;
    assert all[p].id == c && all[n] == m;
    OnePlace(all, c, p, n);
    if d <= i {
      LogsOf(run, steps, d, i);
      assert false;
    }
  }

  lemma LogsOf(run: seq<State>, steps: seq<Step>, i: nat, j: nat)
    requires IsRun(run, steps) && i <= j < |run|
    ensures Reliable(run[i].outs.log) <= Reliable(run[j].outs.log)
  {
    hide Goes, Reliable;
    LaterRun(run, steps, i, j);
    ReliablePrefix(run[i].outs.log, run[j].outs.log);
  }

  /** A client whose hello was not yet accepted when the packet of a stage was pushed for
      it is never handed that packet, whatever it does afterwards: the packet is ahead
      of the success reply without which nobody is authenticated. */
  lemma LateHelloMissesThePacket(run: seq<State>, steps: seq<Step>, i: nat, k: nat, c: ConnId, stage: Stage)
    requires IsRun(run, steps) && i < |steps| && k < |run| && Pushes(run[i], steps[i], c, stage)
    requires forall a :: 0 <= a < i ==> !AcceptsHello(run[a], steps[a], c)
    ensures !Got(run[k], c, StageKind(stage))
  {
    hide Inv, Goes, Got, AcceptsHello, Pushes, WelcomeIn, Reliable, HandlesFor, Leaves;
    if Got(run[k], c, StageKind(stage)) {
      MatchPacketArrivesExactly(run, steps, k, c, StageKind(stage));
      var d :| 0 <= d < k && DeliversTo(run[d], steps[d], c, StageKind(stage));
      HandledBehindItsPush(run, steps, i, d, c, stage);
      WelcomedBefore(run, steps, d, c, StageKind(stage));
      WelcomeInAll(run[i].outs.log, c);
      WelcomesWereAccepted(run, steps, i, c);
      var a := Flip(run, steps, AcceptedNow(c), i);
      AcceptedBy(run[a], steps[a], run[a + 1], c);
    }
  }

  lemma WelcomeInAll(log: seq<OutMsg>, c: ConnId)
    requires WelcomeIn(Reliable(log), c)
    ensures WelcomeIn(log, c)
  {
    hide Filter;
  }

  /** Whoever is handed a match packet had a success reply handled before. */
  lemma WelcomedBefore(run: seq<State>, steps: seq<Step>, d: nat, c: ConnId, kind: OutKind)
    requires IsRun(run, steps) && d < |steps| && DeliversTo(run[d], steps[d], c, kind) && IsMatchKind(kind)
    ensures WelcomeIn(run[d].outs.handled, c)
  {
    hide Inv, Goes, WelcomeIn;
    var hello, ack, asked, answered, applied := VerdictMeans(run, steps, d, c);
    assert WelcomeInFlight(run[ack].net.inFlight, c);
    InFlightWasHandled(run, steps, ack, c);
    HandledGrows(run, steps, ack, d);
    WelcomeStays(run[ack].outs.handled, run[d].outs.handled, c);
  }
}
