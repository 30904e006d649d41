/** How a connection becomes trusted: in every run an authenticated session was reached
    by five steps in one order, although no handler checks the earlier ones. */
module Chain {
  import opened Messages
  import opened Membership
  import opened Lifecycle
  import opened Invariant
  import opened Threads
  import opened Runs

  // ---------------------------------------------------------------------------
  // The five steps
  // ---------------------------------------------------------------------------

  /** A hello of `c` is handled and its key exchange and signing succeed. */
  predicate AcceptsHello(s: State, step: Step, c: ConnId) {
    step.HandleInStep? && step.handshake.HandshakeOk? && s.sim.inBatch != [] && s.sim.inBatch[0].HelloMsg?
        && s.sim.inBatch[0].id == c
  }

  /** The client acknowledges the success reply while still bound to its peer. */
  predicate AcksHello(s: State, step: Step, c: ConnId) {
    step.AcknowledgeStep? && step.uid in s.net.inFlight &&
    var x := s.net.inFlight[step.uid];
    x.id == c && x.enableEncryptionAfterAck && StillBound(s.net, x.peer, c)
  }

  /** The first token of `c` is handled, over an encrypted session. */
  predicate AsksBackend(s: State, step: Step, c: ConnId) {
    step.HandleInStep? && s.sim.inBatch != [] && s.sim.inBatch[0].AuthMsg? && s.sim.inBatch[0].id == c &&
    c in s.sessions && s.sessions[c].auth == NoAuth && s.sessions[c].encrypted
  }

  /** The backend answers the request of `c`. */
  predicate BackendAnswers(s: State, step: Step, c: ConnId, valid: bool) {
    step.HttpAnswerStep? && s.http.job.Some? && s.http.job.value.id == c && step.answer.valid == valid
  }

  /** The answer is written to the session of `c`, which was waiting for it. */
  predicate AppliesVerdict(s: State, step: Step, c: ConnId, valid: bool) {
    step.HandleVerdictStep? && s.sim.verdicts != [] && s.sim.verdicts[0].id == c && s.sim.verdicts[0].valid == valid &&
    c in s.sessions && s.sessions[c].auth == WaitingAuth
  }

  // ---------------------------------------------------------------------------
  // Only that step does it
  // ---------------------------------------------------------------------------

  function AcceptedNow(c: ConnId): State -> bool {
    (s: State) => c in s.secures.accepted
  }

  function AckedNow(c: ConnId): State -> bool {
    (s: State) => c in s.secures.acked
  }

  function AskedNow(c: ConnId): State -> bool {
    (s: State) => c in s.auths.asked
  }

  ghost function ComingNow(c: ConnId, valid: bool): State -> bool {
    (s: State) => Answered(s.sim.verdicts + s.http.verdicts, c, valid)
  }

  ghost function AppliedNow(c: ConnId, valid: bool): State -> bool {
    (s: State) => Answered(s.auths.applied, c, valid)
  }

  /** The frame of the thread that took the step, as one disjunction. */
  lemma FrameOf(s: State, step: Step, t: State)
    requires Goes(s, step, t)
    ensures NetworkFrame(s, t) || HttpFrame(s, t) || SimulationFrame(s, t)
    ensures IsNetworkStep(step) ==> NetworkFrame(s, t) && (!step.AcknowledgeStep? ==> t.secures.acked == s.secures.acked)
    ensures IsHttpStep(step) ==> HttpFrame(s, t)
    ensures IsSimulationStep(step) ==> SimulationFrame(s, t)
  {
    hide Allowed, Next, NetworkFrame, HttpFrame, SimulationFrame;
    if IsNetworkStep(step) {
      NetworkKeeps(s, step);
    } else if IsHttpStep(step) {
      HttpKeeps(s, step);
    } else {
      SimulationKeeps(s, step);
    }
  }

  lemma AcceptedBy(s: State, step: Step, t: State, c: ConnId)
    requires Goes(s, step, t) && !AcceptedNow(c)(s) && AcceptedNow(c)(t)
    ensures AcceptsHello(s, step, c)
  {
    hide Later, SessionsSameForSimulation, StageMsg, SnapshotMsg, AllReady;
    if IsNetworkStep(step) {
      hide Allowed, Next;
      FrameOf(s, step, t);
    }
  }

  lemma AckedBy(s: State, step: Step, t: State, c: ConnId)
    requires Goes(s, step, t) && !AckedNow(c)(s) && AckedNow(c)(t)
    ensures AcksHello(s, step, c)
  {
    if !step.AcknowledgeStep? {
      hide Allowed, Next, Later;
      FrameOf(s, step, t);
    }
  }

  lemma AskedBy(s: State, step: Step, t: State, c: ConnId)
    requires Inv(s) && Goes(s, step, t) && !AskedNow(c)(s) && AskedNow(c)(t)
    ensures AsksBackend(s, step, c)
  {
    hide Inv, Later, SessionsSameForSimulation, StageMsg, SnapshotMsg, AllReady;
    if IsNetworkStep(step) {
      hide Allowed, Next;
      FrameOf(s, step, t);
    } else if step.HandleInStep? {
      GuardAtHead(s);
    }
  }

  lemma AppliedBy(s: State, step: Step, t: State, c: ConnId, valid: bool)
    requires Inv(s) && Goes(s, step, t) && !AppliedNow(c, valid)(s) && AppliedNow(c, valid)(t)
    ensures AppliesVerdict(s, step, c, valid)
  {
    hide Inv, Later, SessionsSameForSimulation, StageMsg, SnapshotMsg, AllReady, HandleIncoming;
    if IsNetworkStep(step) {
      hide Allowed, Next;
      FrameOf(s, step, t);
    } else if step.HandleVerdictStep? {
      VerdictFindsWaiting(s);
    }
  }

  lemma NewVerdict(s: State, step: Step, t: State, v: Verdict)
    requires Goes(s, step, t) && v in t.sim.verdicts + t.http.verdicts && v !in s.sim.verdicts + s.http.verdicts
    ensures BackendAnswers(s, step, v.id, v.valid)
    ensures v == Verdict(v.id, v.valid, step.answer.accountId, step.answer.username, step.answer.error)
  {
    if !IsHttpStep(step) {
      hide Allowed, Next, Later;
      FrameOf(s, step, t);
    }
  }

  lemma AnsweredBy(s: State, step: Step, t: State, c: ConnId, valid: bool)
    requires Goes(s, step, t) && !ComingNow(c, valid)(s) && ComingNow(c, valid)(t)
    ensures BackendAnswers(s, step, c, valid)
  {
    hide Goes, BackendAnswers;
    var v :| v in t.sim.verdicts + t.http.verdicts && v.id == c && v.valid == valid;
    NewVerdict(s, step, t, v);
  }

  // ---------------------------------------------------------------------------
  // What the invariant says at those steps
  // ---------------------------------------------------------------------------

  /** The guard taken on the network thread still holds when the handler runs. */
  lemma GuardAtHead(s: State)
    requires Inv(s) && s.sim.inBatch != []
    ensures GuardHolds(s.sessions, s.sim.inBatch[0])
  {
    hide Binding, Life, LogGrammar, SessionsOk, Mirror, AuthLine, VerdictsApplied, AuthReplies, ReliableLine,
         ReliableSent, Outgoing, Stream, MatchPushes, Flow;
    assert s.sim.inBatch[0] in Pending(s);
  }

  /** A verdict whose session is still there finds it waiting. */
  lemma VerdictFindsWaiting(s: State)
    requires Inv(s) && s.sim.verdicts != [] && s.sim.verdicts[0].id in s.sessions
    ensures s.sessions[s.sim.verdicts[0].id].auth == WaitingAuth
  {
    hide Binding, Life, LogGrammar, GuardsHold, SessionsOk, Mirror, VerdictsApplied, AuthReplies, ReliableLine,
         ReliableSent, Outgoing, Stream, MatchPushes, Flow;
    var c := s.sim.verdicts[0].id;
    assert VerdictIds(s.sim.verdicts)[0] == c;
    assert c in Items(s);
    assert StatusMatches(s.sessions[c].auth, c, Items(s), s.auths.asked);
  }

  lemma StatusIsTheVerdict(s: State, c: ConnId)
    requires Inv(s) && c in s.sessions
    ensures s.sessions[c].auth == Valid <==> Answered(s.auths.applied, c, true)
    ensures s.sessions[c].auth == Invalid <==> Answered(s.auths.applied, c, false)
  {
    hide Binding, Life, LogGrammar, GuardsHold, SessionsOk, Mirror, AuthLine, AuthReplies, ReliableLine, ReliableSent,
         Outgoing, Stream, MatchPushes, Flow, Answered;
  }

  /** Facts about one session, in every reachable state. */
  lemma SessionFacts(s: State, c: ConnId)
    requires Inv(s) && c in s.sessions
    ensures SessionOk(c, s.sessions[c], s.secures.acked)
  {
    hide Binding, Life, LogGrammar, GuardsHold, Mirror, AuthLine, VerdictsApplied, AuthReplies, ReliableLine,
         ReliableSent, Outgoing, Stream, MatchPushes, Flow;
  }

  lemma JobWasAsked(s: State)
    requires Inv(s) && s.http.job.Some?
    ensures s.http.job.value.id in s.auths.asked
  {
    hide Binding, Life, LogGrammar, GuardsHold, SessionsOk, Mirror, VerdictsApplied, AuthReplies, ReliableLine,
         ReliableSent, Outgoing, Stream, MatchPushes, Flow;
    assert JobIds(s.http.job)[0] in Items(s);
  }

  lemma ContextWasAccepted(s: State, uid: nat)
    requires Inv(s) && uid in s.net.inFlight && s.net.inFlight[uid].enableEncryptionAfterAck
    ensures s.net.inFlight[uid].id in s.secures.accepted
  {
    hide Binding, Life, LogGrammar, GuardsHold, SessionsOk, Mirror, AuthLine, VerdictsApplied, AuthReplies,
         ReliableLine, ReliableSent, Stream, MatchPushes, Flow;
  }

  // ---------------------------------------------------------------------------
  // The chain
  // ---------------------------------------------------------------------------

  /** Encryption is on exactly when an accepted hello of this very connection was
      acknowledged before; the two steps are found, in order. */
  lemma EncryptedMeans(run: seq<State>, steps: seq<Step>, k: nat, c: ConnId) returns (hello: nat, ack: nat)
    requires IsRun(run, steps) && k < |run| && c in run[k].sessions && run[k].sessions[c].encrypted
    ensures hello < ack < k
    ensures AcceptsHello(run[hello], steps[hello], c) && AcksHello(run[ack], steps[ack], c)
  {
    hide Inv, Goes;
    RunInv(run, steps, k);
    SessionFacts(run[k], c);
    ack := Flip(run, steps, AckedNow(c), k);
    AckedBy(run[ack], steps[ack], run[ack + 1], c);
    RunInv(run, steps, ack);
    ContextWasAccepted(run[ack], steps[ack].uid);
    hello := Flip(run, steps, AcceptedNow(c), ack);
    AcceptedBy(run[hello], steps[hello], run[hello + 1], c);
  }

  /** A decided session went through all five steps, in this order. */
  lemma VerdictMeans(run: seq<State>, steps: seq<Step>, k: nat, c: ConnId)
    returns (hello: nat, ack: nat, asked: nat, answered: nat, applied: nat)
    requires IsRun(run, steps) && k < |run| && c in run[k].sessions
    requires run[k].sessions[c].auth == Valid || run[k].sessions[c].auth == Invalid
    ensures hello < ack < asked < answered < applied < k
    ensures AcceptsHello(run[hello], steps[hello], c) && AcksHello(run[ack], steps[ack], c)
    ensures AsksBackend(run[asked], steps[asked], c)
    ensures BackendAnswers(run[answered], steps[answered], c, run[k].sessions[c].auth == Valid)
    ensures AppliesVerdict(run[applied], steps[applied], c, run[k].sessions[c].auth == Valid)
  {
    hide Inv, Goes, Answered;
    var valid := run[k].sessions[c].auth == Valid;
    RunInv(run, steps, k);
    StatusIsTheVerdict(run[k], c);
    NothingAppliedAtFirst(c, valid);
    applied := Flip(run, steps, AppliedNow(c, valid), k);
    RunInv(run, steps, applied);
    AppliedBy(run[applied], steps[applied], run[applied + 1], c, valid);
    HeadIsComing(run[applied], c, valid);
    answered := Flip(run, steps, ComingNow(c, valid), applied);
    AnsweredBy(run[answered], steps[answered], run[answered + 1], c, valid);
    RunInv(run, steps, answered);
    JobWasAsked(run[answered]);
    asked := Flip(run, steps, AskedNow(c), answered);
    RunInv(run, steps, asked);
    AskedBy(run[asked], steps[asked], run[asked + 1], c);
    hello, ack := EncryptedMeans(run, steps, asked, c);
  }

  lemma NothingAppliedAtFirst(c: ConnId, valid: bool)
    ensures !AppliedNow(c, valid)(Initial()) && !ComingNow(c, valid)(Initial())
  {
  }

  lemma HeadIsComing(s: State, c: ConnId, valid: bool)
    requires s.sim.verdicts != [] && s.sim.verdicts[0].id == c && s.sim.verdicts[0].valid == valid
    ensures ComingNow(c, valid)(s)
  {
    assert s.sim.verdicts[0] in s.sim.verdicts + s.http.verdicts;
  }

  /** Neither the ready handler nor the input handler looks at the authentication
      status; all the same a session is ready or has input only after the whole chain. */
  lemma ReadyOrInputMeans(run: seq<State>, steps: seq<Step>, k: nat, c: ConnId)
    returns (hello: nat, ack: nat, asked: nat, answered: nat, applied: nat)
    requires IsRun(run, steps) && k < |run| && c in run[k].sessions
    requires run[k].sessions[c].ready || run[k].sessions[c].pending != []
    ensures run[k].sessions[c].auth == Valid && run[k].sessions[c].encrypted
    ensures hello < ack < asked < answered < applied < k
    ensures AcceptsHello(run[hello], steps[hello], c) && AcksHello(run[ack], steps[ack], c)
    ensures AsksBackend(run[asked], steps[asked], c)
    ensures BackendAnswers(run[answered], steps[answered], c, true)
    ensures AppliesVerdict(run[applied], steps[applied], c, true)
  {
    hide Inv, Goes;
    RunInv(run, steps, k);
    SessionFacts(run[k], c);
    hello, ack, asked, answered, applied := VerdictMeans(run, steps, k, c);
  }
}
