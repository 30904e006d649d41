/** Safety over whole runs: authentication, membership, encryption and match start. */
module Guarantees {
  import opened Wrappers
  import opened Messages
  import opened Sequences
  import opened Membership
  import opened Lifecycle
  import opened Invariant
  import opened Threads
  import opened Runs
  import opened Chain

  // ---------------------------------------------------------------------------
  // Authentication
  // ---------------------------------------------------------------------------

  lemma {:induction false} DistinctCount<T>(xs: seq<T>, x: T)
    requires Distinct(xs)
    ensures multiset(xs)[x] == if x in xs then 1 else 0
  {
    if xs != [] {
      var n := |xs| - 1;
      assert xs == xs[..n] + [xs[n]];
      DistinctCount(xs[..n], x);
      assert xs[n] !in xs[..n];
    }
  }

  lemma AuthFacts(s: State)
    requires Inv(s)
    ensures AuthLine(s.sessions, s.ins.seen, s.auths, Items(s))
    ensures VerdictsApplied(s.sessions, s.auths)
    ensures AuthReplies(s.outs.log, s.sim.hand, s.auths.applied)
  {
    hide AuthLine, VerdictsApplied, AuthReplies, Binding, Life, LogGrammar, GuardsHold, SessionsOk, Mirror,
         ReliableLine, ReliableSent, Outgoing, Stream, MatchPushes,
         Flow, AuthItems;
  }

  /** Over the request queue, the HTTP thread's batch and job, the response queue and
      the drained responses, a connection has one item while its session waits, none
      otherwise, and never two. */
  lemma AuthConservation(run: seq<State>, steps: seq<Step>, i: nat, c: ConnId)
    requires IsRun(run, steps) && i < |run|
    ensures multiset(Items(run[i]))[c] <= 1
    ensures c in run[i].sessions ==> multiset(Items(run[i]))[c] == if run[i].sessions[c].auth == WaitingAuth then 1 else 0
  {
    hide IsRun, Inv, AuthItems;
    RunInv(run, steps, i);
    var s := run[i];
    AuthFacts(s);
    DistinctParts(VerdictIds(s.auths.answered), Items(s));
    DistinctCount(Items(s), c);
    if c in s.sessions {
      assert StatusMatches(s.sessions[c].auth, c, Items(s), s.auths.asked);
    }
  }

  /** One validation at most per connection, and answers come back in the order asked. */
  lemma OneValidation(run: seq<State>, steps: seq<Step>, i: nat, c: ConnId)
    requires IsRun(run, steps) && i < |run|
    ensures multiset(run[i].auths.asked)[c] <= 1
    ensures VerdictIds(run[i].auths.answered) <= run[i].auths.asked
  {
    hide IsRun, Inv, AuthItems;
    RunInv(run, steps, i);
    AuthFacts(run[i]);
    DistinctCount(run[i].auths.asked, c);
  }

  /** An element kept by a filter is found again after it, and order is kept. */
  lemma FilterKeepsOrder<T(!new)>(keep: T -> bool, xs: seq<T>, i: nat, j: nat) returns (a: nat, b: nat)
    requires i < j < |xs| && keep(xs[i]) && keep(xs[j])
    ensures a < b < |Filter(keep, xs)| && Filter(keep, xs)[a] == xs[i] && Filter(keep, xs)[b] == xs[j]
  {
    FilterSplit(keep, xs, j);
    FilterSplit(keep, xs[..j], i);
    a := |Filter(keep, xs[..j][..i])|;
    b := |Filter(keep, xs[..j])|;
    assert xs[..j][i..][0] == xs[i] && xs[j..][0] == xs[j];
  }

  /** At most one authentication reply is ever pushed for a connection. */
  lemma OneAuthReply(run: seq<State>, steps: seq<Step>, k: nat, i: nat, j: nat)
    requires IsRun(run, steps) && k < |run| && i < j < |run[k].outs.log|
    requires run[k].outs.log[i].kind == AuthResponseOut && run[k].outs.log[j].kind == AuthResponseOut
    ensures run[k].outs.log[i].id != run[k].outs.log[j].id
  {
    hide IsRun, Inv, Filter;
    RunInv(run, steps, k);
    var s := run[k];
    AuthFacts(s);
    var all := s.outs.log + HandReply(s.sim.hand);
    assert all[i] == s.outs.log[i] && all[j] == s.outs.log[j];
    var a, b := FilterKeepsOrder(AuthReplyKind(), all, i, j);
    assert VerdictIds(s.auths.applied)[a] != VerdictIds(s.auths.applied)[b];
  }

  /** The reply a client gets says what its session says. */
  lemma ReplyTellsTheStatus(run: seq<State>, steps: seq<Step>, k: nat, m: OutMsg)
    requires IsRun(run, steps) && k < |run| && m in run[k].outs.log && m.kind == AuthResponseOut && m.id in run[k].sessions
    ensures m.payload == AuthReply(run[k].sessions[m.id].auth == Valid)
    ensures run[k].sessions[m.id].auth == if m.disconnectAfterAck then Invalid else Valid
  {
    hide IsRun, Inv;
    RunInv(run, steps, k);
    var s := run[k];
    AuthFacts(s);
    var all := s.outs.log + HandReply(s.sim.hand);
    assert AuthReplyKind()(m) && m in all;
    var v :| v in s.auths.applied && m == AuthReplyMsg(v);
    assert Answered(s.auths.applied, m.id, v.valid);
  }

  /** The response handler assigns the status without looking at it; still a verdict
      once given stays for the life of the session. */
  lemma VerdictIsFinal(run: seq<State>, steps: seq<Step>, i: nat, j: nat, c: ConnId)
    requires IsRun(run, steps) && i <= j < |run| && c in run[i].sessions && c in run[j].sessions
    requires run[i].sessions[c].auth == Valid || run[i].sessions[c].auth == Invalid
    ensures run[j].sessions[c].auth == run[i].sessions[c].auth
  {
    hide IsRun, Inv, Answered;
    RunInv(run, steps, i);
    RunInv(run, steps, j);
    StatusIsTheVerdict(run[i], c);
    StatusIsTheVerdict(run[j], c);
    LaterRun(run, steps, i, j);
    AnsweredGrows(run[i].auths.applied, run[j].auths.applied, c, run[i].sessions[c].auth == Valid);
  }

  lemma AnsweredGrows(a: seq<Verdict>, b: seq<Verdict>, c: ConnId, valid: bool)
    requires a <= b && Answered(a, c, valid)
    ensures Answered(b, c, valid)
  {
  }

  // ---------------------------------------------------------------------------
  // Membership
  // ---------------------------------------------------------------------------

  lemma LineFacts(s: State)
    requires Inv(s)
    ensures Life(s.net.nextId, s.net.peers.Keys, s.sessions.Keys, s.ins.seen, Pending(s))
    ensures LogGrammar(s.net.nextId, s.net.peers.Keys, s.ins.log + NetHand(s.net.control))
    ensures s.ins.log == s.ins.processed + (s.sim.inBatch + s.incoming)
    ensures Binding(s.net.nextId, s.net.data, s.net.peers)
    ensures Mirror(s.net.peers, s.net.encryption, s.sessions)
  {
    hide AuthLine, VerdictsApplied, AuthReplies, Binding, Life, LogGrammar, GuardsHold, SessionsOk, Mirror,
         ReliableLine, ReliableSent, Outgoing, Stream, MatchPushes,
         Flow, AuthItems;
  }

  lemma SessionIsSeen(s: State, c: ConnId)
    requires Inv(s) && c in s.sessions
    ensures c in s.ins.seen
  {
    hide Inv;
    LineFacts(s);
    assert LifeOf(c, s.net.nextId, c in s.net.peers.Keys, c in s.sessions.Keys, c in s.ins.seen, Share(Pending(s), c));
  }

  lemma HandlersAre(s: State, step: Step)
    requires Allowed(s, step)
    ensures step.HandleInStep? ==> s.sim.inBatch != [] && Next(s, step) == HandleIn(s, step.handshake)
    ensures step.HandleVerdictStep? ==> s.sim.verdicts != [] && Next(s, step) == HandleVerdict(s)
  {
    hide HandleIn, HandleVerdict;
  }

  /** Handling what is still under way would give exactly the connected ids. */
  lemma TablesAgree(run: seq<State>, steps: seq<Step>, i: nat)
    requires IsRun(run, steps) && i < |run|
    ensures Replay(run[i].sessions.Keys, Pending(run[i])) == run[i].net.peers.Keys
  {
    hide IsRun, Inv, Life, Replay;
    RunInv(run, steps, i);
    var s := run[i];
    LineFacts(s);
    ReplayGivesTheBound(s.net.nextId, s.net.peers.Keys, s.sessions.Keys, s.ins.seen, Pending(s));
  }

  /** A CONNECT never overwrites a session and no other message misses one: the
      unknown-session branches of the handlers are dead, and the guard taken when the
      message arrived holds when it is handled. */
  lemma HandlersFindTheirSessions(run: seq<State>, steps: seq<Step>, i: nat)
    requires IsRun(run, steps) && i < |steps| && steps[i].HandleInStep?
    ensures run[i].sim.inBatch != []
    ensures
      var m := run[i].sim.inBatch[0];
      && (m.ConnectMsg? <==> m.id !in run[i].sessions)
      && GuardHolds(run[i].sessions, m)
  {
    hide Inv, Life;
    RunInv(run, steps, i);
    var s := run[i];
    assert Goes(s, steps[i], run[i + 1]);
    GuardAtHead(s);
    LineFacts(s);
    HeadFindsItsSession(s.net.nextId, s.net.peers.Keys, s.sessions.Keys, s.ins.seen, Pending(s));
  }

  /** What the network thread accepts for one connection is CONNECT, packets, and a
      DISCONNECT exactly once it is unbound; what the simulation handled is a prefix. */
  lemma TraceGrammar(run: seq<State>, steps: seq<Step>, i: nat, c: ConnId)
    requires IsRun(run, steps) && i < |run|
    ensures
      var s := run[i];
      var xs := Share(s.ins.log + NetHand(s.net.control), c);
      && (if 0 < c < s.net.nextId then Grammar(xs, true, c !in s.net.peers) else xs == [])
      && s.ins.processed <= s.ins.log
      && s.ins.log == s.ins.processed + (s.sim.inBatch + s.incoming)
  {
    hide IsRun, Inv, Life, Grammar, Share;
    RunInv(run, steps, i);
    var s := run[i];
    LineFacts(s);
    assert LogGrammarOf(c, s.net.nextId, c in s.net.peers.Keys, Share(s.ins.log + NetHand(s.net.control), c));
  }

  // ---------------------------------------------------------------------------
  // Encryption
  // ---------------------------------------------------------------------------

  /** Both flags agree; and they are on exactly when a success reply was acknowledged. */
  lemma EncryptionMirror(run: seq<State>, steps: seq<Step>, i: nat, c: ConnId)
    requires IsRun(run, steps) && i < |run|
    ensures c in run[i].net.encryption <==> c in run[i].net.peers
    ensures c in run[i].net.encryption && c in run[i].sessions ==> run[i].net.encryption[c] == run[i].sessions[c].encrypted
    ensures c in run[i].net.encryption && c !in run[i].sessions ==> !run[i].net.encryption[c]
    ensures c in run[i].sessions ==> (run[i].sessions[c].encrypted <==> exists b :: 0 <= b < i && AcksHello(run[b], steps[b], c))
  {
    hide Goes, Inv, AcksHello;
    RunInv(run, steps, i);
    LineFacts(run[i]);
    if c in run[i].sessions {
      if run[i].sessions[c].encrypted {
        var hello, ack := EncryptedMeans(run, steps, i, c);
      }
      forall b | 0 <= b < i && AcksHello(run[b], steps[b], c)
        ensures run[i].sessions[c].encrypted
      {
        AckEncrypts(run[b], steps[b], run[b + 1], c);
        LaterRun(run, steps, b + 1, i);
        SessionFacts(run[i], c);
      }
    }
  }

  lemma AckEncrypts(s: State, step: Step, t: State, c: ConnId)
    requires Goes(s, step, t) && AcksHello(s, step, c)
    ensures c in t.secures.acked
  {
  }

  lemma EncryptionStays(run: seq<State>, steps: seq<Step>, i: nat, j: nat, c: ConnId)
    requires IsRun(run, steps) && i <= j < |run| && c in run[i].sessions && c in run[j].sessions && run[i].sessions[c].encrypted
    ensures run[j].sessions[c].encrypted
  {
    hide IsRun, Inv;
    RunInv(run, steps, i);
    RunInv(run, steps, j);
    SessionFacts(run[i], c);
    SessionFacts(run[j], c);
    LaterRun(run, steps, i, j);
  }

  /** What the two receive guards amount to in a reachable state. Authentication does
      not imply the secure-session flag: a repeated hello whose signing fails clears it,
      and then an authenticated client is refused. */
  lemma GuardsAmountTo(run: seq<State>, steps: seq<Step>, i: nat, c: ConnId)
    requires IsRun(run, steps) && i < |run| && c in run[i].sessions
    ensures AllowedOnGameplayChannels(run[i].sessions, c) <==> run[i].sessions[c].auth == Valid && run[i].sessions[c].secure
    ensures AllowedOnAuthChannel(run[i].sessions, c) <==> run[i].sessions[c].encrypted && run[i].sessions[c].secure && run[i].sessions[c].auth != Invalid
  {
    hide IsRun, Inv;
    RunInv(run, steps, i);
    SessionFacts(run[i], c);
  }

  // ---------------------------------------------------------------------------
  // Match start
  // ---------------------------------------------------------------------------

  /** The start is decided: enough sessions, all of them ready. */
  predicate DecidesStart(s: State, step: Step) {
    step.DecideStep? && s.sim.phase == Deciding(StartStage) && !s.game.startSent && s.sim.tick >= 0 && AllReady(s.sessions)
  }

  predicate RecordNow(s: State) {
    s.matches.record.Some?
  }

  lemma RecordedBy(s: State, step: Step, t: State)
    requires Inv(s) && Goes(s, step, t) && !RecordNow(s) && RecordNow(t)
    ensures DecidesStart(s, step) && Decided(t)
    ensures t.matches.record == Some(StartRecord(s.sim.tick, step.countdown, s.sessions))
  {
    hide Inv, SessionsSameForSimulation, StageMsg, SnapshotMsg, HandleIncoming, ApplyVerdict, Later;
    if IsNetworkStep(step) {
      hide Allowed, Next;
      FrameOf(s, step, t);
    } else {
      TickIsOn(s);
      hide AllReady;
    }
  }

  lemma TickIsOn(s: State)
    requires Inv(s)
    ensures s.sim.phase != Idle ==> s.sim.tick >= 0
    ensures StartRecorded(s.game, s.sim, s.matches)
  {
    hide AuthLine, VerdictsApplied, AuthReplies, Binding, Life, LogGrammar, GuardsHold, SessionsOk, Mirror,
         ReliableLine, ReliableSent, Outgoing, Stream, MatchPushes,
         Flow, AuthItems;
  }

  lemma ReadyIsTrusted(s: State)
    requires Inv(s) && AllReady(s.sessions)
    ensures forall c :: c in s.sessions ==> s.sessions[c].auth == Valid && s.sessions[c].encrypted
  {
    hide Inv;
    forall c | c in s.sessions
      ensures s.sessions[c].auth == Valid && s.sessions[c].encrypted
    {
      SessionFacts(s, c);
    }
  }

  /** If the world ever runs at tick `t`, the start was decided before: at a moment when
      enough clients were connected, all of them ready, authenticated and encrypted, and
      at least the countdown earlier. Nothing changed the start tick since. */
  lemma WorldMeans(run: seq<State>, steps: seq<Step>, k: nat, t: nat) returns (a: nat)
    requires IsRun(run, steps) && k < |run| && t in run[k].matches.worldTicks
    ensures a < k && DecidesStart(run[a], steps[a])
    ensures run[a].sim.tick + steps[a].countdown <= t
    ensures |run[a].sessions| >= MAX_CLIENTS
    ensures forall c :: c in run[a].sessions ==> run[a].sessions[c].ready && run[a].sessions[c].auth == Valid && run[a].sessions[c].encrypted
    ensures forall j :: a < j < |run| ==> run[j].game.startTick == run[a].sim.tick + steps[a].countdown
  {
    hide Goes, Inv, DecidesStart, StartRecorded;
    RunInv(run, steps, k);
    TickIsOn(run[k]);
    FlagsRiseInOrder(run, steps, k, k);
    WorldMeansRecorded(run[k].game, run[k].sim, run[k].matches, t);
    a := Flip(run, steps, RecordNow, k);
    RunInv(run, steps, a);
    RecordedBy(run[a], steps[a], run[a + 1]);
    DecisionFacts(run[a], steps[a]);
    ReadyIsTrusted(run[a]);
    RunInv(run, steps, a + 1);
    TickIsOn(run[a + 1]);
    DecidedTick(run[a + 1].game, run[a + 1].sim, run[a + 1].matches);
    forall j | a < j < |run|
      ensures run[j].game.startTick == run[a + 1].game.startTick && run[j].matches.record == run[a + 1].matches.record
    {
      LaterRun(run, steps, a + 1, j);
    }
    assert run[k].matches.record == run[a + 1].matches.record;
  }

  lemma DecisionFacts(s: State, step: Step)
    requires DecidesStart(s, step)
    ensures s.sim.tick >= 0 && AllReady(s.sessions) && |s.sessions| >= MAX_CLIENTS
    ensures step.DecideStep?
  {
  }

  lemma WorldMeansRecorded(game: Match, sim: Sim, matches: MatchHistory, t: nat)
    requires StartRecorded(game, sim, matches) && t in matches.worldTicks && (game.started ==> game.startSent)
    ensures matches.record.Some? && game.startTick <= t
  {
  }

  lemma DecidedTick(game: Match, sim: Sim, matches: MatchHistory)
    requires StartRecorded(game, sim, matches)
    requires game.startSent || sim.phase == Locking(StartStage) || sim.phase == Broadcasting(StartStage)
    ensures matches.record.Some? && game.startTick == matches.record.value.tick + matches.record.value.countdown
  {
  }

  lemma FlowFacts(s: State)
    requires Inv(s)
    ensures Flow(s.game, s.sim, s.sessions.Keys, s.matches) && MatchPushes(s.outs.log, s.matches)
  {
    hide AuthLine, VerdictsApplied, AuthReplies, Binding, Life, LogGrammar, GuardsHold, SessionsOk, Mirror,
         ReliableLine, ReliableSent, Outgoing, Stream, MatchPushes,
         Flow, AuthItems;
  }

  /** The flags rise in the order init, world, start, started, and never fall. */
  lemma FlagsRiseInOrder(run: seq<State>, steps: seq<Step>, i: nat, j: nat)
    requires IsRun(run, steps) && i <= j < |run|
    ensures
      var g := run[i].game;
      (g.started ==> g.startSent) && (g.startSent ==> g.worldSent) && (g.worldSent ==> g.initSent)
    ensures
      var g, h := run[i].game, run[j].game;
      (g.initSent ==> h.initSent) && (g.worldSent ==> h.worldSent) && (g.startSent ==> h.startSent && h.startTick == g.startTick) && (g.started ==> h.started)
  {
    hide IsRun, Inv;
    RunInv(run, steps, i);
    FlowFacts(run[i]);
    LaterRun(run, steps, i, j);
  }

  /** The whole story behind the start of a running world: at the moment of the decision
      every session had gone through the five steps. Clients that came later are not
      spoken of. */
  lemma StartIsDecidedByTrustedPlayers(run: seq<State>, steps: seq<Step>, k: nat, t: nat)
    returns (a: nat)
    requires IsRun(run, steps) && k < |run| && t in run[k].matches.worldTicks
    ensures a < k && DecidesStart(run[a], steps[a]) && |run[a].sessions| >= MAX_CLIENTS
    ensures forall c :: c in run[a].sessions ==> WentThrough(run, steps, a, c)
  {
    hide Goes, DecidesStart, WentThrough;
    a := WorldMeans(run, steps, k, t);
    forall c | c in run[a].sessions
      ensures WentThrough(run, steps, a, c)
    {
      Went(run, steps, a, c);
    }
  }

  /** Before step `a` connection `c` went through the five steps in order. */
  ghost predicate WentThrough(run: seq<State>, steps: seq<Step>, a: nat, c: ConnId)
    requires a <= |steps| < |run|
  {
    exists hello: nat, ack: nat, asked: nat, answered: nat, applied: nat ::
      Story(run, steps, a, c, hello, ack, asked, answered, applied)
  }

  ghost predicate Story(run: seq<State>, steps: seq<Step>, a: nat, c: ConnId, hello: nat, ack: nat, asked: nat,
                        answered: nat, applied: nat)
    requires a <= |steps| < |run|
  {
    && hello < ack < asked < answered < applied < a
    && AcceptsHello(run[hello], steps[hello], c)
    && AcksHello(run[ack], steps[ack], c)
    && AsksBackend(run[asked], steps[asked], c)
    && BackendAnswers(run[answered], steps[answered], c, true)
    && AppliesVerdict(run[applied], steps[applied], c, true)
  }

  lemma Went(run: seq<State>, steps: seq<Step>, a: nat, c: ConnId)
    requires IsRun(run, steps) && a < |run| && c in run[a].sessions && run[a].sessions[c].ready
    ensures WentThrough(run, steps, a, c)
  {
    hide Goes;
    var hello, ack, asked, answered, applied := ReadyOrInputMeans(run, steps, a, c);
    assert Story(run, steps, a, c, hello, ack, asked, answered, applied);
  }
}
