/** What a session holds: its fields read off the messages handled for it, and its
    account data read off the answer of the backend. */
module SessionContents {
  import opened Wrappers
  import opened Bytes
  import opened Packets
  import opened Messages
  import opened Sequences
  import opened Membership
  import opened Lifecycle
  import opened Invariant
  import opened Threads
  import opened Runs
  import opened Chain
  import opened Guarantees
  import opened Handshakes

  // ---------------------------------------------------------------------------
  // Read off the handled messages
  // ---------------------------------------------------------------------------

  /** The inputs handled for `c`, in order. */
  function InputsOf(xs: seq<InMsg>, c: ConnId): seq<InputPacket> {
    if xs == [] then []
    else
      var n := |xs| - 1;
      InputsOf(xs[..n], c) + if xs[n].InputMsg? && xs[n].id == c then [xs[n].input] else []
  }

  /** An input whose number is above the last processed one, which nothing advances. */
  function Newer(): InputPacket -> bool {
    (p: InputPacket) => p.sequenceNumber > 0
  }

  /** The public key of the last hello handled for `c`. */
  function LastKeyOf(xs: seq<InMsg>, c: ConnId): seq<byte> {
    if xs == [] then ZERO_KEY
    else
      var n := |xs| - 1;
      if xs[n].HelloMsg? && xs[n].id == c then xs[n].hello.clientKey else LastKeyOf(xs[..n], c)
  }

  /** The first token handled for `c`. */
  function FirstTokenOf(xs: seq<InMsg>, c: ConnId): Option<seq<byte>> {
    if xs == [] then None
    else
      var n := |xs| - 1;
      var before := FirstTokenOf(xs[..n], c);
      if before.None? && xs[n].AuthMsg? && xs[n].id == c then Some(xs[n].token) else before
  }

  predicate SaidReady(xs: seq<InMsg>, c: ConnId) {
    ReadyMsg(c) in xs
  }

  predicate ReflectsInputs(x: Session, inputs: seq<InputPacket>) {
    && x.lastProcessed == 0
    && x.pending == Filter(Newer(), inputs)
    && x.latestInput == (if inputs == [] then None else Some(inputs[|inputs| - 1]))
    && x.ackedSnapshot == (if inputs == [] then 0 else inputs[|inputs| - 1].lastSnapshotId)
  }

  predicate Reflects(x: Session, c: ConnId, xs: seq<InMsg>) {
    && ReflectsInputs(x, InputsOf(xs, c))
    && x.clientKey == LastKeyOf(xs, c)
    && (x.ready <==> SaidReady(xs, c))
    && (x.auth == NoAuth <==> FirstTokenOf(xs, c) == None)
  }

  predicate Silent(xs: seq<InMsg>, c: ConnId) {
    forall m :: m in xs ==> m.id != c
  }

  lemma {:induction false} SilentHolds(xs: seq<InMsg>, c: ConnId)
    requires Silent(xs, c)
    ensures InputsOf(xs, c) == [] && LastKeyOf(xs, c) == ZERO_KEY && FirstTokenOf(xs, c) == None && !SaidReady(xs, c)
  {
    if xs != [] {
      var n := |xs| - 1;
      assert xs[n] in xs;
      SilentHolds(xs[..n], c);
    }
  }

  lemma ReflectsPush(xs: seq<InMsg>, m: InMsg, c: ConnId)
    ensures InputsOf(xs + [m], c) == if m.InputMsg? && m.id == c then InputsOf(xs, c) + [m.input] else InputsOf(xs, c)
    ensures LastKeyOf(xs + [m], c) == if m.HelloMsg? && m.id == c then m.hello.clientKey else LastKeyOf(xs, c)
    ensures FirstTokenOf(xs + [m], c) ==
            if FirstTokenOf(xs, c).None? && m.AuthMsg? && m.id == c then Some(m.token) else FirstTokenOf(xs, c)
    ensures SaidReady(xs + [m], c) <==> SaidReady(xs, c) || m == ReadyMsg(c)
  {
    assert (xs + [m])[..|xs|] == xs;
  }

  // ---------------------------------------------------------------------------
  // One handled message
  // ---------------------------------------------------------------------------

  lemma InputReflects(x: Session, inputs: seq<InputPacket>, p: InputPacket)
    requires ReflectsInputs(x, inputs)
    ensures ReflectsInputs(AfterInput(x, p), inputs + [p])
    ensures AfterInput(x, p).clientKey == x.clientKey && AfterInput(x, p).ready == x.ready && AfterInput(x, p).auth == x.auth
  {
    FilterPush(Newer(), inputs, p);
  }

  lemma HelloReflects(x: Session, inputs: seq<InputPacket>, hello: HelloPacket, h: Handshake)
    requires ReflectsInputs(x, inputs)
    ensures
      var y := AfterHello(x, hello, h);
      ReflectsInputs(y, inputs) && y.clientKey == hello.clientKey && y.ready == x.ready && y.auth == x.auth
  {
    hide Filter;
    match h
    case KeyExchangeFails =>
    case SigningFails =>
    case HandshakeOk(_, _) =>
  }

  lemma FreshReflects(xs: seq<InMsg>, c: ConnId)
    requires Silent(xs, c)
    ensures Reflects(FreshSession(c), c, xs + [ConnectMsg(c)])
  {
    SilentHolds(xs, c);
    ReflectsPush(xs, ConnectMsg(c), c);
    hide InputsOf, LastKeyOf, FirstTokenOf, SaidReady;
  }

  lemma OwnMessageReflects(x: Session, c: ConnId, xs: seq<InMsg>, m: InMsg, h: Handshake, after: map<ConnId, Session>)
    requires Reflects(x, c, xs) && m.id == c && !m.ConnectMsg? && !m.DisconnectMsg?
    requires after == HandleIncoming(map[c := x], m, h).sessions
    ensures c in after && Reflects(after[c], c, xs + [m])
  {
    hide InputsOf, LastKeyOf, FirstTokenOf, SaidReady, ReflectsInputs, AfterHello, AfterInput;
    ReflectsPush(xs, m, c);
    match m
    case HelloMsg(_, hello) => HelloReflects(x, InputsOf(xs, c), hello, h);
    case InputMsg(_, p) => InputReflects(x, InputsOf(xs, c), p);
    case AuthMsg(_, token) =>
      if x.auth == NoAuth {
        SameInputs(x, x.(auth := WaitingAuth), InputsOf(xs, c));
      }
    case ReadyMsg(_) => SameInputs(x, x.(ready := true), InputsOf(xs, c));
    case _ =>
  }

  lemma SameInputs(x: Session, y: Session, inputs: seq<InputPacket>)
    requires ReflectsInputs(x, inputs)
    requires y.lastProcessed == x.lastProcessed && y.pending == x.pending && y.latestInput == x.latestInput && y.ackedSnapshot == x.ackedSnapshot
    ensures ReflectsInputs(y, inputs)
  {
  }

  /** Handling a message of one connection reads and writes the session of that one. */
  lemma HandlingIsLocal(sessions: map<ConnId, Session>, m: InMsg, h: Handshake, c: ConnId)
    requires c in sessions
    ensures
      var after := HandleIncoming(sessions, m, h).sessions;
      && (m.id != c ==> c in after && after[c] == sessions[c])
      && (m.id == c && !m.DisconnectMsg? ==>
            var alone := HandleIncoming(map[c := sessions[c]], m, h).sessions;
            c in after && c in alone && after[c] == alone[c])
      && (m.id == c && m.DisconnectMsg? ==> c !in after)
  {
    hide AfterHello, AfterInput, FreshSession;
  }

  lemma NewSessionIsFresh(sessions: map<ConnId, Session>, m: InMsg, h: Handshake, c: ConnId)
    requires c !in sessions && c in HandleIncoming(sessions, m, h).sessions
    ensures m == ConnectMsg(c) && HandleIncoming(sessions, m, h).sessions[c] == FreshSession(c)
  {
    hide AfterHello, AfterInput, FreshSession;
  }

  lemma OtherMessageReflects(x: Session, c: ConnId, xs: seq<InMsg>, m: InMsg)
    requires Reflects(x, c, xs) && m.id != c
    ensures Reflects(x, c, xs + [m])
  {
    ReflectsPush(xs, m, c);
    hide InputsOf, LastKeyOf, FirstTokenOf, SaidReady, ReflectsInputs;
  }

  ghost predicate Reflected(s: State, c: ConnId) {
    && (c in s.sessions ==> Reflects(s.sessions[c], c, s.ins.processed))
    && (c !in s.ins.seen ==> Silent(s.ins.processed, c))
  }

  lemma HandleInReflects(s: State, h: Handshake, c: ConnId)
    requires Inv(s) && s.sim.inBatch != [] && Reflected(s, c)
    ensures Reflected(HandleIn(s, h), c)
  {
    hide Inv, HandleIncoming, Reflects, Life, FreshSession;
    var m, t := s.sim.inBatch[0], HandleIn(s, h);
    LineFacts(s);
    HeadFindsItsSession(s.net.nextId, s.net.peers.Keys, s.sessions.Keys, s.ins.seen, Pending(s));
    if m.id in s.sessions {
      SessionIsSeen(s, m.id);
    }
    if c in t.sessions {
      if c in s.sessions {
        HandlingIsLocal(s.sessions, m, h, c);
        if m.id == c {
          OwnMessageReflects(s.sessions[c], c, s.ins.processed, m, h, HandleIncoming(map[c := s.sessions[c]], m, h).sessions);
        } else {
          OtherMessageReflects(s.sessions[c], c, s.ins.processed, m);
        }
      } else {
        NewSessionIsFresh(s.sessions, m, h, c);
        FreshReflects(s.ins.processed, c);
      }
    }
  }

  lemma SameFieldsReflect(x: Session, y: Session, c: ConnId, xs: seq<InMsg>)
    requires Reflects(x, c, xs) && SameForSimulation(x, y)
    ensures Reflects(y, c, xs)
  {
    hide InputsOf, LastKeyOf, FirstTokenOf, SaidReady, ReflectsInputs;
    SameInputs(x, y, InputsOf(xs, c));
  }

  lemma VerdictReflects(x: Session, v: Verdict, c: ConnId, xs: seq<InMsg>)
    requires Reflects(x, c, xs) && x.auth == WaitingAuth
    ensures Reflects(AfterVerdict(x, v), c, xs)
  {
    hide InputsOf, LastKeyOf, FirstTokenOf, SaidReady, ReflectsInputs, AfterVerdict;
    VerdictWrites(x, v);
    SameInputs(x, AfterVerdict(x, v), InputsOf(xs, c));
  }

  /** What a verdict leaves alone. */
  lemma VerdictWrites(x: Session, v: Verdict)
    ensures
      var y := AfterVerdict(x, v);
      && y.lastProcessed == x.lastProcessed && y.pending == x.pending && y.latestInput == x.latestInput && y.ackedSnapshot == x.ackedSnapshot
      && y.clientKey == x.clientKey && y.ready == x.ready && y.auth == if v.valid then Valid else Invalid
  {
  }

  lemma HandleVerdictReflects(s: State, c: ConnId)
    requires Inv(s) && s.sim.verdicts != [] && Reflected(s, c)
    ensures Reflected(HandleVerdict(s), c)
  {
    hide Inv, Reflects, AfterVerdict;
    var v := s.sim.verdicts[0];
    if v.id in s.sessions {
      VerdictFindsWaiting(s);
      if v.id == c {
        VerdictReflects(s.sessions[c], v, c, s.ins.processed);
      }
    }
  }

  lemma OthersReflect(s: State, t: State, c: ConnId)
    requires Reflected(s, c) && SessionsSameForSimulation(s.sessions, t.sessions)
    requires t.ins.processed == s.ins.processed && t.ins.seen == s.ins.seen
    ensures Reflected(t, c)
  {
    hide Reflects, SameForSimulation;
    if c in s.sessions {
      SameFieldsReflect(s.sessions[c], t.sessions[c], c, s.ins.processed);
    }
  }

  lemma PushesProcessNothing(s: State, c: ConnId)
    ensures PushHand(s).ins == s.ins
    ensures s.sim.phase.Broadcasting? && c in s.sessions ==> Broadcast(s, c).ins == s.ins
    ensures c in s.sessions ==> BroadcastSnapshot(s, c).ins == s.ins
  {
    hide StageMsg, SnapshotMsg;
  }

  lemma OnlyHandlingProcesses(s: State, step: Step, t: State)
    requires Goes(s, step, t) && !step.HandleInStep?
    ensures t.ins.processed == s.ins.processed && t.ins.seen == s.ins.seen
  {
    if IsNetworkStep(step) {
      hide Allowed, Next, Later, SessionsSameForSimulation;
      FrameOf(s, step, t);
    } else {
      hide AllReady, ApplyVerdict, PushHand, Broadcast, BroadcastSnapshot;
      match step {
        case PushHandStep => PushesProcessNothing(s, 0);
        case BroadcastStep(c) => PushesProcessNothing(s, c);
        case BroadcastSnapshotStep(c) => PushesProcessNothing(s, c);
        case _ =>
      }
    }
  }

  /** In every reachable state the fields of a session are read off the messages handled
      for its connection, and off nothing else: its queue holds the inputs with a number
      above 0 in the order they were handled, its latest input and acknowledged snapshot
      are those of the last one, its key is that of the last hello, it is ready exactly
      when a ready message was handled, and has asked the backend exactly when a token was. */
  lemma {:induction false} SessionReflectsItsMessages(run: seq<State>, steps: seq<Step>, k: nat, c: ConnId)
    requires IsRun(run, steps) && k < |run|
    ensures c in run[k].sessions ==> Reflects(run[k].sessions[c], c, run[k].ins.processed)
    ensures c !in run[k].ins.seen ==> Silent(run[k].ins.processed, c)
  {
    hide Inv, Goes, Reflects, HandleIn, HandleVerdict, SessionsSameForSimulation;
    if k == 0 {
      NothingAtFirst(c);
    } else {
      var s, step, t := run[k - 1], steps[k - 1], run[k];
      SessionReflectsItsMessages(run, steps, k - 1, c);
      RunInv(run, steps, k - 1);
      assert Goes(s, step, t);
      StepReflects(s, step, t, c);
    }
  }

  lemma StepReflects(s: State, step: Step, t: State, c: ConnId)
    requires Inv(s) && Goes(s, step, t) && Reflected(s, c)
    ensures Reflected(t, c)
  {
    hide Inv, Allowed, Next, Reflected, HandleIn, HandleVerdict, SessionsSameForSimulation;
    HandlersAre(s, step);
    if step.HandleInStep? {
      HandleInReflects(s, step.handshake, c);
    } else if step.HandleVerdictStep? {
      HandleVerdictReflects(s, c);
    } else {
      OthersKeepTables(s, step, t);
      OnlyHandlingProcesses(s, step, t);
      OthersReflect(s, t, c);
    }
  }

  // ---------------------------------------------------------------------------
  // The token the backend is asked about
  // ---------------------------------------------------------------------------

  /** A request carries the first token handled for its connection. */
  predicate TokenOk(r: Request, xs: seq<InMsg>) {
    FirstTokenOf(xs, r.id) == Some(r.token)
  }

  ghost predicate TokensOk(http: Http, hand: Hand, xs: seq<InMsg>) {
    && (forall r :: r in http.requests ==> TokenOk(r, xs))
    && (forall r :: r in http.batch ==> TokenOk(r, xs))
    && (http.job.Some? ==> TokenOk(http.job.value, xs))
    && (hand.HoldingRequest? ==> TokenOk(hand.request, xs))
  }

  ghost predicate Tokens(s: State) {
    TokensOk(s.http, s.sim.hand, s.ins.processed)
  }

  lemma TokensStay(http: Http, hand: Hand, xs: seq<InMsg>, m: InMsg)
    requires TokensOk(http, hand, xs)
    ensures TokensOk(http, hand, xs + [m])
  {
    forall r | TokenOk(r, xs)
      ensures TokenOk(r, xs + [m])
    {
      ReflectsPush(xs, m, r.id);
    }
  }

  lemma HandleInAsks(s: State, h: Handshake)
    requires s.sim.inBatch != [] && s.sim.hand == EmptyHand && Tokens(s) && Reflected(s, s.sim.inBatch[0].id)
    ensures Tokens(HandleIn(s, h))
  {
    hide FirstTokenOf, Silent, AfterHello, AfterInput, HelloReplyMsg, FreshSession;
    var m := s.sim.inBatch[0];
    TokensStay(s.http, s.sim.hand, s.ins.processed, m);
    ReflectsPush(s.ins.processed, m, m.id);
  }

  lemma SimulationMovesTokens(s: State, step: Step, t: State)
    requires Goes(s, step, t) && IsSimulationStep(step) && !step.HandleInStep? && Tokens(s)
    ensures Tokens(t)
  {
    hide TokenOk, AllReady, StageMsg, SnapshotMsg, AfterVerdict, AuthReplyMsg;
  }

  lemma HttpMovesTokens(s: State, step: Step, t: State)
    requires Goes(s, step, t) && IsHttpStep(step) && Tokens(s)
    ensures Tokens(t)
  {
    hide TokenOk;
  }

  lemma StepMovesTokens(s: State, step: Step, t: State)
    requires Inv(s) && Goes(s, step, t) && Tokens(s)
    requires s.sim.inBatch != [] ==> Reflected(s, s.sim.inBatch[0].id)
    ensures Tokens(t)
  {
    hide Inv, Allowed, Next, Reflected, HandleIn, HandleVerdict, TokenOk, Later;
    if IsNetworkStep(step) {
      FrameOf(s, step, t);
    } else if IsHttpStep(step) {
      HttpMovesTokens(s, step, t);
    } else if step.HandleInStep? {
      HandlersAre(s, step);
      HandNeedsEmpty(s, step);
      HandleInAsks(s, step.handshake);
    } else {
      SimulationMovesTokens(s, step, t);
    }
  }

  lemma HandNeedsEmpty(s: State, step: Step)
    requires Allowed(s, step) && step.HandleInStep?
    ensures s.sim.hand == EmptyHand
  {
  }

  /** Every request under way carries the first token handled for its connection. */
  lemma {:induction false} RequestsCarryTheirTokens(run: seq<State>, steps: seq<Step>, k: nat)
    requires IsRun(run, steps) && k < |run|
    ensures TokensOk(run[k].http, run[k].sim.hand, run[k].ins.processed)
  {
    hide Inv, Goes, Reflected, TokenOk;
    if k > 0 {
      var s := run[k - 1];
      RequestsCarryTheirTokens(run, steps, k - 1);
      RunInv(run, steps, k - 1);
      assert Goes(s, steps[k - 1], run[k]);
      if s.sim.inBatch != [] {
        SessionIsReflected(run, steps, k - 1, s.sim.inBatch[0].id);
      }
      StepMovesTokens(s, steps[k - 1], run[k]);
    }
  }

  lemma SessionIsReflected(run: seq<State>, steps: seq<Step>, k: nat, c: ConnId)
    requires IsRun(run, steps) && k < |run|
    ensures Reflected(run[k], c)
  {
    hide Goes, Reflects, Silent;
    SessionReflectsItsMessages(run, steps, k, c);
  }

  // ---------------------------------------------------------------------------
  // Account data
  // ---------------------------------------------------------------------------

  predicate NoAccount(x: Session) {
    x.accountId == 0 && x.username == ""
  }

  /** What a verdict puts into the session. */
  predicate WrittenBy(x: Session, v: Verdict) {
    if v.valid then x.auth == Valid && x.accountId == v.accountId && x.username == v.username && x.authError == ""
    else x.auth == Invalid && NoAccount(x) && x.authError == v.error
  }

  ghost predicate Written(x: Session, c: ConnId, applied: seq<Verdict>) {
    if x.auth == Valid || x.auth == Invalid then exists v :: v in applied && v.id == c && WrittenBy(x, v)
    else NoAccount(x) && x.authError == ""
  }

  predicate SameAccount(x: Session, y: Session) {
    (x.auth == y.auth || (x.auth == NoAuth && y.auth == WaitingAuth)) && y.accountId == x.accountId && y.username == x.username && y.authError == x.authError
  }

  lemma SameAccountWritten(x: Session, y: Session, c: ConnId, applied: seq<Verdict>)
    requires Written(x, c, applied) && SameAccount(x, y)
    ensures Written(y, c, applied)
  {
    if x.auth == Valid || x.auth == Invalid {
      var v :| v in applied && v.id == c && WrittenBy(x, v);
      assert WrittenBy(y, v);
    }
  }

  lemma HandlingKeepsAccounts(sessions: map<ConnId, Session>, m: InMsg, h: Handshake, c: ConnId)
    requires m.ConnectMsg? <==> m.id !in sessions
    ensures
      var after := HandleIncoming(sessions, m, h).sessions;
      c in after ==> if c in sessions then SameAccount(sessions[c], after[c]) else NoAccount(after[c]) && after[c].auth == NoAuth && after[c].authError == ""
  {
  }

  lemma HandleInWrites(s: State, h: Handshake, c: ConnId)
    requires Inv(s) && s.sim.inBatch != []
    requires c in s.sessions ==> Written(s.sessions[c], c, s.auths.applied)
    ensures var t := HandleIn(s, h); c in t.sessions ==> Written(t.sessions[c], c, t.auths.applied)
  {
    hide Inv, HandleIncoming, Life, Written, SameAccount;
    var t := HandleIn(s, h);
    LineFacts(s);
    HeadFindsItsSession(s.net.nextId, s.net.peers.Keys, s.sessions.Keys, s.ins.seen, Pending(s));
    HandlingKeepsAccounts(s.sessions, s.sim.inBatch[0], h, c);
    if c in t.sessions {
      if c in s.sessions {
        SameAccountWritten(s.sessions[c], t.sessions[c], c, s.auths.applied);
      } else {
        assert Written(t.sessions[c], c, t.auths.applied) by { UnwrittenIsWritten(t.sessions[c], c, t.auths.applied); }
      }
    }
  }

  lemma UnwrittenIsWritten(x: Session, c: ConnId, applied: seq<Verdict>)
    requires NoAccount(x) && x.auth == NoAuth && x.authError == ""
    ensures Written(x, c, applied)
  {
  }

  lemma MoreApplied(x: Session, c: ConnId, a: seq<Verdict>, b: seq<Verdict>)
    requires Written(x, c, a) && a <= b
    ensures Written(x, c, b)
  {
  }

  lemma VerdictWritten(x: Session, v: Verdict, applied: seq<Verdict>)
    requires Written(x, v.id, applied) && x.auth == WaitingAuth
    ensures Written(AfterVerdict(x, v), v.id, applied + [v])
  {
    assert v in applied + [v] && WrittenBy(AfterVerdict(x, v), v);
  }

  lemma HandleVerdictWrites(s: State, c: ConnId)
    requires Inv(s) && s.sim.verdicts != []
    requires c in s.sessions ==> Written(s.sessions[c], c, s.auths.applied)
    ensures var t := HandleVerdict(s); c in t.sessions ==> Written(t.sessions[c], c, t.auths.applied)
  {
    hide Inv, Written, AfterVerdict;
    var v := s.sim.verdicts[0];
    if v.id in s.sessions {
      VerdictFindsWaiting(s);
      if c == v.id {
        VerdictWritten(s.sessions[c], v, s.auths.applied);
      } else if c in s.sessions {
        MoreApplied(s.sessions[c], c, s.auths.applied, s.auths.applied + [v]);
      }
    }
  }

  lemma {:induction false} AccountsAreWritten(run: seq<State>, steps: seq<Step>, k: nat, c: ConnId)
    requires IsRun(run, steps) && k < |run|
    ensures c in run[k].sessions ==> Written(run[k].sessions[c], c, run[k].auths.applied)
  {
    hide Inv, Goes, Written, HandleIn, HandleVerdict, SessionsSameForSimulation;
    if k == 0 {
      NothingAtFirst(c);
    } else {
      var s, step, t := run[k - 1], steps[k - 1], run[k];
      AccountsAreWritten(run, steps, k - 1, c);
      RunInv(run, steps, k - 1);
      assert Goes(s, step, t);
      StepWrites(s, step, t, c);
    }
  }

  lemma StepWrites(s: State, step: Step, t: State, c: ConnId)
    requires Inv(s) && Goes(s, step, t)
    requires c in s.sessions ==> Written(s.sessions[c], c, s.auths.applied)
    ensures c in t.sessions ==> Written(t.sessions[c], c, t.auths.applied)
  {
    hide Inv, Allowed, Next, Written, HandleIn, HandleVerdict, SessionsSameForSimulation, Later;
    HandlersAre(s, step);
    if step.HandleInStep? {
      HandleInWrites(s, step.handshake, c);
    } else if step.HandleVerdictStep? {
      HandleVerdictWrites(s, c);
    } else {
      OthersKeepTables(s, step, t);
      OthersWrite(s, t, c);
      LaterStep(s, step);
      MoreAppliedLater(s, t, c);
    }
  }

  lemma OthersWrite(s: State, t: State, c: ConnId)
    requires SessionsSameForSimulation(s.sessions, t.sessions)
    requires c in s.sessions ==> Written(s.sessions[c], c, s.auths.applied)
    ensures c in t.sessions ==> Written(t.sessions[c], c, s.auths.applied)
  {
    hide Written;
    if c in t.sessions {
      SameAccountWritten(s.sessions[c], t.sessions[c], c, s.auths.applied);
    }
  }

  lemma MoreAppliedLater(s: State, t: State, c: ConnId)
    requires Later(s, t) && (c in t.sessions ==> Written(t.sessions[c], c, s.auths.applied))
    ensures c in t.sessions ==> Written(t.sessions[c], c, t.auths.applied)
  {
    hide Written;
    if c in t.sessions {
      MoreApplied(t.sessions[c], c, s.auths.applied, t.auths.applied);
    }
  }

  // ---------------------------------------------------------------------------
  // Where the account data comes from
  // ---------------------------------------------------------------------------

  function AppliedIs(v: Verdict): State -> bool {
    (s: State) => v in s.auths.applied
  }

  function ComingIs(v: Verdict): State -> bool {
    (s: State) => v in s.sim.verdicts + s.http.verdicts
  }

  lemma AppliedIsTheHead(s: State, step: Step, t: State, v: Verdict)
    requires Goes(s, step, t) && !AppliedIs(v)(s) && AppliedIs(v)(t)
    ensures ComingIs(v)(s)
  {
    hide StageMsg, SnapshotMsg, AllReady, HandleIncoming, ApplyVerdict;
    if IsNetworkStep(step) {
      hide Allowed, Next, Later;
      FrameOf(s, step, t);
    }
  }

  /** The account of an authenticated session is the one the backend gave, in its answer
      to a request of this very connection with the first token it sent; and the error
      of a rejected one is the backend's. */
  lemma AccountIsTheBackends(run: seq<State>, steps: seq<Step>, k: nat, c: ConnId) returns (b: nat)
    requires IsRun(run, steps) && k < |run| && c in run[k].sessions
    requires run[k].sessions[c].auth == Valid || run[k].sessions[c].auth == Invalid
    ensures b < k && steps[b].HttpAnswerStep? && run[b].http.job.Some?
    ensures run[b].http.job.value.id == c && FirstTokenOf(run[b].ins.processed, c) == Some(run[b].http.job.value.token)
    ensures
      var x, a := run[k].sessions[c], steps[b].answer;
      if a.valid then x.auth == Valid && x.accountId == a.accountId && x.username == a.username && x.authError == ""
      else x.auth == Invalid && x.accountId == 0 && x.username == "" && x.authError == a.error
  {
    hide Goes, Inv, Initial, FirstTokenOf;
    AccountsAreWritten(run, steps, k, c);
    var v :| v in run[k].auths.applied && v.id == c && WrittenBy(run[k].sessions[c], v);
    NothingComesAtFirst(v);
    var applied := Flip(run, steps, AppliedIs(v), k);
    AppliedIsTheHead(run[applied], steps[applied], run[applied + 1], v);
    b := Flip(run, steps, ComingIs(v), applied);
    NewVerdict(run[b], steps[b], run[b + 1], v);
    RequestsCarryTheirTokens(run, steps, b);
  }

  lemma NothingComesAtFirst(v: Verdict)
    ensures !AppliedIs(v)(Initial()) && !ComingIs(v)(Initial())
  {
  }
}
