/** The global invariant, in groups. A group speaks of the few components it needs,
    so a step that leaves those alone keeps it for free. */
module Invariant {
  import opened Wrappers
  import opened Packets
  import opened Messages
  import opened Sequences
  import opened Preparation
  import opened Membership
  import opened Lifecycle

  // ---------------------------------------------------------------------------
  // Peers and ids
  // ---------------------------------------------------------------------------

  /** `peer->data` is `c` exactly when the table sends `c` to that peer. */
  ghost predicate Binding(nextId: nat, data: map<Peer, ConnId>, peers: map<ConnId, Peer>) {
    && 1 <= nextId <= TWO_32
    && (forall p :: p in data ==> data[p] in peers && peers[data[p]] == p)
    && (forall c :: c in peers ==> 0 < c < nextId && peers[c] in data && data[peers[c]] == c)
  }

  /** A snapshot about to be sent goes to the peer of its connection. */
  predicate HeldBound(control: NetControl, peers: map<ConnId, Peer>) {
    control.SendingSnapshot? ==> control.snapshot.id in peers && peers[control.snapshot.id] == control.peer
  }

  // ---------------------------------------------------------------------------
  // The incoming line
  // ---------------------------------------------------------------------------

  function NetHand(control: NetControl): seq<InMsg> {
    if control.Delivering? then [control.msg] else []
  }

  /** Messages accepted by the network thread and not yet handled, oldest first. */
  function Pending(s: State): seq<InMsg> {
    s.sim.inBatch + (s.incoming + NetHand(s.net.control))
  }

  /** What the guard established still holds when the message is handled. */
  predicate GuardHolds(sessions: map<ConnId, Session>, m: InMsg) {
    match m
    case AuthMsg(c, _) => c in sessions && sessions[c].encrypted
    case ReadyMsg(c) => c in sessions && sessions[c].encrypted && sessions[c].auth == Valid
    case InputMsg(c, _) => c in sessions && sessions[c].encrypted && sessions[c].auth == Valid
    case _ => true
  }

  ghost predicate GuardsHold(sessions: map<ConnId, Session>, pending: seq<InMsg>) {
    forall m :: m in pending ==> GuardHolds(sessions, m)
  }

  // ---------------------------------------------------------------------------
  // Sessions
  // ---------------------------------------------------------------------------

  predicate SessionOk(c: ConnId, x: Session, acked: set<ConnId>) {
    && x.id == c
    && x.transport
    && (!x.secure ==> x.rxKey == ZERO_KEY && x.txKey == ZERO_KEY)
    && (x.ready || x.pending != [] ==> x.auth == Valid)
    && (x.auth != NoAuth ==> x.encrypted)
    && (x.encrypted <==> c in acked)
    && x.nextSnapshot == (x.allocations + 1) % TWO_32
    && x.lastSnapshot == x.allocations % TWO_32
  }

  ghost predicate SessionsOk(sessions: map<ConnId, Session>, acked: set<ConnId>) {
    forall c :: c in sessions ==> SessionOk(c, sessions[c], acked)
  }

  /** The network-side encryption flag is the session's. */
  ghost predicate Mirror(peers: map<ConnId, Peer>, encryption: map<ConnId, bool>, sessions: map<ConnId, Session>) {
    && encryption.Keys == peers.Keys
    && forall c :: c in encryption ==> encryption[c] == (c in sessions && sessions[c].encrypted)
  }

  ghost predicate SecureChain(seen: set<ConnId>, secures: SecureHistory) {
    secures.acked <= secures.accepted <= seen
  }

  // ---------------------------------------------------------------------------
  // The authentication line: one FIFO from the auth handler to the verdict handler
  // ---------------------------------------------------------------------------

  function VerdictIds(vs: seq<Verdict>): (r: seq<ConnId>)
    ensures |r| == |vs| && forall i :: 0 <= i < |vs| ==> r[i] == vs[i].id
  {
    seq(|vs|, i requires 0 <= i < |vs| => vs[i].id)
  }

  function RequestIds(rs: seq<Request>): (r: seq<ConnId>)
    ensures |r| == |rs| && forall i :: 0 <= i < |rs| ==> r[i] == rs[i].id
  {
    seq(|rs|, i requires 0 <= i < |rs| => rs[i].id)
  }

  function JobIds(job: Option<Request>): seq<ConnId> {
    if job.Some? then [job.value.id] else []
  }

  function HandIds(hand: Hand): seq<ConnId> {
    if hand.HoldingRequest? then [hand.request.id] else []
  }

  /** Everything asked and not yet answered, oldest first: the simulation's drained
      verdicts, the verdict queue, the HTTP thread's job and batch, the request queue,
      and the request the simulation is about to push. */
  function AuthItems(verdicts: seq<Verdict>, http: Http, hand: Hand): seq<ConnId> {
    VerdictIds(verdicts) + (VerdictIds(http.verdicts) + (JobIds(http.job) + (RequestIds(http.batch) + (RequestIds(http.requests) + HandIds(hand)))))
  }

  function Items(s: State): seq<ConnId> {
    AuthItems(s.sim.verdicts, s.http, s.sim.hand)
  }

  ghost predicate Answered(answered: seq<Verdict>, c: ConnId, valid: bool) {
    exists v :: v in answered && v.id == c && v.valid == valid
  }

  predicate StatusMatches(auth: AuthStatus, c: ConnId, items: seq<ConnId>, asked: seq<ConnId>) {
    && (auth == NoAuth <==> c !in asked)
    && (auth == WaitingAuth <==> c in items)
  }

  ghost predicate AuthLine(sessions: map<ConnId, Session>, seen: set<ConnId>, auths: AuthHistory, items: seq<ConnId>) {
    && auths.asked == VerdictIds(auths.answered) + items
    && Distinct(auths.asked)
    && (forall c :: c in auths.asked ==> c in seen)
    && (forall c :: c in sessions ==> StatusMatches(sessions[c].auth, c, items, auths.asked))
  }

  /** Applied verdicts are answered ones, one per connection, and they are what the
      session table says. */
  ghost predicate VerdictsApplied(sessions: map<ConnId, Session>, auths: AuthHistory) {
    && (forall v :: v in auths.applied ==> v in auths.answered)
    && Distinct(VerdictIds(auths.applied))
    && (forall c :: c in sessions ==> (sessions[c].auth == Valid <==> Answered(auths.applied, c, true)))
    && (forall c :: c in sessions ==> (sessions[c].auth == Invalid <==> Answered(auths.applied, c, false)))
  }

  // ---------------------------------------------------------------------------
  // The outgoing line
  // ---------------------------------------------------------------------------

  function HandReply(hand: Hand): seq<OutMsg> {
    if hand.HoldingReply? then [hand.reply] else []
  }

  predicate OutOk(m: OutMsg, seen: set<ConnId>, secures: SecureHistory) {
    && m.id in seen
    && (m.enableEncryptionAfterAck ==> m.id in secures.accepted && m.kind == HelloResponseOut && m.payload.HelloReply? && m.payload.status == HelloSuccess)
    && (m.disconnectAfterAck ==> m.id in secures.refused)
    && (m.kind == SnapshotOut <==> m.payload.SnapshotReply?)
  }

  ghost predicate AllOut(ms: seq<OutMsg>, seen: set<ConnId>, secures: SecureHistory) {
    forall m :: m in ms ==> OutOk(m, seen, secures)
  }

  ghost predicate PreparedOk(p: Prepared, seen: set<ConnId>, secures: SecureHistory) {
    && AllOut(p.reliable, seen, secures)
    && (forall m :: m in p.reliable ==> IsReliableKind(m.kind))
    && (forall c :: c in p.snapshots ==> p.snapshots[c].id == c && p.snapshots[c].kind == SnapshotOut && OutOk(p.snapshots[c], seen, secures))
  }

  ghost predicate ControlOk(control: NetControl, seen: set<ConnId>, secures: SecureHistory) {
    match control
    case Sending(p) => PreparedOk(p, seen, secures)
    case SendingSnapshot(peer, m, index, p) =>
      PreparedOk(p, seen, secures) && OutOk(m, seen, secures) && m.kind == SnapshotOut && p.reliable == [] && m.id !in p.snapshots
    case _ => true
  }

  ghost predicate InFlightOk(inFlight: map<nat, AckContext>, seen: set<ConnId>, secures: SecureHistory) {
    forall u :: u in inFlight ==>
      && inFlight[u].id in seen
      && (inFlight[u].enableEncryptionAfterAck ==> inFlight[u].id in secures.accepted)
      && (inFlight[u].disconnectAfterAck ==> inFlight[u].id in secures.refused)
  }

  ghost predicate KicksOk(kicks: seq<Kick>, secures: SecureHistory) {
    forall k :: k in kicks ==> k.id in secures.refused
  }

  ghost predicate Outgoing(control: NetControl, outgoing: seq<OutMsg>, hand: Hand, inFlight: map<nat, AckContext>,
                           kicks: seq<Kick>,
                           seen: set<ConnId>, secures: SecureHistory) {
    && AllOut(outgoing, seen, secures)
    && AllOut(HandReply(hand), seen, secures)
    && ControlOk(control, seen, secures)
    && InFlightOk(inFlight, seen, secures)
    && KicksOk(kicks, secures)
  }

  function AuthReplyKind(): OutMsg -> bool {
    (m: OutMsg) => m.kind == AuthResponseOut
  }

  function RepliesTo(vs: seq<Verdict>): (r: seq<OutMsg>)
    ensures |r| == |vs| && forall i :: 0 <= i < |vs| ==> r[i] == AuthReplyMsg(vs[i])
  {
    seq(|vs|, i requires 0 <= i < |vs| => AuthReplyMsg(vs[i]))
  }

  /** The authentication replies ever built are the applied verdicts, one for one. */
  ghost predicate AuthReplies(log: seq<OutMsg>, hand: Hand, applied: seq<Verdict>) {
    Filter(AuthReplyKind(), log + HandReply(hand)) == RepliesTo(applied)
  }

  function PreparedReliable(control: NetControl): seq<OutMsg> {
    if control.Sending? then control.prepared.reliable else []
  }

  /** Every reliable message ever pushed was handled, is prepared, or is queued, in order. */
  ghost predicate ReliableLine(log: seq<OutMsg>, handled: seq<OutMsg>, control: NetControl, outgoing: seq<OutMsg>) {
    Reliable(log) == handled + (PreparedReliable(control) + Reliable(outgoing))
  }

  /** What was handed to ENet: handled messages, in their order, each to the peer bound
      to the connection it is for. */
  ghost predicate ReliableSent(handled: seq<OutMsg>, sent: seq<SentReliable>) {
    && (forall i :: 0 <= i < |sent| ==>
          sent[i].position < |handled| && handled[sent[i].position] == sent[i].msg && sent[i].bound == sent[i].msg.id)
    && (forall i, j :: 0 <= i < j < |sent| ==> sent[i].position < sent[j].position)
  }

  // ---------------------------------------------------------------------------
  // Snapshots
  // ---------------------------------------------------------------------------

  predicate IsSnapshotFor(m: OutMsg, c: ConnId) {
    m.kind == SnapshotOut && m.id == c && m.payload.SnapshotReply?
  }

  /** A snapshot of tick `t` for `c` can exist: older ticks always, the current one
      only once it was pushed for `c`. */
  predicate Recent(t: nat, c: ConnId, sim: Sim) {
    t < sim.tick || (t == sim.tick && (sim.phase == Idle || (sim.phase == Snapshots && c !in sim.todo)))
  }

  /** `t` is older than every snapshot for `c` still queued. */
  ghost predicate OlderThanQueued(t: nat, c: ConnId, outgoing: seq<OutMsg>) {
    forall j :: 0 <= j < |outgoing| && IsSnapshotFor(outgoing[j], c) ==> t < outgoing[j].payload.tick
  }

  ghost predicate QueuedSnapshots(outgoing: seq<OutMsg>, sim: Sim) {
    && (forall i :: 0 <= i < |outgoing| && outgoing[i].kind == SnapshotOut ==>
          outgoing[i].payload.SnapshotReply? && Recent(outgoing[i].payload.tick, outgoing[i].id, sim))
    && (forall i, j :: 0 <= i < j < |outgoing| && outgoing[i].kind == SnapshotOut && IsSnapshotFor(outgoing[j], outgoing[i].id) ==>
          outgoing[i].payload.tick < outgoing[j].payload.tick)
  }

  function Kept(control: NetControl): map<ConnId, OutMsg> {
    match control
    case Sending(p) => p.snapshots
    case SendingSnapshot(_, _, _, p) => p.snapshots
    case _ => map[]
  }

  ghost predicate KeptSnapshots(kept: map<ConnId, OutMsg>, outgoing: seq<OutMsg>, sim: Sim) {
    forall c :: c in kept ==>
      IsSnapshotFor(kept[c], c) && Recent(kept[c].payload.tick, c, sim) && OlderThanQueued(kept[c].payload.tick, c, outgoing)
  }

  ghost predicate HeldSnapshot(control: NetControl, outgoing: seq<OutMsg>, sim: Sim, sessions: map<ConnId, Session>,
                               seen: set<ConnId>) {
    control.SendingSnapshot? ==>
      var m, k := control.snapshot, control.index;
      && IsSnapshotFor(m, m.id) && m.id in seen
      && m.payload.snapshotId == k % TWO_32
      && Recent(m.payload.tick, m.id, sim)
      && OlderThanQueued(m.payload.tick, m.id, outgoing)
      && m.id !in control.prepared.snapshots
      && (m.id in sessions ==> sessions[m.id].allocations == k)
  }

  ghost predicate SentOk(e: SentSnapshot, control: NetControl, outgoing: seq<OutMsg>, sim: Sim, sessions: map<ConnId,
                         Session>, seen: set<ConnId>) {
    && e.id in seen
    && e.bound == e.id
    && e.wireId == e.index % TWO_32
    && Recent(e.tick, e.id, sim)
    && OlderThanQueued(e.tick, e.id, outgoing)
    && (e.id in Kept(control) && Kept(control)[e.id].payload.SnapshotReply? ==> e.tick < Kept(control)[e.id].payload.tick)
    && (control.SendingSnapshot? && control.snapshot.id == e.id && control.snapshot.payload.SnapshotReply? ==>
          e.tick < control.snapshot.payload.tick && e.index < control.index)
    && (e.id in sessions ==> e.index <= sessions[e.id].allocations)
  }

  ghost predicate SentSnapshots(sent: seq<SentSnapshot>, control: NetControl, outgoing: seq<OutMsg>, sim: Sim,
                                sessions: map<ConnId, Session>, seen: set<ConnId>) {
    && (forall i :: 0 <= i < |sent| ==> SentOk(sent[i], control, outgoing, sim, sessions, seen))
    && (forall i, j :: 0 <= i < j < |sent| && sent[i].id == sent[j].id ==> sent[i].index < sent[j].index && sent[i].tick < sent[j].tick)
  }

  ghost predicate Stream(sent: seq<SentSnapshot>, control: NetControl, outgoing: seq<OutMsg>, sim: Sim,
                         sessions: map<ConnId, Session>, seen: set<ConnId>) {
    && QueuedSnapshots(outgoing, sim)
    && KeptSnapshots(Kept(control), outgoing, sim)
    && HeldSnapshot(control, outgoing, sim, sessions, seen)
    && SentSnapshots(sent, control, outgoing, sim, sessions, seen)
  }

  // ---------------------------------------------------------------------------
  // Match flow
  // ---------------------------------------------------------------------------

  predicate IsMatchKind(k: OutKind) {
    k == MatchInitOut || k == WorldInitOut || k == MatchStartOut
  }

  /** The match messages pushed for `c`, in order. */
  function MatchKinds(log: seq<OutMsg>, c: ConnId): seq<OutKind> {
    if log == [] then []
    else
      var n := |log| - 1;
      MatchKinds(log[..n], c) + if log[n].id == c && IsMatchKind(log[n].kind) then [log[n].kind] else []
  }

  function ExpectedKinds(matches: MatchHistory, c: ConnId): seq<OutKind> {
    (if c in matches.init then [MatchInitOut] else []) +
    (if c in matches.world then [WorldInitOut] else []) +
    (if c in matches.start then [MatchStartOut] else [])
  }

  ghost predicate MatchPushes(log: seq<OutMsg>, matches: MatchHistory) {
    forall c: ConnId :: MatchKinds(log, c) == ExpectedKinds(matches, c)
  }

  /** How far the flow is, stage by stage. */
  ghost predicate Flow(game: Match, sim: Sim, keys: set<ConnId>, matches: MatchHistory) {
    var phase := sim.phase;
    && (game.started ==> game.startSent)
    && (game.startSent ==> game.worldSent)
    && (game.worldSent ==> game.initSent && matches.world == matches.init)
    // the init stage
    && (!game.initSent && phase != Broadcasting(InitStage) ==> matches.init == {})
    && (phase == Locking(InitStage) || phase == Broadcasting(InitStage) ==> !game.initSent)
    && (phase == Broadcasting(InitStage) ==> matches.init + sim.todo == keys && matches.init !! sim.todo)
    // the world stage follows in the same tick, over the same sessions
    && (!game.worldSent && phase != Broadcasting(WorldStage) ==> matches.world == {})
    && (phase == Deciding(WorldStage) || phase == Locking(WorldStage) || phase == Broadcasting(WorldStage) ==> game.initSent)
    && (phase == Locking(WorldStage) || phase == Broadcasting(WorldStage) ==> !game.worldSent)
    && (game.initSent && !game.worldSent ==>
          (phase == Deciding(WorldStage) || phase == Locking(WorldStage) || phase == Broadcasting(WorldStage))
              && matches.init == keys)
    && (phase == Broadcasting(WorldStage) ==> matches.world + sim.todo == keys && matches.world !! sim.todo)
    // the start stage
    && (phase == Deciding(StartStage) || phase == Locking(StartStage) || phase == Broadcasting(StartStage) || phase == Opening ==> game.worldSent)
    && (phase == Locking(StartStage) || phase == Broadcasting(StartStage) ==> !game.startSent)
    && (!game.startSent && phase != Broadcasting(StartStage) ==> matches.start == {})
    && (phase == Broadcasting(StartStage) ==> matches.start + sim.todo == keys && matches.start !! sim.todo)
    && (phase == Snapshots ==> sim.todo <= keys)
  }

  /** The moment the start was decided: everybody ready, authenticated and encrypted. */
  predicate StartDecided(r: StartRecord) {
    && |r.sessions| >= MAX_CLIENTS
    && r.countdown < TWO_32
    && forall c :: c in r.sessions ==> r.sessions[c].ready && r.sessions[c].auth == Valid && r.sessions[c].encrypted
  }

  ghost predicate StartRecorded(game: Match, sim: Sim, matches: MatchHistory) {
    && (game.startSent || sim.phase == Locking(StartStage) || sim.phase == Broadcasting(StartStage) ==>
          && matches.record.Some?
          && StartDecided(matches.record.value)
          && game.startTick == matches.record.value.tick + matches.record.value.countdown
          && matches.record.value.tick <= sim.tick)
    && (sim.phase == Locking(StartStage) || sim.phase == Broadcasting(StartStage) ==>
          matches.record.Some? && matches.record.value.tick == sim.tick && matches.record.value.countdown == sim.countdown)
    && (game.started ==> game.startTick <= sim.tick)
    && (matches.worldTicks != [] ==> game.started)
    && (forall t :: t in matches.worldTicks ==> game.startTick <= t <= sim.tick)
    && sim.tick + TWO_32 <= TWO_64
    && (sim.phase != Idle ==> sim.tick >= 0)
  }

  // ---------------------------------------------------------------------------
  // All of it
  // ---------------------------------------------------------------------------

  ghost predicate Inv(s: State) {
    && Binding(s.net.nextId, s.net.data, s.net.peers)
    && HeldBound(s.net.control, s.net.peers)
    && Life(s.net.nextId, s.net.peers.Keys, s.sessions.Keys, s.ins.seen, Pending(s))
    && s.ins.log == s.ins.processed + (s.sim.inBatch + s.incoming)
    && LogGrammar(s.net.nextId, s.net.peers.Keys, s.ins.log + NetHand(s.net.control))
    && GuardsHold(s.sessions, Pending(s))
    && SessionsOk(s.sessions, s.secures.acked)
    && Mirror(s.net.peers, s.net.encryption, s.sessions)
    && SecureChain(s.ins.seen, s.secures)
    && AuthLine(s.sessions, s.ins.seen, s.auths, Items(s))
    && VerdictsApplied(s.sessions, s.auths)
    && Outgoing(s.net.control, s.outgoing, s.sim.hand, s.net.inFlight, s.outs.kicks, s.ins.seen, s.secures)
    && AuthReplies(s.outs.log, s.sim.hand, s.auths.applied)
    && ReliableLine(s.outs.log, s.outs.handled, s.net.control, s.outgoing)
    && ReliableSent(s.outs.handled, s.outs.reliableSent)
    && Stream(s.outs.snapshotsSent, s.net.control, s.outgoing, s.sim, s.sessions, s.ins.seen)
    && MatchPushes(s.outs.log, s.matches)
    && Flow(s.game, s.sim, s.sessions.Keys, s.matches)
    && StartRecorded(s.game, s.sim, s.matches)
    && PhaseOk(s.sim)
    && HandOk(s.sim.hand)
  }

  /** The hand holds handshake and authentication replies only. */
  predicate HandOk(hand: Hand) {
    hand.HoldingReply? ==> hand.reply.kind == HelloResponseOut || hand.reply.kind == AuthResponseOut
  }

  /** Batches and the hand are used only in the phases that own them. */
  predicate PhaseOk(sim: Sim) {
    && (sim.inBatch != [] ==> sim.phase == DrainingVerdicts || sim.phase == InMessages)
    && (sim.verdicts != [] ==> sim.phase == InMessages || sim.phase == VerdictMessages)
    && (sim.hand != EmptyHand ==> sim.phase == InMessages || sim.phase == VerdictMessages)
  }

  lemma InitialLines(s: State)
    requires s == Initial()
    ensures Life(s.net.nextId, s.net.peers.Keys, s.sessions.Keys, s.ins.seen, Pending(s))
    ensures LogGrammar(s.net.nextId, s.net.peers.Keys, s.ins.log + NetHand(s.net.control))
  {
    forall c: ConnId
      ensures LifeOf(c, 1, c in s.net.peers.Keys, c in s.sessions.Keys, c in s.ins.seen, Share(Pending(s), c))
      ensures LogGrammarOf(c, 1, c in s.net.peers.Keys, Share(s.ins.log + NetHand(s.net.control), c))
    {
    }
  }

  lemma InitialAuths(s: State)
    requires s == Initial()
    ensures AuthLine(s.sessions, s.ins.seen, s.auths, Items(s)) && VerdictsApplied(s.sessions, s.auths)
    ensures AuthReplies(s.outs.log, s.sim.hand, s.auths.applied)
  {
    assert Items(s) == [];
    assert VerdictIds([]) == [] && RepliesTo([]) == [];
  }

  lemma InitialTables(s: State)
    requires s == Initial()
    ensures Binding(s.net.nextId, s.net.data, s.net.peers) && HeldBound(s.net.control, s.net.peers) && GuardsHold(s.sessions, Pending(s))
    ensures SessionsOk(s.sessions, s.secures.acked) && Mirror(s.net.peers, s.net.encryption, s.sessions) && SecureChain(s.ins.seen, s.secures)
  {
  }

  lemma InitialOutputs(s: State)
    requires s == Initial()
    ensures Outgoing(s.net.control, s.outgoing, s.sim.hand, s.net.inFlight, s.outs.kicks, s.ins.seen, s.secures)
    ensures ReliableLine(s.outs.log, s.outs.handled, s.net.control, s.outgoing) && ReliableSent(s.outs.handled, s.outs.reliableSent)
    ensures Stream(s.outs.snapshotsSent, s.net.control, s.outgoing, s.sim, s.sessions, s.ins.seen)
  {
  }

  lemma InitialFlow(s: State)
    requires s == Initial()
    ensures MatchPushes(s.outs.log, s.matches) && Flow(s.game, s.sim, s.sessions.Keys, s.matches) && StartRecorded(s.game, s.sim, s.matches)
    ensures PhaseOk(s.sim) && HandOk(s.sim.hand)
  {
  }

  lemma InitialInv()
    ensures Inv(Initial())
  {
    hide Life, LogGrammar, AuthLine, VerdictsApplied, AuthReplies, Binding, HeldBound, GuardsHold, SessionsOk, Mirror, SecureChain,
         Outgoing, ReliableLine, ReliableSent, Stream, MatchPushes, Flow, StartRecorded, PhaseOk, HandOk;
    InitialLines(Initial());
    InitialAuths(Initial());
    InitialTables(Initial());
    InitialOutputs(Initial());
    InitialFlow(Initial());
  }
}
