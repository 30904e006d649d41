/** Handling incoming messages and backend verdicts keeps the invariant. */
module KeepIncoming {
  import opened Messages
  import opened Sequences
  import opened Preparation
  import opened Membership
  import opened Lifecycle
  import opened Invariant
  import opened KeepEvents
  import opened KeepSending

  /** The groups that read the session table. */
  ghost predicate Tables(sessions: map<ConnId, Session>, pending: seq<InMsg>, peers: map<ConnId, Peer>,
                         encryption: map<ConnId, bool>,
                         seen: set<ConnId>, auths: AuthHistory, items: seq<ConnId>, acked: set<ConnId>) {
    && GuardsHold(sessions, pending)
    && SessionsOk(sessions, acked)
    && Mirror(peers, encryption, sessions)
    && AuthLine(sessions, seen, auths, items)
    && VerdictsApplied(sessions, auths)
  }

  lemma NeverAsked(sessions: map<ConnId, Session>, seen: set<ConnId>, auths: AuthHistory, items: seq<ConnId>, c: ConnId)
    requires AuthLine(sessions, seen, auths, items) && VerdictsApplied(sessions, auths) && c !in seen
    ensures c !in auths.asked && c !in items
    ensures forall v :: v in auths.applied ==> v.id != c
  {
  }

  lemma TablesConnect(sessions: map<ConnId, Session>, pending: seq<InMsg>, peers: map<ConnId, Peer>,
                      encryption: map<ConnId, bool>,
                      seen: set<ConnId>, auths: AuthHistory, items: seq<ConnId>, acked: set<ConnId>, c: ConnId)
    requires Tables(sessions, pending, peers, encryption, seen, auths, items, acked) && c !in sessions && c !in seen
        && c !in acked && pending != []
    ensures Tables(sessions[c := FreshSession(c)], pending[1..], peers, encryption, seen + {c}, auths, items, acked)
  {
    hide Distinct;
    var after := sessions[c := FreshSession(c)];
    NeverAsked(sessions, seen, auths, items, c);
    forall m | m in pending[1..]
      ensures GuardHolds(after, m)
    {
      assert GuardHolds(sessions, m);
    }
  }

  lemma TablesDisconnect(sessions: map<ConnId, Session>, pending: seq<InMsg>, peers: map<ConnId, Peer>,
                         encryption: map<ConnId, bool>,
                         seen: set<ConnId>, auths: AuthHistory, items: seq<ConnId>, acked: set<ConnId>, c: ConnId)
    requires Tables(sessions, pending, peers, encryption, seen, auths, items, acked) && pending != []
    requires c !in peers && forall m :: m in pending[1..] ==> m.id != c
    ensures Tables(sessions - {c}, pending[1..], peers, encryption, seen, auths, items, acked)
  {
    hide Distinct, StatusMatches, Answered;
    var after := sessions - {c};
    forall m | m in pending[1..]
      ensures GuardHolds(after, m)
    {
      assert GuardHolds(sessions, m);
    }
  }

  /** A session that changes nothing the tables speak about, apart from getting ready
      or gaining input once its status is Valid. */
  lemma TablesUpdate(sessions: map<ConnId, Session>, pending: seq<InMsg>, peers: map<ConnId, Peer>,
                     encryption: map<ConnId, bool>,
                     seen: set<ConnId>, auths: AuthHistory, items: seq<ConnId>, acked: set<ConnId>, c: ConnId, x: Session)
    requires Tables(sessions, pending, peers, encryption, seen, auths, items, acked) && c in sessions && pending != []
    requires x.auth == sessions[c].auth && x.encrypted == sessions[c].encrypted && SessionOk(c, x, acked)
    ensures Tables(sessions[c := x], pending[1..], peers, encryption, seen, auths, items, acked)
  {
    hide Distinct, StatusMatches, Answered, SessionOk;
    var after := sessions[c := x];
    assert forall d :: d in after ==> d in sessions && after[d].auth == sessions[d].auth && after[d].encrypted == sessions[d].encrypted;
    forall m | m in pending[1..]
      ensures GuardHolds(after, m)
    {
      assert GuardHolds(sessions, m);
    }
  }

  lemma TablesAuth(sessions: map<ConnId, Session>, pending: seq<InMsg>, peers: map<ConnId, Peer>,
                   encryption: map<ConnId, bool>,
                   seen: set<ConnId>, auths: AuthHistory, items: seq<ConnId>, acked: set<ConnId>, c: ConnId)
    requires Tables(sessions, pending, peers, encryption, seen, auths, items, acked) && pending != []
    requires c in sessions && c in seen && sessions[c].auth == NoAuth && sessions[c].encrypted
    ensures Tables(sessions[c := sessions[c].(auth := WaitingAuth)], pending[1..], peers, encryption, seen,
                   auths.(asked := auths.asked + [c]), items + [c], acked)
  {
    hide Answered;
    var after := sessions[c := sessions[c].(auth := WaitingAuth)];
    assert StatusMatches(NoAuth, c, items, auths.asked);
    DistinctPush(auths.asked, c);
    hide Distinct;
    assert auths.asked + [c] == VerdictIds(auths.answered) + (items + [c]);
    forall d | d in after
      ensures StatusMatches(after[d].auth, d, items + [c], auths.asked + [c])
    {
      assert StatusMatches(sessions[d].auth, d, items, auths.asked);
    }
    forall m | m in pending[1..]
      ensures GuardHolds(after, m)
    {
      assert GuardHolds(sessions, m);
    }
    assert SessionOk(c, sessions[c], acked);
  }

  /** The head of the pending line may be dropped. */
  lemma TablesPop(sessions: map<ConnId, Session>, pending: seq<InMsg>, peers: map<ConnId, Peer>,
                  encryption: map<ConnId, bool>,
                  seen: set<ConnId>, auths: AuthHistory, items: seq<ConnId>, acked: set<ConnId>)
    requires Tables(sessions, pending, peers, encryption, seen, auths, items, acked) && pending != []
    ensures Tables(sessions, pending[1..], peers, encryption, seen, auths, items, acked)
  {
    hide GuardHolds, SessionsOk, Mirror, AuthLine, VerdictsApplied;
  }

  /** Handling the head of the line, for the session table. */
  lemma TablesHandle(sessions: map<ConnId, Session>, pending: seq<InMsg>, peers: map<ConnId, Peer>,
                     encryption: map<ConnId, bool>,
                     seen: set<ConnId>, auths: AuthHistory, items: seq<ConnId>, acked: set<ConnId>, h: Handshake)
    requires Tables(sessions, pending, peers, encryption, seen, auths, items, acked) && pending != [] && acked <= seen
    requires
      var m := pending[0];
      && (m.ConnectMsg? <==> m.id !in sessions) && (m.ConnectMsg? ==> m.id !in seen)
      && (m.DisconnectMsg? ==> m.id !in peers && forall n :: n in pending[1..] ==> n.id != m.id)
      && (m.id in sessions ==> m.id in seen)
    ensures
      var m := pending[0];
      var r := HandleIncoming(sessions, m, h);
      var asked := if r.hand.HoldingRequest? then auths.(asked := auths.asked + [m.id]) else auths;
      Tables(r.sessions, pending[1..], peers, encryption, if m.ConnectMsg? then seen + {m.id} else seen, asked, items + HandIds(r.hand), acked)
  {
    hide Tables;
    var m := pending[0];
    var c := m.id;
    HeadFacts(sessions, pending, peers, encryption, seen, auths, items, acked, h);
    hide SessionOk, GuardHolds, AfterHello, AfterInput;
    assert items + [] == items;
    match m
    case ConnectMsg(_) => TablesConnect(sessions, pending, peers, encryption, seen, auths, items, acked, c);
    case DisconnectMsg(_) => TablesDisconnect(sessions, pending, peers, encryption, seen, auths, items, acked, c);
    case HelloMsg(_, hello) => TablesUpdate(sessions, pending, peers, encryption, seen, auths, items, acked, c,
        AfterHello(sessions[c], hello, h));
    case AuthMsg(_, _) =>
      if sessions[c].auth == NoAuth {
        TablesAuth(sessions, pending, peers, encryption, seen, auths, items, acked, c);
      } else {
        TablesPop(sessions, pending, peers, encryption, seen, auths, items, acked);
      }
    case ReadyMsg(_) => TablesUpdate(sessions, pending, peers, encryption, seen, auths, items, acked, c,
        sessions[c].(ready := true));
    case InputMsg(_, input) => TablesUpdate(sessions, pending, peers, encryption, seen, auths, items, acked, c,
        AfterInput(sessions[c], input));
  }

  /** The guard checked at reception is what makes the unguarded handlers safe. */
  lemma HeadFacts(sessions: map<ConnId, Session>, pending: seq<InMsg>, peers: map<ConnId, Peer>,
                  encryption: map<ConnId, bool>,
                  seen: set<ConnId>, auths: AuthHistory, items: seq<ConnId>, acked: set<ConnId>, h: Handshake)
    requires Tables(sessions, pending, peers, encryption, seen, auths, items, acked) && pending != []
    requires pending[0].ConnectMsg? <==> pending[0].id !in sessions
    ensures
      var m := pending[0];
      match m
      case HelloMsg(c, hello) =>
        var x := AfterHello(sessions[c], hello, h);
        SessionOk(c, x, acked) && x.auth == sessions[c].auth && x.encrypted == sessions[c].encrypted
      case AuthMsg(c, _) => sessions[c].encrypted
      case ReadyMsg(c) => SessionOk(c, sessions[c].(ready := true), acked)
      case InputMsg(c, input) =>
        var x := AfterInput(sessions[c], input);
        SessionOk(c, x, acked) && x.auth == sessions[c].auth && x.encrypted == sessions[c].encrypted
      case _ => true
  {
    hide Mirror, AuthLine, VerdictsApplied;
    var m := pending[0];
    assert GuardHolds(sessions, m);
    if m.id in sessions {
      assert SessionOk(m.id, sessions[m.id], acked);
    }
  }

  // ---------------------------------------------------------------------------
  // The step that handles one incoming message
  // ---------------------------------------------------------------------------

  lemma LiveIsSeen(nextId: nat, bound: set<ConnId>, live: set<ConnId>, seen: set<ConnId>, pending: seq<InMsg>,
                   c: ConnId)
    requires Life(nextId, bound, live, seen, pending) && c in live
    ensures c in seen
  {
    assert LifeOf(c, nextId, c in bound, c in live, c in seen, Share(pending, c));
  }

  /** A reply taken in hand when the hand was empty. */
  lemma OutgoingTakeReply(control: NetControl, outgoing: seq<OutMsg>, inFlight: map<nat, AckContext>, kicks: seq<Kick>,
                          seen: set<ConnId>, secures: SecureHistory, hand: Hand)
    requires Outgoing(control, outgoing, EmptyHand, inFlight, kicks, seen, secures)
    requires hand.HoldingReply? ==> OutOk(hand.reply, seen, secures)
    ensures Outgoing(control, outgoing, hand, inFlight, kicks, seen, secures)
  {
    hide InFlightOk, KicksOk, ControlOk, OutOk;
  }

  /** A handshake reply in hand adds no authentication reply. */
  lemma AuthRepliesOtherKind(log: seq<OutMsg>, applied: seq<Verdict>, hand: Hand)
    requires AuthReplies(log, EmptyHand, applied) && (hand.HoldingReply? ==> hand.reply.kind != AuthResponseOut)
    ensures AuthReplies(log, hand, applied)
  {
    FilterAppend(AuthReplyKind(), log, HandReply(EmptyHand));
    FilterAppend(AuthReplyKind(), log, HandReply(hand));
    if hand.HoldingReply? {
      FilterOne(AuthReplyKind(), hand.reply);
    }
  }

  lemma AuthItemsTakeRequest(verdicts: seq<Verdict>, http: Http, hand: Hand)
    ensures AuthItems(verdicts, http, hand) == AuthItems(verdicts, http, EmptyHand) + HandIds(hand)
  {
  }

  /** Sessions touched by an incoming message keep their snapshot counter, and a new
      session belongs to a connection never seen. */
  lemma HandleKeepsCounters(sessions: map<ConnId, Session>, m: InMsg, h: Handshake, seen: set<ConnId>)
    requires (m.ConnectMsg? <==> m.id !in sessions) && (m.ConnectMsg? ==> m.id !in seen)
    ensures
      var after := HandleIncoming(sessions, m, h).sessions;
      && (forall c :: c in after ==> (c in sessions && after[c].allocations == sessions[c].allocations) || c !in seen)
      && after.Keys == if m.ConnectMsg? then sessions.Keys + {m.id} else if m.DisconnectMsg? then sessions.Keys - {m.id} else sessions.Keys
  {
  }

  lemma HandleReplyIsHello(sessions: map<ConnId, Session>, m: InMsg, h: Handshake, seen: set<ConnId>,
                           secures: SecureHistory)
    requires m.id in sessions ==> m.id in seen
    ensures
      var hand := HandleIncoming(sessions, m, h).hand;
      hand.HoldingReply? ==>
        && m.id in seen && hand.reply.kind == HelloResponseOut
        && OutOk(hand.reply, seen, if h.HandshakeOk? then secures.(accepted := secures.accepted + {m.id}) else secures.(refused := secures.refused + {m.id}))
  {
  }

  lemma FlowUnderSessions(game: Match, sim: Sim, sim': Sim, keys: set<ConnId>, keys': set<ConnId>,
                          matches: MatchHistory)
    requires Flow(game, sim, keys, matches) && sim'.phase == sim.phase
    requires sim.phase == InMessages || sim.phase == VerdictMessages
    ensures Flow(game, sim', keys', matches)
  {
  }

  lemma StreamUnderSim(sent: seq<SentSnapshot>, control: NetControl, outgoing: seq<OutMsg>, sim: Sim, sim': Sim,
                       sessions: map<ConnId, Session>, seen: set<ConnId>)
    requires Stream(sent, control, outgoing, sim, sessions, seen)
    requires forall t: nat, c: ConnId :: Recent(t, c, sim) ==> Recent(t, c, sim')
    ensures Stream(sent, control, outgoing, sim', sessions, seen)
  {
    hide Recent, OlderThanQueued;
    forall i | 0 <= i < |sent|
      ensures SentOk(sent[i], control, outgoing, sim', sessions, seen)
    {
      assert SentOk(sent[i], control, outgoing, sim, sessions, seen);
    }
  }

  lemma KeepHandleIn(s: State, h: Handshake)
    requires Inv(s) && s.sim.phase.InMessages? && s.sim.hand.EmptyHand? && s.sim.inBatch != []
    ensures Inv(HandleIn(s, h))
  {
    hide Binding, Life, LogGrammar, GuardsHold, SessionsOk, Mirror, AuthLine, VerdictsApplied, AuthReplies,
         ReliableLine, ReliableSent, Outgoing;
    hide Stream, MatchPushes, Flow, StartRecorded, AuthItems, HandleIncoming, OutOk;
    var t := HandleIn(s, h);
    var pending := Pending(s);
    var m := s.sim.inBatch[0];
    assert pending[0] == m && Pending(t) == pending[1..];
    HeadFindsItsSession(s.net.nextId, s.net.peers.Keys, s.sessions.Keys, s.ins.seen, pending);
    LifePop(s.net.nextId, s.net.peers.Keys, s.sessions.Keys, s.ins.seen, pending);
    if m.id in s.sessions {
      LiveIsSeen(s.net.nextId, s.net.peers.Keys, s.sessions.Keys, s.ins.seen, pending, m.id);
    }
    assert s.ins.processed + (s.sim.inBatch + s.incoming) == t.ins.processed + (t.sim.inBatch + t.incoming);
    TablesHandle(s.sessions, pending, s.net.peers, s.net.encryption, s.ins.seen, s.auths, Items(s), s.secures.acked, h);
    AuthItemsTakeRequest(s.sim.verdicts, s.http, t.sim.hand);
    HandleKeepsCounters(s.sessions, m, h, s.ins.seen);
    HandleReplyIsHello(s.sessions, m, h, s.ins.seen, s.secures);
    StreamUnderSessions(s.outs.snapshotsSent, s.net.control, s.outgoing, s.sim, s.sessions, t.sessions, s.ins.seen, t.ins.seen);
    StreamUnderSim(s.outs.snapshotsSent, s.net.control, s.outgoing, s.sim, t.sim, t.sessions, t.ins.seen);
    FlowUnderSessions(s.game, s.sim, t.sim, s.sessions.Keys, t.sessions.Keys, s.matches);
    StartRecordedUnderSim(s.game, s.sim, t.sim, s.matches);
    AuthRepliesOtherKind(s.outs.log, s.auths.applied, t.sim.hand);
    OutgoingUnderMoreHistory(s.net.control, s.outgoing, s.sim.hand, s.net.inFlight, s.outs.kicks, s.ins.seen,
        s.secures, t.ins.seen, t.secures);
    OutOkSeen(t.sim.hand, s.ins.seen, t.ins.seen, t.secures);
    OutgoingTakeReply(t.net.control, t.outgoing, t.net.inFlight, t.outs.kicks, t.ins.seen, t.secures, t.sim.hand);
  }

  lemma OutOkSeen(hand: Hand, seen: set<ConnId>, seen': set<ConnId>, secures: SecureHistory)
    requires hand.HoldingReply? ==> OutOk(hand.reply, seen, secures)
    requires seen <= seen'
    ensures hand.HoldingReply? ==> OutOk(hand.reply, seen', secures)
  {
  }

  lemma StartRecordedUnderSim(game: Match, sim: Sim, sim': Sim, matches: MatchHistory)
    requires StartRecorded(game, sim, matches) && sim'.phase == sim.phase && sim'.tick == sim.tick
        && sim'.countdown == sim.countdown
    ensures StartRecorded(game, sim', matches)
  {
  }

  // ---------------------------------------------------------------------------
  // The step that pushes what the hand holds
  // ---------------------------------------------------------------------------

  lemma AuthItemsPushRequest(verdicts: seq<Verdict>, http: Http, r: Request)
    ensures AuthItems(verdicts, http.(requests := http.requests + [r]), EmptyHand) == AuthItems(verdicts, http, HoldingRequest(r))
  {
    assert RequestIds(http.requests + [r]) == RequestIds(http.requests) + [r.id];
  }

  lemma AuthItemsOtherHand(verdicts: seq<Verdict>, http: Http, m: OutMsg)
    ensures AuthItems(verdicts, http, EmptyHand) == AuthItems(verdicts, http, HoldingReply(m))
  {
  }

  lemma OutgoingPush(control: NetControl, outgoing: seq<OutMsg>, hand: Hand, inFlight: map<nat, AckContext>,
                     kicks: seq<Kick>,
                     seen: set<ConnId>, secures: SecureHistory, m: OutMsg)
    requires Outgoing(control, outgoing, hand, inFlight, kicks, seen, secures) && OutOk(m, seen, secures)
    ensures Outgoing(control, outgoing + [m], EmptyHand, inFlight, kicks, seen, secures)
  {
    hide InFlightOk, KicksOk, ControlOk, OutOk;
  }

  lemma ReliableLinePush(log: seq<OutMsg>, handled: seq<OutMsg>, control: NetControl, outgoing: seq<OutMsg>, m: OutMsg)
    requires ReliableLine(log, handled, control, outgoing)
    ensures ReliableLine(log + [m], handled, control, outgoing + [m])
  {
    hide Reliable;
    ReliablePush(log, m);
    ReliablePush(outgoing, m);
    var tail := if IsReliableKind(m.kind) then [m] else [];
    assert handled + (PreparedReliable(control) + (Reliable(outgoing) + tail)) == handled + (PreparedReliable(control) + Reliable(outgoing)) + tail;
  }

  lemma ReliablePush(xs: seq<OutMsg>, m: OutMsg)
    ensures Reliable(xs + [m]) == Reliable(xs) + if IsReliableKind(m.kind) then [m] else []
  {
    FilterPush(ReliableMsg(), xs, m);
  }

  lemma MatchPushesOtherKind(log: seq<OutMsg>, matches: MatchHistory, m: OutMsg)
    requires MatchPushes(log, matches) && !IsMatchKind(m.kind)
    ensures MatchPushes(log + [m], matches)
  {
  }

  lemma StreamPushOther(sent: seq<SentSnapshot>, control: NetControl, outgoing: seq<OutMsg>, sim: Sim,
                        sessions: map<ConnId, Session>, seen: set<ConnId>, m: OutMsg)
    requires Stream(sent, control, outgoing, sim, sessions, seen) && m.kind != SnapshotOut
    ensures Stream(sent, control, outgoing + [m], sim, sessions, seen)
  {
    hide Recent, SentOk;
    forall t: nat, c: ConnId | OlderThanQueued(t, c, outgoing)
      ensures OlderThanQueued(t, c, outgoing + [m])
    {
    }
    SentPushOther(sent, control, outgoing, sim, sessions, seen, m);
  }

  lemma SentPushOther(sent: seq<SentSnapshot>, control: NetControl, outgoing: seq<OutMsg>, sim: Sim,
                      sessions: map<ConnId, Session>, seen: set<ConnId>, m: OutMsg)
    requires SentSnapshots(sent, control, outgoing, sim, sessions, seen) && m.kind != SnapshotOut
    ensures SentSnapshots(sent, control, outgoing + [m], sim, sessions, seen)
  {
    hide Recent;
    forall i | 0 <= i < |sent|
      ensures SentOk(sent[i], control, outgoing + [m], sim, sessions, seen)
    {
      assert SentOk(sent[i], control, outgoing, sim, sessions, seen);
    }
  }

  lemma KeepPushHand(s: State)
    requires Inv(s) && !s.sim.hand.EmptyHand?
    ensures Inv(PushHand(s))
  {
    hide Binding, Life, LogGrammar, GuardsHold, SessionsOk, Mirror, AuthLine, VerdictsApplied, AuthReplies,
         ReliableLine, ReliableSent, Outgoing;
    hide Stream, MatchPushes, Flow, StartRecorded, AuthItems, OutOk;
    var t := PushHand(s);
    StreamUnderSim(s.outs.snapshotsSent, s.net.control, s.outgoing, s.sim, t.sim, s.sessions, s.ins.seen);
    FlowUnderSessions(s.game, s.sim, t.sim, s.sessions.Keys, t.sessions.Keys, s.matches);
    StartRecordedUnderSim(s.game, s.sim, t.sim, s.matches);
    assert Pending(t) == Pending(s);
    match s.sim.hand
    case HoldingRequest(r) =>
      AuthItemsPushRequest(s.sim.verdicts, s.http, r);
      DropHandRequest(s.net.control, s.outgoing, s.sim.hand, s.net.inFlight, s.outs.kicks, s.ins.seen, s.secures,
          s.outs.log, s.auths.applied);
    case HoldingReply(m) =>
      AuthItemsOtherHand(s.sim.verdicts, s.http, m);
      HandReplyOk(s.net.control, s.outgoing, s.sim.hand, s.net.inFlight, s.outs.kicks, s.ins.seen, s.secures);
      OutgoingPush(s.net.control, s.outgoing, s.sim.hand, s.net.inFlight, s.outs.kicks, s.ins.seen, s.secures, m);
      ReliableLinePush(s.outs.log, s.outs.handled, s.net.control, s.outgoing, m);
      MatchPushesOtherKind(s.outs.log, s.matches, m);
      StreamPushOther(s.outs.snapshotsSent, s.net.control, s.outgoing, t.sim, s.sessions, s.ins.seen, m);
      AuthRepliesPushHand(s.outs.log, m, s.auths.applied);
  }

  lemma DropHandRequest(control: NetControl, outgoing: seq<OutMsg>, hand: Hand, inFlight: map<nat, AckContext>,
                        kicks: seq<Kick>,
                        seen: set<ConnId>, secures: SecureHistory, log: seq<OutMsg>, applied: seq<Verdict>)
    requires Outgoing(control, outgoing, hand, inFlight, kicks, seen, secures) && AuthReplies(log, hand, applied)
        && hand.HoldingRequest?
    ensures Outgoing(control, outgoing, EmptyHand, inFlight, kicks, seen, secures) && AuthReplies(log, EmptyHand, applied)
  {
  }

  lemma HandReplyOk(control: NetControl, outgoing: seq<OutMsg>, hand: Hand, inFlight: map<nat, AckContext>,
                    kicks: seq<Kick>,
                    seen: set<ConnId>, secures: SecureHistory)
    requires Outgoing(control, outgoing, hand, inFlight, kicks, seen, secures) && hand.HoldingReply?
    ensures OutOk(hand.reply, seen, secures)
  {
  }

  lemma AuthRepliesPushHand(log: seq<OutMsg>, m: OutMsg, applied: seq<Verdict>)
    requires AuthReplies(log, HoldingReply(m), applied)
    ensures AuthReplies(log + [m], EmptyHand, applied)
  {
    assert log + [m] + HandReply(EmptyHand) == log + HandReply(HoldingReply(m));
  }

  // ---------------------------------------------------------------------------
  // The step that applies one backend verdict
  // ---------------------------------------------------------------------------

  lemma ItemsHead(verdicts: seq<Verdict>, http: Http, hand: Hand)
    requires verdicts != []
    ensures AuthItems(verdicts, http, hand) == [verdicts[0].id] + AuthItems(verdicts[1..], http, hand)
  {
    assert VerdictIds(verdicts) == [verdicts[0].id] + VerdictIds(verdicts[1..]);
  }

  /** The oldest item is a waiting session's, or its session is gone. */
  lemma HeadIsWaiting(sessions: map<ConnId, Session>, seen: set<ConnId>, auths: AuthHistory, items: seq<ConnId>,
                      rest: seq<ConnId>, c: ConnId)
    requires AuthLine(sessions, seen, auths, items) && items == [c] + rest
    ensures c in sessions ==> sessions[c].auth == WaitingAuth
    ensures c in seen && c !in rest && c !in VerdictIds(auths.answered)
  {
    assert items[0] == c;
    assert c in sessions ==> StatusMatches(sessions[c].auth, c, items, auths.asked);
    DistinctParts(VerdictIds(auths.answered), items);
    DistinctParts([c], rest);
    assert c in [c];
    assert c in auths.asked;
  }

  lemma AuthLineVerdict(sessions: map<ConnId, Session>, seen: set<ConnId>, auths: AuthHistory, items: seq<ConnId>,
                        rest: seq<ConnId>, v: Verdict)
    requires AuthLine(sessions, seen, auths, items) && items == [v.id] + rest
    ensures AuthLine(ApplyVerdict(sessions, v).sessions, seen,
                     auths.(answered := auths.answered + [v], applied := if v.id in sessions then auths.applied + [v] else auths.applied), rest)
  {
    HeadIsWaiting(sessions, seen, auths, items, rest, v.id);
    var after := ApplyVerdict(sessions, v).sessions;
    assert VerdictIds(auths.answered + [v]) == VerdictIds(auths.answered) + [v.id];
    assert VerdictIds(auths.answered + [v]) + rest == VerdictIds(auths.answered) + items;
    forall d | d in after
      ensures StatusMatches(after[d].auth, d, rest, auths.asked)
    {
      assert StatusMatches(sessions[d].auth, d, items, auths.asked);
      assert d != v.id ==> (d in items <==> d in rest);
      assert v.id in items && v.id in auths.asked;
    }
  }

  lemma VerdictsAppliedVerdict(sessions: map<ConnId, Session>, seen: set<ConnId>, auths: AuthHistory,
                               items: seq<ConnId>, rest: seq<ConnId>, v: Verdict)
    requires AuthLine(sessions, seen, auths, items) && items == [v.id] + rest && VerdictsApplied(sessions, auths)
    ensures VerdictsApplied(ApplyVerdict(sessions, v).sessions,
                            auths.(answered := auths.answered + [v], applied := if v.id in sessions then auths.applied + [v] else auths.applied))
  {
    HeadIsWaiting(sessions, seen, auths, items, rest, v.id);
    hide AuthLine;
    if v.id in sessions {
      var applied := auths.applied + [v];
      forall w | w in auths.applied
        ensures w.id != v.id
      {
        var i :| 0 <= i < |auths.answered| && auths.answered[i] == w;
        assert VerdictIds(auths.answered)[i] == w.id;
      }
      assert VerdictIds(applied) == VerdictIds(auths.applied) + [v.id];
      DistinctPush(VerdictIds(auths.applied), v.id);
      forall c: ConnId, b: bool
        ensures Answered(applied, c, b) <==> Answered(auths.applied, c, b) || (c == v.id && b == v.valid)
      {
        AnsweredPush(auths.applied, v, c, b);
      }
      hide Answered, Distinct;
      var after := ApplyVerdict(sessions, v).sessions;
      forall c | c in after
        ensures after[c].auth == Valid <==> Answered(applied, c, true)
        ensures after[c].auth == Invalid <==> Answered(applied, c, false)
      {
        assert sessions[c].auth == Valid <==> Answered(auths.applied, c, true);
        assert sessions[c].auth == Invalid <==> Answered(auths.applied, c, false);
      }
    }
  }

  lemma AnsweredPush(vs: seq<Verdict>, v: Verdict, c: ConnId, b: bool)
    ensures Answered(vs + [v], c, b) <==> Answered(vs, c, b) || (c == v.id && b == v.valid)
  {
  }

  lemma TablesVerdict(sessions: map<ConnId, Session>, pending: seq<InMsg>, peers: map<ConnId, Peer>,
                      encryption: map<ConnId, bool>,
                      acked: set<ConnId>, v: Verdict)
    requires GuardsHold(sessions, pending) && SessionsOk(sessions, acked) && Mirror(peers, encryption, sessions)
    requires v.id in sessions ==> sessions[v.id].auth == WaitingAuth
    ensures
      var after := ApplyVerdict(sessions, v).sessions;
      GuardsHold(after, pending) && SessionsOk(after, acked) && Mirror(peers, encryption, after)
      && after.Keys == sessions.Keys && forall c :: c in after ==> after[c].allocations == sessions[c].allocations
  {
    var after := ApplyVerdict(sessions, v).sessions;
    assert after.Keys == sessions.Keys;
    forall m | m in pending
      ensures GuardHolds(after, m)
    {
      assert GuardHolds(sessions, m);
    }
    forall c | c in after
      ensures SessionOk(c, after[c], acked)
    {
      assert SessionOk(c, sessions[c], acked);
    }
  }

  lemma AuthRepliesVerdict(log: seq<OutMsg>, applied: seq<Verdict>, v: Verdict)
    requires AuthReplies(log, EmptyHand, applied)
    ensures AuthReplies(log, HoldingReply(AuthReplyMsg(v)), applied + [v])
  {
    assert log + HandReply(EmptyHand) == log;
    FilterPush(AuthReplyKind(), log, AuthReplyMsg(v));
    assert RepliesTo(applied + [v]) == RepliesTo(applied) + [AuthReplyMsg(v)];
  }

  lemma KeepHandleVerdict(s: State)
    requires Inv(s) && s.sim.phase.VerdictMessages? && s.sim.hand.EmptyHand? && s.sim.verdicts != []
    ensures Inv(HandleVerdict(s))
  {
    hide Binding, Life, LogGrammar, GuardsHold, SessionsOk, Mirror, AuthLine, VerdictsApplied, AuthReplies,
         ReliableLine, ReliableSent, Outgoing;
    hide Stream, MatchPushes, Flow, StartRecorded, AuthItems, AfterVerdict;
    var t := HandleVerdict(s);
    var v := s.sim.verdicts[0];
    var rest := AuthItems(t.sim.verdicts, s.http, s.sim.hand);
    ItemsHead(s.sim.verdicts, s.http, s.sim.hand);
    HeadIsWaiting(s.sessions, s.ins.seen, s.auths, Items(s), rest, v.id);
    AuthLineVerdict(s.sessions, s.ins.seen, s.auths, Items(s), rest, v);
    VerdictsAppliedVerdict(s.sessions, s.ins.seen, s.auths, Items(s), rest, v);
    TablesVerdict(s.sessions, Pending(s), s.net.peers, s.net.encryption, s.secures.acked, v);
    AuthItemsOtherHand(t.sim.verdicts, s.http, AuthReplyMsg(v));
    assert Pending(t) == Pending(s);
    StreamUnderSessions(s.outs.snapshotsSent, s.net.control, s.outgoing, s.sim, s.sessions, t.sessions, s.ins.seen, t.ins.seen);
    StreamUnderSim(s.outs.snapshotsSent, s.net.control, s.outgoing, s.sim, t.sim, t.sessions, t.ins.seen);
    FlowUnderSessions(s.game, s.sim, t.sim, s.sessions.Keys, t.sessions.Keys, s.matches);
    StartRecordedUnderSim(s.game, s.sim, t.sim, s.matches);
    AuthRepliesVerdict(s.outs.log, s.auths.applied, v);
    OutgoingUnderMoreHistory(s.net.control, s.outgoing, s.sim.hand, s.net.inFlight, s.outs.kicks, s.ins.seen,
        s.secures, t.ins.seen, t.secures);
    OutgoingTakeReply(t.net.control, t.outgoing, t.net.inFlight, t.outs.kicks, t.ins.seen, t.secures, t.sim.hand);
  }
}
