/** The secure-session flag and the session keys. The flag is not permanent: what a
    session holds is what the last handshake that got as far as signing left there. */
module Handshakes {
  import opened Wrappers
  import opened Messages
  import opened Membership
  import opened Lifecycle
  import opened Invariant
  import opened Threads
  import opened Runs
  import opened Chain
  import opened Guarantees

  /** The outcome of a hello of `c` handled by this step, when its key exchange worked. */
  function HandshakeBy(s: State, step: Step, c: ConnId): Option<Handshake> {
    if step.HandleInStep? && !step.handshake.KeyExchangeFails? && s.sim.inBatch != [] && s.sim.inBatch[0].HelloMsg? && s.sim.inBatch[0].id == c
    then Some(step.handshake) else None
  }

  /** The last such outcome before step `k`. */
  function LastHandshake(run: seq<State>, steps: seq<Step>, k: nat, c: ConnId): Option<Handshake>
    requires k <= |steps| < |run|
  {
    if k == 0 then None
    else
      var h := HandshakeBy(run[k - 1], steps[k - 1], c);
      if h.Some? then h else LastHandshake(run, steps, k - 1, c)
  }

  /** Flag and keys after a handshake: its keys when it succeeded, otherwise zeros. */
  predicate KeyedBy(x: Session, h: Option<Handshake>) {
    if h.Some? && h.value.HandshakeOk? then x.secure && x.rxKey == h.value.rxKey && x.txKey == h.value.txKey
    else !x.secure && x.rxKey == ZERO_KEY && x.txKey == ZERO_KEY
  }

  predicate SameKeys(x: Session, y: Session) {
    y.secure == x.secure && y.rxKey == x.rxKey && y.txKey == x.txKey
  }

  // ---------------------------------------------------------------------------
  // One step
  // ---------------------------------------------------------------------------

  lemma HandlingKeys(sessions: map<ConnId, Session>, m: InMsg, h: Handshake, c: ConnId)
    requires m.ConnectMsg? <==> m.id !in sessions
    ensures
      var after := HandleIncoming(sessions, m, h).sessions;
      c in after ==>
        if c !in sessions then m == ConnectMsg(c) && KeyedBy(after[c], None)
        else if m.HelloMsg? && m.id == c && !h.KeyExchangeFails? then KeyedBy(after[c], Some(h))
        else SameKeys(sessions[c], after[c])
  {
  }

  /** What one step does to flag and keys of one connection. */
  ghost predicate KeysMove(s: State, step: Step, t: State, c: ConnId) {
    var h := HandshakeBy(s, step, c);
    && (h.Some? ==> c in s.sessions)
    && (c in s.sessions && c in t.sessions ==> if h.Some? then KeyedBy(t.sessions[c], h) else SameKeys(s.sessions[c], t.sessions[c]))
    && (c !in s.sessions && c in t.sessions ==> c !in s.ins.seen && KeyedBy(t.sessions[c], None))
  }

  lemma KeysMoveHandleIn(s: State, h: Handshake, c: ConnId)
    requires Inv(s) && s.sim.inBatch != []
    ensures KeysMove(s, HandleInStep(h), HandleIn(s, h), c)
  {
    hide Inv, HandleIncoming, Life;
    LineFacts(s);
    HeadFindsItsSession(s.net.nextId, s.net.peers.Keys, s.sessions.Keys, s.ins.seen, Pending(s));
    HandlingKeys(s.sessions, s.sim.inBatch[0], h, c);
  }

  lemma KeysMoveVerdict(s: State, c: ConnId)
    requires s.sim.verdicts != []
    ensures KeysMove(s, HandleVerdictStep, HandleVerdict(s), c)
  {
  }

  lemma SameTablesSameKeys(a: map<ConnId, Session>, b: map<ConnId, Session>, c: ConnId)
    requires SessionsSameForSimulation(a, b)
    ensures c in a <==> c in b
    ensures c in a ==> SameKeys(a[c], b[c])
  {
  }

  lemma OthersKeepTables(s: State, step: Step, t: State)
    requires Goes(s, step, t) && !step.HandleInStep? && !step.HandleVerdictStep?
    ensures SessionsSameForSimulation(s.sessions, t.sessions)
  {
    hide Allowed, Next, Later, SessionsSameForSimulation;
    if IsNetworkStep(step) {
      NetworkKeeps(s, step);
    } else {
      OnlyHandlersWriteSessions(s, step);
      SessionsSameRefl(s.sessions);
    }
  }

  lemma StepMovesKeys(s: State, step: Step, t: State, c: ConnId)
    requires Inv(s) && Goes(s, step, t)
    ensures KeysMove(s, step, t, c)
  {
    hide Inv, Allowed, Next, HandleIn, HandleVerdict, SessionsSameForSimulation;
    HandlersAre(s, step);
    if step.HandleInStep? {
      KeysMoveHandleIn(s, step.handshake, c);
    } else if step.HandleVerdictStep? {
      KeysMoveVerdict(s, c);
    } else {
      OthersKeepTables(s, step, t);
      SameTablesSameKeys(s.sessions, t.sessions, c);
    }
  }

  /** The flag falls exactly when the simulation handles another hello of the same
      connection and signing fails, and rises exactly when a handshake succeeds. */
  lemma SecureChangesExactly(run: seq<State>, steps: seq<Step>, k: nat, c: ConnId)
    requires IsRun(run, steps) && k < |steps| && c in run[k].sessions && c in run[k + 1].sessions
    ensures run[k].sessions[c].secure ==> (!run[k + 1].sessions[c].secure <==> HandshakeBy(run[k], steps[k], c) == Some(SigningFails))
    ensures !run[k].sessions[c].secure ==>
              (run[k + 1].sessions[c].secure <==> HandshakeBy(run[k], steps[k], c).Some? && HandshakeBy(run[k], steps[k], c).value.HandshakeOk?)
  {
    hide Inv, Goes;
    RunInv(run, steps, k);
    StepMovesKeys(run[k], steps[k], run[k + 1], c);
  }

  // ---------------------------------------------------------------------------
  // Runs
  // ---------------------------------------------------------------------------

  /** Flag and both keys of every session are those of the last handshake of that very
      connection whose key exchange worked. */
  lemma {:induction false} KeyedByTheLastHandshake(run: seq<State>, steps: seq<Step>, k: nat, c: ConnId)
    requires IsRun(run, steps) && k <= |steps|
    ensures c in run[k].sessions ==> KeyedBy(run[k].sessions[c], LastHandshake(run, steps, k, c))
    ensures c !in run[k].ins.seen ==> LastHandshake(run, steps, k, c) == None
  {
    hide Inv, Goes, HandshakeBy, KeyedBy;
    if k == 0 {
      NothingAtFirst(c);
    } else {
      var s, step, t := run[k - 1], steps[k - 1], run[k];
      KeyedByTheLastHandshake(run, steps, k - 1, c);
      RunInv(run, steps, k - 1);
      StepMovesKeys(s, step, t, c);
      LaterRun(run, steps, k - 1, k);
      if c in s.sessions {
        SessionIsSeen(s, c);
      }
      if c in s.sessions && c in t.sessions && HandshakeBy(s, step, c).None? {
        KeyedTransfers(s.sessions[c], t.sessions[c], LastHandshake(run, steps, k - 1, c));
      }
    }
  }

  lemma NothingAtFirst(c: ConnId)
    ensures c !in Initial().sessions
  {
  }

  lemma KeyedTransfers(x: Session, y: Session, h: Option<Handshake>)
    requires KeyedBy(x, h) && SameKeys(x, y)
    ensures KeyedBy(y, h)
  {
  }

  lemma {:induction false} SomeHandshake(run: seq<State>, steps: seq<Step>, i: nat, k: nat, c: ConnId)
    requires i < k <= |steps| < |run| && HandshakeBy(run[i], steps[i], c).Some?
    ensures LastHandshake(run, steps, k, c).Some?
  {
    if i < k - 1 {
      SomeHandshake(run, steps, i, k - 1, c);
    }
  }

  /** Nothing switches packet encryption off again. An encrypted connection that is not
      secure is one whose last hello failed at signing, and it goes on encrypting and
      decrypting under the key of 32 zeros; any other encrypted connection uses the keys
      of its last successful handshake. */
  lemma InsecureMeansZeroKey(run: seq<State>, steps: seq<Step>, k: nat, c: ConnId)
    requires IsRun(run, steps) && k < |run| && c in run[k].sessions && run[k].sessions[c].encrypted
    ensures
      var x, h := run[k].sessions[c], LastHandshake(run, steps, k, c);
      && h.Some?
      && (!x.secure <==> h == Some(SigningFails))
      && (h == Some(SigningFails) ==> x.rxKey == ZERO_KEY && x.txKey == ZERO_KEY)
      && (h != Some(SigningFails) ==> h.value.HandshakeOk? && x.rxKey == h.value.rxKey && x.txKey == h.value.txKey)
  {
    hide Inv, Goes;
    KeyedByTheLastHandshake(run, steps, k, c);
    var hello, ack := EncryptedMeans(run, steps, k, c);
    SomeHandshake(run, steps, hello, k, c);
    OnlyDecidedHandshakes(run, steps, k, c);
  }

  lemma {:induction false} OnlyDecidedHandshakes(run: seq<State>, steps: seq<Step>, k: nat, c: ConnId)
    requires k <= |steps| < |run|
    ensures LastHandshake(run, steps, k, c).Some? ==> !LastHandshake(run, steps, k, c).value.KeyExchangeFails?
  {
    if k > 0 {
      OnlyDecidedHandshakes(run, steps, k - 1, c);
    }
  }
}
