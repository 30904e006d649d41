/** The wire packets: what the client sends, what the server sends, and the exact
    byte layout of each. A parser is specified by the layout it must invert. */
module Packets {
  import opened Wrappers
  import opened Bytes

  const KEY_BYTES: nat := 32        // crypto_kx public and session keys
  const NONCE_BYTES: nat := 16      // client nonce of the handshake
  const SIGNATURE_BYTES: nat := 64  // Ed25519 signature
  const MAX_TOKEN_BYTES: nat := 1024

  const PROTOCOL_VERSION: bv32 := (1 << 16) | (2 << 8) | 5

  datatype HelloPacket = HelloPacket(version: bv32, clientKey: seq<byte>, nonce: seq<byte>)
  datatype AuthPacket = AuthPacket(token: seq<byte>)
  datatype ReadyPacket = ReadyPacket
  datatype InputPacket = InputPacket(
    sequenceNumber: bv32, lastSnapshotId: bv32,
    moveHeld: byte, movePressed: byte, moveReleased: byte,
    actionHeld: byte, actionPressed: byte, actionReleased: byte)

  datatype SnapshotPacket = SnapshotPacket(snapshotId: bv32, serverTick: bv64, serverTimeNs: bv64, lastInput: bv32)

  const HELLO_TYPE: byte := 0
  const AUTH_TYPE: byte := 1
  const READY_TYPE: byte := 2
  const INPUT_TYPE: byte := 0
  const SNAPSHOT_TYPE: byte := 0

  // ---------------------------------------------------------------------------
  // Layouts
  // ---------------------------------------------------------------------------

  predicate WellFormedHello(p: HelloPacket) {
    |p.clientKey| == KEY_BYTES && |p.nonce| == NONCE_BYTES
  }

  function HelloBytes(p: HelloPacket): seq<byte> {
    [HELLO_TYPE] + (Be32(p.version) + (p.clientKey + p.nonce))
  }

  predicate WellFormedAuth(p: AuthPacket) {
    |p.token| <= MAX_TOKEN_BYTES
  }

  function AuthBytes(p: AuthPacket): seq<byte>
    requires WellFormedAuth(p)
  {
    [AUTH_TYPE] + PrefixedString(p.token)
  }

  function ReadyBytes(): seq<byte> {
    [READY_TYPE]
  }

  function InputBytes(p: InputPacket): seq<byte> {
    [INPUT_TYPE] + (Be32(p.sequenceNumber) + (Be32(p.lastSnapshotId) +
    [p.moveHeld, p.movePressed, p.moveReleased, p.actionHeld, p.actionPressed, p.actionReleased]))
  }

  function SnapshotBytes(p: SnapshotPacket): seq<byte> {
    [SNAPSHOT_TYPE] + (Be32(p.snapshotId) + (Be64(p.serverTick) + (Be64(p.serverTimeNs) + Be32(p.lastInput))))
  }

  // ---------------------------------------------------------------------------
  // What a parser accepts, read off the byte string at fixed offsets
  // ---------------------------------------------------------------------------

  function ParseHello(data: seq<byte>): Option<HelloPacket> {
    if |data| == 5 + KEY_BYTES + NONCE_BYTES && data[0] == HELLO_TYPE then
      Some(HelloPacket(Value32(data[1..5]), data[5..5 + KEY_BYTES], data[5 + KEY_BYTES..]))
    else None
  }

  function ParseAuth(data: seq<byte>): Option<AuthPacket> {
    if |data| >= 3 && data[0] == AUTH_TYPE && StringLength(data[1..]) <= MAX_TOKEN_BYTES && |data| == 3 + StringLength(data[1..]) then
      Some(AuthPacket(data[3..]))
    else None
  }

  function ParseReady(data: seq<byte>): Option<ReadyPacket> {
    if |data| == 1 && data[0] == READY_TYPE then Some(ReadyPacket) else None
  }

  function ParseInput(data: seq<byte>): Option<InputPacket> {
    if |data| == 15 && data[0] == INPUT_TYPE then
      Some(InputPacket(Value32(data[1..5]), Value32(data[5..9]), data[9], data[10], data[11], data[12], data[13], data[14]))
    else None
  }

  function ParseSnapshot(data: seq<byte>): Option<SnapshotPacket> {
    if |data| == 25 && data[0] == SNAPSHOT_TYPE then
      Some(SnapshotPacket(Value32(data[1..5]), Value64(data[5..13]), Value64(data[13..21]), Value32(data[21..])))
    else None
  }

  // ---------------------------------------------------------------------------
  // Parsers and layouts are exact inverses: a byte string is accepted with result
  // `p` precisely when it is the encoding of `p`.
  // ---------------------------------------------------------------------------

  lemma HelloExact(data: seq<byte>, p: HelloPacket)
    ensures ParseHello(data) == Some(p) <==> WellFormedHello(p) && data == HelloBytes(p)
  {
    hide Be32, Value32;
    if |data| == 5 + KEY_BYTES + NONCE_BYTES {
      Be32RoundTrip(p.version, data[1..5]);
      var keyAndNonce := data[5..5 + KEY_BYTES] + data[5 + KEY_BYTES..];
      assert data == data[..1] + (data[1..5] + keyAndNonce);
      if WellFormedHello(p) && data == HelloBytes(p) {
        Peel(data[..1], data[1..5] + keyAndNonce, [HELLO_TYPE], Be32(p.version) + (p.clientKey + p.nonce));
        Peel(data[1..5], keyAndNonce, Be32(p.version), p.clientKey + p.nonce);
        Peel(data[5..5 + KEY_BYTES], data[5 + KEY_BYTES..], p.clientKey, p.nonce);
      }
    }
  }

  lemma AuthExact(data: seq<byte>, p: AuthPacket)
    ensures ParseAuth(data) == Some(p) <==> WellFormedAuth(p) && data == AuthBytes(p)
  {
    hide WordOf, Nat16, Value16, Be16;
    if |data| >= 3 {
      var w := data[1..][..2];
      assert data == data[..1] + (w + data[3..]);
      if ParseAuth(data) == Some(p) {
        WordInverse(Value16(w));
        Be16RoundTrip(Value16(w), w);
      }
      if WellFormedAuth(p) && data == AuthBytes(p) {
        Peel(data[..1], w + data[3..], [AUTH_TYPE], PrefixedString(p.token));
        Peel(w, data[3..], Be16(WordOf(|p.token|)), p.token);
        Be16RoundTrip(WordOf(|p.token|), w);
        WordValue(|p.token|);
      }
    } else if WellFormedAuth(p) {
      // An empty token still takes its two length bytes.
      assert |AuthBytes(p)| >= 3;
    }
  }

  lemma ReadyExact(data: seq<byte>)
    ensures ParseReady(data) == Some(ReadyPacket) <==> data == ReadyBytes()
  {
  }

  lemma InputExact(data: seq<byte>, p: InputPacket)
    ensures ParseInput(data) == Some(p) <==> data == InputBytes(p)
  {
    hide Be32, Value32;
    if |data| == 15 {
      Be32RoundTrip(p.sequenceNumber, data[1..5]);
      Be32RoundTrip(p.lastSnapshotId, data[5..9]);
      var flags := [p.moveHeld, p.movePressed, p.moveReleased, p.actionHeld, p.actionPressed, p.actionReleased];
      assert data == data[..1] + (data[1..5] + (data[5..9] + data[9..]));
      assert data[9..] == [data[9], data[10], data[11], data[12], data[13], data[14]];
      if data == InputBytes(p) {
        Peel(data[..1], data[1..5] + (data[5..9] + data[9..]), [INPUT_TYPE],
             Be32(p.sequenceNumber) + (Be32(p.lastSnapshotId) + flags));
        Peel(data[1..5], data[5..9] + data[9..], Be32(p.sequenceNumber), Be32(p.lastSnapshotId) + flags);
        Peel(data[5..9], data[9..], Be32(p.lastSnapshotId), flags);
      }
    }
  }

  lemma SnapshotExact(data: seq<byte>, p: SnapshotPacket)
    ensures ParseSnapshot(data) == Some(p) <==> data == SnapshotBytes(p)
  {
    hide Be32, Be64, Value32, Value64;
    if |data| == 25 {
      Be32RoundTrip(p.snapshotId, data[1..5]);
      Be64RoundTrip(p.serverTick, data[5..13]);
      Be64RoundTrip(p.serverTimeNs, data[13..21]);
      Be32RoundTrip(p.lastInput, data[21..]);
      var timeOn := data[13..21] + data[21..];
      assert data == data[..1] + (data[1..5] + (data[5..13] + timeOn));
      if data == SnapshotBytes(p) {
        var pTimeOn := Be64(p.serverTimeNs) + Be32(p.lastInput);
        Peel(data[..1], data[1..5] + (data[5..13] + timeOn), [SNAPSHOT_TYPE],
             Be32(p.snapshotId) + (Be64(p.serverTick) + pTimeOn));
        Peel(data[1..5], data[5..13] + timeOn, Be32(p.snapshotId), Be64(p.serverTick) + pTimeOn);
        Peel(data[5..13], timeOn, Be64(p.serverTick), pTimeOn);
        Peel(data[13..21], data[21..], Be64(p.serverTimeNs), Be32(p.lastInput));
      }
    }
  }

  // ---------------------------------------------------------------------------
  // The parsers, as sequential reads
  // ---------------------------------------------------------------------------

  method DeserializeHello(data: seq<byte>) returns (r: Option<HelloPacket>)
    ensures r == ParseHello(data)
  {
    hide Be32, Value32;
    var reader := new ByteReader(data);
    var kind := reader.ReadU8();
    if kind.None? { return None; }
    if kind.value != HELLO_TYPE { return None; }
    var version := reader.ReadU32();
    if version.None? { return None; }
    var key := reader.ReadBytes(KEY_BYTES);
    if key.None? { return None; }
    var nonce := reader.ReadBytes(NONCE_BYTES);
    if nonce.None? { return None; }
    if !reader.Empty() { return None; }
    Be32RoundTrip(version.value, data[1..5]);
    assert nonce.value == data[5 + KEY_BYTES..];
    r := Some(HelloPacket(version.value, key.value, nonce.value));
  }

  method DeserializeAuth(data: seq<byte>) returns (r: Option<AuthPacket>)
    ensures r == ParseAuth(data)
  {
    hide WordOf, Nat16, Value16, Be16;
    var reader := new ByteReader(data);
    var kind := reader.ReadU8();
    if kind.None? { return None; }
    if kind.value != AUTH_TYPE { return None; }
    var token := reader.ReadString(MAX_TOKEN_BYTES);
    if token.None? { return None; }
    if !reader.Empty() { return None; }
    r := Some(AuthPacket(token.value));
    assert data == data[..1] + data[1..];
    AuthExact(data, r.value);
  }

  method DeserializeReady(data: seq<byte>) returns (r: Option<ReadyPacket>)
    ensures r == ParseReady(data)
  {
    var reader := new ByteReader(data);
    var kind := reader.ReadU8();
    if kind.None? { return None; }
    if kind.value != READY_TYPE { return None; }
    if !reader.Empty() { return None; }
    r := Some(ReadyPacket);
  }

  datatype Buttons = Buttons(held: byte, pressed: byte, released: byte)

  /** Three of the six flag bytes of an input packet. */
  method ReadButtons(reader: ByteReader) returns (r: Option<Buttons>)
    requires reader.Valid()
    modifies reader
    ensures reader.Valid()
    ensures r.Some? <==> old(reader.offset) + 3 <= |reader.data|
    ensures r.Some? ==>
              && reader.offset == old(reader.offset) + 3
              && reader.data[old(reader.offset)] == r.value.held
              && reader.data[old(reader.offset) + 1] == r.value.pressed
              && reader.data[old(reader.offset) + 2] == r.value.released
  {
    var held := reader.ReadU8();
    if held.None? { return None; }
    var pressed := reader.ReadU8();
    if pressed.None? { return None; }
    var released := reader.ReadU8();
    if released.None? { return None; }
    ghost var o := old(reader.offset);
    assert reader.data[o] == reader.data[o..o + 1][0] && reader.data[o + 1] == reader.data[o + 1..o + 2][0];
    assert reader.data[o + 2] == reader.data[o + 2..o + 3][0];
    return Some(Buttons(held.value, pressed.value, released.value));
  }

  method DeserializeInput(data: seq<byte>) returns (r: Option<InputPacket>)
    ensures r == ParseInput(data)
  {
    hide Be32, Value32;
    var reader := new ByteReader(data);
    var kind := reader.ReadU8();
    if kind.None? { return None; }
    if kind.value != INPUT_TYPE { return None; }
    var number := reader.ReadU32();
    if number.None? { return None; }
    var snapshot := reader.ReadU32();
    if snapshot.None? { return None; }
    var move := ReadButtons(reader);
    if move.None? { return None; }
    var action := ReadButtons(reader);
    if action.None? { return None; }
    if !reader.Empty() { return None; }
    r := Some(InputPacket(number.value, snapshot.value, move.value.held, move.value.pressed, move.value.released,
                          action.value.held, action.value.pressed, action.value.released));
    Be32RoundTrip(number.value, data[1..5]);
    Be32RoundTrip(snapshot.value, data[5..9]);
  }

  method DeserializeSnapshot(data: seq<byte>) returns (r: Option<SnapshotPacket>)
    ensures r == ParseSnapshot(data)
  {
    hide Be32, Be64, Value32, Value64;
    var reader := new ByteReader(data);
    var kind := reader.ReadU8();
    if kind.None? { return None; }
    if kind.value != SNAPSHOT_TYPE { return None; }
    var id := reader.ReadU32();
    if id.None? { return None; }
    var tick := reader.ReadU64();
    if tick.None? { return None; }
    var time := reader.ReadU64();
    if time.None? { return None; }
    var input := reader.ReadU32();
    if input.None? { return None; }
    if !reader.Empty() { return None; }
    r := Some(SnapshotPacket(id.value, tick.value, time.value, input.value));
    Be32RoundTrip(id.value, data[1..5]);
    Be64RoundTrip(tick.value, data[5..13]);
    Be64RoundTrip(time.value, data[13..21]);
    Be32RoundTrip(input.value, data[21..]);
  }

  // ---------------------------------------------------------------------------
  // The printers, as sequential writes
  // ---------------------------------------------------------------------------

  datatype HelloStatus = HelloSuccess | InvalidClientKey | AttestationFailed {
    function Code(): byte {
      match this case HelloSuccess => 0 case InvalidClientKey => 1 case AttestationFailed => 2
    }
  }

  datatype HelloResponsePacket = HelloResponsePacket(
    status: HelloStatus, serverKey: seq<byte>, issuedAt: bv64, expiresAt: bv64,
    nonceEcho: seq<byte>, signature: seq<byte>)
  datatype MatchInitPacket = MatchInitPacket(
    mapName: seq<byte>, mapVersion: bv32, mapChecksum: bv32, serverTick: bv64, tickRateHz: bv32, serverTimeNs: bv64)
  datatype MatchStartPacket = MatchStartPacket(serverTick: bv64, startTick: bv64, countdown: bv32, serverTimeNs: bv64)

  predicate WellFormedHelloResponse(p: HelloResponsePacket) {
    |p.serverKey| == KEY_BYTES && |p.nonceEcho| == NONCE_BYTES && |p.signature| == SIGNATURE_BYTES
  }

  /** Every reliable packet the server prints. */
  datatype ServerPacket =
    | HelloResponse(hello: HelloResponsePacket)
    | AuthResponse(success: bool)
    | MatchInit(init: MatchInitPacket)
    | WorldInit
    | MatchStart(start: MatchStartPacket)

  predicate WellFormedServerPacket(p: ServerPacket) {
    match p
    case HelloResponse(h) => WellFormedHelloResponse(h)
    case MatchInit(m) => |m.mapName| < 0x1_0000
    case _ => true
  }

  function ServerBytes(p: ServerPacket): seq<byte>
    requires WellFormedServerPacket(p)
  {
    match p
    case HelloResponse(h) =>
      [0, h.status.Code()] + (h.serverKey + (Be64(h.issuedAt) + (Be64(h.expiresAt) + (h.nonceEcho + h.signature))))
    case AuthResponse(success) => [1, if success then 0 else 1]
    case MatchInit(m) =>
      [2] + (PrefixedString(m.mapName) + (Be32(m.mapVersion) + (Be32(m.mapChecksum) + (Be64(m.serverTick) +
      (Be32(m.tickRateHz) + Be64(m.serverTimeNs))))))
    case WorldInit => [3]
    case MatchStart(m) => [4] + (Be64(m.serverTick) + (Be64(m.startTick) + (Be32(m.countdown) + Be64(m.serverTimeNs))))
  }

  /** The fields of a handshake reply, one after another. */
  function HelloResponseFields(h: HelloResponsePacket): seq<byte> {
    [0, h.status.Code()] + h.serverKey + Be64(h.issuedAt) + Be64(h.expiresAt) + h.nonceEcho + h.signature
  }

  lemma HelloResponseLayout(h: HelloResponsePacket)
    requires WellFormedHelloResponse(h)
    ensures HelloResponseFields(h) == ServerBytes(HelloResponse(h))
  {
  }

  method SerializeHelloResponse(h: HelloResponsePacket) returns (bytes: seq<byte>)
    requires WellFormedHelloResponse(h)
    ensures bytes == ServerBytes(HelloResponse(h))
  {
    hide Be64, ServerBytes;
    var writer := new ByteWriter();
    writer.WriteU8(0);
    writer.WriteU8(h.status.Code());
    writer.WriteBytes(h.serverKey);
    writer.WriteU64(h.issuedAt);
    writer.WriteU64(h.expiresAt);
    writer.WriteBytes(h.nonceEcho);
    writer.WriteBytes(h.signature);
    bytes := writer.buffer;
    HelloResponseLayout(h);
  }

  method SerializeAuthResponse(success: bool) returns (bytes: seq<byte>)
    ensures bytes == ServerBytes(AuthResponse(success))
  {
    var writer := new ByteWriter();
    writer.WriteU8(1);
    writer.WriteU8(if success then 0 else 1);
    bytes := writer.buffer;
  }

  /** The fields of a match announcement, one after another. */
  function MatchInitFields(m: MatchInitPacket): seq<byte>
    requires |m.mapName| < 0x1_0000
  {
    [2] + PrefixedString(m.mapName) + Be32(m.mapVersion) + Be32(m.mapChecksum) + Be64(m.serverTick) +
    Be32(m.tickRateHz) + Be64(m.serverTimeNs)
  }

  lemma MatchInitLayout(m: MatchInitPacket)
    requires |m.mapName| < 0x1_0000
    ensures MatchInitFields(m) == ServerBytes(MatchInit(m))
  {
    hide Be32, Be64, PrefixedString;
    var tail := Be64(m.serverTick) + (Be32(m.tickRateHz) + Be64(m.serverTimeNs));
    var front := [2] + PrefixedString(m.mapName) + Be32(m.mapVersion);
    Regroup5(front, Be32(m.mapChecksum), Be64(m.serverTick), Be32(m.tickRateHz), Be64(m.serverTimeNs));
    Regroup([2] + PrefixedString(m.mapName), Be32(m.mapVersion), Be32(m.mapChecksum) + tail);
    Regroup([2], PrefixedString(m.mapName), Be32(m.mapVersion) + (Be32(m.mapChecksum) + tail));
  }

  /** Printing fails exactly when the map name does not fit its length word. */
  method SerializeMatchInit(m: MatchInitPacket) returns (r: Option<seq<byte>>)
    ensures r.Some? <==> WellFormedServerPacket(MatchInit(m))
    ensures r.Some? ==> r.value == ServerBytes(MatchInit(m))
  {
    hide Be32, Be64, PrefixedString, ServerBytes;
    var writer := new ByteWriter();
    writer.WriteU8(2);
    assert writer.buffer == [2];
    var ok := writer.WriteString(m.mapName);
    if !ok {
      return None;
    }
    writer.WriteU32(m.mapVersion);
    writer.WriteU32(m.mapChecksum);
    writer.WriteU64(m.serverTick);
    writer.WriteU32(m.tickRateHz);
    writer.WriteU64(m.serverTimeNs);
    r := Some(writer.buffer);
    assert r.value == MatchInitFields(m);
    MatchInitLayout(m);
  }

  method SerializeWorldInit() returns (bytes: seq<byte>)
    ensures bytes == ServerBytes(WorldInit)
  {
    var writer := new ByteWriter();
    writer.WriteU8(3);
    bytes := writer.buffer;
  }

  /** The fields of a start announcement, one after another. */
  function MatchStartFields(m: MatchStartPacket): seq<byte> {
    [4] + Be64(m.serverTick) + Be64(m.startTick) + Be32(m.countdown) + Be64(m.serverTimeNs)
  }

  lemma MatchStartLayout(m: MatchStartPacket)
    ensures MatchStartFields(m) == ServerBytes(MatchStart(m))
  {
    hide Be32, Be64;
    Regroup5([4], Be64(m.serverTick), Be64(m.startTick), Be32(m.countdown), Be64(m.serverTimeNs));
  }

  method SerializeMatchStart(m: MatchStartPacket) returns (bytes: seq<byte>)
    ensures bytes == ServerBytes(MatchStart(m))
  {
    hide Be32, Be64, ServerBytes;
    var writer := new ByteWriter();
    writer.WriteU8(4);
    writer.WriteU64(m.serverTick);
    writer.WriteU64(m.startTick);
    writer.WriteU32(m.countdown);
    writer.WriteU64(m.serverTimeNs);
    bytes := writer.buffer;
    MatchStartLayout(m);
  }

  /** The fields of a snapshot, one after another. */
  function SnapshotFields(p: SnapshotPacket): seq<byte> {
    [SNAPSHOT_TYPE] + Be32(p.snapshotId) + Be64(p.serverTick) + Be64(p.serverTimeNs) + Be32(p.lastInput)
  }

  lemma SnapshotLayout(p: SnapshotPacket)
    ensures SnapshotFields(p) == SnapshotBytes(p)
  {
    hide Be32, Be64;
    Regroup5([SNAPSHOT_TYPE], Be32(p.snapshotId), Be64(p.serverTick), Be64(p.serverTimeNs), Be32(p.lastInput));
  }

  method SerializeSnapshot(p: SnapshotPacket) returns (bytes: seq<byte>)
    ensures bytes == SnapshotBytes(p)
  {
    hide Be32, Be64, SnapshotBytes;
    var writer := new ByteWriter();
    writer.WriteU8(SNAPSHOT_TYPE);
    writer.WriteU32(p.snapshotId);
    writer.WriteU64(p.serverTick);
    writer.WriteU64(p.serverTimeNs);
    writer.WriteU32(p.lastInput);
    bytes := writer.buffer;
    SnapshotLayout(p);
  }

  // ---------------------------------------------------------------------------
  // No two reliable server packets share an encoding, whatever their kinds
  // ---------------------------------------------------------------------------

  lemma Be32Injective(v: bv32, w: bv32)
    requires Be32(v) == Be32(w)
    ensures v == w
  {
  }

  lemma Be64Injective(v: bv64, w: bv64)
    requires Be64(v) == Be64(w)
    ensures v == w
  {
  }

  /** A prefixed string can be peeled off the front of any byte string in one way. */
  lemma PrefixedStringPrefixCode(s: seq<byte>, sTail: seq<byte>, t: seq<byte>, tTail: seq<byte>)
    requires |s| < 0x1_0000 && |t| < 0x1_0000
    requires PrefixedString(s) + sTail == PrefixedString(t) + tTail
    ensures s == t && sTail == tTail
  {
    hide WordOf, Nat16, Be16, Value16;
    var all := PrefixedString(s) + sTail;
    assert all[..2] == Be16(WordOf(|s|)) == Be16(WordOf(|t|));
    Be16RoundTrip(WordOf(|s|), all[..2]);
    Be16RoundTrip(WordOf(|t|), all[..2]);
    WordValue(|s|);
    WordValue(|t|);
    assert all[2..] == s + sTail == t + tTail;
    assert s == all[2..][..|s|] == t;
    assert sTail == all[2..][|s|..] == tTail;
  }

  lemma ServerBytesInjective(p: ServerPacket, q: ServerPacket)
    requires WellFormedServerPacket(p) && WellFormedServerPacket(q)
    requires ServerBytes(p) == ServerBytes(q)
    ensures p == q
  {
    var b := ServerBytes(p);
    assert b[0] == ServerBytes(q)[0];
    match p
    case HelloResponse(h) => HelloResponseInjective(h, q.hello);
    case AuthResponse(success) =>
    case MatchInit(m) => MatchInitInjective(m, q.init);
    case WorldInit =>
    case MatchStart(m) => MatchStartInjective(m, q.start);
  }

  lemma HelloResponseInjective(h: HelloResponsePacket, g: HelloResponsePacket)
    requires WellFormedHelloResponse(h) && WellFormedHelloResponse(g)
    requires ServerBytes(HelloResponse(h)) == ServerBytes(HelloResponse(g))
    ensures h == g
  {
    hide Be64;
    var h4, g4 := h.nonceEcho + h.signature, g.nonceEcho + g.signature;
    var h3, g3 := Be64(h.expiresAt) + h4, Be64(g.expiresAt) + g4;
    var h2, g2 := Be64(h.issuedAt) + h3, Be64(g.issuedAt) + g3;
    Peel([0, h.status.Code()], h.serverKey + h2, [0, g.status.Code()], g.serverKey + g2);
    assert h.status.Code() == [0, h.status.Code()][1] == [0, g.status.Code()][1];
    Peel(h.serverKey, h2, g.serverKey, g2);
    Peel(Be64(h.issuedAt), h3, Be64(g.issuedAt), g3);
    Peel(Be64(h.expiresAt), h4, Be64(g.expiresAt), g4);
    Peel(h.nonceEcho, h.signature, g.nonceEcho, g.signature);
    Be64Injective(h.issuedAt, g.issuedAt);
    Be64Injective(h.expiresAt, g.expiresAt);
  }

  lemma MatchInitInjective(m: MatchInitPacket, n: MatchInitPacket)
    requires |m.mapName| < 0x1_0000 && |n.mapName| < 0x1_0000
    requires ServerBytes(MatchInit(m)) == ServerBytes(MatchInit(n))
    ensures m == n
  {
    hide Be32, Be64, PrefixedString;
    var m4, n4 := Be32(m.tickRateHz) + Be64(m.serverTimeNs), Be32(n.tickRateHz) + Be64(n.serverTimeNs);
    var m3, n3 := Be64(m.serverTick) + m4, Be64(n.serverTick) + n4;
    var m2, n2 := Be32(m.mapChecksum) + m3, Be32(n.mapChecksum) + n3;
    var m1, n1 := Be32(m.mapVersion) + m2, Be32(n.mapVersion) + n2;
    Peel([2], PrefixedString(m.mapName) + m1, [2], PrefixedString(n.mapName) + n1);
    PrefixedStringPrefixCode(m.mapName, m1, n.mapName, n1);
    Peel(Be32(m.mapVersion), m2, Be32(n.mapVersion), n2);
    Peel(Be32(m.mapChecksum), m3, Be32(n.mapChecksum), n3);
    Peel(Be64(m.serverTick), m4, Be64(n.serverTick), n4);
    Peel(Be32(m.tickRateHz), Be64(m.serverTimeNs), Be32(n.tickRateHz), Be64(n.serverTimeNs));
    Be32Injective(m.mapVersion, n.mapVersion);
    Be32Injective(m.mapChecksum, n.mapChecksum);
    Be64Injective(m.serverTick, n.serverTick);
    Be32Injective(m.tickRateHz, n.tickRateHz);
    Be64Injective(m.serverTimeNs, n.serverTimeNs);
  }

  lemma MatchStartInjective(m: MatchStartPacket, n: MatchStartPacket)
    requires ServerBytes(MatchStart(m)) == ServerBytes(MatchStart(n))
    ensures m == n
  {
    hide Be32, Be64;
    var m2, n2 := Be32(m.countdown) + Be64(m.serverTimeNs), Be32(n.countdown) + Be64(n.serverTimeNs);
    var m1, n1 := Be64(m.startTick) + m2, Be64(n.startTick) + n2;
    Peel([4], Be64(m.serverTick) + m1, [4], Be64(n.serverTick) + n1);
    Peel(Be64(m.serverTick), m1, Be64(n.serverTick), n1);
    Peel(Be64(m.startTick), m2, Be64(n.startTick), n2);
    Peel(Be32(m.countdown), Be64(m.serverTimeNs), Be32(n.countdown), Be64(n.serverTimeNs));
    Be64Injective(m.serverTick, n.serverTick);
    Be64Injective(m.startTick, n.startTick);
    Be32Injective(m.countdown, n.countdown);
    Be64Injective(m.serverTimeNs, n.serverTimeNs);
  }

  // ---------------------------------------------------------------------------
  // What a client reads in a reliable server packet, at fixed offsets
  // ---------------------------------------------------------------------------

  function StatusOf(code: byte): Option<HelloStatus> {
    if code == 0 then Some(HelloSuccess) else if code == 1 then Some(InvalidClientKey) else if code == 2 then Some(AttestationFailed) else None
  }

  function ReadHelloResponse(data: seq<byte>): Option<HelloResponsePacket> {
    if |data| == 18 + KEY_BYTES + NONCE_BYTES + SIGNATURE_BYTES && data[0] == 0 && StatusOf(data[1]).Some? then
      Some(HelloResponsePacket(StatusOf(data[1]).value, data[2..34], Value64(data[34..42]), Value64(data[42..50]), data[50..66], data[66..]))
    else None
  }

  function ReadMatchInit(data: seq<byte>): Option<MatchInitPacket> {
    if |data| >= 31 && data[0] == 2 && |data| == 31 + StringLength(data[1..]) then
      var rest := data[|data| - 28..];
      Some(MatchInitPacket(data[3..|data| - 28], Value32(rest[..4]), Value32(rest[4..8]), Value64(rest[8..16]), Value32(rest[16..20]), Value64(rest[20..])))
    else None
  }

  function ReadMatchStart(data: seq<byte>): Option<MatchStartPacket> {
    if |data| == 29 && data[0] == 4 then
      Some(MatchStartPacket(Value64(data[1..9]), Value64(data[9..17]), Value32(data[17..21]), Value64(data[21..])))
    else None
  }

  lemma MatchStartExact(data: seq<byte>, m: MatchStartPacket)
    ensures ReadMatchStart(data) == Some(m) <==> data == ServerBytes(MatchStart(m))
  {
    hide Be32, Be64, Value32, Value64;
    if |data| == 29 {
      Be64RoundTrip(m.serverTick, data[1..9]);
      Be64RoundTrip(m.startTick, data[9..17]);
      Be32RoundTrip(m.countdown, data[17..21]);
      Be64RoundTrip(m.serverTimeNs, data[21..]);
      var d2 := data[17..21] + data[21..];
      var d1 := data[9..17] + d2;
      assert data == data[..1] + (data[1..9] + d1);
      if data == ServerBytes(MatchStart(m)) {
        var m2 := Be32(m.countdown) + Be64(m.serverTimeNs);
        var m1 := Be64(m.startTick) + m2;
        Peel(data[..1], data[1..9] + d1, [4], Be64(m.serverTick) + m1);
        Peel(data[1..9], d1, Be64(m.serverTick), m1);
        Peel(data[9..17], d2, Be64(m.startTick), m2);
        Peel(data[17..21], data[21..], Be32(m.countdown), Be64(m.serverTimeNs));
      }
    }
  }

  /** Byte by byte the layout is its parts. */
  lemma HelloResponseParts(data: seq<byte>, h: HelloResponsePacket)
    requires |data| == 130 && WellFormedHelloResponse(h)
    ensures data == ServerBytes(HelloResponse(h)) <==>
            && data[..2] == [0, h.status.Code()] && data[2..34] == h.serverKey
            && Value64(data[34..42]) == h.issuedAt && Value64(data[42..50]) == h.expiresAt
            && data[50..66] == h.nonceEcho && data[66..] == h.signature
  {
    hide Be64, Value64;
    Be64RoundTrip(h.issuedAt, data[34..42]);
    Be64RoundTrip(h.expiresAt, data[42..50]);
    var d4 := data[50..66] + data[66..];
    var d3 := data[42..50] + d4;
    var d2 := data[34..42] + d3;
    assert data == data[..2] + (data[2..34] + d2);
    if data == ServerBytes(HelloResponse(h)) {
      var h4 := h.nonceEcho + h.signature;
      var h3 := Be64(h.expiresAt) + h4;
      var h2 := Be64(h.issuedAt) + h3;
      Peel(data[..2], data[2..34] + d2, [0, h.status.Code()], h.serverKey + h2);
      Peel(data[2..34], d2, h.serverKey, h2);
      Peel(data[34..42], d3, Be64(h.issuedAt), h3);
      Peel(data[42..50], d4, Be64(h.expiresAt), h4);
      Peel(data[50..66], data[66..], h.nonceEcho, h.signature);
    }
  }

  lemma CodesAreStatuses(status: HelloStatus, code: byte)
    ensures StatusOf(code) == Some(status) <==> code == status.Code()
  {
  }

  lemma HelloResponseExact(data: seq<byte>, h: HelloResponsePacket)
    ensures ReadHelloResponse(data) == Some(h) <==> WellFormedHelloResponse(h) && data == ServerBytes(HelloResponse(h))
  {
    hide Be64, Value64, StatusOf;
    if WellFormedHelloResponse(h) {
      assert |ServerBytes(HelloResponse(h))| == 130 by { LengthOfHelloResponse(h); }
    }
    if |data| == 130 && WellFormedHelloResponse(h) {
      hide ServerBytes;
      HelloResponseParts(data, h);
      CodesAreStatuses(h.status, data[1]);
      assert data[..2] == [data[0], data[1]];
    }
  }

  lemma LengthOfHelloResponse(h: HelloResponsePacket)
    requires WellFormedHelloResponse(h)
    ensures |ServerBytes(HelloResponse(h))| == 130
  {
    hide Be64;
  }

  lemma MatchInitExact(data: seq<byte>, m: MatchInitPacket)
    ensures ReadMatchInit(data) == Some(m) <==> WellFormedServerPacket(MatchInit(m)) && data == ServerBytes(MatchInit(m))
  {
    hide Be32, Be64, Value32, Value64, WordOf, Nat16, Value16, Be16;
    if |data| >= 31 {
      var rest := data[|data| - 28..];
      RestExact(rest, m);
      var w := data[1..][..2];
      var name := data[3..|data| - 28];
      assert data == data[..1] + ((w + name) + rest);
      if ReadMatchInit(data) == Some(m) {
        WordInverse(Value16(w));
        Be16RoundTrip(Value16(w), w);
      }
      if WellFormedServerPacket(MatchInit(m)) && data == ServerBytes(MatchInit(m)) {
        Peel(data[..1], (w + name) + rest, [2], PrefixedString(m.mapName) + InitRest(m));
        assert |InitRest(m)| == 28;
        Peel(w + name, rest, PrefixedString(m.mapName), InitRest(m));
        Peel(w, name, Be16(WordOf(|m.mapName|)), m.mapName);
        Be16RoundTrip(WordOf(|m.mapName|), w);
        WordValue(|m.mapName|);
      }
    } else if WellFormedServerPacket(MatchInit(m)) {
      assert |ServerBytes(MatchInit(m))| >= 31;
    }
  }

  /** What follows the map name. */
  function InitRest(m: MatchInitPacket): (r: seq<byte>)
    ensures |r| == 28
  {
    Be32(m.mapVersion) + (Be32(m.mapChecksum) + (Be64(m.serverTick) + (Be32(m.tickRateHz) + Be64(m.serverTimeNs))))
  }

  lemma RestExact(rest: seq<byte>, m: MatchInitPacket)
    requires |rest| == 28
    ensures rest == InitRest(m) <==>
            && Value32(rest[..4]) == m.mapVersion && Value32(rest[4..8]) == m.mapChecksum && Value64(rest[8..16]) == m.serverTick
            && Value32(rest[16..20]) == m.tickRateHz && Value64(rest[20..]) == m.serverTimeNs
  {
    hide Be32, Be64, Value32, Value64;
    Be32RoundTrip(m.mapVersion, rest[..4]);
    Be32RoundTrip(m.mapChecksum, rest[4..8]);
    Be64RoundTrip(m.serverTick, rest[8..16]);
    Be32RoundTrip(m.tickRateHz, rest[16..20]);
    Be64RoundTrip(m.serverTimeNs, rest[20..]);
    var r3 := rest[16..20] + rest[20..];
    var r2 := rest[8..16] + r3;
    var r1 := rest[4..8] + r2;
    assert rest == rest[..4] + r1;
    if rest == InitRest(m) {
      var m3 := Be32(m.tickRateHz) + Be64(m.serverTimeNs);
      var m2 := Be64(m.serverTick) + m3;
      var m1 := Be32(m.mapChecksum) + m2;
      Peel(rest[..4], r1, Be32(m.mapVersion), m1);
      Peel(rest[4..8], r2, Be32(m.mapChecksum), m2);
      Peel(rest[8..16], r3, Be64(m.serverTick), m3);
      Peel(rest[16..20], rest[20..], Be32(m.tickRateHz), Be64(m.serverTimeNs));
    }
  }

  // ---------------------------------------------------------------------------
  // The outgoing path parses a queued snapshot, sets its id and prints it again
  // ---------------------------------------------------------------------------

  method PatchSnapshot(data: seq<byte>, snapshotId: bv32) returns (r: Option<seq<byte>>)
    ensures r.Some? <==> |data| == 25 && data[0] == SNAPSHOT_TYPE
    ensures r.Some? ==> r.value == data[..1] + Be32(snapshotId) + data[5..]
  {
    var parsed := DeserializeSnapshot(data);
    if parsed.None? {
      return None;
    }
    var bytes := SerializeSnapshot(parsed.value.(snapshotId := snapshotId));
    PatchOverwritesTheId(data, parsed.value, snapshotId);
    r := Some(bytes);
  }

  lemma PatchOverwritesTheId(data: seq<byte>, p: SnapshotPacket, id: bv32)
    requires ParseSnapshot(data) == Some(p)
    ensures SnapshotBytes(p.(snapshotId := id)) == data[..1] + Be32(id) + data[5..]
  {
    hide Be32, Be64, Value32, Value64;
    SnapshotExact(data, p);
    var tail := Be64(p.serverTick) + (Be64(p.serverTimeNs) + Be32(p.lastInput));
    assert data[..1] == [SNAPSHOT_TYPE] && data[5..] == tail;
    assert SnapshotBytes(p.(snapshotId := id)) == [SNAPSHOT_TYPE] + (Be32(id) + tail);
  }
}
