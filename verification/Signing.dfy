/** The message the server signs to attest a secure session. */
module Signing {
  import opened Wrappers
  import opened Bytes
  import opened Packets

  const DOMAIN := "SERVER_ED25519_DOMAIN_SECURE_SESSION_ATTESTATION_V1"

  datatype Payload = Payload(serverPublicKey: seq<byte>, issuedAt: bv64, expiresAt: bv64, clientNonceEcho: seq<byte>)

  predicate WellFormed(p: Payload) {
    |p.serverPublicKey| == KEY_BYTES && |p.clientNonceEcho| == NONCE_BYTES
  }

  function AsciiByte(c: char): byte {
    ((c as int) % 0x100) as byte
  }

  function Ascii(s: string): (b: seq<byte>)
    ensures |b| == |s|
  {
    seq(|s|, i requires 0 <= i < |s| => AsciiByte(s[i]))
  }

  /** Domain, server key, issue and expiry times, client nonce, with no separators. */
  function SignedMessage(p: Payload): seq<byte> {
    Ascii(DOMAIN) + (p.serverPublicKey + (Be64(p.issuedAt) + (Be64(p.expiresAt) + p.clientNonceEcho)))
  }

  method WriteU64Be(before: seq<byte>, value: bv64) returns (out: seq<byte>)
    ensures out == before + Be64(value)
  {
    out := before;
    out := out + [((value >> 56) & 0xFF) as byte];
    out := out + [((value >> 48) & 0xFF) as byte];
    out := out + [((value >> 40) & 0xFF) as byte];
    out := out + [((value >> 32) & 0xFF) as byte];
    out := out + [((value >> 24) & 0xFF) as byte];
    out := out + [((value >> 16) & 0xFF) as byte];
    out := out + [((value >> 8) & 0xFF) as byte];
    out := out + [(value & 0xFF) as byte];
  }

  method BuildSecureSessionMessage(p: Payload) returns (message: seq<byte>)
    requires WellFormed(p)
    ensures message == SignedMessage(p)
    ensures |message| == |DOMAIN| + KEY_BYTES + 8 + 8 + NONCE_BYTES
  {
    hide Be64, Ascii;
    message := [];
    message := message + Ascii(DOMAIN);
    message := message + p.serverPublicKey;
    message := WriteU64Be(message, p.issuedAt);
    message := WriteU64Be(message, p.expiresAt);
    message := message + p.clientNonceEcho;
    assert message == SignedMessage(p);
  }

  /** Without separators the layout is still unambiguous, because every part has a fixed
      length: one signature attests one payload. */
  lemma SignedMessageInjective(p: Payload, q: Payload)
    requires WellFormed(p) && WellFormed(q) && SignedMessage(p) == SignedMessage(q)
    ensures p == q
  {
    hide Be64, Ascii;
    Peel(Ascii(DOMAIN), p.serverPublicKey + (Be64(p.issuedAt) + (Be64(p.expiresAt) + p.clientNonceEcho)),
              Ascii(DOMAIN), q.serverPublicKey + (Be64(q.issuedAt) + (Be64(q.expiresAt) + q.clientNonceEcho)));
    Peel(p.serverPublicKey, Be64(p.issuedAt) + (Be64(p.expiresAt) + p.clientNonceEcho),
              q.serverPublicKey, Be64(q.issuedAt) + (Be64(q.expiresAt) + q.clientNonceEcho));
    Peel(Be64(p.issuedAt), Be64(p.expiresAt) + p.clientNonceEcho, Be64(q.issuedAt), Be64(q.expiresAt) + q.clientNonceEcho);
    Peel(Be64(p.expiresAt), p.clientNonceEcho, Be64(q.expiresAt), q.clientNonceEcho);
    Be64Injective(p.issuedAt, q.issuedAt);
    Be64Injective(p.expiresAt, q.expiresAt);
  }

  /** The parts of a signed message, at their fixed offsets. */
  function ReadSigned(data: seq<byte>): Option<Payload> {
    var n := |DOMAIN|;
    if |data| == n + KEY_BYTES + 16 + NONCE_BYTES && data[..n] == Ascii(DOMAIN) then
      Some(Payload(data[n..n + 32], Value64(data[n + 32..n + 40]), Value64(data[n + 40..n + 48]), data[n + 48..]))
    else None
  }

  lemma SignedMessageExact(data: seq<byte>, p: Payload)
    ensures ReadSigned(data) == Some(p) <==> WellFormed(p) && data == SignedMessage(p)
  {
    hide Be64, Value64, Ascii;
    var n := |DOMAIN|;
    if |data| == n + KEY_BYTES + 16 + NONCE_BYTES {
      Be64RoundTrip(p.issuedAt, data[n + 32..n + 40]);
      Be64RoundTrip(p.expiresAt, data[n + 40..n + 48]);
      var d3 := data[n + 40..n + 48] + data[n + 48..];
      var d2 := data[n + 32..n + 40] + d3;
      assert data == data[..n] + (data[n..n + 32] + d2);
      if WellFormed(p) && data == SignedMessage(p) {
        var p3 := Be64(p.expiresAt) + p.clientNonceEcho;
        var p2 := Be64(p.issuedAt) + p3;
        Peel(data[..n], data[n..n + 32] + d2, Ascii(DOMAIN), p.serverPublicKey + p2);
        Peel(data[n..n + 32], d2, p.serverPublicKey, p2);
        Peel(data[n + 32..n + 40], d3, Be64(p.issuedAt), p3);
        Peel(data[n + 40..n + 48], data[n + 48..], Be64(p.expiresAt), p.clientNonceEcho);
      }
    }
  }
}
