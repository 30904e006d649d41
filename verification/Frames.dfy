/** Scattered datagrams: the two loops that gather fragments into one buffer, and the
    encrypted frame built on the first of them. The cipher is a pair of functions. */
module Frames {
  import opened Wrappers
  import opened Bytes

  // ---------------------------------------------------------------------------
  // Fragments
  // ---------------------------------------------------------------------------

  /** A fragment as ENet describes it: a length and a pointer, which may be null. */
  datatype Fragment = Data(bytes: seq<byte>) | Null(announced: nat) {
    function Length(): nat {
      if Data? then |bytes| else announced
    }
  }

  /** The concatenation of the fragments before the first null one of non-zero length. */
  function Usable(fs: seq<Fragment>): seq<byte> {
    if fs == [] then []
    else if fs[0].Data? then fs[0].bytes + Usable(fs[1..])
    else if fs[0].announced == 0 then Usable(fs[1..])
    else []
  }

  /** No null fragment of non-zero length. */
  ghost predicate AllUsable(fs: seq<Fragment>) {
    forall j :: 0 <= j < |fs| ==> fs[j].Data? || fs[j].announced == 0
  }

  /** The specification of both loops: the first `n` usable bytes, if there are `n`. */
  function Gather(fs: seq<Fragment>, n: nat): Option<seq<byte>> {
    if |Usable(fs)| >= n then Some(Usable(fs)[..n]) else None
  }

  /** The same with the null pointer for a list: only nothing can be gathered from it. */
  function GatherFrom(inBuffers: Option<seq<Fragment>>, n: nat): Option<seq<byte>> {
    if inBuffers.Some? then Gather(inBuffers.value, n) else if n == 0 then Some([]) else None
  }

  /** How the same bytes are cut into fragments does not matter. */
  lemma {:induction false} UsableAppend(fs: seq<Fragment>, gs: seq<Fragment>)
    requires AllUsable(fs)
    ensures Usable(fs + gs) == Usable(fs) + Usable(gs)
  {
    if fs == [] {
      assert fs + gs == gs;
    } else {
      assert (fs + gs)[1..] == fs[1..] + gs;
      UsableAppend(fs[1..], gs);
    }
  }

  /** Usable bytes read so far, and what the loop does with the next fragment. */
  lemma UsableStep(fs: seq<Fragment>, i: nat)
    requires i < |fs| && AllUsable(fs[..i])
    ensures
      var before := Usable(fs[..i]);
      if fs[i].Data? then Usable(fs[..i + 1]) == before + fs[i].bytes
      else if fs[i].announced == 0 then Usable(fs[..i + 1]) == before
      else Usable(fs) == before
    ensures fs[i].Data? || fs[i].announced == 0 ==> AllUsable(fs[..i + 1])
  {
    hide Usable, AllUsable;
    var before, f, rest := fs[..i], fs[i], fs[i + 1..];
    if f.Data? || f.announced == 0 {
      assert fs[..i + 1] == before + [f];
      AllUsablePush(before, f);
      UsableNext(before, f);
      assert f.Null? ==> Usable(before) + [] == Usable(before);
    } else {
      assert fs == before + ([f] + rest);
      UsableStops(before, f, rest);
    }
  }

  lemma AllUsablePush(before: seq<Fragment>, f: Fragment)
    requires AllUsable(before) && (f.Data? || f.announced == 0)
    ensures AllUsable(before + [f])
  {
  }

  lemma UsableNext(before: seq<Fragment>, f: Fragment)
    requires AllUsable(before)
    ensures Usable(before + [f]) == Usable(before) + if f.Data? then f.bytes else []
  {
    hide Usable;
    UsableAppend(before, [f]);
    UsableHead(f, []);
    assert [f] + [] == [f];
    assert f.Data? ==> f.bytes + [] == f.bytes;
  }

  lemma UsableStops(before: seq<Fragment>, f: Fragment, rest: seq<Fragment>)
    requires AllUsable(before)
    requires f.Null? && f.announced != 0
    ensures Usable(before + ([f] + rest)) == Usable(before)
  {
    hide Usable;
    UsableAppend(before, [f] + rest);
    UsableHead(f, rest);
  }

  lemma UsableHead(f: Fragment, rest: seq<Fragment>)
    ensures Usable([f] + rest) == if f.Data? then f.bytes + Usable(rest) else if f.announced == 0 then Usable(rest) else []
    ensures Usable([]) == []
  {
    assert ([f] + rest)[1..] == rest;
  }

  lemma UsablePrefix(fs: seq<Fragment>, i: nat)
    requires i <= |fs| && AllUsable(fs[..i])
    ensures Usable(fs[..i]) <= Usable(fs)
  {
    assert fs == fs[..i] + fs[i..];
    UsableAppend(fs[..i], fs[i..]);
  }

  method Memcpy(outData: array<byte>, offset: nat, bytes: seq<byte>)
    requires offset + |bytes| <= outData.Length
    modifies outData
    ensures outData[offset..offset + |bytes|] == bytes
    ensures outData[..offset] == old(outData[..offset]) && outData[offset + |bytes|..] == old(outData[offset + |bytes|..])
  {
    forall k | 0 <= k < |bytes| {
      outData[offset + k] := bytes[k];
    }
  }

  /** Appending to the first `offset` bytes leaves everything from `limit` on alone. */
  method AppendAt(outData: array<byte>, offset: nat, bytes: seq<byte>, limit: nat)
    requires offset + |bytes| <= limit <= outData.Length
    modifies outData
    ensures outData[..offset + |bytes|] == old(outData[..offset]) + bytes
    ensures outData[limit..] == old(outData[limit..])
  {
    ghost var before := outData[..];
    Memcpy(outData, offset, bytes);
    assert outData[..offset + |bytes|] == outData[..offset] + outData[offset..offset + |bytes|];
    assert before[limit..] == before[offset + |bytes|..][limit - offset - |bytes|..];
    assert outData[limit..] == outData[offset + |bytes|..][limit - offset - |bytes|..];
  }

  lemma NothingUsable(fs: seq<Fragment>)
    ensures Usable(fs[..0]) == []
  {
  }

  /** The encryptor's loop. It writes the caller's buffer in place and returns `inLimit`
      or 0; on success the buffer starts with the gathered bytes and the rest of it is
      as before. */
  method CopyInBuffersToOutData(inBuffers: Option<seq<Fragment>>, inLimit: nat, outData: array?<byte>,
                                outLimit: nat) returns (copied: nat)
    requires outData != null ==> outLimit <= outData.Length
    modifies outData
    ensures copied == inLimit || copied == 0
    ensures inBuffers.Some? && outData != null && inLimit <= outLimit ==>
              && (copied == inLimit <==> Gather(inBuffers.value, inLimit).Some?)
              && (copied == inLimit ==> outData[..inLimit] == Gather(inBuffers.value, inLimit).value)
              && outData[inLimit..] == old(outData[inLimit..])
    ensures inBuffers.None? || outData == null || inLimit > outLimit ==> copied == 0
  {
    if inBuffers.None? || outData == null || inLimit > outLimit {
      return 0;
    }
    hide Usable;
    var fs := inBuffers.value;
    NothingUsable(fs);
    copied := 0;
    var i := 0;
    while i < |fs| && copied < inLimit
      invariant 0 <= i <= |fs| && copied <= inLimit
      invariant AllUsable(fs[..i])
      invariant copied == if |Usable(fs[..i])| < inLimit then |Usable(fs[..i])| else inLimit
      invariant outData[..copied] == Usable(fs[..i])[..copied]
      invariant outData[inLimit..] == old(outData[inLimit..])
    {
      var remaining := inLimit - copied;
      var chunk := if fs[i].Length() < remaining then fs[i].Length() else remaining;
      UsableStep(fs, i);
      if chunk == 0 {
        i := i + 1;
        continue;
      }
      if fs[i].Null? {
        return 0;
      }
      AppendAt(outData, copied, fs[i].bytes[..chunk], inLimit);
      copied := copied + chunk;
      i := i + 1;
    }
    UsablePrefix(fs, i);
    if i == |fs| {
      assert fs[..i] == fs;
    }
    if copied != inLimit {
      copied := 0;
    }
  }

  /** The compressor's loop: a fresh zeroed vector, and the number of bytes copied even
      when that is too few. */
  method CopyInBuffersToContiguous(inBuffers: Option<seq<Fragment>>, inLimit: nat) returns (copied: nat,
                                   outContiguous: seq<byte>)
    ensures copied <= inLimit
    ensures inBuffers.Some? ==>
              && |outContiguous| == inLimit
              && (copied == inLimit <==> Gather(inBuffers.value, inLimit).Some?)
              && (copied == inLimit ==> outContiguous == Gather(inBuffers.value, inLimit).value)
    ensures inBuffers.None? ==> copied == 0
  {
    if inBuffers.None? {
      return 0, [];
    }
    var fs := inBuffers.value;
    outContiguous := seq(inLimit, i => 0);
    copied := 0;
    var i := 0;
    while i < |fs| && copied < inLimit
      invariant 0 <= i <= |fs| && copied <= inLimit == |outContiguous|
      invariant AllUsable(fs[..i])
      invariant copied == if |Usable(fs[..i])| < inLimit then |Usable(fs[..i])| else inLimit
      invariant outContiguous[..copied] == Usable(fs[..i])[..copied]
    {
      var remaining := inLimit - copied;
      var chunk := if fs[i].Length() < remaining then fs[i].Length() else remaining;
      UsableStep(fs, i);
      if chunk == 0 {
        i := i + 1;
        continue;
      }
      if fs[i].Null? {
        return 0, outContiguous;
      }
      outContiguous := outContiguous[..copied] + fs[i].bytes[..chunk] + outContiguous[copied + chunk..];
      copied := copied + chunk;
      i := i + 1;
    }
    UsablePrefix(fs, i);
    if i == |fs| {
      assert fs[..i] == fs;
    }
  }

  // ---------------------------------------------------------------------------
  // The encrypted frame
  // ---------------------------------------------------------------------------

  const MAGIC: seq<byte> := [0x52, 0x43, 0x4E, 0x31]
  const FRAME_NONCE_BYTES: nat := 24
  const TAG_BYTES: nat := 16
  const HEADER_BYTES: nat := 28

  /** XChaCha20-Poly1305: key, nonce and text to sealed text, and back. */
  datatype Cipher = Cipher(seal: (seq<byte>, seq<byte>, seq<byte>) -> seq<byte>, open: (seq<byte>, seq<byte>,
      seq<byte>) -> Option<seq<byte>>)

  /** What is assumed of it: the tag adds 16 bytes, and opening accepts exactly what
      sealing produces under the same key and nonce. */
  ghost predicate IsAead(c: Cipher) {
    && (forall k, n, p :: |c.seal(k, n, p)| == |p| + TAG_BYTES)
    && (forall k, n, p, s :: c.open(k, n, s) == Some(p) <==> s == c.seal(k, n, p))
  }

  function FrameOf(c: Cipher, key: seq<byte>, nonce: seq<byte>, plaintext: seq<byte>): seq<byte> {
    MAGIC + nonce + c.seal(key, nonce, plaintext)
  }

  /** What the decryptor makes of a datagram when its buffer has `outLimit` bytes. */
  function Unframe(c: Cipher, key: seq<byte>, frame: seq<byte>, outLimit: nat): Option<seq<byte>> {
    if |frame| < HEADER_BYTES + TAG_BYTES then None
    else if frame[..|MAGIC|] != MAGIC then None
    else if |frame| - HEADER_BYTES - TAG_BYTES > outLimit then None
    else c.open(key, frame[|MAGIC|..HEADER_BYTES], frame[HEADER_BYTES..])
  }

  /** The decryptor accepts exactly the frames that fit: those built under the same key
      with some nonce, around a plaintext its buffer can hold. */
  lemma FrameExact(c: Cipher, key: seq<byte>, frame: seq<byte>, outLimit: nat, plaintext: seq<byte>)
    requires IsAead(c)
    ensures Unframe(c, key, frame, outLimit) == Some(plaintext) <==>
              |plaintext| <= outLimit && exists nonce: seq<byte> :: |nonce| == FRAME_NONCE_BYTES && frame == FrameOf(c, key, nonce, plaintext)
  {
  }

  lemma FrameParts(c: Cipher, key: seq<byte>, nonce: seq<byte>, plaintext: seq<byte>)
    requires IsAead(c) && |nonce| == FRAME_NONCE_BYTES
    ensures
      var frame := FrameOf(c, key, nonce, plaintext);
      && |frame| == HEADER_BYTES + |plaintext| + TAG_BYTES
      && frame[..|MAGIC|] == MAGIC && frame[|MAGIC|..HEADER_BYTES] == nonce && frame[HEADER_BYTES..] == c.seal(key,
          nonce, plaintext)
  {
  }

  method WriteHeader(outData: array<byte>, nonce: seq<byte>)
    requires |nonce| == FRAME_NONCE_BYTES && HEADER_BYTES <= outData.Length
    modifies outData
    ensures outData[..HEADER_BYTES] == MAGIC + nonce && outData[HEADER_BYTES..] == old(outData[HEADER_BYTES..])
  {
    ghost var before := outData[..];
    Memcpy(outData, 0, MAGIC);
    Memcpy(outData, |MAGIC|, nonce);
    assert outData[..HEADER_BYTES] == outData[..|MAGIC|] + outData[|MAGIC|..HEADER_BYTES];
    assert outData[HEADER_BYTES..] == before[HEADER_BYTES..];
  }

  method WriteSealed(outData: array<byte>, sealed: seq<byte>) returns (written: nat)
    requires HEADER_BYTES + |sealed| <= outData.Length
    modifies outData
    ensures written == HEADER_BYTES + |sealed|
    ensures outData[..written] == old(outData[..HEADER_BYTES]) + sealed
        && outData[written..] == old(outData[HEADER_BYTES..])[|sealed|..]
  {
    written := HEADER_BYTES + |sealed|;
    ghost var before := outData[..];
    Memcpy(outData, HEADER_BYTES, sealed);
    assert outData[..written] == outData[..HEADER_BYTES] + outData[HEADER_BYTES..written];
    assert before[HEADER_BYTES..][|sealed|..] == before[written..];
  }

  /** The encrypt callback. `key` is the session's transmit key when encryption is on.
      It returns 0 for "send this datagram as it is". */
  method EncryptCallback(c: Cipher, key: Option<seq<byte>>, inBuffers: Option<seq<Fragment>>, inLimit: nat,
                         nonce: seq<byte>, sealFails: bool,
                         outData: array<byte>, outLimit: nat) returns (written: nat)
    requires IsAead(c) && |nonce| == FRAME_NONCE_BYTES && outLimit <= outData.Length
    modifies outData
    ensures written > 0 <==>
              key.Some? && HEADER_BYTES + inLimit + TAG_BYTES <= outLimit && GatherFrom(inBuffers, inLimit).Some? && !sealFails
    ensures written > 0 ==>
              && written == HEADER_BYTES + inLimit + TAG_BYTES
              && outData[..written] == FrameOf(c, key.value, nonce, GatherFrom(inBuffers, inLimit).value)
              && outData[written..] == old(outData[written..])
  {
    hide Usable;
    if key.None? {
      return 0;
    }
    var requiredSize := HEADER_BYTES + inLimit + TAG_BYTES;
    if requiredSize > outLimit {
      return 0;
    }
    var plaintext := new byte[inLimit];
    var copied := CopyInBuffersToOutData(inBuffers, inLimit, plaintext, inLimit);
    if copied != inLimit {
      return 0;
    }
    assert plaintext[..] == plaintext[..inLimit];
    var text := plaintext[..];
    ghost var before := outData[..];
    WriteHeader(outData, nonce);
    if sealFails {
      return 0;
    }
    var sealed := c.seal(key.value, nonce, text);
    FrameParts(c, key.value, nonce, text);
    written := WriteSealed(outData, sealed);
    assert before[HEADER_BYTES..][|sealed|..] == before[written..];
    assert text == GatherFrom(inBuffers, inLimit).value;
  }

  /** The part of the output buffer the cipher may write: none before it is called. */
  function Writable(key: Option<seq<byte>>, inData: Option<seq<byte>>, outLimit: nat): (n: nat)
    ensures n <= outLimit
  {
    if key.None? || inData.None? || |inData.value| < HEADER_BYTES + TAG_BYTES || inData.value[..|MAGIC|] != MAGIC then 0
    else if |inData.value| - HEADER_BYTES - TAG_BYTES > outLimit then 0
    else |inData.value| - HEADER_BYTES - TAG_BYTES
  }

  /** Clearing the first `n` bytes, as the cipher does when authentication fails. */
  method Clear(outData: array<byte>, n: nat)
    requires n <= outData.Length
    modifies outData
    ensures outData[n..] == old(outData[n..])
  {
    forall k | 0 <= k < n {
      outData[k] := 0;
    }
  }

  /** The decrypt callback. It returns the length of the plaintext, or 0 to reject. When
      authentication fails nothing is promised of the bytes a plaintext would have taken;
      those after them are as before. */
  method DecryptCallback(c: Cipher, key: Option<seq<byte>>, inData: Option<seq<byte>>, outData: array<byte>,
                         outLimit: nat) returns (plaintextLen: nat)
    requires IsAead(c) && outLimit <= outData.Length
    modifies outData
    ensures
      var p := if key.Some? && inData.Some? then Unframe(c, key.value, inData.value, outLimit) else None;
      && plaintextLen == (if p.Some? then |p.value| else 0)
      && plaintextLen <= outLimit
      && (p.Some? ==> outData[..plaintextLen] == p.value)
      && outData[Writable(key, inData, outLimit)..] == old(outData[Writable(key, inData, outLimit)..])
  {
    if key.None? {
      return 0;
    }
    if inData.None? || |inData.value| < HEADER_BYTES + TAG_BYTES {
      return 0;
    }
    var data := inData.value;
    if data[..|MAGIC|] != MAGIC {
      return 0;
    }
    var nonce := data[|MAGIC|..HEADER_BYTES];
    var ciphertext := data[HEADER_BYTES..];
    var maximumPlaintextLen := |ciphertext| - TAG_BYTES;
    if maximumPlaintextLen > outLimit {
      return 0;
    }
    var result := c.open(key.value, nonce, ciphertext);
    if result.None? {
      Clear(outData, maximumPlaintextLen);
      return 0;
    }
    assert ciphertext == c.seal(key.value, nonce, result.value);
    Memcpy(outData, 0, result.value);
    plaintextLen := |result.value|;
  }

  /** Sealing on one side and opening on the other gives back the bytes, however they
      were cut into fragments, when both buffers are large enough. The caller learns of
      it exactly when there was at least one byte: an empty plaintext is returned as 0,
      which is also the sign of a rejected datagram. */
  method SealAndOpen(c: Cipher, key: seq<byte>, fs: seq<Fragment>, inLimit: nat, nonce: seq<byte>, frame: array<byte>,
                     text: array<byte>)
    returns (written: nat, received: nat)
    requires IsAead(c) && |nonce| == FRAME_NONCE_BYTES && frame != text
    requires Gather(fs, inLimit).Some? && HEADER_BYTES + inLimit + TAG_BYTES <= frame.Length && inLimit <= text.Length
    modifies frame, text
    ensures written == HEADER_BYTES + inLimit + TAG_BYTES
    ensures received == inLimit && text[..received] == Gather(fs, inLimit).value
    ensures received > 0 <==> inLimit > 0
  {
    written := EncryptCallback(c, Some(key), Some(fs), inLimit, nonce, false, frame, frame.Length);
    ghost var p := Gather(fs, inLimit).value;
    FrameExact(c, key, frame[..written], text.Length, p);
    received := DecryptCallback(c, Some(key), Some(frame[..written]), text, text.Length);
  }
}
