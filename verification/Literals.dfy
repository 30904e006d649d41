/** The certificate bundle as C++ string literals: the escaper, and a reader that follows
    the lexical rules of sections 5.2, 5.13.3 and 5.13.5 of ISO/IEC 14882:2017. */
module Literals {
  import opened Wrappers

  type Octet = x: int | 0 <= x < 0x100

  // ---------------------------------------------------------------------------
  // Writing
  // ---------------------------------------------------------------------------

  function HexDigit(n: int): char
    requires 0 <= n < 0x10
  {
    if n < 10 then '0' + n as char else 'A' + (n - 10) as char
  }

  /** Bytes with no printable form and no short escape. */
  predicate NeedsHex(b: Octet) {
    !(0x20 <= b <= 0x7E) && b != 0x0A && b != 0x0D
  }

  function EscapeByte(b: Octet): string {
    if b == 0x5C then ['\\', '\\']
    else if b == 0x22 then ['\\', '\"']
    else if b == 0x0A then ['\\', 'n']
    else if b == 0x0D then ['\\', 'r']
    else if 0x20 <= b <= 0x7E then [b as char]
    else ['\\', 'x', HexDigit(b / 0x10), HexDigit(b % 0x10)]
  }

  function EscapeBytes(data: seq<Octet>): string {
    if data == [] then [] else EscapeByte(data[0]) + EscapeBytes(data[1..])
  }

  lemma {:induction false} EscapeAppend(a: seq<Octet>, b: seq<Octet>)
    ensures EscapeBytes(a + b) == EscapeBytes(a) + EscapeBytes(b)
  {
    if a == [] {
      assert a + b == b;
    } else {
      assert (a + b)[1..] == a[1..] + b;
      EscapeAppend(a[1..], b);
    }
  }

  method EscapeCppBytes(data: seq<Octet>) returns (out: string)
    ensures out == EscapeBytes(data)
  {
    out := [];
    for i := 0 to |data|
      invariant out == EscapeBytes(data[..i])
    {
      var b := data[i];
      var piece;
      if b == 0x5C {
        piece := ['\\', '\\'];
      } else if b == 0x22 {
        piece := ['\\', '\"'];
      } else if b == 0x0A {
        piece := ['\\', 'n'];
      } else if b == 0x0D {
        piece := ['\\', 'r'];
      } else if 0x20 <= b <= 0x7E {
        piece := [b as char];
      } else {
        piece := ['\\', 'x', HexDigit(b / 0x10), HexDigit(b % 0x10)];
      }
      out := out + piece;
      assert data[..i + 1] == data[..i] + [b];
      EscapeAppend(data[..i], [b]);
      assert [b][1..] == [];
    }
    assert data[..|data|] == data;
  }

  // ---------------------------------------------------------------------------
  // Injectivity
  // ---------------------------------------------------------------------------

  /** No code is a prefix of another. */
  lemma EscapePrefixFree(a: Octet, b: Octet, s: string, t: string)
    requires EscapeByte(a) + s == EscapeByte(b) + t
    ensures a == b && s == t
  {
    var x, y := EscapeByte(a) + s, EscapeByte(b) + t;
    assert x[0] == EscapeByte(a)[0] && y[0] == EscapeByte(b)[0];
    if |EscapeByte(a)| > 1 && |EscapeByte(b)| > 1 {
      assert x[1] == EscapeByte(a)[1] && y[1] == EscapeByte(b)[1];
      if NeedsHex(a) && NeedsHex(b) {
        assert x[2] == EscapeByte(a)[2] && y[2] == EscapeByte(b)[2];
        assert x[3] == EscapeByte(a)[3] && y[3] == EscapeByte(b)[3];
        assert a == 0x10 * (a / 0x10) + a % 0x10;
      }
    }
    assert a == b;
    assert s == x[|EscapeByte(a)|..] && t == y[|EscapeByte(b)|..];
  }

  /** Different inputs give different texts, whatever the inputs. */
  lemma {:induction false} EscapeInjective(d: seq<Octet>, e: seq<Octet>)
    requires EscapeBytes(d) == EscapeBytes(e)
    ensures d == e
  {
    if d != [] && e != [] {
      EscapePrefixFree(d[0], e[0], EscapeBytes(d[1..]), EscapeBytes(e[1..]));
      EscapeInjective(d[1..], e[1..]);
    }
  }

  // ---------------------------------------------------------------------------
  // Reading
  // ---------------------------------------------------------------------------

  predicate IsHexChar(c: char) {
    '0' <= c <= '9' || 'A' <= c <= 'F' || 'a' <= c <= 'f'
  }

  function HexValue(c: char): nat
    requires IsHexChar(c)
  {
    if c <= '9' then c as int - '0' as int else if c <= 'F' then c as int - 'A' as int + 10 else c as int - 'a' as int + 10
  }

  predicate AllHexChars(s: string) {
    forall i :: 0 <= i < |s| ==> IsHexChar(s[i])
  }

  /** A hexadecimal escape takes every hexadecimal digit that follows. */
  function HexRun(s: string): (n: nat)
    ensures n <= |s| && (forall i :: 0 <= i < n ==> IsHexChar(s[i]))
    ensures n < |s| ==> !IsHexChar(s[n])
  {
    if s == [] || !IsHexChar(s[0]) then 0
    else
      assert forall i :: 0 <= i < HexRun(s[1..]) ==> s[i + 1] == s[1..][i];
      1 + HexRun(s[1..])
  }

  lemma RunIs(s: string, n: nat)
    requires n <= |s| && (forall i :: 0 <= i < n ==> IsHexChar(s[i])) && (n < |s| ==> !IsHexChar(s[n]))
    ensures HexRun(s) == n
  {
    hide IsHexChar;
  }

  function HexNumber(s: string): nat
    requires AllHexChars(s)
  {
    if s == [] then 0 else HexNumber(s[..|s| - 1]) * 0x10 + HexValue(s[|s| - 1])
  }

  predicate IsOctalChar(c: char) {
    '0' <= c <= '7'
  }

  function OctalValue(c: char): nat
    requires IsOctalChar(c)
  {
    c as int - '0' as int
  }

  /** An octal escape takes at most three digits. */
  function OctalRun(s: string): (n: nat)
    ensures n <= |s| && n <= 3 && forall i :: 0 <= i < n ==> IsOctalChar(s[i])
  {
    if |s| < 1 || !IsOctalChar(s[0]) then 0
    else if |s| < 2 || !IsOctalChar(s[1]) then 1
    else if |s| < 3 || !IsOctalChar(s[2]) then 2
    else 3
  }

  function OctalNumber(s: string, n: nat): nat
    requires n <= |s| && forall i :: 0 <= i < n ==> IsOctalChar(s[i])
  {
    if n == 0 then 0 else OctalNumber(s, n - 1) * 8 + OctalValue(s[n - 1])
  }

  function SimpleEscape(c: char): Option<Octet> {
    if c == '\'' || c == '\"' || c == '?' || c == '\\' then Some(c as int)
    else if c == 'a' then Some(7)
    else if c == 'b' then Some(8)
    else if c == 't' then Some(9)
    else if c == 'n' then Some(10)
    else if c == 'v' then Some(11)
    else if c == 'f' then Some(12)
    else if c == 'r' then Some(13)
    else None
  }

  datatype Read = Read(value: Octet, length: nat)

  /** The escape sequence after a backslash: its value and its length. */
  function ReadEscape(s: string): (r: Option<Read>)
    ensures r.Some? ==> 0 < r.value.length <= |s|
  {
    if s == [] then None
    else if SimpleEscape(s[0]).Some? then Some(Read(SimpleEscape(s[0]).value, 1))
    else if s[0] == 'x' then
      var n := HexRun(s[1..]);
      var v := HexNumber(s[1..][..n]);
      if n == 0 || v >= 0x100 then None else Some(Read(v, 1 + n))
    else if IsOctalChar(s[0]) then
      var n := OctalRun(s);
      var v := OctalNumber(s, n);
      if v >= 0x100 then None else Some(Read(v, n))
    else None
  }

  datatype Literal = Literal(bytes: seq<Octet>, rest: string)

  /** The characters of a literal up to its closing quote, and what follows it. */
  function ReadChars(s: string): (r: Option<Literal>)
    ensures r.Some? ==> |r.value.rest| < |s|
    decreases |s|
  {
    if s == [] || s[0] == '\n' then None
    else if s[0] == '\"' then Some(Literal([], s[1..]))
    else if s[0] == '\\' then
      var e := ReadEscape(s[1..]);
      if e.None? then None
      else
        var r := ReadChars(s[1 + e.value.length..]);
        if r.None? then None else Some(Literal([e.value.value] + r.value.bytes, r.value.rest))
    else if s[0] as int < 0x80 then
      var r := ReadChars(s[1..]);
      if r.None? then None else Some(Literal([s[0] as int] + r.value.bytes, r.value.rest))
    else None
  }

  function SkipBlanks(s: string): (r: string)
    ensures |r| <= |s|
    ensures r != [] ==> r[0] != ' ' && r[0] != '\n'
  {
    if s != [] && (s[0] == ' ' || s[0] == '\n') then SkipBlanks(s[1..]) else s
  }

  /** Adjacent literals up to the semicolon. Escapes are interpreted literal by literal,
      before the literals are joined. */
  function ReadAdjacent(s: string): Option<seq<Octet>>
    decreases |s|
  {
    var t := SkipBlanks(s);
    if t == [] then None
    else if t[0] == ';' then Some([])
    else if t[0] != '\"' then None
    else
      var l := ReadChars(t[1..]);
      if l.None? then None
      else
        var more := ReadAdjacent(l.value.rest);
        if more.None? then None else Some(l.value.bytes + more.value)
  }

  /** The initializer of an array: one literal at least. */
  function ReadInitializer(s: string): Option<seq<Octet>> {
    var t := SkipBlanks(s);
    if t != [] && t[0] == '\"' then ReadAdjacent(s) else None
  }

  // ---------------------------------------------------------------------------
  // One literal
  // ---------------------------------------------------------------------------

  predicate IsHexByte(b: Octet) {
    b < 0x80 && IsHexChar(b as char)
  }

  /** No byte written in hexadecimal is followed by a byte that is a hexadecimal digit. */
  ghost predicate Clean(d: seq<Octet>) {
    forall i :: 0 <= i < |d| - 1 ==> !Swallows(d, i)
  }

  predicate Swallows(d: seq<Octet>, i: nat)
    requires i < |d| - 1
  {
    NeedsHex(d[i]) && IsHexByte(d[i + 1])
  }

  predicate AllHexBytes(d: seq<Octet>) {
    forall i :: 0 <= i < |d| ==> IsHexByte(d[i])
  }

  /** How many bytes at the front of `d` are hexadecimal digits. */
  function DigitRun(d: seq<Octet>): (n: nat)
    ensures n <= |d| && AllHexBytes(d[..n])
    ensures n < |d| ==> !IsHexByte(d[n])
  {
    if d == [] || !IsHexByte(d[0]) then 0
    else
      assert forall i :: 0 <= i < DigitRun(d[1..]) ==> d[i + 1] == d[1..][i];
      1 + DigitRun(d[1..])
  }

  function Digits(d: seq<Octet>): (s: string)
    requires AllHexBytes(d)
    ensures |s| == |d| && AllHexChars(s)
  {
    seq(|d|, i requires 0 <= i < |d| => d[i] as char)
  }

  lemma EscapeOfDigit(b: Octet)
    ensures if IsHexByte(b) then EscapeByte(b) == [b as char] else !IsHexChar(EscapeByte(b)[0])
  {
  }

  lemma {:induction false} EscapeOfDigits(d: seq<Octet>)
    requires AllHexBytes(d)
    ensures EscapeBytes(d) == Digits(d)
  {
    hide EscapeByte;
    if d != [] {
      EscapeOfDigit(d[0]);
      EscapeOfDigits(d[1..]);
      assert Digits(d) == [d[0] as char] + Digits(d[1..]);
    }
  }

  /** The text of `d` begins with its leading digits, and then with no digit. */
  lemma DigitsAreTheirText(d: seq<Octet>, tail: string)
    requires tail != [] ==> !IsHexChar(tail[0])
    ensures
      var n := DigitRun(d);
      var rest := EscapeBytes(d[n..]) + tail;
      EscapeBytes(d) + tail == Digits(d[..n]) + rest && (rest != [] ==> !IsHexChar(rest[0]))
  {
    hide EscapeByte;
    var n := DigitRun(d);
    assert d == d[..n] + d[n..];
    EscapeAppend(d[..n], d[n..]);
    EscapeOfDigits(d[..n]);
    if n < |d| {
      EscapeOfDigit(d[n]);
      CodesAreNotEmpty(d[n]);
      assert EscapeBytes(d[n..])[0] == EscapeByte(d[n])[0];
    }
  }

  lemma CodesAreNotEmpty(b: Octet)
    ensures EscapeByte(b) != []
  {
  }

  /** What a compiler makes of the text of `d`, told at the level of bytes. */
  function Greedy(d: seq<Octet>): Option<seq<Octet>>
    decreases |d|
  {
    if d == [] then Some([])
    else if !NeedsHex(d[0]) then
      var r := Greedy(d[1..]);
      if r.None? then None else Some([d[0]] + r.value)
    else
      var n := DigitRun(d[1..]);
      var v := GreedyNumber(d[0], d[1..], n);
      if v >= 0x100 then None
      else
        var r := Greedy(d[1 + n..]);
        if r.None? then None else Some([v] + r.value)
  }

  function TwoHexDigits(b: Octet): (s: string)
    ensures |s| == 2 && AllHexChars(s)
  {
    [HexDigit(b / 0x10), HexDigit(b % 0x10)]
  }

  /** The value of a hexadecimal escape that ran into `n` digits of what follows. */
  function GreedyNumber(b: Octet, d: seq<Octet>, n: nat): nat
    requires n <= |d| && AllHexBytes(d[..n])
  {
    HexNumber(TwoHexDigits(b) + Digits(d[..n]))
  }

  lemma TwoDigits(b: Octet)
    ensures HexNumber(TwoHexDigits(b)) == b
  {
    var s := TwoHexDigits(b);
    assert s[..1] == [HexDigit(b / 0x10)] && [HexDigit(b / 0x10)][..0] == [];
    assert HexNumber(s[..1]) == b / 0x10;
  }

  lemma Parts(c: char, digits: string, rest: string)
    ensures
      var s := [c] + (digits + rest);
      && s[0] == c && s[1..] == digits + rest && s[1..][..|digits|] == digits && s[1 + |digits|..] == rest
      && (rest != [] ==> s[1..][|digits|] == rest[0])
  {
  }

  lemma Associate(a: string, b: string, c: string)
    ensures a + b + c == a + (b + c)
  {
  }

  /** The text of a byte in hexadecimal, with what follows it, after its backslash. */
  lemma HexEscapeText(d: seq<Octet>, tail: string)
    requires d != [] && NeedsHex(d[0]) && (tail != [] ==> !IsHexChar(tail[0]))
    ensures
      var n := DigitRun(d[1..]);
      var rest := EscapeBytes(d[1 + n..]) + tail;
      && EscapeBytes(d) + tail == ['\\'] + (['x'] + (TwoHexDigits(d[0]) + Digits(d[1..][..n]) + rest))
      && (rest != [] ==> !IsHexChar(rest[0]))
  {
    hide DigitRun, TwoHexDigits, EscapeByte, Digits, IsHexChar, NeedsHex;
    var n := DigitRun(d[1..]);
    DigitsAreTheirText(d[1..], tail);
    assert d[1..][n..] == d[1 + n..];
    HexCode(d[0]);
    assert EscapeBytes(d) == EscapeByte(d[0]) + EscapeBytes(d[1..]);
    hide EscapeBytes;
    var two, digits, rest := TwoHexDigits(d[0]), Digits(d[1..][..n]), EscapeBytes(d[1 + n..]) + tail;
    Associate(EscapeByte(d[0]), EscapeBytes(d[1..]), tail);
    Associate(['\\'], ['x'], two);
    Associate(['\\'], ['x'] + two, digits + rest);
    Associate(['x'], two, digits + rest);
    Associate(two, digits, rest);
    assert ['\\', 'x'] == ['\\'] + ['x'];
  }

  lemma HexCode(b: Octet)
    requires NeedsHex(b)
    ensures EscapeByte(b) == ['\\', 'x'] + TwoHexDigits(b)
  {
  }

  lemma HexEscapeRead(s: string, n: nat)
    requires 0 < n < |s| && s[0] == 'x' && AllHexChars(s[1..][..n]) && (1 + n < |s| ==> !IsHexChar(s[1..][n]))
    ensures ReadEscape(s) == if HexNumber(s[1..][..n]) >= 0x100 then None else Some(Read(HexNumber(s[1..][..n]), 1 + n))
  {
    hide HexNumber, HexRun, IsHexChar;
    assert forall i :: 0 <= i < n ==> s[1..][i] == s[1..][..n][i];
    RunIs(s[1..], n);
  }

  /** Reading the text of `d` up to the closing quote is Greedy. */
  lemma {:induction false} ReadIsGreedy(d: seq<Octet>, tail: string)
    ensures ReadChars(EscapeBytes(d) + (['\"'] + tail)) ==
              if Greedy(d).None? then None else Some(Literal(Greedy(d).value, tail))
    decreases |d|
  {
    hide ReadChars, EscapeByte, EscapeBytes, DigitRun, IsHexChar, NeedsHex, GreedyNumber;
    var close := ['\"'] + tail;
    TextOf(d, close);
    if d == [] {
      CloseRead(tail);
    } else if NeedsHex(d[0]) {
      HexLiteralRead(d, close);
      ReadIsGreedy(d[1 + DigitRun(d[1..])..], tail);
    } else {
      ReadIsGreedy(d[1..], tail);
      ShortEscapeRead(d[0], EscapeBytes(d[1..]) + close);
    }
  }

  lemma TextOf(d: seq<Octet>, close: string)
    ensures EscapeBytes(d) + close == if d == [] then close else EscapeByte(d[0]) + (EscapeBytes(d[1..]) + close)
    ensures !IsHexChar('\"')
  {
  }

  /** One hexadecimal escape of a literal, with the digits it swallows. */
  lemma HexLiteralRead(d: seq<Octet>, close: string)
    requires d != [] && NeedsHex(d[0]) && close != [] && !IsHexChar(close[0])
    ensures
      var n := DigitRun(d[1..]);
      var v := GreedyNumber(d[0], d[1..], n);
      ReadChars(EscapeBytes(d) + close) == if v >= 0x100 then None else Prepend(v, ReadChars(EscapeBytes(d[1 + n..]) + close))
  {
    hide ReadChars, EscapeBytes, ReadEscape, HexNumber, DigitRun, IsHexChar, NeedsHex;
    var n := DigitRun(d[1..]);
    HexEscapeText(d, close);
    var digits, rest := TwoHexDigits(d[0]) + Digits(d[1..][..n]), EscapeBytes(d[1 + n..]) + close;
    var body := ['x'] + (digits + rest);
    Parts('x', digits, rest);
    HexEscapeRead(body, 2 + n);
    EscapeRead(body);
  }

  lemma CloseRead(tail: string)
    ensures ReadChars(['\"'] + tail) == Some(Literal([], tail))
  {
    assert (['\"'] + tail)[1..] == tail;
  }

  function Prepend(b: Octet, r: Option<Literal>): Option<Literal> {
    if r.None? then None else Some(Literal([b] + r.value.bytes, r.value.rest))
  }

  lemma EscapeRead(body: string)
    ensures
      var e := ReadEscape(body);
      ReadChars(['\\'] + body) == if e.None? then None else Prepend(e.value.value, ReadChars(body[e.value.length..]))
  {
  }

  lemma PlainRead(c: char, rest: string)
    requires c != '\\' && c != '\"' && c != '\n' && c as int < 0x80
    ensures ReadChars([c] + rest) == Prepend(c as int, ReadChars(rest))
  {
    assert ([c] + rest)[1..] == rest;
  }

  lemma ShortEscapeRead(b: Octet, rest: string)
    requires !NeedsHex(b)
    ensures ReadChars(EscapeByte(b) + rest) == Prepend(b, ReadChars(rest))
  {
    hide ReadChars;
    if |EscapeByte(b)| == 1 {
      PlainRead(b as char, rest);
    } else {
      var e := EscapeByte(b)[1];
      assert SimpleEscape(e) == Some(b);
      var body := [e] + rest;
      assert EscapeByte(b) + rest == ['\\'] + body;
      EscapeRead(body);
      assert body[1..] == rest;
    }
  }

  /** A literal never yields more bytes than were written, and yields exactly those when
      and only when the input is clean. */
  lemma {:induction false} GreedyExact(d: seq<Octet>)
    ensures Greedy(d).Some? ==> |Greedy(d).value| <= |d|
    ensures Greedy(d) == Some(d) <==> Clean(d)
    ensures !Clean(d) && Greedy(d).Some? ==> |Greedy(d).value| < |d|
    decreases |d|
  {
    if d != [] {
      var n := if NeedsHex(d[0]) then DigitRun(d[1..]) else 0;
      GreedyExact(d[1 + n..]);
      if n == 0 {
        CleanCons(d);
        if NeedsHex(d[0]) {
          TwoDigits(d[0]);
          assert TwoHexDigits(d[0]) + Digits(d[1..][..0]) == TwoHexDigits(d[0]);
        }
      } else {
        assert IsHexByte(d[1]);
        assert Swallows(d, 0);
      }
    }
  }

  lemma CleanCons(d: seq<Octet>)
    requires d != [] && (NeedsHex(d[0]) && |d| > 1 ==> !IsHexByte(d[1]))
    ensures Clean(d) <==> Clean(d[1..])
    ensures d == [d[0]] + d[1..]
  {
    CleanAppend([d[0]], d[1..]);
    assert d == [d[0]] + d[1..];
  }

  /** A pair across a cut counts only if the first byte is written in hexadecimal. */
  lemma CleanAppend(a: seq<Octet>, b: seq<Octet>)
    requires a != [] && (b != [] ==> !(NeedsHex(a[|a| - 1]) && IsHexByte(b[0])))
    ensures Clean(a + b) <==> Clean(a) && Clean(b)
  {
    hide NeedsHex, IsHexByte;
    var d := a + b;
    if Clean(a) && Clean(b) {
      forall i | 0 <= i < |d| - 1
        ensures !Swallows(d, i)
      {
        if i < |a| - 1 {
          assert !Swallows(a, i);
        } else if i > |a| - 1 {
          assert !Swallows(b, i - |a|);
        }
      }
    }
    if Clean(d) {
      forall i | 0 <= i < |a| - 1
        ensures !Swallows(a, i)
      {
        assert !Swallows(d, i);
      }
      forall i | 0 <= i < |b| - 1
        ensures !Swallows(b, i)
      {
        assert !Swallows(d, |a| + i);
      }
    }
  }

  lemma LastDigit(s: string, c: char)
    requires AllHexChars(s) && IsHexChar(c)
    ensures AllHexChars(s + [c]) && HexNumber(s + [c]) == HexNumber(s) * 0x10 + HexValue(c)
  {
    assert (s + [c])[..|s|] == s;
  }

  // ---------------------------------------------------------------------------
  // The whole initializer
  // ---------------------------------------------------------------------------

  /** Up to and including the first line end: LF, CR, or CR LF. */
  function LineLength(d: seq<Octet>): (n: nat)
    requires d != []
    ensures 0 < n <= |d|
    ensures n < |d| ==> d[n - 1] == 0x0A || d[n - 1] == 0x0D
  {
    if d[0] == 0x0A then 1
    else if d[0] == 0x0D then if |d| > 1 && d[1] == 0x0A then 2 else 1
    else if |d| == 1 then 1
    else 1 + LineLength(d[1..])
  }

  /** The lines of the file, each with its end. */
  function SplitLines(d: seq<Octet>): seq<seq<Octet>>
    decreases |d|
  {
    if d == [] then [] else [d[..LineLength(d)]] + SplitLines(d[LineLength(d)..])
  }

  function Joined(lines: seq<seq<Octet>>): seq<Octet> {
    if lines == [] then [] else lines[0] + Joined(lines[1..])
  }

  function LiteralLine(line: seq<Octet>): string {
    ([' ', ' ', ' ', ' ', '\"'] + EscapeBytes(line)) + ['\"', '\n']
  }

  /** The text between the equals sign and the end of the declaration. */
  function Initializer(lines: seq<seq<Octet>>): string {
    if lines == [] then [' ', ' ', ' ', ' ', ';'] else LiteralLine(lines[0]) + Initializer(lines[1..])
  }

  function LiteralText(lines: seq<seq<Octet>>): string {
    if lines == [] then [] else LiteralText(lines[..|lines| - 1]) + LiteralLine(lines[|lines| - 1])
  }

  lemma {:induction false} InitializerText(lines: seq<seq<Octet>>, tail: seq<seq<Octet>>)
    ensures Initializer(lines + tail) == LiteralText(lines) + Initializer(tail)
  {
    hide LiteralLine;
    if lines == [] {
      assert lines + tail == tail;
    } else {
      var n := |lines| - 1;
      var more := [lines[n]] + tail;
      InitializerText(lines[..n], more);
      assert lines + tail == lines[..n] + more;
      assert more[1..] == tail;
      Associate(LiteralText(lines[..n]), LiteralLine(lines[n]), Initializer(tail));
    }
  }

  /** The loop that writes one literal per line. */
  method WriteInitializer(lines: seq<seq<Octet>>) returns (text: string)
    ensures text == Initializer(lines)
  {
    hide LiteralLine;
    text := [];
    for i := 0 to |lines|
      invariant text == LiteralText(lines[..i])
    {
      var escaped := EscapeCppBytes(lines[i]);
      var line := WriteLine(escaped, lines[i]);
      text := text + line;
      assert lines[..i + 1][..i] == lines[..i];
    }
    assert lines[..|lines|] == lines && lines + [] == lines;
    InitializerText(lines, []);
    text := text + [' ', ' ', ' ', ' ', ';'];
  }

  method WriteLine(escaped: string, ghost line: seq<Octet>) returns (text: string)
    requires escaped == EscapeBytes(line)
    ensures text == LiteralLine(line)
  {
    text := ([' ', ' ', ' ', ' ', '\"'] + escaped) + ['\"', '\n'];
  }

  /** What a compiler makes of the literals together. */
  function GreedyLines(lines: seq<seq<Octet>>): Option<seq<Octet>> {
    if lines == [] then Some([])
    else if Greedy(lines[0]).None? || GreedyLines(lines[1..]).None? then None
    else Some(Greedy(lines[0]).value + GreedyLines(lines[1..]).value)
  }

  lemma SkipIndent(c: char, rest: string)
    requires c != ' ' && c != '\n'
    ensures SkipBlanks([' ', ' ', ' ', ' ', c] + rest) == [c] + rest
    ensures SkipBlanks(['\n'] + ([' ', ' ', ' ', ' ', c] + rest)) == [c] + rest
  {
    var s := [c] + rest;
    SkipOne(' ', s);
    SkipOne(' ', [' '] + s);
    SkipOne(' ', [' '] + ([' '] + s));
    SkipOne(' ', [' '] + ([' '] + ([' '] + s)));
    assert [' ', ' ', ' ', ' ', c] + rest == [' '] + ([' '] + ([' '] + ([' '] + s)));
    SkipOne('\n', [' ', ' ', ' ', ' ', c] + rest);
  }

  lemma SkipOne(c: char, rest: string)
    requires c == ' ' || c == '\n'
    ensures SkipBlanks([c] + rest) == SkipBlanks(rest)
  {
    assert ([c] + rest)[1..] == rest;
  }

  /** What stands between two literals, or before the first. */
  lemma ReadOneLine(lines: seq<seq<Octet>>, before: string)
    requires lines != [] && (before == [] || before == ['\n'])
    ensures
      var g := Greedy(lines[0]);
      var more := ReadAdjacent(['\n'] + Initializer(lines[1..]));
      ReadAdjacent(before + Initializer(lines)) == if g.None? || more.None? then None else Some(g.value + more.value)
  {
    hide EscapeBytes, Greedy, ReadChars, SkipBlanks;
    var rest := ['\n'] + Initializer(lines[1..]);
    var chars := EscapeBytes(lines[0]) + (['\"'] + rest);
    LineText(lines);
    var s := before + Initializer(lines);
    SkipIndent('\"', chars);
    var t := ['\"'] + chars;
    assert SkipBlanks(s) == t by {
      if before == [] {
        assert s == Initializer(lines);
      }
    }
    assert t[1..] == chars;
    ReadIsGreedy(lines[0], rest);
  }

  lemma LineText(lines: seq<seq<Octet>>)
    requires lines != []
    ensures Initializer(lines) ==
              [' ', ' ', ' ', ' ', '\"'] + (EscapeBytes(lines[0]) + (['\"'] + (['\n'] + Initializer(lines[1..]))))
  {
  }

  lemma {:induction false} ReadAdjacentIsGreedy(lines: seq<seq<Octet>>, before: string)
    requires before == [] || before == ['\n']
    ensures ReadAdjacent(before + Initializer(lines)) == GreedyLines(lines)
  {
    hide LiteralLine, Greedy, ReadChars;
    if lines == [] {
      var end := [' ', ' ', ' ', ' ', ';'];
      SkipIndent(';', []);
      assert end + [] == end && [';'] + [] == [';'];
      assert before == [] ==> before + end == end;
    } else {
      ReadOneLine(lines, before);
      ReadAdjacentIsGreedy(lines[1..], ['\n']);
    }
  }

  ghost predicate AllClean(lines: seq<seq<Octet>>) {
    forall k :: 0 <= k < |lines| ==> Clean(lines[k])
  }

  lemma AllCleanCons(line: seq<Octet>, rest: seq<seq<Octet>>)
    ensures AllClean([line] + rest) <==> Clean(line) && AllClean(rest)
  {
    hide Clean;
    var all := [line] + rest;
    assert all[0] == line;
    if AllClean(all) {
      forall k | 0 <= k < |rest|
        ensures Clean(rest[k])
      {
        assert all[k + 1] == rest[k];
      }
    }
  }

  lemma {:induction false} LinesExact(lines: seq<seq<Octet>>)
    ensures GreedyLines(lines).Some? ==> |GreedyLines(lines).value| <= |Joined(lines)|
    ensures GreedyLines(lines) == Some(Joined(lines)) <==> AllClean(lines)
  {
    hide Greedy, Clean;
    if lines != [] {
      GreedyExact(lines[0]);
      LinesExact(lines[1..]);
      AllCleanCons(lines[0], lines[1..]);
      assert lines == [lines[0]] + lines[1..];
      var g, more := Greedy(lines[0]), GreedyLines(lines[1..]);
      if g.Some? && more.Some? && g.value + more.value == Joined(lines) {
        assert |g.value| == |lines[0]|;
        assert (g.value + more.value)[..|g.value|] == g.value && (lines[0] + Joined(lines[1..]))[..|lines[0]|] == lines[0];
        assert (g.value + more.value)[|g.value|..] == more.value
            && (lines[0] + Joined(lines[1..]))[|lines[0]|..] == Joined(lines[1..]);
      }
    }
  }

  lemma {:induction false} SplitKeepsEverything(d: seq<Octet>)
    ensures Joined(SplitLines(d)) == d
    ensures AllClean(SplitLines(d)) <==> Clean(d)
    decreases |d|
  {
    hide LineLength, NeedsHex, IsHexByte, Clean;
    if d == [] {
      NothingIsClean();
    } else {
      var n := LineLength(d);
      var line, rest := d[..n], d[n..];
      assert d == line + rest && line[n - 1] == d[n - 1];
      assert SplitLines(d) == [line] + SplitLines(rest);
      hide SplitLines, Joined, AllClean;
      SplitKeepsEverything(rest);
      LineEndsAreShort(d[n - 1]);
      CleanAppend(line, rest);
      AllCleanCons(line, SplitLines(rest));
      JoinedCons(line, SplitLines(rest));
    }
  }

  lemma JoinedCons(line: seq<Octet>, rest: seq<seq<Octet>>)
    ensures Joined([line] + rest) == line + Joined(rest)
  {
    assert ([line] + rest)[1..] == rest;
  }

  lemma NothingIsClean()
    ensures Clean([])
  {
  }

  lemma LineEndsAreShort(b: Octet)
    ensures b == 0x0A || b == 0x0D ==> !NeedsHex(b)
  {
  }

  /** The generated header holds exactly the bytes of the bundle if and only if the
      bundle is not empty and no byte written in hexadecimal comes just before a byte
      that is a hexadecimal digit. An empty bundle gives a declaration with no
      initializer, which does not compile. */
  lemma HeaderRoundTrip(d: seq<Octet>)
    ensures ReadInitializer(Initializer(SplitLines(d))) == Some(d) <==> d != [] && Clean(d)
  {
    hide Clean, Greedy, ReadChars, EscapeBytes, LineLength;
    var lines := SplitLines(d);
    var text := Initializer(lines);
    if d == [] {
      SkipIndent(';', []);
      assert text == [' ', ' ', ' ', ' ', ';'] + [];
    } else {
      InitializerIsGreedy(lines);
      LinesExact(lines);
      SplitKeepsEverything(d);
    }
  }

  /** What a compiler reads in a header with at least one line. */
  lemma InitializerIsGreedy(lines: seq<seq<Octet>>)
    requires lines != []
    ensures ReadInitializer(Initializer(lines)) == GreedyLines(lines)
  {
    hide Greedy, ReadChars, EscapeBytes;
    var text := Initializer(lines);
    LineText(lines);
    SkipIndent('\"', EscapeBytes(lines[0]) + (['\"'] + (['\n'] + Initializer(lines[1..]))));
    assert ReadInitializer(text) == ReadAdjacent(text);
    assert [] + text == text;
    ReadAdjacentIsGreedy(lines, []);
  }

  lemma GreedyOnOneAndA()
    ensures Greedy([0x01, 0x41]) == Some([0x1A])
  {
    hide HexNumber;
    var d: seq<Octet> := [0x01, 0x41];
    assert d[1..] == [0x41] && d[1..][1..] == [] && d[2..] == [];
    assert DigitRun(d[1..]) == 1;
    var s := TwoHexDigits(0x01) + Digits(d[1..][..1]);
    assert s[2] == 'A' && s == TwoHexDigits(0x01) + ['A'];
    LastDigit(TwoHexDigits(0x01), 'A');
    TwoDigits(0x01);
    assert GreedyNumber(0x01, d[1..], 1) == 0x1A;
    var none: seq<Octet> := [];
    assert Greedy(d[2..]) == Some(none) && [0x1A] + none == [0x1A];
  }

  /** The smallest input that does not survive: a byte 1 before a letter A. The header
      generated for the two bytes holds the single byte 0x1A. */
  lemma HexSwallowsTheNextDigit()
    ensures ReadInitializer(Initializer(SplitLines([0x01, 0x41]))) == Some([0x1A])
  {
    var d: seq<Octet> := [0x01, 0x41];
    OneLine(d);
    GreedyOnOneAndA();
    InitializerIsGreedy([d]);
    var none: seq<Octet> := [];
    assert GreedyLines([]) == Some(none) && [0x1A] + none == [0x1A];
    assert [d][1..] == [];
    assert GreedyLines([d]) == Some([0x1A]);
  }

  lemma OneLine(d: seq<Octet>)
    requires d == [0x01, 0x41]
    ensures SplitLines(d) == [d]
  {
    assert d[1..] == [0x41];
    assert LineLength(d[1..]) == 1 && LineLength(d) == 2;
    assert d[..2] == d && d[2..] == [];
  }
}
