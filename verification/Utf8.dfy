/**
 UTF-8 (section 4 of RFC 3629) as Rust's `String` reads it: strictly, and with
 every longest broken beginning of a character replaced by U+FFFD.
 */
module Utf8 {
  import opened Wrappers
  import opened Bytes

  const REPLACEMENT: char := '\U{FFFD}'

  /** Six bits at a time, the first byte telling the length. */
  function EncodeChar(c: char): (r: seq<byte>)
    ensures 1 <= |r| <= 4
  {
    var v := c as int;
    if v < 0x80 then [v]
    else if v < 0x800 then [0xC0 + v / 64, 0x80 + v % 64]
    else if v < 0x1_0000 then [0xE0 + v / 64 / 64, 0x80 + v / 64 % 64, 0x80 + v % 64]
    else [0xF0 + v / 64 / 64 / 64, 0x80 + v / 64 / 64 % 64, 0x80 + v / 64 % 64, 0x80 + v % 64]
  }

  /** Rust's `as_bytes`. */
  function Encode(s: string): seq<byte> {
    if s == [] then [] else EncodeChar(s[0]) + Encode(s[1..])
  }

  // ---------- Reading ----------

  predicate IsTail(b: byte) {
    0x80 <= b <= 0xBF
  }

  /** The second bytes that can follow a first byte of a longer character, surrogates and long forms left out. */
  predicate CanFollow(first: byte, second: byte) {
    && IsTail(second)
    && (first == 0xE0 ==> second >= 0xA0)
    && (first == 0xED ==> second <= 0x9F)
    && (first == 0xF0 ==> second >= 0x90)
    && (first == 0xF4 ==> second <= 0x8F)
  }

  /** Length of the character that a first byte announces, or 0. */
  function Announced(first: byte): (n: nat)
    ensures n <= 4
  {
    if first < 0x80 then 1
    else if 0xC2 <= first <= 0xDF then 2
    else if 0xE0 <= first <= 0xEF then 3
    else if 0xF0 <= first <= 0xF4 then 4
    else 0
  }

  /** How many bytes, the first among them, can begin one character. */
  function Begun(bytes: seq<byte>): (n: nat)
    requires bytes != []
    ensures 1 <= n <= |bytes|
  {
    var announced := Announced(bytes[0]);
    if announced < 2 || |bytes| < 2 || !CanFollow(bytes[0], bytes[1]) then 1
    else if announced < 3 || |bytes| < 3 || !IsTail(bytes[2]) then 2
    else if announced < 4 || |bytes| < 4 || !IsTail(bytes[3]) then 3
    else 4
  }

  /** The first character of some bytes, if it is whole. */
  function FirstChar(bytes: seq<byte>): Option<char>
    requires bytes != []
  {
    var n := Begun(bytes);
    if n != Announced(bytes[0]) then None
    else if n == 1 then Some(bytes[0] as char)
    else if n == 2 then Some(Join(bytes[0] - 0xC0, bytes[1]) as char)
    else if n == 3 then Some(Join(Join(bytes[0] - 0xE0, bytes[1]), bytes[2]) as char)
    else Some(Join(Join(Join(bytes[0] - 0xF0, bytes[1]), bytes[2]), bytes[3]) as char)
  }

  /** Six more bits from a tail byte. */
  function Join(high: int, tail: byte): int {
    high * 64 + (tail - 0x80)
  }

  /** `String::from_utf8`. */
  function FromUtf8(bytes: seq<byte>): Option<string> {
    if bytes == [] then Some([])
    else
      match (FirstChar(bytes), FromUtf8(bytes[Begun(bytes)..]))
      case (Some(c), Some(rest)) => Some([c] + rest)
      case _ => None
  }

  /** `String::from_utf8_lossy`. */
  function FromUtf8Lossy(bytes: seq<byte>): string {
    if bytes == [] then []
    else
      var c := match FirstChar(bytes) case Some(c) => c case None => REPLACEMENT;
      [c] + FromUtf8Lossy(bytes[Begun(bytes)..])
  }

  // ---------- Results ----------

  lemma Split(high: int, tail: byte)
    requires IsTail(tail)
    ensures Join(high, tail) / 64 == high && Join(high, tail) % 64 + 0x80 == tail
  {
  }

  lemma Rejoin(v: nat)
    ensures IsTail(0x80 + v % 64) && Join(v / 64, 0x80 + v % 64) == v
  {
  }

  lemma FirstCharHead(c: char, rest: seq<byte>)
    ensures var bytes := EncodeChar(c) + rest;
      Announced(bytes[0]) == |EncodeChar(c)| && Begun(bytes) == |EncodeChar(c)|
  {
    var v, bytes := c as int, EncodeChar(c) + rest;
    assert bytes[0] == EncodeChar(c)[0];
    assert |EncodeChar(c)| >= 2 ==> bytes[1] == EncodeChar(c)[1];
    assert |EncodeChar(c)| >= 3 ==> bytes[2] == EncodeChar(c)[2];
    assert |EncodeChar(c)| >= 4 ==> bytes[3] == EncodeChar(c)[3];
  }

  /** A character is read back whatever follows it. */
  lemma FirstCharOfEncoding(c: char, rest: seq<byte>)
    ensures var bytes := EncodeChar(c) + rest;
      Begun(bytes) == |EncodeChar(c)| && FirstChar(bytes) == Some(c)
  {
    var v := c as int;
    FirstCharHead(c, rest);
    hide Begun, Announced, Join;
    Rejoin(v);
    Rejoin(v / 64);
    Rejoin(v / 64 / 64);
  }

  /** No other bytes are read as that character. */
  lemma FirstCharIsEncoded(bytes: seq<byte>)
    requires bytes != [] && FirstChar(bytes).Some?
    ensures bytes[..Begun(bytes)] == EncodeChar(FirstChar(bytes).value)
  {
    var n := Begun(bytes);
    if n == 2 { TwoBytes(bytes[0], bytes[1]); }
    if n == 3 { ThreeBytes(bytes[0], bytes[1], bytes[2]); }
    if n == 4 { FourBytes(bytes[0], bytes[1], bytes[2], bytes[3]); }
    hide EncodeChar, Join;
  }

  lemma TwoBytes(a: byte, b: byte)
    requires 0xC2 <= a <= 0xDF && IsTail(b)
    ensures EncodeChar(Join(a - 0xC0, b) as char) == [a, b]
  {
    Split(a - 0xC0, b);
  }

  lemma ThreeBytes(a: byte, b: byte, c: byte)
    requires 0xE0 <= a <= 0xEF && CanFollow(a, b) && IsTail(c)
    ensures EncodeChar(Join(Join(a - 0xE0, b), c) as char) == [a, b, c]
  {
    Split(a - 0xE0, b);
    Split(Join(a - 0xE0, b), c);
  }

  lemma FourBytes(a: byte, b: byte, c: byte, d: byte)
    requires 0xF0 <= a <= 0xF4 && CanFollow(a, b) && IsTail(c) && IsTail(d)
    ensures EncodeChar(Join(Join(Join(a - 0xF0, b), c), d) as char) == [a, b, c, d]
  {
    Split(a - 0xF0, b);
    Split(Join(a - 0xF0, b), c);
    Split(Join(Join(a - 0xF0, b), c), d);
  }

  /** The strict reading succeeds on exactly the bytes that some text encodes to, and yields that text. */
  lemma {:induction false} FromUtf8Exactly(bytes: seq<byte>, s: string)
    ensures FromUtf8(bytes) == Some(s) <==> bytes == Encode(s)
    decreases |bytes|
  {
    hide EncodeChar, FirstChar, Begun;
    if bytes == Encode(s) && s != [] {
      FirstCharOfEncoding(s[0], Encode(s[1..]));
      FromUtf8Exactly(Encode(s[1..]), s[1..]);
      assert bytes[Begun(bytes)..] == Encode(s[1..]);
      assert [s[0]] + s[1..] == s;
    }
    if bytes != [] && FromUtf8(bytes) == Some(s) {
      FirstCharIsEncoded(bytes);
      FromUtf8Exactly(bytes[Begun(bytes)..], s[1..]);
    }
  }

  /** The lossy reading loses nothing of a text, and never fails. */
  lemma {:induction false} LossyKeepsText(s: string)
    ensures FromUtf8Lossy(Encode(s)) == s
  {
    hide EncodeChar, FirstChar, Begun;
    if s != [] {
      FirstCharOfEncoding(s[0], Encode(s[1..]));
      LossyKeepsText(s[1..]);
    }
  }

  lemma {:induction false} EncodeAscii(s: string)
    requires IsAscii(s)
    ensures Encode(s) == AsBytes(s)
  {
    if s != [] { EncodeAscii(s[1..]); }
  }

  // ---------- Concatenation and broken input ----------

  lemma {:induction false} EncodeConcat(a: string, b: string)
    ensures Encode(a + b) == Encode(a) + Encode(b)
  {
    hide EncodeChar;
    if a == [] {
      assert a + b == b;
    } else {
      assert (a + b)[1..] == a[1..] + b;
      EncodeConcat(a[1..], b);
    }
  }

  /** A byte below 128 stands only for itself. */
  lemma {:induction false} AsciiStandsForItself(s: string, b: byte)
    requires b < 128
    ensures b in Encode(s) <==> b as char in s
  {
    if s != [] {
      AsciiStandsForItself(s[1..], b);
      assert b in EncodeChar(s[0]) <==> s[0] == b as char;
    }
  }

  /** One character of each length, as everyone writes it. */
  lemma KnownEncodings()
    ensures EncodeChar('A') == [0x41] && EncodeChar('\U{00E9}') == [0xC3, 0xA9]
    ensures EncodeChar('\U{20AC}') == [0xE2, 0x82, 0xAC] && EncodeChar('\U{1F600}') == [0xF0, 0x9F, 0x98, 0x80]
  {
  }

  /** The bytes begin some character, but are not the whole of it. */
  ghost predicate BeginsSome(bytes: seq<byte>) {
    exists c: char :: bytes < EncodeChar(c)
  }

  /** How long a broken beginning is: as long as any character still begins that way, and one byte at least. */
  lemma BrokenExactly(bytes: seq<byte>)
    requires bytes != [] && FirstChar(bytes) == None
    ensures var n := Begun(bytes);
      && (n > 1 ==> BeginsSome(bytes[..n]))
      && (n < |bytes| ==> forall c: char :: !(bytes[..n + 1] <= EncodeChar(c)))
      && FromUtf8Lossy(bytes) == ['\U{FFFD}'] + FromUtf8Lossy(bytes[n..])
  {
    var n := Begun(bytes);
    if n > 1 { LongerExists(bytes[..n], bytes[0]); }
    if n < |bytes| {
      forall c: char ensures !(bytes[..n + 1] <= EncodeChar(c)) {
        NotLonger(bytes, c);
      }
    }
  }

  lemma LongerExists(begun: seq<byte>, first: byte)
    requires 2 <= |begun| < Announced(begun[0]) && CanFollow(begun[0], begun[1]) && (|begun| == 3 ==> IsTail(begun[2]))
    ensures BeginsSome(begun)
  {
    if Announced(begun[0]) == 3 {
      ThreeBytes(begun[0], begun[1], 0x80);
      assert begun < EncodeChar(Join(Join(begun[0] - 0xE0, begun[1]), 0x80) as char);
    } else {
      var third := if |begun| == 3 then begun[2] else 0x80;
      FourBytes(begun[0], begun[1], third, 0x80);
      assert begun < EncodeChar(Join(Join(Join(begun[0] - 0xF0, begun[1]), third), 0x80) as char);
    }
  }

  /** No character begins with one byte more than what has begun and broken off. */
  lemma NotLonger(bytes: seq<byte>, c: char)
    requires bytes != [] && FirstChar(bytes) == None && Begun(bytes) < |bytes|
    ensures !(bytes[..Begun(bytes) + 1] <= EncodeChar(c))
  {
    var n := Begun(bytes);
    FirstCharHead(c, []);
    assert EncodeChar(c) + [] == EncodeChar(c);
    if bytes[..n + 1] <= EncodeChar(c) { assert false; }
  }
}
