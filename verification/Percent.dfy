/**
 Percent-encoding of the query, path and quoted-query forms (sections 2.1 and
 2.3 of RFC 3986), against a reader that accepts any well-formed escapes.
 */
module Percent {
  import opened Wrappers
  import opened Bytes

  /** Which of the two encoders: `Query` writes a space as `+`. */
  datatype Form = Plain | Query

  const SPACE: byte := 32
  const QUOTE: byte := 39

  /** The unreserved characters of section 2.3. */
  predicate IsUnreserved(b: byte) {
    || 'A' as int <= b <= 'Z' as int || 'a' as int <= b <= 'z' as int || '0' as int <= b <= '9' as int
    || b == '-' as int || b == '_' as int || b == '.' as int || b == '~' as int
  }

  function Hex(nibble: nat): char
    requires nibble < 16
  {
    if nibble < 10 then ('0' as int + nibble) as char else ('A' as int + (nibble - 10)) as char
  }

  function EncodeByte(form: Form, b: byte): string {
    if IsUnreserved(b) then [b as char]
    else if form == Query && b == SPACE then ['+']
    else ['%', Hex(b / 16), Hex(b % 16)]
  }

  /** The whole text, byte after byte. */
  function Encode(form: Form, bytes: seq<byte>): string {
    if bytes == [] then [] else EncodeByte(form, bytes[0]) + Encode(form, bytes[1..])
  }

  lemma EncodeNothing(form: Form)
    ensures Encode(form, []) == []
  {
  }

  lemma OneMoreByte(form: Form, value: seq<byte>, i: nat, out: string)
    requires i < |value|
    ensures out + Encode(form, value[i..]) == out + EncodeByte(form, value[i]) + Encode(form, value[i + 1..])
  {
    assert value[i..][1..] == value[i + 1..];
    var (first, rest) := (EncodeByte(form, value[i]), Encode(form, value[i + 1..]));
    assert out + (first + rest) == out + first + rest;
  }

  /** `encode_q`, and the two `encode_path`s. */
  method EncodeQ(value: seq<byte>) returns (out: string)
    ensures out == Encode(Plain, value)
  {
    hide Encode, Hex;
    out := "";
    assert value[0..] == value;
    for i := 0 to |value|
      invariant out + Encode(Plain, value[i..]) == Encode(Plain, value)
    {
      var b := value[i];
      OneMoreByte(Plain, value, i, out);
      if IsUnreserved(b) {
        out := out + [b as char];
      } else {
        out := out + ['%'] + [Hex(b / 16)] + [Hex(b % 16)];
      }
    }
    EncodeNothing(Plain);
    assert value[|value|..] == [] && out + [] == out;
  }

  method EncodeQuery(value: seq<byte>) returns (out: string)
    ensures out == Encode(Query, value)
  {
    hide Encode, Hex;
    out := "";
    assert value[0..] == value;
    for i := 0 to |value|
      invariant out + Encode(Query, value[i..]) == Encode(Query, value)
    {
      var b := value[i];
      OneMoreByte(Query, value, i, out);
      if IsUnreserved(b) {
        out := out + [b as char];
      } else if b == SPACE {
        out := out + ['+'];
      } else {
        out := out + ['%'] + [Hex(b / 16)] + [Hex(b % 16)];
      }
    }
    EncodeNothing(Query);
    assert value[|value|..] == [] && out + [] == out;
  }

  /** Rust's `replace('\'', "''")`. */
  function DoubleQuotes(bytes: seq<byte>): seq<byte> {
    if bytes == [] then []
    else (if bytes[0] == QUOTE then [QUOTE, QUOTE] else [bytes[0]]) + DoubleQuotes(bytes[1..])
  }

  /**
   The text of a quoted query literal: decoding it and then un-doubling its
   quotes gives the value back, so no quote of the value can close the literal.
   */
  method EncodeQSingleQuoted(value: seq<byte>) returns (out: string)
    ensures out == Encode(Plain, DoubleQuotes(value))
    ensures IsCanonical(Plain, out) && QUOTE as char !in out
    ensures Decode(Plain, out).Some? && UndoubleQuotes(Decode(Plain, out).value) == Some(value)
  {
    out := EncodeQ(DoubleQuotes(value));
    QuotedReadsBack(value);
    EncodeIsCanonical(Plain, DoubleQuotes(value));
    CanonicalHasNoQuote(Plain, out);
  }

  // ---------- Reading back ----------

  /** A hexadecimal digit of either case. */
  function HexValue(c: char): (r: Option<nat>)
    ensures r.Some? ==> r.value < 16
  {
    if '0' <= c <= '9' then Some(c as int - '0' as int)
    else if 'A' <= c <= 'F' then Some(c as int - 'A' as int + 10)
    else if 'a' <= c <= 'f' then Some(c as int - 'a' as int + 10)
    else None
  }

  function Push(b: byte, rest: Option<seq<byte>>): Option<seq<byte>> {
    match rest
    case Some(bytes) => Some([b] + bytes)
    case None => None
  }

  /** Percent-decoding: `%HH` is a byte, `+` a space in a query, other ASCII itself. */
  function Decode(form: Form, s: string): Option<seq<byte>> {
    if s == [] then Some([])
    else if s[0] == '%' then
      if |s| >= 3 && HexValue(s[1]).Some? && HexValue(s[2]).Some?
      then Push(HexValue(s[1]).value * 16 + HexValue(s[2]).value, Decode(form, s[3..]))
      else None
    else if s[0] as int < 128 then
      Push(if form == Query && s[0] == '+' then SPACE else s[0] as int, Decode(form, s[1..]))
    else None
  }

  function UndoubleQuotes(bytes: seq<byte>): Option<seq<byte>> {
    if bytes == [] then Some([])
    else if bytes[0] != QUOTE then Push(bytes[0], UndoubleQuotes(bytes[1..]))
    else if |bytes| >= 2 && bytes[1] == QUOTE then Push(QUOTE, UndoubleQuotes(bytes[2..]))
    else None
  }

  // ---------- Main results ----------

  lemma DecodeOneByte(form: Form, b: byte, rest: string)
    ensures Decode(form, EncodeByte(form, b) + rest) == Push(b, Decode(form, rest))
  {
    var s := EncodeByte(form, b) + rest;
    if IsUnreserved(b) || (form == Query && b == SPACE) {
      assert s[1..] == rest;
    } else {
      assert HexValue(Hex(b / 16)) == Some(b / 16) && HexValue(Hex(b % 16)) == Some(b % 16);
      assert s[3..] == rest;
    }
  }

  /** Decoding undoes encoding on every byte string, in either form. */
  lemma {:induction false} DecodeUndoesEncode(form: Form, bytes: seq<byte>)
    ensures Decode(form, Encode(form, bytes)) == Some(bytes)
  {
    if bytes != [] {
      DecodeOneByte(form, bytes[0], Encode(form, bytes[1..]));
      DecodeUndoesEncode(form, bytes[1..]);
      assert [bytes[0]] + bytes[1..] == bytes;
    }
  }

  /** So distinct inputs never collide. */
  lemma EncodeIsInjective(form: Form, a: seq<byte>, b: seq<byte>)
    requires Encode(form, a) == Encode(form, b)
    ensures a == b
  {
    DecodeUndoesEncode(form, a);
    DecodeUndoesEncode(form, b);
  }

  /** The unreserved characters: letters, digits, and four marks. */
  predicate StandsBare(c: char) {
    || 'A' <= c <= 'Z' || 'a' <= c <= 'z' || '0' <= c <= '9'
    || c == '-' || c == '.' || c == '_' || c == '~'
  }

  /** `c` is the upper-case hexadecimal digit of `n`: 48 is the code of 0, and 65 that of A. */
  predicate IsDigitOf(c: char, n: nat) {
    n < 16 && c as int == if n < 10 then 48 + n else 65 + (n - 10)
  }

  /** An escape of a byte that could not have stood bare. */
  predicate IsEscape(form: Form, s: string, b: byte) {
    && |s| >= 3 && s[0] == '%' && IsDigitOf(s[1], b / 16) && IsDigitOf(s[2], b % 16)
    && !StandsBare(b as char) && (form == Query ==> b != 32)
  }

  /**
   Unreserved characters bare, `+` in the query form only, and upper-case `%HH`
   for nothing that could have stood bare.
   */
  ghost predicate IsCanonical(form: Form, s: string) {
    || s == []
    || ((exists b :: IsEscape(form, s, b)) && IsCanonical(form, s[3..]))
    || (s[0] == '+' && form == Query && IsCanonical(form, s[1..]))
    || (StandsBare(s[0]) && IsCanonical(form, s[1..]))
  }

  lemma {:induction false} EncodeIsCanonical(form: Form, bytes: seq<byte>)
    ensures IsCanonical(form, Encode(form, bytes))
  {
    if bytes != [] {
      EncodeIsCanonical(form, bytes[1..]);
      var first, rest := EncodeByte(form, bytes[0]), Encode(form, bytes[1..]);
      assert (first + rest)[|first|..] == rest;
      OneByteIsCanonical(form, bytes[0], rest);
    }
  }

  lemma OneByteIsCanonical(form: Form, b: byte, rest: string)
    ensures var s := EncodeByte(form, b) + rest;
      IsEscape(form, s, b) || (s[0] == '+' && form == Query && b == SPACE) || (s == [s[0]] + rest && StandsBare(s[0]))
  {
  }

  lemma {:induction false} CanonicalHasNoQuote(form: Form, s: string)
    requires IsCanonical(form, s)
    ensures QUOTE as char !in s
  {
    if s != [] {
      if b :| IsEscape(form, s, b) {
        CanonicalHasNoQuote(form, s[3..]);
        assert s == [s[0], s[1], s[2]] + s[3..];
      } else {
        CanonicalHasNoQuote(form, s[1..]);
        assert s == [s[0]] + s[1..];
      }
    }
  }

  lemma {:induction false} UndoubleUndoesDouble(bytes: seq<byte>)
    ensures UndoubleQuotes(DoubleQuotes(bytes)) == Some(bytes)
  {
    if bytes != [] {
      UndoubleUndoesDouble(bytes[1..]);
      var rest := DoubleQuotes(bytes[1..]);
      assert [bytes[0]] + bytes[1..] == bytes;
      if bytes[0] == QUOTE { assert DoubleQuotes(bytes)[2..] == rest; }
      else { assert DoubleQuotes(bytes)[1..] == rest; }
    }
  }

  /** The quoted form reads back by decoding and then un-doubling: no quote stands alone. */
  lemma QuotedReadsBack(bytes: seq<byte>)
    ensures var decoded := Decode(Plain, Encode(Plain, DoubleQuotes(bytes)));
      decoded.Some? && UndoubleQuotes(decoded.value) == Some(bytes)
  {
    DecodeUndoesEncode(Plain, DoubleQuotes(bytes));
    UndoubleUndoesDouble(bytes);
  }
}
