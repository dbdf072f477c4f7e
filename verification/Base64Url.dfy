/**
 base64url without padding (section 5 of RFC 4648): the mail encoder, the
 webhook-secret encoder, and the inbox decoder. A shift or mask of the program
 is the division, product or remainder it equals; the fields that `|` joins
 never overlap, so joining is adding.
 */
module Base64Url {
  import opened Wrappers
  import opened Bytes
  import Utf8

  // ---------- The alphabet ----------

  /** Entry `d` of the encoders' table: `A`-`Z`, `a`-`z`, `0`-`9`, `-`, `_`. */
  function Symbol(d: nat): byte
    requires d < 64
  {
    if d < 26 then 'A' as int + d
    else if d < 52 then 'a' as int + (d - 26)
    else if d < 62 then '0' as int + (d - 52)
    else if d == 62 then '-' as int
    else '_' as int
  }

  /** The decoder's lookup, over the standard alphabet with `+` and `/`. */
  function ValueOf(c: byte): (r: Option<nat>)
    ensures r.Some? ==> r.value < 64
  {
    if 'A' as int <= c <= 'Z' as int then Some(c - 'A' as int)
    else if 'a' as int <= c <= 'z' as int then Some(c - 'a' as int + 26)
    else if '0' as int <= c <= '9' as int then Some(c - '0' as int + 52)
    else if c == '+' as int then Some(62)
    else if c == '/' as int then Some(63)
    else None
  }

  // ---------- Encoding ----------

  /** `bits >> shift & 63` for the shifts 18, 12, 6, 0. */
  function DigitAt(bits: nat, k: nat): (d: nat)
    requires k < 4
    ensures d < 64
  {
    bits / [262_144, 4096, 64, 1][k] % 64
  }

  function Digits(bits: nat, count: nat): (r: seq<byte>)
    requires count <= 4
    ensures |r| == count
  {
    seq(count, k requires 0 <= k < count => Symbol(DigitAt(bits, k)))
  }

  /** Three bytes side by side in one word. */
  function Bits24(first: nat, second: nat, third: nat): nat {
    first * 65_536 + second * 256 + third
  }

  function Encode(bytes: seq<byte>): seq<byte> {
    if |bytes| >= 3 then
      Digits(Bits24(bytes[0], bytes[1], bytes[2]), 4) + Encode(bytes[3..])
    else if |bytes| == 2 then Digits(Bits24(bytes[0], bytes[1], 0), 3)
    else if |bytes| == 1 then Digits(Bits24(bytes[0], 0, 0), 2)
    else []
  }

  /** The encoding from byte `i` on. */
  lemma EncodeFrom(bytes: seq<byte>, i: nat)
    requires i <= |bytes|
    ensures Encode(bytes[i..]) ==
      if i + 3 <= |bytes| then Digits(Bits24(bytes[i], bytes[i + 1], bytes[i + 2]), 4) + Encode(bytes[i + 3..])
      else if i + 2 == |bytes| then Digits(Bits24(bytes[i], bytes[i + 1], 0), 3)
      else if i + 1 == |bytes| then Digits(Bits24(bytes[i], 0, 0), 2)
      else []
  {
    assert i + 3 <= |bytes| ==> bytes[i..][3..] == bytes[i + 3..];
  }

  method PushB64Digits(out: seq<byte>, bits: nat, count: nat) returns (r: seq<byte>)
    requires count <= 4
    ensures r == out + Digits(bits, count)
  {
    r := out;
    for k := 0 to count
      invariant r == out + Digits(bits, count)[..k]
    {
      r := r + [Symbol(DigitAt(bits, k))];
    }
  }

  /** `encode_b64url`: whole chunks of three, then the remainder. */
  method EncodeB64Url(bytes: seq<byte>) returns (out: seq<byte>)
    ensures out == Encode(bytes)
  {
    hide Encode, Digits, Bits24;
    out := [];
    var i := 0;
    while i + 3 <= |bytes|
      invariant 0 <= i <= |bytes|
      invariant out + Encode(bytes[i..]) == Encode(bytes)
    {
      EncodeFrom(bytes, i);
      var bits := Bits24(bytes[i], bytes[i + 1], bytes[i + 2]);
      assert out + (Digits(bits, 4) + Encode(bytes[i + 3..])) == out + Digits(bits, 4) + Encode(bytes[i + 3..]);
      out := PushB64Digits(out, bits, 4);
      i := i + 3;
    }
    EncodeFrom(bytes, i);
    var remainder := bytes[i..];
    if |remainder| == 1 {
      out := PushB64Digits(out, Bits24(remainder[0], 0, 0), 2);
    } else if |remainder| == 2 {
      out := PushB64Digits(out, Bits24(remainder[0], remainder[1], 0), 3);
    }
  }

  lemma DigitsSpelledOut(n: nat)
    ensures var (a, b, c, d) := (n / 262_144 % 64, n / 4096 % 64, n / 64 % 64, n % 64);
      && Digits(n, 2) == [Symbol(a), Symbol(b)]
      && Digits(n, 3) == [Symbol(a), Symbol(b), Symbol(c)]
      && Digits(n, 4) == [Symbol(a), Symbol(b), Symbol(c), Symbol(d)]
  {
    hide Symbol;
  }

  /** `base64url_nopad`: the same text, digit by digit, by an index that steps by three. */
  method Base64UrlNoPad(bytes: seq<byte>) returns (out: seq<byte>)
    ensures out == Encode(bytes)
  {
    hide Encode, Digits, Symbol, Bits24;
    out := [];
    var i := 0;
    while i + 3 <= |bytes|
      invariant 0 <= i <= |bytes|
      invariant out + Encode(bytes[i..]) == Encode(bytes)
    {
      EncodeFrom(bytes, i);
      var n := Bits24(bytes[i], bytes[i + 1], bytes[i + 2]);
      var digits := [Symbol(n / 262_144 % 64), Symbol(n / 4096 % 64), Symbol(n / 64 % 64), Symbol(n % 64)];
      DigitsSpelledOut(n);
      out := out + digits;
      i := i + 3;
    }
    EncodeFrom(bytes, i);
    var rem := |bytes| - i;
    if rem == 1 {
      var n := Bits24(bytes[i], 0, 0);
      var digits := [Symbol(n / 262_144 % 64), Symbol(n / 4096 % 64)];
      DigitsSpelledOut(n);
      out := out + digits;
    } else if rem == 2 {
      var n := Bits24(bytes[i], bytes[i + 1], 0);
      var digits := [Symbol(n / 262_144 % 64), Symbol(n / 4096 % 64), Symbol(n / 64 % 64)];
      DigitsSpelledOut(n);
      out := out + digits;
    }
  }

  // ---------- Decoding ----------

  function Remapped(c: byte): byte {
    if c == '-' as int then '+' as int else if c == '_' as int then '/' as int else c
  }

  function Remap(data: seq<byte>): (r: seq<byte>)
    ensures |r| == |data|
  {
    seq(|data|, i requires 0 <= i < |data| => Remapped(data[i]))
  }

  function Equals(count: nat): (r: seq<byte>)
    ensures |r| == count
  {
    seq(count, _ => '=' as int)
  }

  predicate IsAsciiWhitespace(c: byte) {
    c == 32 || c == 9 || c == 10 || c == 12 || c == 13
  }

  function WithoutWhitespace(s: seq<byte>): seq<byte> {
    if s == [] then []
    else (if IsAsciiWhitespace(s[0]) then [] else [s[0]]) + WithoutWhitespace(s[1..])
  }

  /** `(x << shift) as u8` where `times` is two to the power `shift`. */
  function ShiftedLeft(x: nat, times: nat): byte {
    x * times % 256
  }

  /** The bytes that two to four six-bit values make. */
  function JoinDigits(a: nat, b: nat, c: Option<nat>, d: Option<nat>): seq<byte> {
    [(ShiftedLeft(a, 4) + b / 16) % 256]
    + (if c.None? then [] else
         [(ShiftedLeft(b, 16) + c.value / 4) % 256]
         + (if d.None? then [] else [(ShiftedLeft(c.value, 64) + d.value) % 256]))
  }

  /** One chunk. A character outside the alphabet in third or fourth place only ends it. */
  function DecodeChunk(chunk: seq<byte>): Option<seq<byte>>
    requires 2 <= |chunk| <= 4
  {
    match (ValueOf(chunk[0]), ValueOf(chunk[1]))
    case (Some(a), Some(b)) =>
      Some(JoinDigits(a, b,
        if |chunk| > 2 then ValueOf(chunk[2]) else None,
        if |chunk| > 3 then ValueOf(chunk[3]) else None))
    case _ => None
  }

  /** The chunks of `chars`, four characters each, added to `bytes`. */
  function DecodeChunks(bytes: seq<byte>, chars: seq<byte>): Option<seq<byte>>
    decreases |chars|
  {
    if chars == [] then Some(bytes)
    else if |chars| < 2 then None
    else
      var n := if |chars| < 4 then |chars| else 4;
      match DecodeChunk(chars[..n])
      case Some(decoded) => DecodeChunks(bytes + decoded, chars[n..])
      case None => None
  }

  /** How much padding the decoder adds to a text of `n` characters, if it can be completed. */
  function PadFor(n: nat): Option<nat> {
    match n % 4
    case 0 => Some(0)
    case 2 => Some(2)
    case 3 => Some(1)
    case _ => None
  }

  /** `decode_b64url` up to its last step, the UTF-8 check. */
  function Decode(data: seq<byte>): Option<seq<byte>> {
    match PadFor(|data|)
    case None => None
    case Some(pad) => DecodeChunks([], WithoutWhitespace(Remap(data) + Equals(pad)))
  }

  function DecodeText(data: seq<byte>): Option<string> {
    match Decode(data)
    case None => None
    case Some(bytes) => Utf8.FromUtf8(bytes)
  }

  /** `decode_b64url`, given the bytes of its argument. */
  method DecodeB64Url(data: seq<byte>) returns (r: Option<string>)
    ensures r == DecodeText(data)
  {
    hide DecodeChunk, DecodeChunks, WithoutWhitespace, Remap, PadFor, Equals;
    var remapped := Remap(data);
    var pad := PadFor(|remapped|);
    if pad.None? {
      return None;
    }
    var full := remapped + Equals(pad.value);
    var chars := WithoutWhitespace(full);
    var bytes, i := [], 0;
    while i < |chars|
      invariant 0 <= i <= |chars|
      invariant DecodeChunks(bytes, chars[i..]) == DecodeChunks([], chars)
    {
      var n := if |chars| - i < 4 then |chars| - i else 4;
      var chunk := chars[i..i + n];
      NextChunk(bytes, chars, i);
      if |chunk| < 2 {
        return None;
      }
      match DecodeChunk(chunk) {
        case None => return None;
        case Some(decoded) => bytes := bytes + decoded;
      }
      i := i + n;
    }
    NoChunk(bytes, chars);
    return Utf8.FromUtf8(bytes);
  }

  lemma NoChunk(bytes: seq<byte>, chars: seq<byte>)
    ensures DecodeChunks(bytes, chars[|chars|..]) == Some(bytes)
  {
  }

  lemma NextChunk(bytes: seq<byte>, chars: seq<byte>, i: nat)
    requires i < |chars|
    ensures var n := if |chars| - i < 4 then |chars| - i else 4;
      DecodeChunks(bytes, chars[i..]) ==
        if n < 2 then None
        else match DecodeChunk(chars[i..i + n])
          case None => None
          case Some(decoded) => DecodeChunks(bytes + decoded, chars[i + n..])
  {
    hide DecodeChunk;
    var n := if |chars| - i < 4 then |chars| - i else 4;
    assert chars[i..][..n] == chars[i..i + n] && chars[i..][n..] == chars[i + n..];
  }

  // ---------- Main results ----------

  predicate InAlphabet(c: byte) {
    'A' as int <= c <= 'Z' as int || 'a' as int <= c <= 'z' as int || '0' as int <= c <= '9' as int
    || c == '-' as int || c == '_' as int
  }

  lemma DigitsInAlphabet(bits: nat, count: nat)
    requires count <= 4
    ensures forall i :: 0 <= i < count ==> InAlphabet(Digits(bits, count)[i])
  {
    hide DigitAt;
  }

  /** The output is ceil(4n/3) characters long and drawn from the alphabet, so `=` is not in it. */
  lemma {:induction false} EncodeShape(bytes: seq<byte>)
    ensures |Encode(bytes)| == (4 * |bytes| + 2) / 3 && |Encode(bytes)| % 4 != 1
    ensures forall i :: 0 <= i < |Encode(bytes)| ==> InAlphabet(Encode(bytes)[i])
  {
    hide Digits, InAlphabet;
    if |bytes| >= 3 {
      DigitsInAlphabet(Bits24(bytes[0], bytes[1], bytes[2]), 4);
      EncodeShape(bytes[3..]);
    } else if |bytes| == 2 {
      DigitsInAlphabet(Bits24(bytes[0], bytes[1], 0), 3);
    } else if |bytes| == 1 {
      DigitsInAlphabet(Bits24(bytes[0], 0, 0), 2);
    }
  }

  /** How many `=` a text of `n` characters lacks to fill its last group of four. */
  function Missing(n: nat): nat {
    (4 - n % 4) % 4
  }

  lemma SymbolReadsBack(d: nat)
    requires d < 64
    ensures ValueOf(Remapped(Symbol(d))) == Some(d)
  {
  }

  /** What the decoder sees of `Encode(bytes)`: standard symbols, and `fill` times `=`. */
  function Filled(bytes: seq<byte>, fill: nat): seq<byte> {
    Remap(Encode(bytes)) + Equals(fill)
  }

  lemma RemapConcat(a: seq<byte>, b: seq<byte>)
    ensures Remap(a + b) == Remap(a) + Remap(b)
  {
  }

  lemma MissingRepeats(n: nat)
    ensures Missing(4 + n) == Missing(n)
  {
  }

  lemma EncodeStep(bytes: seq<byte>, fill: nat)
    requires |bytes| >= 3
    ensures Filled(bytes, fill) == Remap(Digits(Bits24(bytes[0], bytes[1], bytes[2]), 4)) + Filled(bytes[3..], fill)
    ensures Missing(|Encode(bytes)|) == Missing(|Encode(bytes[3..])|)
  {
    hide Digits, Remap, Bits24, Equals, Missing;
    var group, rest := Digits(Bits24(bytes[0], bytes[1], bytes[2]), 4), Encode(bytes[3..]);
    RemapConcat(group, rest);
    MissingRepeats(|rest|);
    assert Encode(bytes) == group + rest;
    assert (Remap(group) + Remap(rest)) + Equals(fill) == Remap(group) + (Remap(rest) + Equals(fill));
  }

  /** Where the 24 bits of three bytes go: six to a digit. */
  lemma DigitsOfBytes(first: byte, second: byte, third: byte)
    ensures var n := Bits24(first, second, third);
      && DigitAt(n, 0) == first / 4
      && DigitAt(n, 1) == first % 4 * 16 + second / 16
      && DigitAt(n, 2) == second % 16 * 4 + third / 64
      && DigitAt(n, 3) == third % 64
  {
    var n := Bits24(first, second, third);
    DivMod(n, 262_144, first / 4, first % 4 * 65_536 + second * 256 + third);
    DivMod(n, 4096, first * 16 + second / 16, second % 16 * 256 + third);
    DivMod(n, 64, first * 1024 + second * 4 + third / 64, third % 64);
    DivMod(first * 16 + second / 16, 64, first / 4, first % 4 * 16 + second / 16);
    DivMod(first * 1024 + second * 4 + third / 64, 64, first * 16 + second / 16, second % 16 * 4 + third / 64);
  }

  lemma DivMod(n: nat, d: nat, q: nat, r: nat)
    requires r < d && n == q * d + r
    ensures n / d == q && n % d == r
  {
    var k, m := n / d, n % d;
    assert (k - q) * d == r - m;
    if k > q { AtLeastOnce(k - q, d); }
    if k < q { AtLeastOnce(q - k, d); }
  }

  lemma AtLeastOnce(k: nat, d: nat)
    requires k >= 1
    ensures k * d >= d
  {
  }

  /** The characters that carry a byte triple, as the decoder's lookup reads them. */
  lemma LookupsOfBytes(first: byte, second: byte, third: byte, count: nat)
    requires 2 <= count <= 4
    ensures var text := Remap(Digits(Bits24(first, second, third), count));
      && ValueOf(text[0]) == Some(first / 4)
      && ValueOf(text[1]) == Some(first % 4 * 16 + second / 16)
      && (count > 2 ==> ValueOf(text[2]) == Some(second % 16 * 4 + third / 64))
      && (count > 3 ==> ValueOf(text[3]) == Some(third % 64))
  {
    var n := Bits24(first, second, third);
    DigitsOfBytes(first, second, third);
    SymbolReadsBack(DigitAt(n, 0));
    SymbolReadsBack(DigitAt(n, 1));
    SymbolReadsBack(DigitAt(n, 2));
    SymbolReadsBack(DigitAt(n, 3));
  }

  /** Six bits from one digit and the rest from the next make the byte again. */
  lemma BytesOfDigits(first: byte, second: byte, third: byte)
    ensures (ShiftedLeft(first / 4, 4) + (first % 4 * 16 + second / 16) / 16) % 256 == first
    ensures (ShiftedLeft(first % 4 * 16 + second / 16, 16) + (second % 16 * 4 + third / 64) / 4) % 256 == second
    ensures (ShiftedLeft(second % 16 * 4 + third / 64, 64) + third % 64) % 256 == third
  {
    hide ShiftedLeft;
    SplitByte(0, first, 4);
    SplitByte(first % 4, second, 16);
    SplitByte(second % 16, third, 64);
    HighPart(first % 4, second / 16, 16);
    HighPart(second % 16, third / 64, 4);
  }

  lemma HighPart(high: nat, low: nat, d: nat)
    requires low < d && (d == 16 || d == 4)
    ensures (high * d + low) / d == high
  {
    DivMod(high * d + low, d, high, low);
  }

  /** Left over high bits fall off the byte; the rest of it is put back. */
  lemma SplitByte(high: nat, b: byte, d: nat)
    requires d == 4 || d == 16 || d == 64
    ensures ShiftedLeft(high * (256 / d) + b / d, d) + b % d == b
  {
    var low := b / d * d;
    assert (high * (256 / d) + b / d) * d == high * 256 + low;
    DivMod(high * 256 + low, 256, high, low);
  }

  lemma JoinReadsBack(first: byte, second: byte, third: byte, count: nat)
    requires 2 <= count <= 4
    requires count < 4 ==> third == 0
    requires count < 3 ==> second == 0
    ensures JoinDigits(first / 4, first % 4 * 16 + second / 16,
        if count > 2 then Some(second % 16 * 4 + third / 64) else None,
        if count > 3 then Some(third % 64) else None)
      == [first, second, third][..count - 1]
  {
    hide ShiftedLeft;
    BytesOfDigits(first, second, third);
  }

  /** A chunk of `count` digits, with or without its `=`, gives back the `count - 1` bytes it was made from. */
  lemma ChunkReadsBack(first: byte, second: byte, third: byte, count: nat, fill: nat)
    requires 2 <= count && count + fill <= 4
    requires count < 4 ==> third == 0
    requires count < 3 ==> second == 0
    ensures DecodeChunk(Remap(Digits(Bits24(first, second, third), count)) + Equals(fill))
      == Some([first, second, third][..count - 1])
  {
    LookupsOfBytes(first, second, third, count);
    JoinReadsBack(first, second, third, count);
    var text := Remap(Digits(Bits24(first, second, third), count));
    var chunk := text + Equals(fill);
    assert chunk[0] == text[0] && chunk[1] == text[1];
    assert count > 2 ==> chunk[2] == text[2];
    assert count > 3 ==> chunk[3] == text[3];
    assert fill > 0 ==> ValueOf(chunk[count]) == None;
    assert fill > 1 ==> ValueOf(chunk[count + 1]) == None;
  }

  /** Digits that are complete, or lack any of their `=`, give the bytes back; one `=` too many, nothing. */
  lemma {:induction false} FilledReadsBack(done: seq<byte>, bytes: seq<byte>, fill: nat)
    ensures DecodeChunks(done, Filled(bytes, fill)) ==
      if fill <= Missing(|Encode(bytes)|) then Some(done + bytes) else None
    decreases |bytes|
  {
    hide Encode, Filled, DecodeChunk, Digits, Remap, DecodeChunks, Equals, Missing, Bits24;
    if |bytes| >= 3 {
      EncodeStep(bytes, fill);
      ChunkReadsBack(bytes[0], bytes[1], bytes[2], 4, 0);
      var group := Remap(Digits(Bits24(bytes[0], bytes[1], bytes[2]), 4));
      assert group + Equals(0) == group && [bytes[0], bytes[1], bytes[2]][..3] == bytes[..3];
      FilledReadsBack(done + bytes[..3], bytes[3..], fill);
      OneMoreGroup(done, group, Filled(bytes[3..], fill), bytes[..3]);
      assert done + bytes[..3] + bytes[3..] == done + bytes;
    } else if bytes != [] {
      LastGroupReadsBack(done, bytes, fill);
    } else {
      NothingIsRead(done, fill);
      assert done + bytes == done;
    }
  }

  /** `=` alone is no group. */
  lemma NothingIsRead(done: seq<byte>, fill: nat)
    ensures Filled([], fill) == Equals(fill) && Missing(|Encode([])|) == 0
    ensures DecodeChunks(done, Equals(fill)) == if fill == 0 then Some(done) else None
  {
    assert Remap([]) + Equals(fill) == Equals(fill);
    if fill >= 2 {
      var n := if fill < 4 then fill else 4;
      assert Equals(fill)[..n][0] == '=' as int;
      assert DecodeChunk(Equals(fill)[..n]) == None;
    }
  }

  lemma OneMoreGroup(done: seq<byte>, group: seq<byte>, rest: seq<byte>, decoded: seq<byte>)
    requires |group| == 4 && DecodeChunk(group) == Some(decoded)
    ensures DecodeChunks(done, group + rest) == DecodeChunks(done + decoded, rest)
  {
    assert (group + rest)[..4] == group && (group + rest)[4..] == rest;
    assert 4 <= |group + rest|;
  }

  lemma OnlyGroup(done: seq<byte>, group: seq<byte>, decoded: seq<byte>)
    requires 2 <= |group| <= 4 && DecodeChunk(group) == Some(decoded)
    ensures DecodeChunks(done, group) == Some(done + decoded)
  {
    assert group[..|group|] == group && group[|group|..] == [];
  }

  lemma LastGroupReadsBack(done: seq<byte>, bytes: seq<byte>, fill: nat)
    requires 1 <= |bytes| <= 2
    ensures DecodeChunks(done, Filled(bytes, fill)) ==
      if fill <= Missing(|Encode(bytes)|) then Some(done + bytes) else None
  {
    var second := if |bytes| == 2 then bytes[1] else 0;
    var missing := 3 - |bytes|;
    LastGroupText(bytes, second, fill);
    hide Digits, DecodeChunk, Filled, DecodeChunks, Remap, Encode, Bits24;
    var text := Remap(Digits(Bits24(bytes[0], second, 0), |bytes| + 1));
    assert [bytes[0], second, 0][..|bytes|] == bytes;
    if fill <= missing {
      ChunkReadsBack(bytes[0], second, 0, |bytes| + 1, fill);
      OnlyGroup(done, text + Equals(fill), bytes);
    } else {
      ChunkReadsBack(bytes[0], second, 0, |bytes| + 1, missing);
      SurplusIsRefused(done, text, missing, fill, bytes);
    }
  }

  /** `=` beyond a full group makes the whole unreadable. */
  lemma SurplusIsRefused(done: seq<byte>, text: seq<byte>, missing: nat, fill: nat, bytes: seq<byte>)
    requires |text| + missing == 4 && missing < fill && DecodeChunk(text + Equals(missing)) == Some(bytes)
    ensures DecodeChunks(done, text + Equals(fill)) == None
  {
    hide DecodeChunk, DecodeChunks, Equals;
    SplitEquals(missing, fill - missing);
    assert text + (Equals(missing) + Equals(fill - missing)) == text + Equals(missing) + Equals(fill - missing);
    OneMoreGroup(done, text + Equals(missing), Equals(fill - missing), bytes);
    NothingIsRead(done + bytes, fill - missing);
  }

  lemma SplitEquals(m: nat, n: nat)
    ensures Equals(m + n) == Equals(m) + Equals(n)
  {
  }

  lemma LastGroupText(bytes: seq<byte>, second: byte, fill: nat)
    requires 1 <= |bytes| <= 2 && second == if |bytes| == 2 then bytes[1] else 0
    ensures Filled(bytes, fill) == Remap(Digits(Bits24(bytes[0], second, 0), |bytes| + 1)) + Equals(fill)
    ensures Missing(|Encode(bytes)|) == 3 - |bytes|
  {
    assert Encode(bytes) == Digits(Bits24(bytes[0], second, 0), |bytes| + 1);
  }

  lemma {:induction false} NothingToStrip(s: seq<byte>)
    requires forall i :: 0 <= i < |s| ==> !IsAsciiWhitespace(s[i])
    ensures WithoutWhitespace(s) == s
  {
    if s != [] { NothingToStrip(s[1..]); }
  }

  lemma {:induction false} StripConcat(a: seq<byte>, b: seq<byte>)
    ensures WithoutWhitespace(a + b) == WithoutWhitespace(a) + WithoutWhitespace(b)
  {
    if a == [] {
      assert a + b == b;
    } else {
      assert (a + b)[1..] == a[1..] + b;
      StripConcat(a[1..], b);
    }
  }

  /** Remapping neither makes whitespace nor takes it away. */
  lemma {:induction false} StripRemapped(data: seq<byte>)
    ensures WithoutWhitespace(Remap(data)) == Remap(WithoutWhitespace(data))
  {
    if data != [] {
      assert Remap(data)[1..] == Remap(data[1..]);
      StripRemapped(data[1..]);
    }
  }

  lemma {:induction false} StripShortens(data: seq<byte>)
    ensures |WithoutWhitespace(data)| <= |data|
  {
    if data != [] { StripShortens(data[1..]); }
  }

  /** What the decoder reads of a text that has whitespace in it: the digits, the `=` it has and those it gets. */
  lemma StripLeavesFilled(data: seq<byte>, bytes: seq<byte>, padding: nat, added: nat)
    requires WithoutWhitespace(data) == Encode(bytes) + Equals(padding)
    ensures WithoutWhitespace(Remap(data) + Equals(added)) == Filled(bytes, padding + added)
  {
    hide WithoutWhitespace, Remap, Encode;
    StripConcat(Remap(data), Equals(added));
    StripRemapped(data);
    NothingToStrip(Equals(added));
    RemapConcat(Encode(bytes), Equals(padding));
    RemapEquals(padding);
    assert Equals(padding) + Equals(added) == Equals(padding + added);
    assert Remap(Encode(bytes)) + Equals(padding) + Equals(added) == Remap(Encode(bytes)) + (Equals(padding) + Equals(added));
  }

  lemma RemapEquals(n: nat)
    ensures Remap(Equals(n)) == Equals(n)
  {
  }

  /** The decoder counts the whitespace in when it pads. */
  lemma PaddingFits(n: nat, padding: nat, whitespace: nat)
    requires n % 4 != 1 && padding <= Missing(n)
    ensures match PadFor(n + padding + whitespace)
      case None => whitespace % 4 > Missing(n) - padding
      case Some(added) => padding + added <= Missing(n) <==> whitespace % 4 <= Missing(n) - padding
  {
  }

  /**
   An encoding with whitespace anywhere in it, and none, some or all of its `=`,
   decodes exactly when the whitespace, counted modulo four, is no more than the
   `=` it still lacks: the decoder pads before it strips.
   */
  lemma WrappedTextDecodes(data: seq<byte>, bytes: seq<byte>, padding: nat)
    requires padding <= Missing(|Encode(bytes)|)
    requires WithoutWhitespace(data) == Encode(bytes) + Equals(padding)
    ensures var whitespace := |data| - |Encode(bytes)| - padding;
      && whitespace >= 0
      && Decode(data) == if whitespace % 4 <= Missing(|Encode(bytes)|) - padding then Some(bytes) else None
  {
    hide Encode, WithoutWhitespace, Equals, DecodeChunks, PadFor, Missing, Filled, Remap;
    StripShortens(data);
    EncodeShape(bytes);
    PaddingFits(|Encode(bytes)|, padding, |data| - |Encode(bytes)| - padding);
    match PadFor(|data|) {
      case None =>
      case Some(added) =>
        StripLeavesFilled(data, bytes, padding, added);
        FilledReadsBack([], bytes, padding + added);
        assert [] + bytes == bytes;
    }
  }

  lemma EncodingIsSolid(bytes: seq<byte>, padding: nat)
    ensures WithoutWhitespace(Encode(bytes) + Equals(padding)) == Encode(bytes) + Equals(padding)
    ensures |Encode(bytes) + Equals(padding)| == |Encode(bytes)| + padding
  {
    hide Encode, WithoutWhitespace;
    EncodeShape(bytes);
    NothingToStrip(Encode(bytes) + Equals(padding));
  }

  /**
   Decoding undoes encoding on every byte string, whether the text carries none,
   some or all of its `=` padding.
   */
  lemma DecodeUndoesEncode(bytes: seq<byte>, padding: nat)
    requires padding <= Missing(|Encode(bytes)|)
    ensures Decode(Encode(bytes) + Equals(padding)) == Some(bytes)
  {
    hide *;
    EncodingIsSolid(bytes, padding);
    WrappedTextDecodes(Encode(bytes) + Equals(padding), bytes, padding);
  }

  /** With the last step: the text comes back that the bytes encode, and nothing where they encode none. */
  lemma DecodeTextUndoesEncode(bytes: seq<byte>, padding: nat, text: string)
    requires padding <= Missing(|Encode(bytes)|)
    ensures DecodeText(Encode(bytes) + Equals(padding)) == Some(text) <==> bytes == Utf8.Encode(text)
  {
    hide *;
    DecodeUndoesEncode(bytes, padding);
    TextOfBytes(Encode(bytes) + Equals(padding), bytes, text);
  }

  lemma TextOfBytes(data: seq<byte>, bytes: seq<byte>, text: string)
    requires Decode(data) == Some(bytes)
    ensures DecodeText(data) == Some(text) <==> bytes == Utf8.Encode(text)
  {
    hide Decode;
    Utf8.FromUtf8Exactly(bytes, text);
  }

  /** So no two byte strings share an encoding. */
  lemma EncodeIsInjective(a: seq<byte>, b: seq<byte>)
    requires Encode(a) == Encode(b)
    ensures a == b
  {
    DecodeUndoesEncode(a, 0);
    DecodeUndoesEncode(b, 0);
    assert Encode(a) + Equals(0) == Encode(b) + Equals(0);
  }

  // ---------- Digit by digit ----------

  /** The URL-safe alphabet of section 5 of RFC 4648 by its codes: A is 65, a is 97, 0 is 48, - is 45, _ is 95. */
  function Letter(d: nat): byte
    requires d < 64
  {
    if d < 26 then 65 + d else if d < 52 then 97 + (d - 26) else if d < 62 then 48 + (d - 52) else if d == 62 then 45 else 95
  }

  lemma SymbolExactly(d: nat)
    requires d < 64
    ensures Symbol(d) == Letter(d)
  {
  }

  /** Where every bit goes: three bytes make four digits, the highest bits first; two make three, and one makes two. */
  lemma EncodeExactly(a: byte, b: byte, c: byte, rest: seq<byte>)
    ensures Encode([a, b, c] + rest) ==
      [Letter(a / 4), Letter(a % 4 * 16 + b / 16), Letter(b % 16 * 4 + c / 64), Letter(c % 64)] + Encode(rest)
    ensures Encode([a, b]) == [Letter(a / 4), Letter(a % 4 * 16 + b / 16), Letter(b % 16 * 4)]
    ensures Encode([a]) == [Letter(a / 4), Letter(a % 4 * 16)]
    ensures Encode([]) == []
  {
    hide Symbol, Letter, DigitAt, Bits24;
    DigitsSymbols(a, b, c);
    DigitsSymbols(a, b, 0);
    DigitsSymbols(a, 0, 0);
    assert ([a, b, c] + rest)[3..] == rest;
  }

  lemma DigitsSymbols(a: byte, b: byte, c: byte)
    ensures var n := Bits24(a, b, c);
      && Digits(n, 4) == [Letter(a / 4), Letter(a % 4 * 16 + b / 16), Letter(b % 16 * 4 + c / 64), Letter(c % 64)]
      && Digits(n, 3) == [Letter(a / 4), Letter(a % 4 * 16 + b / 16), Letter(b % 16 * 4 + c / 64)]
      && Digits(n, 2) == [Letter(a / 4), Letter(a % 4 * 16 + b / 16)]
  {
    hide Symbol, Letter, DigitAt, Bits24;
    var n := Bits24(a, b, c);
    DigitsOfBytes(a, b, c);
    SymbolExactly(DigitAt(n, 0));
    SymbolExactly(DigitAt(n, 1));
    SymbolExactly(DigitAt(n, 2));
    SymbolExactly(DigitAt(n, 3));
  }

  /** The six bits a character of the standard alphabet stands for. */
  function SixBits(c: byte): Option<nat> {
    if 65 <= c <= 90 then Some(c - 65)
    else if 97 <= c <= 122 then Some(c - 97 + 26)
    else if 48 <= c <= 57 then Some(c - 48 + 52)
    else if c == 43 then Some(62)
    else if c == 47 then Some(63)
    else None
  }

  /**
   A chunk is refused when one of its first two characters is outside the
   alphabet; a third or fourth outside it, or missing, only leaves bytes out.
   */
  lemma ChunkExactly(chunk: seq<byte>)
    requires 2 <= |chunk| <= 4
    ensures DecodeChunk(chunk) ==
      var (a, b) := (SixBits(chunk[0]), SixBits(chunk[1]));
      var c := if |chunk| > 2 then SixBits(chunk[2]) else None;
      var d := if |chunk| > 3 then SixBits(chunk[3]) else None;
      if a == None || b == None then None
      else if c == None then Some([(a.value * 4 + b.value / 16) % 256])
      else if d == None then Some([(a.value * 4 + b.value / 16) % 256, (b.value % 16 * 16 + c.value / 4) % 256])
      else Some([(a.value * 4 + b.value / 16) % 256, (b.value % 16 * 16 + c.value / 4) % 256, (c.value % 4 * 64 + d.value) % 256])
  {
    hide JoinDigits, ValueOf, SixBits;
    LookupsAgree(chunk[0]);
    LookupsAgree(chunk[1]);
    if |chunk| > 2 { LookupsAgree(chunk[2]); }
    if |chunk| > 3 { LookupsAgree(chunk[3]); }
    var a, b := ValueOf(chunk[0]), ValueOf(chunk[1]);
    var c := if |chunk| > 2 then ValueOf(chunk[2]) else None;
    var d := if |chunk| > 3 then ValueOf(chunk[3]) else None;
    if a.Some? && b.Some? { JoinedExactly(a.value, b.value, c, d); }
  }

  lemma LookupsAgree(c: byte)
    ensures ValueOf(c) == SixBits(c)
  {
  }

  lemma JoinedExactly(a: nat, b: nat, c: Option<nat>, d: Option<nat>)
    requires a < 64 && b < 64 && (c.Some? ==> c.value < 64) && (d.Some? ==> d.value < 64)
    ensures JoinDigits(a, b, c, d) ==
      if c == None then [(a * 4 + b / 16) % 256]
      else if d == None then [(a * 4 + b / 16) % 256, (b % 16 * 16 + c.value / 4) % 256]
      else [(a * 4 + b / 16) % 256, (b % 16 * 16 + c.value / 4) % 256, (c.value % 4 * 64 + d.value) % 256]
  {
    ShiftsExactly(a);
    ShiftsExactly(b);
    if c.Some? { ShiftsExactly(c.value); }
    hide ShiftedLeft;
  }

  /** What is left of six bits when they are shifted out of a byte. */
  lemma ShiftsExactly(x: nat)
    requires x < 64
    ensures ShiftedLeft(x, 4) == x * 4 && ShiftedLeft(x, 16) == x % 16 * 16 && ShiftedLeft(x, 64) == x % 4 * 64
  {
    DivMod(x * 4, 256, 0, x * 4);
    DivMod(x * 16, 256, x / 16, x % 16 * 16);
    DivMod(x * 64, 256, x / 4, x % 4 * 64);
  }

  /** Chunk after chunk of four characters, the last of two to four; one alone, or one that is refused, refuses all. */
  lemma ChunksExactly(done: seq<byte>, chars: seq<byte>)
    ensures DecodeChunks(done, []) == Some(done)
    ensures |chars| == 1 ==> DecodeChunks(done, chars) == None
    ensures |chars| >= 2 ==>
      var n := if |chars| < 4 then |chars| else 4;
      DecodeChunks(done, chars) ==
        match DecodeChunk(chars[..n])
        case None => None
        case Some(bytes) => DecodeChunks(done + bytes, chars[n..])
  {
    hide DecodeChunk;
  }

  /** Whitespace is stripped and `-`, `_` read as `+`, `/` before the chunks are cut; a length one past a multiple of four is refused. */
  lemma DecodeExactly(data: seq<byte>)
    ensures Decode(data) ==
      if |data| % 4 == 1 then None
      else DecodeChunks([], WithoutWhitespace(Remap(data) + Equals((4 - |data| % 4) % 4)))
    ensures forall i :: 0 <= i < |data| ==> Remap(data)[i] == if data[i] == 45 then 43 else if data[i] == 95 then 47 else data[i]
  {
    hide DecodeChunks, WithoutWhitespace;
  }

  /** What is stripped: blanks, tabs, line feeds, form feeds and carriage returns, wherever they stand, and nothing else. */
  lemma {:induction false} StripExactly(before: seq<byte>, c: byte, after: seq<byte>)
    ensures WithoutWhitespace(before + [c] + after) ==
      WithoutWhitespace(before) + (if c == 32 || c == 9 || c == 10 || c == 12 || c == 13 then [] else [c]) + WithoutWhitespace(after)
  {
    StripConcat(before + [c], after);
    StripConcat(before, [c]);
    assert [c][1..] == [];
  }
}
