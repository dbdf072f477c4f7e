/**
 The Content-Length framing of the MCP stdio client: messages written to a pipe
 and read back from one, header bytes one at a time.
 */
module Framing {
  import opened Wrappers
  import opened Bytes
  import opened Utf8
  import opened Text
  import opened Decimal

  const LF: byte := 10
  const CR: byte := 13

  const MAX_LINE: nat := 16 * 1024
  const MAX_BODY: nat := 4 * 1024 * 1024
  const USIZE_MAX: nat := 0xFFFF_FFFF_FFFF_FFFF

  datatype Error = Eof | LineTooLong | MissingContentLength | TooLarge | BodyEof | NotEncoded | NotDecoded

  /** What a read answers, and the bytes it has not consumed. */
  datatype Read<+T> = Read(result: Result<T, Error>, rest: seq<byte>)

  // ---------- Writing ----------

  const HEADER_NAME: string := "Content-Length:"

  function HeaderLine(length: nat): (s: string)
    ensures Bytes.IsAscii(s)
  {
    DigitsAreAscii(ToString(length));
    HEADER_NAME + " " + ToString(length) + "\r"
  }

  lemma DigitsAreAscii(s: string)
    requires AllDigits(s)
    ensures Bytes.IsAscii(s)
  {
    assert forall i :: 0 <= i < |s| ==> s[i] in s;
  }

  function Frame(body: seq<byte>): seq<byte> {
    AsBytes(HeaderLine(|body|)) + [LF, CR, LF] + body
  }

  function Frames(bodies: seq<seq<byte>>): seq<byte> {
    if bodies == [] then [] else Frame(bodies[0]) + Frames(bodies[1..])
  }

  // ---------- Reading ----------

  /** `read_line`: bytes up to the next line feed, added to `line`. */
  function ReadLine(line: seq<byte>, stream: seq<byte>): (r: Read<seq<byte>>)
    ensures |r.rest| <= |stream|
    ensures r.result.Ok? ==> |r.rest| < |stream|
    decreases |stream|
  {
    if stream == [] then Read(Err(Eof), [])
    else if stream[0] == LF then Read(Ok(line), stream[1..])
    else if |line| + 1 > MAX_LINE then Read(Err(LineTooLong), stream[1..])
    else ReadLine(line + [stream[0]], stream[1..])
  }

  /** Header lines up to a blank one, each put back with its line feed. */
  function ReadHeaders(headers: seq<byte>, stream: seq<byte>): (r: Read<seq<byte>>)
    ensures |r.rest| <= |stream|
    decreases |stream|
  {
    var line := ReadLine([], stream);
    match line.result
    case Err(e) => Read(Err(e), line.rest)
    case Ok(bytes) =>
      if bytes == [] || bytes == [CR] then Read(Ok(headers), line.rest)
      else ReadHeaders(headers + bytes + [LF], line.rest)
  }

  /** Position of the first line feed at or after `from`, or the end. */
  function LineEnd(s: string, from: nat): (k: nat)
    requires from <= |s|
    ensures from <= k <= |s|
    decreases |s| - from
  {
    if from == |s| || s[from] == '\n' then from else LineEnd(s, from + 1)
  }

  /** `parse::<usize>`: an optional plus sign, then digits that fit 64 bits. */
  function ParseUsize(s: string): Option<nat> {
    var digits := if s != [] && s[0] == '+' then s[1..] else s;
    if digits != [] && AllDigits(digits) && Value(digits) <= USIZE_MAX then Some(Value(digits)) else None
  }

  /** The last Content-Length line decides, even when its number does not parse. */
  function ContentLength(text: string, found: Option<nat>): Option<nat>
    decreases |text|
  {
    if text == [] then found
    else
      var k := LineEnd(text, 0);
      var line := Trim(text[..k]);
      var found' := if HEADER_NAME <= line then ParseUsize(Trim(line[|HEADER_NAME|..])) else found;
      ContentLength(if k < |text| then text[k + 1..] else [], found')
  }

  /** `read_message` up to its last step, the JSON decoding of the body. */
  function ReadBody(stream: seq<byte>): (r: Read<seq<byte>>)
    ensures |r.rest| <= |stream|
  {
    var headers := ReadHeaders([], stream);
    match headers.result
    case Err(e) => Read(Err(e), headers.rest)
    case Ok(bytes) =>
      match ContentLength(FromUtf8Lossy(bytes), None)
      case None => Read(Err(MissingContentLength), headers.rest)
      case Some(len) =>
        if len > MAX_BODY then Read(Err(TooLarge), headers.rest)
        else if len > |headers.rest| then Read(Err(BodyEof), [])
        else Read(Ok(headers.rest[..len]), headers.rest[len..])
  }

  /** What the two sides make of a value and of a body. */
  datatype Json<!V> = Json(encode: V -> Option<seq<byte>>, decode: seq<byte> -> Option<V>)

  function ReadValue<V>(json: Json<V>, stream: seq<byte>): Read<V> {
    var body := ReadBody(stream);
    match body.result
    case Err(e) => Read(Err(e), body.rest)
    case Ok(bytes) =>
      match json.decode(bytes)
      case None => Read(Err(NotDecoded), body.rest)
      case Some(value) => Read(Ok(value), body.rest)
  }

  // ---------- The pipe ----------

  class Pipe {
    /** Bytes written and not yet read. */
    var data: seq<byte>

    constructor ()
      ensures data == []
    {
      data := [];
    }

    /** `write_message`: a value that JSON cannot write leaves the pipe alone. */
    method WriteMessage<V>(json: Json<V>, value: V) returns (r: Result<(), Error>)
      modifies this
      ensures json.encode(value) == None ==> r == Err(NotEncoded) && data == old(data)
      ensures json.encode(value).Some? ==> r == Ok(()) && data == old(data) + Frame(json.encode(value).value)
    {
      if json.encode(value).None? {
        return Err(NotEncoded);
      }
      var body := json.encode(value).value;
      var header := AsBytes(HeaderLine(|body|)) + [LF, CR, LF];
      data := data + header;
      data := data + body;
      assert old(data) + header + body == old(data) + (header + body);
      return Ok(());
    }

    method ReadLineBytes() returns (r: Result<seq<byte>, Error>)
      modifies this
      ensures Read(r, data) == ReadLine([], old(data))
    {
      var line := [];
      while true
        invariant ReadLine(line, data) == ReadLine([], old(data))
        decreases |data|
      {
        if data == [] {
          return Err(Eof);
        }
        var byte := data[0];
        data := data[1..];
        if byte == LF {
          return Ok(line);
        }
        line := line + [byte];
        if |line| > MAX_LINE {
          return Err(LineTooLong);
        }
      }
    }

    method ReadBodyBytes() returns (r: Result<seq<byte>, Error>)
      modifies this
      ensures Read(r, data) == ReadBody(old(data))
    {
      var headers := [];
      while true
        invariant ReadHeaders(headers, data) == ReadHeaders([], old(data))
        decreases |data|
      {
        var line := ReadLineBytes();
        match line {
          case Err(e) => return Err(e);
          case Ok(bytes) =>
            if bytes == [] || bytes == [CR] {
              break;
            }
            headers := headers + bytes + [LF];
        }
      }
      assert ReadHeaders([], old(data)) == Read(Ok(headers), data);
      match ContentLength(FromUtf8Lossy(headers), None) {
        case None => return Err(MissingContentLength);
        case Some(len) =>
          if len > MAX_BODY {
            return Err(TooLarge);
          }
          if len > |data| {
            data := [];
            return Err(BodyEof);
          }
          var body := data[..len];
          data := data[len..];
          return Ok(body);
      }
    }

    /** `read_message`: a body that is no JSON is consumed all the same. */
    method ReadMessage<V>(json: Json<V>) returns (r: Result<V, Error>)
      modifies this
      ensures Read(r, data) == ReadValue(json, old(data))
    {
      var body := ReadBodyBytes();
      match body {
        case Err(e) => return Err(e);
        case Ok(bytes) =>
          match json.decode(bytes) {
            case None => return Err(NotDecoded);
            case Some(value) => return Ok(value);
          }
      }
    }
  }

  // ---------- Main results ----------

  lemma {:induction false} ReadWholeLine(done: seq<byte>, line: seq<byte>, rest: seq<byte>)
    requires LF !in line && |done| + |line| <= MAX_LINE
    ensures ReadLine(done, line + [LF] + rest) == Read(Ok(done + line), rest)
    decreases |line|
  {
    if line == [] {
      assert (line + [LF] + rest)[1..] == rest && done + line == done;
    } else {
      assert (line + [LF] + rest)[1..] == line[1..] + [LF] + rest;
      ReadWholeLine(done + [line[0]], line[1..], rest);
      assert done + [line[0]] + line[1..] == done + line;
    }
  }

  /** The header block of a frame is read back as its one line. */
  lemma ReadFrameHeaders(length: nat, rest: seq<byte>)
    requires length <= USIZE_MAX
    ensures ReadHeaders([], AsBytes(HeaderLine(length)) + [LF, CR, LF] + rest)
      == Read(Ok(AsBytes(HeaderLine(length)) + [LF]), rest)
  {
    var line := AsBytes(HeaderLine(length));
    HeaderIsShort(length);
    assert line + [LF, CR, LF] + rest == line + [LF] + ([CR] + [LF] + rest);
    ReadWholeLine([], line, [CR] + [LF] + rest);
    ReadWholeLine([], [CR], rest);
    assert [] + line == line && [] + line + [LF] == line + [LF];
    BlankLineEnds(line + [LF], rest);
  }

  lemma BlankLineEnds(headers: seq<byte>, rest: seq<byte>)
    requires ReadLine([], [CR] + [LF] + rest) == Read(Ok([] + [CR]), rest)
    ensures ReadHeaders(headers, [CR] + [LF] + rest) == Read(Ok(headers), rest)
  {
  }

  lemma HeaderIsShort(length: nat)
    requires length <= USIZE_MAX
    ensures 3 <= |HeaderLine(length)| <= MAX_LINE
    ensures LF !in AsBytes(HeaderLine(length))
  {
    assert Pow10(8) == 100_000_000 by { assert Pow10(4) == 10_000; }
    assert Pow10(12) == 1_000_000_000_000;
    assert Pow10(16) == 10_000_000_000_000_000;
    assert Pow10(20) == 100_000_000_000_000_000_000;
    DigitCount(length, 20);
    var digits := ToString(length);
    forall i | 0 <= i < |digits| ensures digits[i] != '\n' {
      assert digits[i] in digits;
    }
  }

  /** The text of a header line, with its line feed, is one line whose number parses. */
  lemma HeaderParses(length: nat)
    requires length <= USIZE_MAX
    ensures ContentLength(FromUtf8Lossy(AsBytes(HeaderLine(length)) + [LF]), None) == Some(length)
  {
    var line := HeaderLine(length);
    var text := line + "\n";
    assert AsBytes(text) == AsBytes(line) + [LF];
    EncodeAscii(text);
    LossyKeepsText(text);
    HeaderIsShort(length);
    forall i | 0 <= i < |line| ensures line[i] != '\n' {
      assert AsBytes(line)[i] != LF;
    }
    LineEndAt(text, 0, |line|);
    assert text[..|line|] == line;
    TrimHeader(length);
  }

  lemma {:induction false} LineEndAt(s: string, from: nat, k: nat)
    requires from <= k < |s| && s[k] == '\n' && forall i :: from <= i < k ==> s[i] != '\n'
    ensures LineEnd(s, from) == k
    decreases k - from
  {
    if from < k { LineEndAt(s, from + 1, k); }
  }

  lemma NumeralEnds(n: nat)
    ensures IsAsciiDigit(ToString(n)[0]) && IsAsciiDigit(ToString(n)[|ToString(n)| - 1])
  {
    var digits := ToString(n);
    assert digits[0] in digits && digits[|digits| - 1] in digits;
  }

  lemma TrimHeaderLine(length: nat)
    ensures Trim(HeaderLine(length)) == HEADER_NAME + (" " + ToString(length))
  {
    hide ToString;
    NumeralEnds(length);
    var line := HEADER_NAME + (" " + ToString(length));
    TrimNoop(line);
    assert HeaderLine(length)[..|line|] == line;
    assert TrimStart(HeaderLine(length)) == HeaderLine(length);
  }

  lemma TrimHeader(length: nat)
    requires length <= USIZE_MAX
    ensures var line := Trim(HeaderLine(length));
      HEADER_NAME <= line && ParseUsize(Trim(line[|HEADER_NAME|..])) == Some(length)
  {
    hide ToString, HeaderLine;
    NumeralEnds(length);
    TrimHeaderLine(length);
    var digits := ToString(length);
    assert (" " + digits)[1..] == digits;
    TrimNoop(digits);
    assert TrimStart(" " + digits) == TrimStart(digits);
    ValueOfToString(length);
  }

  /**
   A written message read back: the same body, and exactly its bytes consumed.
   A body over the limit is refused, with its header consumed and its bytes left.
   */
  lemma ReadUndoesWrite(body: seq<byte>, rest: seq<byte>)
    requires |body| <= USIZE_MAX
    ensures ReadBody(Frame(body) + rest) ==
      if |body| <= MAX_BODY then Read(Ok(body), rest) else Read(Err(TooLarge), body + rest)
  {
    ReadFrameHeaders(|body|, body + rest);
    assert Frame(body) + rest == AsBytes(HeaderLine(|body|)) + [LF, CR, LF] + (body + rest);
    HeaderParses(|body|);
    assert (body + rest)[..|body|] == body && (body + rest)[|body|..] == rest;
  }

  /** What a client that reads as many messages as were written obtains. */
  function ReadMessages(count: nat, stream: seq<byte>): (seq<Result<seq<byte>, Error>>, seq<byte>) {
    if count == 0 then ([], stream)
    else
      var first := ReadBody(stream);
      var (others, rest) := ReadMessages(count - 1, first.rest);
      ([first.result] + others, rest)
  }

  function AllOk<T>(items: seq<T>): (r: seq<Result<T, Error>>)
    ensures |r| == |items| && forall i :: 0 <= i < |r| ==> r[i] == Ok(items[i])
  {
    if items == [] then [] else [Ok(items[0])] + AllOk(items[1..])
  }

  /** Any sequence of messages comes back in order, with nothing before or after it touched. */
  lemma {:induction false} ReadAllUndoesWriteAll(bodies: seq<seq<byte>>, rest: seq<byte>)
    requires forall i :: 0 <= i < |bodies| ==> |bodies[i]| <= MAX_BODY
    ensures ReadMessages(|bodies|, Frames(bodies) + rest) ==
      (AllOk(bodies), rest)
  {
    hide ReadBody, Frame;
    if bodies == [] {
      assert Frames(bodies) + rest == rest;
    } else {
      ReadUndoesWrite(bodies[0], Frames(bodies[1..]) + rest);
      assert Frames(bodies) + rest == Frame(bodies[0]) + (Frames(bodies[1..]) + rest);
      ReadAllUndoesWriteAll(bodies[1..], rest);
    }
  }

  /** The value is written in at most 4 MiB, and its body reads as the value. */
  predicate Survives<V(==)>(json: Json<V>, value: V) {
    json.encode(value).Some? && |json.encode(value).value| <= MAX_BODY && json.decode(json.encode(value).value) == Some(value)
  }

  /** What writing some values leaves on the pipe. */
  function Sent<V>(json: Json<V>, values: seq<V>): seq<byte> {
    if values == [] then []
    else
      (match json.encode(values[0]) case None => [] case Some(body) => Frame(body)) + Sent(json, values[1..])
  }

  function ReadValues<V>(json: Json<V>, count: nat, stream: seq<byte>): (seq<Result<V, Error>>, seq<byte>) {
    if count == 0 then ([], stream)
    else
      var first := ReadValue(json, stream);
      var (others, rest) := ReadValues(json, count - 1, first.rest);
      ([first.result] + others, rest)
  }

  /** So does any sequence of values that each survive being written and read alone. */
  lemma {:induction false} ValuesComeBack<V>(json: Json<V>, values: seq<V>, rest: seq<byte>)
    requires forall i :: 0 <= i < |values| ==> Survives(json, values[i])
    ensures ReadValues(json, |values|, Sent(json, values) + rest) == (AllOk(values), rest)
  {
    hide ReadBody, Frame;
    if values == [] {
      assert Sent(json, values) + rest == rest;
    } else {
      assert Survives(json, values[0]);
      var body, later := json.encode(values[0]).value, Sent(json, values[1..]) + rest;
      ReadUndoesWrite(body, later);
      assert Sent(json, values) + rest == Frame(body) + later;
      ValuesComeBack(json, values[1..], rest);
    }
  }

  // ---------- Reading any headers ----------

  /** A line as far as the first line feed; an end of input before it; or a line of more than 16 KiB. */
  lemma {:induction false} ReadLineExactly(done: seq<byte>, stream: seq<byte>, k: nat)
    requires |done| <= 16384 && k <= |stream| && 10 !in stream[..k]
    requires k == |stream| || |done| + k == 16385 || stream[k] == 10
    requires |done| + k <= 16385
    ensures ReadLine(done, stream) ==
      if |done| + k == 16385 then Read(Err(LineTooLong), stream[k..])
      else if k == |stream| then Read(Err(Eof), [])
      else Read(Ok(done + stream[..k]), stream[k + 1..])
    decreases |stream|
  {
    if k > 0 {
      assert stream[0] == stream[..k][0] && stream[..k][1..] == stream[1..][..k - 1];
      if |done| < 16384 { ReadLineExactly(done + [stream[0]], stream[1..], k - 1); }
      assert done + [stream[0]] + stream[1..][..k - 1] == done + stream[..k];
    } else {
      assert done + [] == done;
    }
  }

  /** Header lines, each with its line feed. */
  function BlockOf(lines: seq<string>): string {
    if lines == [] then "" else lines[0] + "\n" + BlockOf(lines[1..])
  }

  /** A header line as a sender writes it: not blank, on one line, and not over 16 KiB. */
  predicate IsHeader(line: string) {
    line != "" && line != "\r" && '\n' !in line && |Encode(line)| <= 16384
  }

  predicate NamesLength(line: string) {
    "Content-Length:" <= Trim(line)
  }

  /** The number a header line gives, when it gives one that fits. */
  function LengthOn(line: string): Option<nat>
    requires NamesLength(line)
  {
    ParseUsize(Trim(Trim(line)[15..]))
  }

  /** `i` is the last header that names a length. */
  predicate IsLastLength(lines: seq<string>, i: nat) {
    i < |lines| && NamesLength(lines[i]) && forall j :: i < j < |lines| ==> !NamesLength(lines[j])
  }

  lemma ContentLengthStep(line: string, rest: string, found: Option<nat>)
    requires '\n' !in line
    ensures ContentLength(line + "\n" + rest, found) == ContentLength(rest, if NamesLength(line) then LengthOn(line) else found)
  {
    hide Trim, ParseUsize;
    var text := line + "\n" + rest;
    forall k | 0 <= k < |line| ensures text[k] != '\n' { assert text[k] == line[k]; }
    LineEndAt(text, 0, |line|);
    assert text[..|line|] == line && text[|line| + 1..] == rest;
  }

  /** Of several headers the last that names a length decides, even when its number does not parse. */
  lemma {:induction false} ContentLengthExactly(lines: seq<string>, found: Option<nat>)
    requires forall line <- lines :: '\n' !in line
    ensures (forall i :: 0 <= i < |lines| ==> !NamesLength(lines[i])) ==> ContentLength(BlockOf(lines), found) == found
    ensures forall i: nat :: IsLastLength(lines, i) ==> ContentLength(BlockOf(lines), found) == LengthOn(lines[i])
  {
    hide NamesLength, LengthOn, ContentLength;
    if lines == [] {
      NoHeaders(found);
    } else {
      var found' := if NamesLength(lines[0]) then LengthOn(lines[0]) else found;
      ContentLengthStep(lines[0], BlockOf(lines[1..]), found);
      ContentLengthExactly(lines[1..], found');
      forall i: nat | IsLastLength(lines, i) ensures ContentLength(BlockOf(lines), found) == LengthOn(lines[i]) {
        if i > 0 { assert IsLastLength(lines[1..], i - 1); }
        else { assert forall j :: 0 <= j < |lines[1..]| ==> lines[1..][j] == lines[j + 1]; }
      }
    }
  }

  lemma NoHeaders(found: Option<nat>)
    ensures ContentLength("", found) == found
  {
  }

  lemma {:induction false} ReadsHeaders(done: seq<byte>, lines: seq<string>, blank: seq<byte>, rest: seq<byte>)
    requires forall line <- lines :: IsHeader(line)
    requires blank == [10] || blank == [13, 10]
    ensures ReadHeaders(done, Encode(BlockOf(lines)) + blank + rest) == Read(Ok(done + Encode(BlockOf(lines))), rest)
    decreases |lines|
  {
    hide Encode;
    if lines == [] {
      BlankEnds(done, blank, rest);
    } else {
      var line, later := Encode(lines[0]), Encode(BlockOf(lines[1..]));
      HeaderBytes(lines[0], BlockOf(lines[1..]));
      var tail := later + blank + rest;
      assert line + [10] + later + blank + rest == line + [10] + tail;
      OneHeader(done, line, tail);
      ReadsHeaders(done + line + [10], lines[1..], blank, rest);
      assert done + line + [10] + later == done + (line + [10] + later);
    }
  }

  lemma BlankEnds(done: seq<byte>, blank: seq<byte>, rest: seq<byte>)
    requires blank == [10] || blank == [13, 10]
    ensures BlockOf([]) == "" && Encode("") == []
    ensures ReadHeaders(done, [] + blank + rest) == Read(Ok(done + []), rest)
  {
    var stream := [] + blank + rest;
    var k := |blank| - 1;
    assert stream[k] == 10 && stream[..k] == blank[..k] && stream[k + 1..] == rest && done + [] == done;
    ReadLineExactly([], stream, k);
    assert [] + stream[..k] == stream[..k];
  }

  lemma HeaderBytes(line: string, rest: string)
    requires IsHeader(line)
    ensures Encode(line + "\n" + rest) == Encode(line) + [10] + Encode(rest)
    ensures Encode(line) != [] && Encode(line) != [13] && 10 !in Encode(line) && |Encode(line)| <= 16384
  {
    EncodeConcat(line + "\n", rest);
    EncodeConcat(line, "\n");
    EncodeAscii("\n");
    EncodeAscii("\r");
    AsciiStandsForItself(line, 10);
    FromUtf8Exactly(Encode(line), line);
    FromUtf8Exactly([13], "\r");
    FromUtf8Exactly([], "");
    assert AsBytes("\n") == [10] && AsBytes("\r") == [13];
  }

  lemma OneHeader(done: seq<byte>, line: seq<byte>, tail: seq<byte>)
    requires line != [] && line != [13] && 10 !in line && |line| <= 16384
    ensures ReadHeaders(done, line + [10] + tail) == ReadHeaders(done + line + [10], tail)
  {
    var stream := line + [10] + tail;
    assert stream[..|line|] == line && stream[|line| + 1..] == tail;
    ReadLineExactly([], stream, |line|);
    assert [] + line == line;
  }

  /**
   Any headers, any body: the headers and the blank line behind them are consumed,
   and the last length among them decides; none, one too large, and one that is
   not there are refused, the last of them with all that was left.
   */
  lemma ReadsAnyMessage(lines: seq<string>, blank: seq<byte>, rest: seq<byte>)
    requires forall line <- lines :: IsHeader(line)
    requires blank == [10] || blank == [13, 10]
    ensures var read := ReadBody(Encode(BlockOf(lines)) + blank + rest);
      && ((forall i :: 0 <= i < |lines| ==> !NamesLength(lines[i])) ==> read == Read(Err(MissingContentLength), rest))
      && forall i: nat :: IsLastLength(lines, i) ==>
           match LengthOn(lines[i])
           case None => read == Read(Err(MissingContentLength), rest)
           case Some(n) =>
             if n > 4 * 1024 * 1024 then read == Read(Err(TooLarge), rest)
             else if n > |rest| then read == Read(Err(BodyEof), [])
             else read == Read(Ok(rest[..n]), rest[n..])
  {
    assert forall line <- lines :: '\n' !in line;
    hide ReadHeaders, ContentLength, Encode, NamesLength, LengthOn, FromUtf8Lossy, IsHeader, BlockOf, IsLastLength;
    ReadsHeaders([], lines, blank, rest);
    assert [] + Encode(BlockOf(lines)) == Encode(BlockOf(lines));
    LossyKeepsText(BlockOf(lines));
    ContentLengthExactly(lines, None);
  }

  /** A number is read with any leading zeros and one plus sign, and only when it fits 64 bits. */
  lemma ParseUsizeExactly(n: nat, zeros: nat)
    ensures var digits := Zeros(zeros) + ToString(n);
      && ParseUsize(digits) == (if n <= 0xFFFF_FFFF_FFFF_FFFF then Some(n) else None)
      && ParseUsize("+" + digits) == ParseUsize(digits)
      && ParseUsize("-" + digits) == None && ParseUsize("") == None && ParseUsize("+") == None
  {
    var digits := Zeros(zeros) + ToString(n);
    ValueOfToString(n);
    ValueIgnoresZeros(zeros, ToString(n));
    hide ParseUsize, Value, ToString, Zeros;
    ParseOfDigits(digits);
    ParseOfNothing();
  }

  lemma ParseOfDigits(digits: string)
    requires digits != "" && AllDigits(digits)
    ensures ParseUsize(digits) == if Value(digits) <= 0xFFFF_FFFF_FFFF_FFFF then Some(Value(digits)) else None
    ensures ParseUsize("+" + digits) == ParseUsize(digits) && ParseUsize("-" + digits) == None
  {
    hide Value;
    assert digits[0] in digits;
    assert ("+" + digits)[1..] == digits;
    assert ("-" + digits)[0] == '-' && '-' in "-" + digits;
  }

  lemma ParseOfNothing()
    ensures ParseUsize("") == None && ParseUsize("+") == None
  {
  }

  /** What is written for a body, byte by byte. */
  lemma FrameExactly(body: seq<byte>)
    ensures Frame(body) == Encode("Content-Length: " + ToString(|body|) + "\r\n\r\n") + body
  {
    hide ToString, HeaderLine, Encode;
    var header := HeaderLine(|body|);
    HeaderText(|body|);
    EncodeConcat(header, "\n\r\n");
    EncodeAscii(header);
    BlankBytes();
  }

  lemma HeaderText(length: nat)
    ensures "Content-Length: " + ToString(length) + "\r\n\r\n" == HeaderLine(length) + "\n\r\n"
  {
    hide ToString;
    assert "Content-Length:" + " " == "Content-Length: ";
    assert "\r" + "\n\r\n" == "\r\n\r\n";
  }

  lemma BlankBytes()
    ensures Encode("\n\r\n") == [10, 13, 10]
  {
    EncodeAscii("\n\r\n");
    assert AsBytes("\n\r\n") == [10, 13, 10];
  }
}
