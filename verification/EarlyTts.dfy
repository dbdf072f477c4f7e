/**
 Early speech: cutting a reply that is still growing into sentences, and saying
 each of them once. Offsets count characters.
 */
module EarlyTts {
  import opened Wrappers
  import opened Text

  const MIN_SENTENCE_CHARS: nat := 12
  const MIN_TOTAL_BEFORE_FIRST: nat := 24
  const ABBREV_MAX_WORD_CHARS: nat := 3

  /** Rust's `char::is_uppercase` and `char::is_alphabetic`; the results hold whatever they answer. */
  datatype Letters = Letters(isUppercase: char -> bool, isAlphabetic: char -> bool)

  // ---------- Sentence boundaries ----------

  /** First position at or after `i` that is not whitespace. */
  function SkipSpace(chars: string, i: nat): (end: nat)
    requires i <= |chars|
    ensures i <= end <= |chars| && forall k :: i <= k < end ==> IsWhitespace(chars[k])
    ensures end < |chars| ==> !IsWhitespace(chars[end])
    decreases |chars| - i
  {
    if i < |chars| && IsWhitespace(chars[i]) then SkipSpace(chars, i + 1) else i
  }

  /** Start of the letters that end just before `end`. */
  function WordStart(letters: Letters, chars: string, end: nat): (start: nat)
    requires end <= |chars|
    ensures start <= end
  {
    if end > 0 && letters.isAlphabetic(chars[end - 1]) then WordStart(letters, chars, end - 1) else end
  }

  predicate AbbrevWordBefore(letters: Letters, chars: string, dot: nat)
    requires dot <= |chars|
  {
    0 < dot - WordStart(letters, chars, dot) <= ABBREV_MAX_WORD_CHARS
  }

  /** A period ends a sentence before whitespace, behind no abbreviation, and before nothing or a capital. */
  predicate PeriodEnds(letters: Letters, chars: string, dot: nat)
    requires dot < |chars|
  {
    var next := SkipSpace(chars, dot + 1);
    && dot + 1 < |chars| && IsWhitespace(chars[dot + 1])
    && !AbbrevWordBefore(letters, chars, dot)
    && (next == |chars| || letters.isUppercase(chars[next]))
  }

  predicate IsBoundary(letters: Letters, chars: string, spoken: nat, i: nat)
    requires spoken <= i < |chars|
  {
    && i + 1 - spoken >= MIN_SENTENCE_CHARS
    && (if chars[i] == '!' || chars[i] == '?' then i + 1 == |chars| || IsWhitespace(chars[i + 1])
        else chars[i] == '.' && PeriodEnds(letters, chars, i))
  }

  function FirstEnd(letters: Letters, chars: string, spoken: nat, i: nat): Option<nat>
    requires spoken <= i <= |chars|
    decreases |chars| - i
  {
    if i == |chars| then None
    else if IsBoundary(letters, chars, spoken, i) then Some(SkipSpace(chars, i + 1))
    else FirstEnd(letters, chars, spoken, i + 1)
  }

  function NextEnd(letters: Letters, text: string, spoken: nat): Option<nat> {
    if spoken >= |text| || (spoken == 0 && |text| < MIN_TOTAL_BEFORE_FIRST) then None
    else FirstEnd(letters, text, spoken, spoken)
  }

  method AbbrevWord(letters: Letters, chars: string, dot: nat) returns (r: bool)
    requires dot <= |chars|
    ensures r == AbbrevWordBefore(letters, chars, dot)
  {
    var start := dot;
    while start > 0
      invariant 0 <= start <= dot
      invariant WordStart(letters, chars, start) == WordStart(letters, chars, dot)
    {
      if !letters.isAlphabetic(chars[start - 1]) {
        break;
      }
      start := start - 1;
    }
    var wordLen := dot - start;
    return wordLen > 0 && wordLen <= ABBREV_MAX_WORD_CHARS;
  }

  method SkipWhitespace(chars: string, i: nat) returns (end: nat)
    requires i <= |chars|
    ensures end == SkipSpace(chars, i)
  {
    end := i;
    while end < |chars| && IsWhitespace(chars[end])
      invariant i <= end <= |chars| && SkipSpace(chars, end) == SkipSpace(chars, i)
    {
      end := end + 1;
    }
  }

  method PeriodIsBoundary(letters: Letters, text: string, dot: nat) returns (r: bool)
    requires dot < |text|
    ensures r == PeriodEnds(letters, text, dot)
  {
    if dot + 1 == |text| || !IsWhitespace(text[dot + 1]) {
      return false;
    }
    var abbrev := AbbrevWord(letters, text, dot);
    if abbrev {
      return false;
    }
    var j := SkipWhitespace(text, dot + 1);
    return j >= |text| || letters.isUppercase(text[j]);
  }

  /** `next_speakable_end`. */
  method NextSpeakableEnd(letters: Letters, text: string, spoken: nat) returns (r: Option<nat>)
    ensures r == NextEnd(letters, text, spoken)
  {
    hide PeriodEnds, IsWhitespace;
    var len := |text|;
    if spoken >= len {
      return None;
    }
    if spoken == 0 && len < MIN_TOTAL_BEFORE_FIRST {
      return None;
    }
    var i := spoken;
    while i < len
      invariant spoken <= i <= len
      invariant FirstEnd(letters, text, spoken, i) == NextEnd(letters, text, spoken)
    {
      var ch := text[i];
      if ch == '.' || ch == '!' || ch == '?' {
        if i + 1 - spoken < MIN_SENTENCE_CHARS {
          i := i + 1;
          continue;
        }
        var isBoundary := i + 1 == len || IsWhitespace(text[i + 1]);
        if ch == '.' {
          isBoundary := PeriodIsBoundary(letters, text, i);
        }
        if isBoundary {
          var end := SkipWhitespace(text, i + 1);
          return Some(end);
        }
      }
      i := i + 1;
    }
    return None;
  }

  // ---------- Draining ----------

  function ClampSpoken(text: string, spoken: nat): (r: nat)
    ensures r <= |text|
  {
    if spoken > |text| then 0 else spoken
  }

  function SliceChars(text: string, from: nat, to: nat): string {
    if from <= to <= |text| then text[from..to]
    else if from <= |text| < to then text[from..]
    else ""
  }

  function Join(chunks: seq<string>): string {
    JoinWith(chunks, " ")
  }

  /** `k` is the first boundary at or after `i`. */
  ghost predicate FirstBoundaryAt(letters: Letters, chars: string, spoken: nat, i: nat, k: nat) {
    && spoken <= i <= k < |chars|
    && IsBoundary(letters, chars, spoken, k)
    && forall j :: i <= j < k ==> !IsBoundary(letters, chars, spoken, j)
  }

  /** The cut is made behind the first boundary and the whitespace that follows it. */
  lemma {:induction false} FirstEndFound(letters: Letters, chars: string, spoken: nat, i: nat) returns (k: nat)
    requires spoken <= i <= |chars| && FirstEnd(letters, chars, spoken, i).Some?
    ensures FirstBoundaryAt(letters, chars, spoken, i, k)
    ensures FirstEnd(letters, chars, spoken, i) == Some(SkipSpace(chars, k + 1))
    decreases |chars| - i
  {
    if IsBoundary(letters, chars, spoken, i) {
      k := i;
    } else {
      k := FirstEndFound(letters, chars, spoken, i + 1);
    }
  }

  /** No cut is made only where there is no boundary. */
  lemma {:induction false} NoFirstEnd(letters: Letters, chars: string, spoken: nat, i: nat)
    requires spoken <= i <= |chars| && FirstEnd(letters, chars, spoken, i).None?
    ensures forall k :: i <= k < |chars| ==> !IsBoundary(letters, chars, spoken, k)
    decreases |chars| - i
  {
    if i < |chars| { NoFirstEnd(letters, chars, spoken, i + 1); }
  }

  /** A cut always moves forward, stays inside the text, and takes a punctuation mark with it. */
  lemma NextEndAdvances(letters: Letters, text: string, spoken: nat)
    requires NextEnd(letters, text, spoken).Some?
    ensures var end := NextEnd(letters, text, spoken).value;
      spoken < end <= |text| && Solid(text[spoken..end]) != []
  {
    var k := FirstEndFound(letters, text, spoken, spoken);
    var end := SkipSpace(text, k + 1);
    var before, after := text[spoken..k], text[k + 1..end];
    assert text[spoken..end] == before + ([text[k]] + after);
    SolidConcat(before, [text[k]] + after);
    assert Solid([text[k]] + after) != [];
  }

  /** Every sentence that can be spoken now: the offset behind them, and the sentences. */
  function Drain(letters: Letters, text: string, spoken: nat): (nat, seq<string>)
    requires spoken <= |text|
    decreases |text| - spoken
  {
    match NextEnd(letters, text, spoken)
    case None => (spoken, [])
    case Some(end) =>
      NextEndAdvances(letters, text, spoken);
      var piece := Trim(SliceChars(text, spoken, end));
      var (offset, rest) := Drain(letters, text, end);
      (offset, (if piece == [] then [] else [piece]) + rest)
  }

  function TakeNewSpeech(letters: Letters, text: string, spoken: nat): (nat, Option<string>) {
    var (offset, chunks) := Drain(letters, text, ClampSpoken(text, spoken));
    if chunks == [] then (ClampSpoken(text, spoken), None) else (offset, Some(Join(chunks)))
  }

  function RemainderAfter(text: string, spoken: nat): string {
    Trim(SliceChars(text, ClampSpoken(text, spoken), |text|))
  }

  /** One turn of the draining loop, behind any chunks already collected. */
  lemma DrainStep(letters: Letters, text: string, spoken: nat, chunks: seq<string>)
    requires spoken <= |text|
    ensures NextEnd(letters, text, spoken) == None ==>
      Drain(letters, text, spoken).0 == spoken && chunks + Drain(letters, text, spoken).1 == chunks
    ensures NextEnd(letters, text, spoken).Some? ==>
      var end := NextEnd(letters, text, spoken).value;
      && spoken < end <= |text|
      && var piece := Trim(SliceChars(text, spoken, end));
      && Drain(letters, text, spoken).0 == Drain(letters, text, end).0
      && chunks + Drain(letters, text, spoken).1
        == (if piece == [] then chunks else chunks + [piece]) + Drain(letters, text, end).1
  {
    hide Trim, SliceChars, NextEnd;
    if NextEnd(letters, text, spoken).Some? {
      NextEndAdvances(letters, text, spoken);
      var end := NextEnd(letters, text, spoken).value;
      var piece, rest := Trim(SliceChars(text, spoken, end)), Drain(letters, text, end).1;
      assert chunks + ([piece] + rest) == chunks + [piece] + rest && [] + rest == rest;
    }
  }

  /** `take_new_speech`. */
  method TakeSpeech(letters: Letters, text: string, alreadySpoken: nat) returns (offset: nat, line: Option<string>)
    ensures (offset, line) == TakeNewSpeech(letters, text, alreadySpoken)
  {
    hide Drain, Trim, Join, NextEnd, SliceChars;
    var spoken := ClampSpoken(text, alreadySpoken);
    ghost var drained := Drain(letters, text, spoken);
    var chunks := [];
    while true
      invariant spoken <= |text|
      invariant drained.0 == Drain(letters, text, spoken).0
      invariant drained.1 == chunks + Drain(letters, text, spoken).1
      decreases |text| - spoken
    {
      DrainStep(letters, text, spoken, chunks);
      var next := NextSpeakableEnd(letters, text, spoken);
      if next.None? {
        break;
      }
      var end := next.value;
      var trimmed := Trim(SliceChars(text, spoken, end));
      if trimmed != "" {
        chunks := chunks + [trimmed];
      }
      spoken := end;
    }
    if chunks == [] {
      return ClampSpoken(text, alreadySpoken), None;
    } else {
      return spoken, Some(Join(chunks));
    }
  }

  // ---------- One drain ----------

  lemma {:induction false} JoinSolid(chunk: string, rest: seq<string>)
    ensures Solid(Join([chunk] + rest)) == Solid(chunk) + Solid(Join(rest))
  {
    if rest == [] {
      assert [chunk] + rest == [chunk] && Solid(Join(rest)) == [] && Solid(chunk) + [] == Solid(chunk);
    } else {
      assert ([chunk] + rest)[1..] == rest;
      SolidConcat(chunk + " ", Join(rest));
      SolidConcat(chunk, " ");
      assert Solid(" ") == [] by { assert " "[1..] == ""; }
    }
  }

  /** A drain speaks exactly the solid characters it passes over, and stops only where nothing is ready. */
  lemma {:induction false} DrainConserves(letters: Letters, text: string, spoken: nat)
    requires spoken <= |text|
    ensures var (offset, chunks) := Drain(letters, text, spoken);
      && spoken <= offset <= |text|
      && Solid(Join(chunks)) == Solid(text[spoken..offset])
      && NextEnd(letters, text, offset) == None
      && (chunks == [] <==> offset == spoken)
    decreases |text| - spoken
  {
    hide NextEnd, Trim, Solid, Join;
    DrainStep(letters, text, spoken, []);
    if NextEnd(letters, text, spoken).Some? {
      var end := NextEnd(letters, text, spoken).value;
      DrainConserves(letters, text, end);
      var (offset, rest) := Drain(letters, text, end);
      PieceConserves(letters, text, spoken, end, offset, rest);
    } else {
      NothingDrained(text, spoken);
    }
  }

  lemma NothingDrained(text: string, spoken: nat)
    requires spoken <= |text|
    ensures Solid(Join([])) == Solid(text[spoken..spoken])
  {
  }

  /** One sentence put in front of what the rest of the drain speaks. */
  lemma PieceConserves(letters: Letters, text: string, spoken: nat, end: nat, offset: nat, rest: seq<string>)
    requires NextEnd(letters, text, spoken) == Some(end)
    requires end <= offset <= |text| && Solid(Join(rest)) == Solid(text[end..offset])
    ensures spoken < end <= |text|
    ensures var piece := Trim(SliceChars(text, spoken, end));
      piece != [] && Solid(Join([piece] + rest)) == Solid(text[spoken..offset])
  {
    hide NextEnd, Trim, Solid, Join;
    NextEndAdvances(letters, text, spoken);
    var piece := text[spoken..end];
    TrimKeepsSolid(piece);
    TrimIsEmpty(piece);
    JoinSolid(Trim(piece), rest);
    SolidConcat(piece, text[end..offset]);
    assert text[spoken..offset] == piece + text[end..offset];
  }

  /** Draining the same text again yields nothing and moves nothing. */
  lemma SecondDrainIsEmpty(letters: Letters, text: string, spoken: nat)
    ensures var (offset, _) := TakeNewSpeech(letters, text, spoken);
      TakeNewSpeech(letters, text, offset) == (offset, None)
  {
    DrainConserves(letters, text, ClampSpoken(text, spoken));
  }

  // ---------- A stream of growing texts ----------

  /** The lines spoken while a reply grows, and the offset they leave: one drain per partial text. */
  function Speak(letters: Letters, texts: seq<string>, spoken: nat): (nat, seq<string>) {
    if texts == [] then (spoken, [])
    else
      var (offset, line) := TakeNewSpeech(letters, texts[0], spoken);
      var (final, rest) := Speak(letters, texts[1..], offset);
      (final, (match line case None => [] case Some(s) => [s]) + rest)
  }

  /** Every text is the one before with characters added at the end. */
  ghost predicate Growing(texts: seq<string>) {
    forall i, j :: 0 <= i < j < |texts| ==> texts[i] <= texts[j]
  }

  function Concat(lines: seq<string>): string {
    if lines == [] then "" else lines[0] + Concat(lines[1..])
  }

  lemma TakeConserves(letters: Letters, text: string, spoken: nat)
    ensures var (offset, line) := TakeNewSpeech(letters, text, spoken);
      && ClampSpoken(text, spoken) <= offset <= |text|
      && Solid(Concat(match line case None => [] case Some(s) => [s])) == Solid(text[ClampSpoken(text, spoken)..offset])
  {
    var from := ClampSpoken(text, spoken);
    DrainConserves(letters, text, from);
    var (offset, chunks) := Drain(letters, text, from);
    assert Concat([Join(chunks)]) == Join(chunks) by { assert Join(chunks) + "" == Join(chunks); }
  }

  lemma {:induction false} ConcatAppends(a: seq<string>, b: seq<string>)
    ensures Concat(a + b) == Concat(a) + Concat(b)
  {
    if a == [] {
      assert a + b == b;
    } else {
      assert (a + b)[1..] == a[1..] + b;
      ConcatAppends(a[1..], b);
    }
  }

  lemma ConcatSolid(a: seq<string>, b: seq<string>)
    ensures Solid(Concat(a + b)) == Solid(Concat(a)) + Solid(Concat(b))
  {
    ConcatAppends(a, b);
    SolidConcat(Concat(a), Concat(b));
  }

  /**
   From any starting offset: the offset never goes back, and the lines spoken
   carry exactly the solid characters between the first offset and the last.
   */
  lemma {:induction false} SpeakConserves(letters: Letters, texts: seq<string>, spoken: nat)
    requires texts != [] && Growing(texts)
    ensures var (final, lines) := Speak(letters, texts, spoken);
      var last := texts[|texts| - 1];
      && ClampSpoken(texts[0], spoken) <= final <= |last|
      && Solid(Concat(lines)) == Solid(last[ClampSpoken(texts[0], spoken)..final])
    decreases |texts|
  {
    hide TakeNewSpeech, ClampSpoken, Solid, Concat;
    var from := ClampSpoken(texts[0], spoken);
    var (offset, line) := TakeNewSpeech(letters, texts[0], spoken);
    var first := match line case None => [] case Some(s) => [s];
    TakeConserves(letters, texts[0], spoken);
    var last := texts[|texts| - 1];
    if |texts| == 1 {
      assert first + [] == first;
    } else {
      ClampIsNoop(texts[1], offset);
      SpeakConserves(letters, texts[1..], offset);
      var (final, rest) := Speak(letters, texts[1..], offset);
      ConcatSolid(first, rest);
      SolidBetween(texts[0], last, from, offset, final);
    }
  }

  lemma ClampIsNoop(text: string, spoken: nat)
    ensures spoken <= |text| ==> ClampSpoken(text, spoken) == spoken
  {
  }

  lemma SolidBetween(first: string, last: string, from: nat, offset: nat, final: nat)
    requires first <= last && from <= offset <= |first| && offset <= final <= |last|
    ensures Solid(last[from..final]) == Solid(first[from..offset]) + Solid(last[offset..final])
  {
    SolidConcat(last[from..offset], last[offset..final]);
    assert last[from..final] == last[from..offset] + last[offset..final];
    assert last[from..offset] == first[from..offset];
  }

  /** Early lines and the closing remainder together: everything from the clamped offset on, once, in order. */
  lemma SpeechIsComplete(letters: Letters, texts: seq<string>, spoken: nat)
    requires texts != [] && Growing(texts)
    ensures var (final, lines) := Speak(letters, texts, spoken);
      var last := texts[|texts| - 1];
      Solid(Concat(lines)) + Solid(RemainderAfter(last, final)) == Solid(last[ClampSpoken(texts[0], spoken)..])
  {
    hide Speak;
    SpeakConserves(letters, texts, spoken);
    var from := ClampSpoken(texts[0], spoken);
    var (final, lines) := Speak(letters, texts, spoken);
    var last := texts[|texts| - 1];
    assert SliceChars(last, final, |last|) == last[final..];
    TrimKeepsSolid(last[final..]);
    SolidRest(last, from, final);
  }

  lemma SolidRest(s: string, from: nat, final: nat)
    requires from <= final <= |s|
    ensures Solid(s[from..]) == Solid(s[from..final]) + Solid(s[final..])
  {
    SolidConcat(s[from..final], s[final..]);
    assert s[from..] == s[from..final] + s[final..];
  }

  /** A reply streamed from its start is spoken whole: nothing lost, repeated or reordered. */
  lemma WholeReplyIsSpoken(letters: Letters, texts: seq<string>)
    requires texts != [] && Growing(texts)
    ensures var (final, lines) := Speak(letters, texts, 0);
      var last := texts[|texts| - 1];
      Solid(Concat(lines)) + Solid(RemainderAfter(last, final)) == Solid(last)
  {
    hide Speak, RemainderAfter;
    SpeechIsComplete(letters, texts, 0);
    var last := texts[|texts| - 1];
    assert last[0..] == last;
  }

  /**
   A new round starts a fresh text with the old offset still stored. It is
   spoken whole exactly when its first partial text is shorter than that offset,
   or the characters below the offset are blank.
   */
  lemma NewRoundIsSpokenWhole(letters: Letters, texts: seq<string>, spoken: nat)
    requires texts != [] && Growing(texts)
    ensures var (final, lines) := Speak(letters, texts, spoken);
      var last := texts[|texts| - 1];
      (Solid(Concat(lines)) + Solid(RemainderAfter(last, final)) == Solid(last))
        <==> (spoken > |texts[0]| || Solid(texts[0][..spoken]) == [])
  {
    hide Speak, RemainderAfter;
    SpeechIsComplete(letters, texts, spoken);
    var from := ClampSpoken(texts[0], spoken);
    var last := texts[|texts| - 1];
    assert texts[0] <= last;
    assert last == last[..from] + last[from..] && last[..from] == texts[0][..from];
    SolidConcat(last[..from], last[from..]);
    assert spoken <= |texts[0]| ==> from == spoken;
    assert texts[0][..0] == "" && Solid("") == "";
  }

  /** Every cut takes at least twelve characters. */
  lemma CutsAreLong(letters: Letters, text: string, spoken: nat)
    requires NextEnd(letters, text, spoken).Some?
    ensures spoken + MIN_SENTENCE_CHARS <= NextEnd(letters, text, spoken).value <= |text|
  {
    var k := FirstEndFound(letters, text, spoken, spoken);
  }

  lemma {:induction false} DrainIsLong(letters: Letters, text: string, spoken: nat)
    requires spoken <= |text|
    ensures Drain(letters, text, spoken).0 == spoken
      || spoken + MIN_SENTENCE_CHARS <= Drain(letters, text, spoken).0 <= |text|
    decreases |text| - spoken
  {
    hide NextEnd, Trim, SliceChars;
    if NextEnd(letters, text, spoken).Some? {
      CutsAreLong(letters, text, spoken);
      DrainIsLong(letters, text, NextEnd(letters, text, spoken).value);
    }
  }

  /** Over any rounds, growing or not, the stored offset is 0 or a whole sentence into some text. */
  lemma {:induction false} StoredOffsets(letters: Letters, texts: seq<string>, spoken: nat)
    requires spoken == 0 || spoken >= MIN_SENTENCE_CHARS
    ensures var final := Speak(letters, texts, spoken).0;
      final == 0 || final >= MIN_SENTENCE_CHARS
    decreases |texts|
  {
    hide Drain, Join;
    if texts != [] {
      DrainIsLong(letters, texts[0], ClampSpoken(texts[0], spoken));
      StoredOffsets(letters, texts[1..], TakeNewSpeech(letters, texts[0], spoken).0);
    }
  }

  predicate IsMark(c: char) {
    c == '.' || c == '!' || c == '?'
  }

  /** A question of 24 characters or more, with no other mark in it, is spoken to its end. */
  lemma QuestionIsSpoken(letters: Letters, question: string)
    requires |question| >= MIN_TOTAL_BEFORE_FIRST && question[|question| - 1] == '?'
    requires forall i :: 0 <= i < |question| - 1 ==> !IsMark(question[i])
    ensures Speak(letters, [question], 0).0 == |question|
  {
    OnlyLastMark(letters, question, 0);
    assert NextEnd(letters, question, 0) == Some(|question|);
    DrainConserves(letters, question, 0);
    DrainStep(letters, question, 0, []);
  }

  lemma {:induction false} OnlyLastMark(letters: Letters, question: string, i: nat)
    requires i < |question| && |question| >= MIN_SENTENCE_CHARS && question[|question| - 1] == '?'
    requires forall k :: 0 <= k < |question| - 1 ==> !IsMark(question[k])
    ensures FirstEnd(letters, question, 0, i) == Some(|question|)
    decreases |question| - i
  {
    if i < |question| - 1 { OnlyLastMark(letters, question, i + 1); }
  }

  /**
   The failing family, from a fresh start: a round that ends in a question leaves
   its length behind, and a next round whose first partial text is no shorter
   loses whatever that text says below the offset.
   */
  lemma NewRoundCanLoseItsStart(letters: Letters, question: string, partial: string)
    requires |question| >= MIN_TOTAL_BEFORE_FIRST && question[|question| - 1] == '?'
    requires forall i :: 0 <= i < |question| - 1 ==> !IsMark(question[i])
    requires |partial| >= |question| && Solid(partial[..|question|]) != []
    ensures var (final, lines) := Speak(letters, [partial], Speak(letters, [question], 0).0);
      Solid(Concat(lines)) + Solid(RemainderAfter(partial, final)) != Solid(partial)
  {
    hide Speak, RemainderAfter;
    QuestionIsSpoken(letters, question);
    NewRoundIsSpokenWhole(letters, [partial], |question|);
  }

  /** One of them: the second reply is never heard to begin. */
  lemma SecondReplyLosesItsStart(letters: Letters)
    ensures var question, partial := "Shall I check the calendar?", "You are free until four. ";
      var reply := partial + "Then there is a call.";
      var (final, lines) := Speak(letters, [reply], Speak(letters, [question], 0).0);
      Solid(Concat(lines)) + Solid(RemainderAfter(reply, final)) != Solid(reply)
  {
    var question, reply := "Shall I check the calendar?", "You are free until four. " + "Then there is a call.";
    assert reply[..|question|][0] == 'Y';
    assert Solid(reply[..|question|]) != [];
    NewRoundCanLoseItsStart(letters, question, reply);
  }

  // ---------- Where a longer text is cut ----------

  /** Whitespace that ends inside a text ends at the same place in any longer one. */
  lemma {:induction false} SkipSpaceAgrees(p: string, q: string, i: nat)
    requires p <= q && i <= |p| && SkipSpace(p, i) < |p|
    ensures SkipSpace(q, i) == SkipSpace(p, i)
    decreases |p| - i
  {
    if IsWhitespace(p[i]) { SkipSpaceAgrees(p, q, i + 1); }
  }

  lemma {:induction false} WordStartAgrees(letters: Letters, p: string, q: string, end: nat)
    requires p <= q && end <= |p|
    ensures WordStart(letters, q, end) == WordStart(letters, p, end)
    decreases end
  {
    if end > 0 && letters.isAlphabetic(p[end - 1]) { WordStartAgrees(letters, p, q, end - 1); }
  }

  /** A mark whose next solid character is already there is judged once and for all. */
  lemma BoundaryAgrees(letters: Letters, p: string, q: string, spoken: nat, i: nat)
    requires p <= q && spoken <= i < |p| && SkipSpace(p, i + 1) < |p|
    ensures IsBoundary(letters, q, spoken, i) <==> IsBoundary(letters, p, spoken, i)
  {
    SkipSpaceAgrees(p, q, i + 1);
    WordStartAgrees(letters, p, q, i);
  }

  /** Up to a solid character of `p`, both texts have the same boundaries. */
  lemma {:induction false} FirstEndAgrees(letters: Letters, p: string, q: string, spoken: nat, i: nat, k: nat)
    requires p <= q && spoken <= i <= k < |p|
    requires FirstBoundaryAt(letters, p, spoken, i, k)
    ensures FirstEnd(letters, q, spoken, i) == FirstEnd(letters, q, spoken, k)
    decreases k - i
  {
    if i < k {
      SkipSpaceStops(p, i + 1, k);
      BoundaryAgrees(letters, p, q, spoken, i);
      FirstEndAgrees(letters, p, q, spoken, i + 1, k);
    }
  }

  lemma {:induction false} SkipSpaceStops(s: string, i: nat, k: nat)
    requires i <= k < |s| && !IsWhitespace(s[k])
    ensures SkipSpace(s, i) <= k
    decreases k - i
  {
    if i < k && IsWhitespace(s[i]) { SkipSpaceStops(s, i + 1, k); }
  }

  /** A cut strictly inside a partial text is final: every longer text is cut there too. */
  lemma InnerCutIsFinal(letters: Letters, p: string, q: string, spoken: nat)
    requires p <= q && NextEnd(letters, p, spoken).Some? && NextEnd(letters, p, spoken).value < |p|
    ensures NextEnd(letters, q, spoken) == NextEnd(letters, p, spoken)
  {
    var k := FirstEndFound(letters, p, spoken, spoken);
    FirstEndAgrees(letters, p, q, spoken, spoken, k);
    BoundaryAgrees(letters, p, q, spoken, k);
    SkipSpaceAgrees(p, q, k + 1);
  }

  /**
   A cut at the very end of a partial text stays where it is exactly when the
   text goes on with a solid character, whitespace already stood before it, and
   a period is followed by a capital. Otherwise the longer text is cut later.
   */
  lemma EndCutStays(letters: Letters, p: string, q: string, spoken: nat, k: nat)
    requires p <= q && |p| < |q|
    requires FirstBoundaryAt(letters, p, spoken, spoken, k) && NextEnd(letters, p, spoken) == Some(|p|)
    ensures NextEnd(letters, q, spoken) == Some(|p|) <==>
      && !IsWhitespace(q[|p|]) && k + 1 < |p| && (p[k] == '.' ==> letters.isUppercase(q[|p|]))
    ensures NextEnd(letters, q, spoken).Some? ==> NextEnd(letters, q, spoken).value >= |p|
  {
    FirstEndAgrees(letters, p, q, spoken, spoken, k);
    FirstEndFoundAt(letters, p, spoken, spoken, k);
    SpaceRun(q, k + 1, |p|);
    WordStartAgrees(letters, p, q, k);
    if !IsBoundary(letters, q, spoken, k) { NoBoundaryInSpace(letters, q, spoken, k + 1, |p|); }
  }

  lemma {:induction false} FirstEndFoundAt(letters: Letters, chars: string, spoken: nat, i: nat, k: nat)
    requires FirstBoundaryAt(letters, chars, spoken, i, k)
    ensures FirstEnd(letters, chars, spoken, i) == Some(SkipSpace(chars, k + 1))
    decreases k - i
  {
    if i < k { FirstEndFoundAt(letters, chars, spoken, i + 1, k); }
  }

  lemma {:induction false} SpaceRun(s: string, i: nat, m: nat)
    requires i <= m <= |s| && forall t :: i <= t < m ==> IsWhitespace(s[t])
    ensures SkipSpace(s, i) == SkipSpace(s, m)
    decreases m - i
  {
    if i < m { SpaceRun(s, i + 1, m); }
  }

  lemma {:induction false} NoBoundaryInSpace(letters: Letters, s: string, spoken: nat, i: nat, m: nat)
    requires spoken <= i <= m <= |s| && forall t :: i <= t < m ==> IsWhitespace(s[t])
    ensures FirstEnd(letters, s, spoken, i) == FirstEnd(letters, s, spoken, m)
    ensures FirstEnd(letters, s, spoken, i).Some? ==> FirstEnd(letters, s, spoken, i).value > m
    decreases m - i
  {
    if i < m { NoBoundaryInSpace(letters, s, spoken, i + 1, m); }
    else if FirstEnd(letters, s, spoken, m).Some? { var k := FirstEndFound(letters, s, spoken, m); }
  }

  /**
   So a drain whose cuts all lie inside the partial text commits nothing that a
   longer text would cut otherwise: draining in two goes is draining in one.
   */
  lemma {:induction false} InnerDrainIsFinal(letters: Letters, p: string, q: string, spoken: nat)
    requires p <= q && spoken <= |p| && Drain(letters, p, spoken).0 < |p|
    ensures var (offset, chunks) := Drain(letters, p, spoken);
      Drain(letters, q, spoken) == (Drain(letters, q, offset).0, chunks + Drain(letters, q, offset).1)
    decreases |p| - spoken
  {
    hide Drain, NextEnd, Trim, SliceChars;
    DrainOnce(letters, p, spoken);
    DrainOnce(letters, q, spoken);
    var (offset, chunks) := Drain(letters, p, spoken);
    if NextEnd(letters, p, spoken).Some? {
      var end := NextEnd(letters, p, spoken).value;
      DrainConserves(letters, p, end);
      InnerCutIsFinal(letters, p, q, spoken);
      InnerDrainIsFinal(letters, p, q, end);
      SliceOfPrefix(p, q, spoken, end);
      var piece, later := Trim(SliceChars(p, spoken, end)), Drain(letters, p, end).1;
      var first := if piece == [] then [] else [piece];
      assert first + (later + Drain(letters, q, offset).1) == first + later + Drain(letters, q, offset).1;
    } else {
      assert [] + Drain(letters, q, spoken).1 == Drain(letters, q, spoken).1;
    }
  }

  /** Of the partial texts before the last, none is drained to its very end. */
  predicate DrainsInside(letters: Letters, texts: seq<string>, spoken: nat)
    decreases |texts|
  {
    |texts| > 1 ==>
      && spoken <= |texts[0]|
      && Drain(letters, texts[0], spoken).0 < |texts[0]|
      && DrainsInside(letters, texts[1..], Drain(letters, texts[0], spoken).0)
  }

  /**
   Over a whole stream whose partial texts are drained inside, what is spoken is
   what one drain of the last text would speak: the same sentences, wherever the
   stream was broken into partial texts.
   */
  lemma {:induction false} ChunkingDoesNotMatter(letters: Letters, texts: seq<string>, spoken: nat)
    requires texts != [] && Growing(texts) && spoken <= |texts[0]| && DrainsInside(letters, texts, spoken)
    ensures var last := texts[|texts| - 1];
      && spoken <= |last|
      && var ((final, lines), (offset, chunks)) := (Speak(letters, texts, spoken), Drain(letters, last, spoken));
      final == offset && Join(lines) == Join(chunks) && (lines == [] <==> chunks == [])
    decreases |texts|
  {
    hide Drain, Join;
    var (offset, chunks) := Drain(letters, texts[0], spoken);
    OneDrainOfSpeak(letters, texts, spoken);
    DrainConserves(letters, texts[0], spoken);
    if |texts| == 1 {
      JoinAgain(chunks, [], []);
      assert chunks + [] == chunks;
      assert texts[1..] == [];
    } else {
      var last := texts[|texts| - 1];
      assert Growing(texts[1..]);
      ChunkingDoesNotMatter(letters, texts[1..], offset);
      InnerDrainIsFinal(letters, texts[0], last, spoken);
      JoinAgain(chunks, Speak(letters, texts[1..], offset).1, Drain(letters, last, offset).1);
    }
  }

  lemma OneDrainOfSpeak(letters: Letters, texts: seq<string>, spoken: nat)
    requires texts != [] && spoken <= |texts[0]|
    ensures var (offset, chunks) := Drain(letters, texts[0], spoken);
      var rest := Speak(letters, texts[1..], offset);
      Speak(letters, texts, spoken) == (rest.0, (if chunks == [] then [] else [Join(chunks)]) + rest.1)
  {
    hide Drain, Join;
    DrainConserves(letters, texts[0], spoken);
  }

  /** Sentences joined into a line, and lines joined, read as all sentences joined. */
  lemma {:induction false} JoinAgain(chunks: seq<string>, lines: seq<string>, later: seq<string>)
    requires Join(lines) == Join(later) && (lines == [] <==> later == [])
    ensures Join((if chunks == [] then [] else [Join(chunks)]) + lines) == Join(chunks + later)
  {
    if chunks == [] {
      assert [] + lines == lines && [] + later == later;
    } else if |chunks| == 1 {
      assert ([chunks[0]] + lines)[1..] == lines && (chunks + later)[1..] == later;
    } else {
      JoinAgain(chunks[1..], lines, later);
      assert (chunks + later)[1..] == chunks[1..] + later;
      var tail := Join(chunks[1..]);
      assert ([Join(chunks)] + lines)[1..] == lines && ([tail] + lines)[1..] == lines;
      assert chunks[0] + " " + tail + " " + Join(lines) == chunks[0] + " " + (tail + " " + Join(lines));
    }
  }

  lemma DrainOnce(letters: Letters, text: string, spoken: nat)
    requires spoken <= |text|
    ensures NextEnd(letters, text, spoken) == None ==> Drain(letters, text, spoken) == (spoken, [])
    ensures NextEnd(letters, text, spoken).Some? ==>
      var end := NextEnd(letters, text, spoken).value;
      && spoken < end <= |text|
      && var piece := Trim(SliceChars(text, spoken, end));
      Drain(letters, text, spoken)
        == (Drain(letters, text, end).0, (if piece == [] then [] else [piece]) + Drain(letters, text, end).1)
  {
    hide NextEnd, Trim, SliceChars;
    if NextEnd(letters, text, spoken).Some? { NextEndAdvances(letters, text, spoken); }
  }

  lemma SliceOfPrefix(p: string, q: string, from: nat, to: nat)
    requires p <= q && from <= to <= |p|
    ensures SliceChars(q, from, to) == SliceChars(p, from, to)
  {
  }

  // ---------- Sentences, on characters alone ----------

  /** Exactly `n` letters stand before position `at`: no more, because the text starts there or something else does. */
  predicate LettersBefore(letters: Letters, text: string, at: nat, n: nat) {
    && n <= at <= |text|
    && (forall i :: at - n <= i < at ==> letters.isAlphabetic(text[i]))
    && (at - n > 0 ==> !letters.isAlphabetic(text[at - n - 1]))
  }

  /** After whitespace, if any, the text is over or goes on with a capital. */
  ghost predicate CapitalOrNothing(letters: Letters, text: string, from: nat) {
    exists m: nat :: NextSolid(text, from, m) && (m == |text| || letters.isUppercase(text[m]))
  }

  /** `m` is the first position from `from` on that is not whitespace, or the end. */
  predicate NextSolid(text: string, from: nat, m: nat) {
    && from <= m <= |text|
    && (forall i :: from <= i < m ==> IsWhitespace(text[i]))
    && (m < |text| ==> !IsWhitespace(text[m]))
  }

  /**
   A sentence ends at `k`: at least twelve characters in, with `!` or `?` before
   whitespace or the end; or with a period before whitespace, behind no letter or
   at least four of them, before a capital or nothing.
   */
  ghost predicate SentenceEnds(letters: Letters, text: string, spoken: nat, k: nat) {
    && spoken <= k < |text| && k + 1 - spoken >= 12
    && if text[k] == '!' || text[k] == '?' then k + 1 == |text| || IsWhitespace(text[k + 1])
       else
         && text[k] == '.' && k + 1 < |text| && IsWhitespace(text[k + 1])
         && !(exists n :: 1 <= n <= 3 && LettersBefore(letters, text, k, n))
         && CapitalOrNothing(letters, text, k + 1)
  }

  lemma {:induction false} WordStartExactly(letters: Letters, text: string, at: nat)
    requires at <= |text|
    ensures LettersBefore(letters, text, at, at - WordStart(letters, text, at))
    decreases at
  {
    if at > 0 && letters.isAlphabetic(text[at - 1]) { WordStartExactly(letters, text, at - 1); }
  }

  lemma OneCountOfLetters(letters: Letters, text: string, at: nat, m: nat, n: nat)
    requires LettersBefore(letters, text, at, m) && LettersBefore(letters, text, at, n)
    ensures m == n
  {
    NoMoreLetters(letters, text, at, m, n);
    NoMoreLetters(letters, text, at, n, m);
  }

  lemma NoMoreLetters(letters: Letters, text: string, at: nat, m: nat, n: nat)
    requires LettersBefore(letters, text, at, m)
    requires n <= at && forall i :: at - n <= i < at ==> letters.isAlphabetic(text[i])
    ensures n <= m
  {
    if at - m > 0 { assert !letters.isAlphabetic(text[at - m - 1]); }
  }

  lemma AbbrevExactly(letters: Letters, text: string, dot: nat)
    requires dot <= |text|
    ensures AbbrevWordBefore(letters, text, dot) <==> exists n :: 1 <= n <= 3 && LettersBefore(letters, text, dot, n)
  {
    WordStartExactly(letters, text, dot);
    var m := dot - WordStart(letters, text, dot);
    if n :| 1 <= n <= 3 && LettersBefore(letters, text, dot, n) { OneCountOfLetters(letters, text, dot, m, n); }
  }

  lemma OneNextSolid(text: string, from: nat, m: nat, n: nat)
    requires NextSolid(text, from, m) && NextSolid(text, from, n)
    ensures m == n
  {
    NoMoreSpace(text, from, m, n);
    NoMoreSpace(text, from, n, m);
  }

  lemma NoMoreSpace(text: string, from: nat, m: nat, n: nat)
    requires NextSolid(text, from, m)
    requires from <= n <= |text| && forall i :: from <= i < n ==> IsWhitespace(text[i])
    ensures n <= m
  {
    if m < |text| { assert !IsWhitespace(text[m]); }
  }

  lemma CapitalExactly(letters: Letters, text: string, from: nat)
    requires from <= |text|
    ensures var next := SkipSpace(text, from);
      next == |text| || letters.isUppercase(text[next]) <==> CapitalOrNothing(letters, text, from)
  {
    var next := SkipSpace(text, from);
    assert NextSolid(text, from, next);
    if CapitalOrNothing(letters, text, from) {
      var m: nat :| NextSolid(text, from, m) && (m == |text| || letters.isUppercase(text[m]));
      OneNextSolid(text, from, m, next);
    }
  }

  /** The boundaries of the program are the ends of sentences. */
  lemma BoundaryExactly(letters: Letters, text: string, spoken: nat, k: nat)
    requires spoken <= k < |text|
    ensures IsBoundary(letters, text, spoken, k) <==> SentenceEnds(letters, text, spoken, k)
  {
    AbbrevExactly(letters, text, k);
    CapitalExactly(letters, text, k + 1);
    hide AbbrevWordBefore, CapitalOrNothing, IsWhitespace, LettersBefore;
  }

  /** The first sentence end from the offset on. */
  ghost predicate FirstSentenceEnd(letters: Letters, text: string, spoken: nat, k: nat) {
    SentenceEnds(letters, text, spoken, k) && forall j :: spoken <= j < k ==> !SentenceEnds(letters, text, spoken, j)
  }

  /**
   What is cut: behind the first sentence end and the whitespace that follows it;
   and nothing where there is none, where all is spoken, or where a reply has not
   yet grown to 24 characters.
   */
  lemma NextEndExactly(letters: Letters, text: string, spoken: nat)
    ensures match NextEnd(letters, text, spoken)
      case Some(end) =>
        && (spoken == 0 ==> |text| >= 24)
        && exists k: nat :: FirstSentenceEnd(letters, text, spoken, k) && NextSolid(text, k + 1, end)
      case None => (spoken == 0 && |text| < 24) || forall k :: spoken <= k < |text| ==> !SentenceEnds(letters, text, spoken, k)
  {
    hide IsBoundary, SentenceEnds;
    forall k: nat | spoken <= k < |text|
      ensures IsBoundary(letters, text, spoken, k) <==> SentenceEnds(letters, text, spoken, k)
    {
      BoundaryExactly(letters, text, spoken, k);
    }
    match NextEnd(letters, text, spoken) {
      case Some(end) =>
        var k := FirstEndFound(letters, text, spoken, spoken);
        assert FirstSentenceEnd(letters, text, spoken, k) && NextSolid(text, k + 1, end);
      case None => if spoken < |text| && (spoken > 0 || |text| >= 24) { NoFirstEnd(letters, text, spoken, spoken); }
    }
  }

  // ---------- The line that is spoken ----------

  /** The cuts of one drain: the offset it starts at, then each next cut, until there is none. */
  predicate AreCuts(letters: Letters, text: string, cuts: seq<nat>) {
    && cuts != []
    && if |cuts| == 1 then NextEnd(letters, text, cuts[0]) == None
       else
         && cuts[0] < cuts[1] <= |text| && NextEnd(letters, text, cuts[0]) == Some(cuts[1])
         && AreCuts(letters, text, cuts[1..])
  }

  function Between(text: string, from: nat, to: nat): string {
    if from <= to <= |text| then text[from..to] else ""
  }

  /** The sentences between the cuts, trimmed. */
  function Sentences(text: string, cuts: seq<nat>): seq<string> {
    if |cuts| <= 1 then [] else [Trim(Between(text, cuts[0], cuts[1]))] + Sentences(text, cuts[1..])
  }

  lemma {:induction false} DrainCuts(letters: Letters, text: string, spoken: nat) returns (cuts: seq<nat>)
    requires spoken <= |text|
    ensures AreCuts(letters, text, cuts) && cuts[0] == spoken && cuts[|cuts| - 1] == Drain(letters, text, spoken).0
    ensures Drain(letters, text, spoken).1 == Sentences(text, cuts)
    decreases |text| - spoken
  {
    hide Drain, NextEnd, Trim, Between;
    DrainOnce(letters, text, spoken);
    if NextEnd(letters, text, spoken).Some? {
      var end := NextEnd(letters, text, spoken).value;
      var rest := DrainCuts(letters, text, end);
      cuts := [spoken] + rest;
      CutIsAudible(letters, text, spoken, end);
      assert cuts[1..] == rest;
    } else {
      cuts := [spoken];
    }
  }

  lemma CutIsAudible(letters: Letters, text: string, spoken: nat, end: nat)
    requires NextEnd(letters, text, spoken) == Some(end)
    ensures spoken < end <= |text| && SliceChars(text, spoken, end) == Between(text, spoken, end)
    ensures Trim(Between(text, spoken, end)) != []
  {
    NextEndAdvances(letters, text, spoken);
    TrimIsEmpty(text[spoken..end]);
  }

  /**
   What is spoken is the sentences between the cuts, each trimmed, with one space
   between them; and nothing, with the offset where it was, where there is no cut.
   */
  lemma LineIsItsSentences(letters: Letters, text: string, spoken: nat) returns (cuts: seq<nat>)
    ensures AreCuts(letters, text, cuts) && cuts[0] == (if spoken > |text| then 0 else spoken)
    ensures TakeNewSpeech(letters, text, spoken) ==
      if |cuts| == 1 then (cuts[0], None) else (cuts[|cuts| - 1], Some(JoinWith(Sentences(text, cuts), " ")))
  {
    hide Drain, NextEnd, AreCuts, JoinWith, Trim, Between;
    cuts := DrainCuts(letters, text, ClampSpoken(text, spoken));
    CutsAreSome(letters, text, cuts);
  }

  lemma CutsAreSome(letters: Letters, text: string, cuts: seq<nat>)
    requires AreCuts(letters, text, cuts)
    ensures cuts != []
  {
  }

  /** The remainder is what stands behind the offset, or all of a text shorter than it, trimmed. */
  lemma RemainderExactly(text: string, spoken: nat)
    ensures RemainderAfter(text, spoken) == Trim(if spoken > |text| then text else text[spoken..])
  {
    assert text[0..|text|] == text;
    assert spoken <= |text| ==> text[spoken..|text|] == text[spoken..];
  }
}
