/**
 The ambient reply latch: replies are normalised, compared up to two edits, and
 counted over a sliding window whose old entries are thrown away as it moves.
 */
module ReplyLatch {
  import opened Wrappers
  import opened Bytes
  import opened Clock
  import Utf8
  import opened Text
  import opened EditDistance

  // ---------- Normalising a reply ----------

  /** One character of `normalize`: the text so far, and whether it ends in a space (or is empty). */
  function ScanStep(out: string, lastSpace: bool, c: char): (string, bool) {
    if IsAsciiAlphanumeric(c) then (out + [ToAsciiLowercase(c)], false)
    else if IsWhitespace(c) && !lastSpace && out != [] then (out + [' '], true)
    else (out, lastSpace)
  }

  function Scan(out: string, lastSpace: bool, rest: string): string
    decreases |rest|
  {
    if rest == [] then out
    else
      var (out', lastSpace') := ScanStep(out, lastSpace, rest[0]);
      Scan(out', lastSpace', rest[1..])
  }

  function Normalize(text: string): string {
    Trim(Scan([], true, text))
  }

  /** `normalize`: push or drop each character, then trim. */
  method NormalizeText(text: string) returns (r: string)
    ensures r == Normalize(text)
  {
    var out, lastSpace := [], true;
    for i := 0 to |text|
      invariant Scan(out, lastSpace, text[i..]) == Scan([], true, text)
    {
      var c := text[i];
      assert text[i..][0] == c && text[i..][1..] == text[i + 1..];
      if IsAsciiAlphanumeric(c) {
        out := out + [ToAsciiLowercase(c)];
        lastSpace := false;
      } else if IsWhitespace(c) && !lastSpace && out != [] {
        out := out + [' '];
        lastSpace := true;
      }
    }
    return Trim(out);
  }

  // ---------- The words of a reply: a reference for `normalize` ----------

  datatype Place = Start | InWord | AfterGap

  /**
   The lower-cased ASCII letters and digits of a text, with one space exactly
   where whitespace separates two of them.
   */
  function Words(rest: string, place: Place): string {
    if rest == [] then []
    else if 'a' <= rest[0] <= 'z' || 'A' <= rest[0] <= 'Z' || '0' <= rest[0] <= '9' then
      (if place == AfterGap then [' '] else [])
      + [if 'A' <= rest[0] <= 'Z' then (rest[0] as int + 32) as char else rest[0]]
      + Words(rest[1..], InWord)
    else if IsWhitespace(rest[0]) then Words(rest[1..], if place == Start then Start else AfterGap)
    else Words(rest[1..], place)
  }

  predicate IsWordChar(c: char) {
    'a' <= c <= 'z' || IsAsciiDigit(c)
  }

  /** What has been pushed so far: whole words, and at most the space of an open gap. */
  ghost predicate ScanState(out: string, lastSpace: bool, body: string, place: Place) {
    && (body == [] <==> place == Start)
    && (body != [] ==> IsWordChar(body[0]) && IsWordChar(body[|body| - 1]))
    && out == body + (if place == AfterGap then [' '] else [])
    && lastSpace == (place != InWord)
  }

  lemma {:induction false} ScanWrites(out: string, lastSpace: bool, rest: string, body: string, place: Place)
    requires ScanState(out, lastSpace, body, place)
    ensures Trim(Scan(out, lastSpace, rest)) == body + Words(rest, place)
    decreases |rest|
  {
    if rest == [] {
      TrimOpenGap(body, place);
    } else {
      var c := rest[0];
      var (out', lastSpace') := ScanStep(out, lastSpace, c);
      if IsAsciiAlphanumeric(c) {
        ScanWrites(out', lastSpace', rest[1..], out + [ToAsciiLowercase(c)], InWord);
      } else if IsWhitespace(c) {
        ScanWrites(out', lastSpace', rest[1..], body, if place == Start then Start else AfterGap);
      } else {
        ScanWrites(out', lastSpace', rest[1..], body, place);
      }
    }
  }

  lemma TrimOpenGap(body: string, place: Place)
    requires body != [] ==> IsWordChar(body[0]) && IsWordChar(body[|body| - 1])
    requires body == [] ==> place == Start
    ensures Trim(body + (if place == AfterGap then [' '] else [])) == body
  {
    TrimNoop(body);
    var out := body + (if place == AfterGap then [' '] else []);
    assert TrimStart(out) == out;
    if place == AfterGap { assert out[..|out| - 1] == body; }
    else { assert out == body; }
  }

  /** `normalize` keeps exactly the words. */
  lemma NormalizeIsWords(text: string)
    ensures Normalize(text) == Words(text, Start)
  {
    ScanWrites([], true, text, [], Start);
  }

  /** Single-spaced lower-case ASCII words. */
  predicate IsNormal(s: string) {
    && (forall i :: 0 <= i < |s| ==> IsWordChar(s[i]) || s[i] == ' ')
    && (s != [] ==> s[0] != ' ' && s[|s| - 1] != ' ')
    && (forall i :: 0 < i < |s| ==> s[i - 1] != ' ' || s[i] != ' ')
  }

  lemma {:induction false} WordsAreNormal(rest: string, place: Place)
    ensures var r := Words(rest, place);
      && (forall i :: 0 <= i < |r| ==> IsWordChar(r[i]) || r[i] == ' ')
      && (r != [] ==> r[|r| - 1] != ' ' && (place == Start ==> r[0] != ' ') && (place == AfterGap ==> r[0] == ' '))
      && (forall i :: 0 < i < |r| ==> r[i - 1] != ' ' || r[i] != ' ')
  {
    if rest != [] {
      if IsAsciiAlphanumeric(rest[0]) { WordsAreNormal(rest[1..], InWord); }
      else if IsWhitespace(rest[0]) { WordsAreNormal(rest[1..], if place == Start then Start else AfterGap); }
      else { WordsAreNormal(rest[1..], place); }
    }
  }

  lemma {:induction false} WordsOfNormal(s: string, place: Place)
    requires forall i :: 0 <= i < |s| ==> IsWordChar(s[i]) || s[i] == ' '
    requires s != [] ==> s[|s| - 1] != ' ' && (s[0] == ' ' ==> place == InWord)
    requires s == [] ==> place != AfterGap
    requires forall i :: 0 < i < |s| ==> s[i - 1] != ' ' || s[i] != ' '
    ensures Words(s, place) == (if place == AfterGap then [' '] else []) + s
  {
    if s != [] {
      forall i | 0 < i < |s[1..]| ensures s[1..][i - 1] != ' ' || s[1..][i] != ' ' {
        assert s[1..][i - 1] == s[i] && s[1..][i] == s[i + 1];
      }
      assert s == [s[0]] + s[1..];
      assert ToAsciiLowercase(s[0]) == s[0];
      WordsOfNormal(s[1..], if s[0] == ' ' then AfterGap else InWord);
    }
  }

  /** Normal texts are what `normalize` yields, and what it leaves alone; so it is idempotent. */
  lemma NormalizeFixpoint(text: string)
    ensures IsNormal(Normalize(text))
    ensures Normalize(text) == text <==> IsNormal(text)
    ensures Normalize(Normalize(text)) == Normalize(text)
  {
    NormalizeYieldsNormal(text);
    if IsNormal(text) { NormalIsKept(text); }
    NormalIsKept(Normalize(text));
  }

  lemma NormalizeYieldsNormal(text: string)
    ensures IsNormal(Normalize(text))
  {
    NormalizeIsWords(text);
    WordsAreNormal(text, Start);
  }

  lemma NormalIsKept(s: string)
    requires IsNormal(s)
    ensures Normalize(s) == s
  {
    NormalizeIsWords(s);
    WordsOfNormal(s, Start);
  }

  // ---------- Near-identical replies ----------

  /** Rust's `str::len`: bytes, not characters. */
  function ByteLen(s: string): nat {
    |Utf8.Encode(s)|
  }

  function NearIdentical(left: string, right: string): bool {
    left == right || (Gap(ByteLen(left), ByteLen(right)) <= 2 && Lev(left, right) <= 2)
  }

  /** `near_identical`: equality, then a length prefilter, then the edit distance. */
  method NearIdenticalTexts(left: string, right: string) returns (near: bool)
    ensures near == NearIdentical(left, right)
  {
    if left == right {
      return true;
    }
    if Gap(ByteLen(left), ByteLen(right)) > 2 {
      return false;
    }
    var distance := EditDistance.EditDistance(left, right);
    return distance <= 2;
  }

  lemma AsciiByteLen(s: string)
    requires IsAscii(s)
    ensures ByteLen(s) == |s|
  {
    Utf8.EncodeAscii(s);
  }

  lemma NearIdenticalExactly(left: string, right: string)
    ensures NearIdentical(left, right) <==> Lev(left, right) <= 2 && Gap(ByteLen(left), ByteLen(right)) <= 2
  {
    LevZero(left, right);
  }

  /** On ASCII texts the byte-length prefilter loses nothing. */
  lemma PrefilterIsLossless(left: string, right: string)
    requires IsAscii(left) && IsAscii(right)
    ensures NearIdentical(left, right) <==> Lev(left, right) <= 2
  {
    NearIdenticalExactly(left, right);
    AsciiByteLen(left);
    AsciiByteLen(right);
    LevBounds(left, right);
  }

  lemma NormalIsAscii(s: string)
    requires IsNormal(s)
    ensures IsAscii(s)
  {
  }

  /** So on every pair the latch compares, near-identical is an edit distance of at most two. */
  lemma NormalizedPrefilterIsLossless(a: string, b: string)
    ensures NearIdentical(Normalize(a), Normalize(b)) <==> Lev(Normalize(a), Normalize(b)) <= 2
  {
    NormalizeYieldsNormal(a);
    NormalizeYieldsNormal(b);
    NormalIsAscii(Normalize(a));
    NormalIsAscii(Normalize(b));
    PrefilterIsLossless(Normalize(a), Normalize(b));
  }

  /** Taken alone, beyond ASCII, the function refuses a pair one edit apart; the latch never asks about one. */
  lemma PrefilterLosesWideCharacters()
    ensures Lev("", "\U{1F600}") == 1 && !NearIdentical("", "\U{1F600}")
  {
    assert Utf8.Encode("\U{1F600}") == Utf8.EncodeChar('\U{1F600}') + Utf8.Encode([]);
  }

  /** Reflexive and symmetric; not transitive, but two hops stay within four edits. */
  lemma NearIdenticalLaws(a: string, b: string, c: string)
    ensures NearIdentical(a, a)
    ensures NearIdentical(a, b) == NearIdentical(b, a)
    ensures NearIdentical(a, b) && NearIdentical(b, c) ==> Lev(a, c) <= 4
  {
    LevSymmetric(a, b);
    LevTriangle(a, b, c);
    NearIdenticalExactly(a, b);
    NearIdenticalExactly(b, c);
  }

  // ---------- The latch ----------

  const LATCH_COUNT: nat := 3
  const SHORT_MAX_CHARS: nat := 120

  const LATCH_WINDOW: Time := 90_000_000_000

  function NormalizeShort(text: string): Option<string> {
    var norm := Normalize(text);
    if norm == [] || |norm| > SHORT_MAX_CHARS then None else Some(norm)
  }

  datatype Entry = Entry(text: string, at: Time)

  /** The entries still inside the window. */
  function Kept(entries: seq<Entry>, now: Time): seq<Entry> {
    if entries == [] then []
    else
      var e := entries[|entries| - 1];
      Kept(entries[..|entries| - 1], now) + (if SaturatingSince(now, e.at) <= LATCH_WINDOW then [e] else [])
  }

  function CountNear(entries: seq<Entry>, norm: string): nat {
    if entries == [] then 0
    else
      CountNear(entries[..|entries| - 1], norm)
      + (if NearIdentical(entries[|entries| - 1].text, norm) then 1 else 0)
  }

  /** `would_trigger`: counts the entries that are both recent and near. */
  function CountKeptNear(entries: seq<Entry>, norm: string, now: Time): nat {
    if entries == [] then 0
    else
      var e := entries[|entries| - 1];
      CountKeptNear(entries[..|entries| - 1], norm, now)
      + (if SaturatingSince(now, e.at) <= LATCH_WINDOW && NearIdentical(e.text, norm) then 1 else 0)
  }

  datatype Event = Cleared | Reply(text: string, at: Time)

  /** `record` on the stored entries: the new entries and the answer. */
  function RecordStep(recent: seq<Entry>, text: string, now: Time): (seq<Entry>, bool) {
    match NormalizeShort(text)
    case None => ([], false)
    case Some(norm) =>
      var kept := Kept(recent, now);
      (kept + [Entry(norm, now)], CountNear(kept, norm) + 1 >= LATCH_COUNT)
  }

  /** The entries a latch holds after a history of replies and clears. */
  function Recent(events: seq<Event>): seq<Entry> {
    if events == [] then []
    else match events[|events| - 1]
      case Cleared => []
      case Reply(text, at) => RecordStep(Recent(events[..|events| - 1]), text, at).0
  }

  class ReplyLatch {
    var recent: seq<Entry>
    ghost var events: seq<Event>

    ghost predicate Valid()
      reads this
    {
      recent == Recent(events)
    }

    constructor ()
      ensures Valid() && events == []
    {
      recent := [];
      events := [];
    }

    method Clear()
      requires Valid()
      modifies this
      ensures Valid() && events == old(events) + [Cleared]
    {
      recent := [];
      events := events + [Cleared];
    }

    method WouldTrigger(reply: string, now: Time) returns (trips: bool)
      requires Valid()
      ensures trips == RecordStep(Recent(events), reply, now).1
      ensures Ordered(events, now) ==> (trips <==> Trips(events, reply, now))
    {
      hide Ordered, Trips, NormalizeShort, NearIdentical, CountNear, CountKeptNear, Kept;
      if Ordered(events, now) { TripsExactly(events, reply, now); }
      match NormalizeShort(reply) {
        case None => return false;
        case Some(norm) =>
          CountsAgree(recent, norm, now);
          return CountKeptNear(recent, norm, now) + 1 >= LATCH_COUNT;
      }
    }

    method Record(reply: string, now: Time) returns (trips: bool)
      requires Valid()
      modifies this
      ensures Valid() && events == old(events) + [Reply(reply, now)]
      ensures trips == RecordStep(Recent(old(events)), reply, now).1
      ensures Ordered(old(events), now) ==> (trips <==> Trips(old(events), reply, now))
    {
      hide Ordered, Trips, NormalizeShort, NearIdentical, CountNear, CountKeptNear, Kept;
      if Ordered(events, now) { TripsExactly(events, reply, now); }
      events := events + [Reply(reply, now)];
      match NormalizeShort(reply) {
        case None =>
          recent := [];
          trips := false;
        case Some(norm) =>
          recent := Kept(recent, now);
          var matching := CountNear(recent, norm);
          recent := recent + [Entry(norm, now)];
          trips := matching + 1 >= LATCH_COUNT;
      }
    }
  }

  lemma {:induction false} CountsAgree(entries: seq<Entry>, norm: string, now: Time)
    ensures CountKeptNear(entries, norm, now) == CountNear(Kept(entries, now), norm)
  {
    hide NearIdentical, SaturatingSince;
    if entries != [] {
      var k := |entries| - 1;
      CountsAgree(entries[..k], norm, now);
      var kept := Kept(entries[..k], now);
      CountNearSnoc(kept, entries[k], norm);
      assert kept + [] == kept;
    }
  }

  lemma CountNearSnoc(entries: seq<Entry>, e: Entry, norm: string)
    ensures CountNear(entries + [e], norm) == CountNear(entries, norm) + (if NearIdentical(e.text, norm) then 1 else 0)
  {
    hide NearIdentical;
    assert (entries + [e])[..|entries|] == entries;
  }

  lemma CountKeptNearSnoc(entries: seq<Entry>, e: Entry, norm: string, now: Time)
    ensures CountKeptNear(entries + [e], norm, now) == CountKeptNear(entries, norm, now)
      + (if SaturatingSince(now, e.at) <= LATCH_WINDOW && NearIdentical(e.text, norm) then 1 else 0)
  {
    hide NearIdentical;
    assert (entries + [e])[..|entries|] == entries;
  }

  // ---------- Pruning and the meaning of an answer ----------

  /** Every short reply since the last clear and the last long or empty reply, none forgotten. */
  function History(events: seq<Event>): seq<Entry> {
    if events == [] then []
    else match events[|events| - 1]
      case Cleared => []
      case Reply(text, at) =>
        match NormalizeShort(text)
        case None => []
        case Some(norm) => History(events[..|events| - 1]) + [Entry(norm, at)]
  }

  /** The clock never runs backwards, and has reached `now`. */
  ghost predicate Ordered(events: seq<Event>, now: Time) {
    && (forall i, j :: 0 <= i < j < |events| && events[i].Reply? && events[j].Reply? ==> events[i].at <= events[j].at)
    && (forall i :: 0 <= i < |events| && events[i].Reply? ==> events[i].at <= now)
  }

  lemma {:induction false} KeptTwice(entries: seq<Entry>, earlier: Time, now: Time)
    requires earlier <= now
    ensures Kept(Kept(entries, earlier), now) == Kept(entries, now)
  {
    if entries != [] {
      var k := |entries| - 1;
      KeptTwice(entries[..k], earlier, now);
      var kept := Kept(entries[..k], earlier);
      assert (kept + [entries[k]])[..|kept|] == kept;
      assert kept + [] == kept;
    }
  }

  /** Pruning never shows: what the window still holds is what the full history holds. */
  lemma {:induction false} PruningIsInvisible(events: seq<Event>, now: Time)
    requires Ordered(events, now)
    ensures Kept(Recent(events), now) == Kept(History(events), now)
  {
    hide NormalizeShort, NearIdentical, CountNear, Kept;
    if events != [] {
      var k := |events| - 1;
      var last := events[k];
      if last.Reply? && NormalizeShort(last.text).Some? {
        PruningIsInvisible(events[..k], now);
        KeptTwice(Recent(events[..k]), last.at, now);
        var e := Entry(NormalizeShort(last.text).value, last.at);
        KeptSnoc(Kept(Recent(events[..k]), last.at), e, now);
        KeptSnoc(History(events[..k]), e, now);
      }
    }
  }

  lemma KeptSnoc(entries: seq<Entry>, e: Entry, now: Time)
    ensures Kept(entries + [e], now) ==
      Kept(entries, now) + (if SaturatingSince(now, e.at) <= LATCH_WINDOW then [e] else [])
  {
    assert (entries + [e])[..|entries|] == entries;
  }

  /** A reply that counts: something is left of it once normalised, and at most 120 characters. */
  predicate IsShort(text: string) {
    1 <= |Normalize(text)| <= 120
  }

  lemma ShortExactly(text: string)
    ensures NormalizeShort(text) == if IsShort(text) then Some(Normalize(text)) else None
  {
    hide Normalize;
  }

  predicate IsShortReply(e: Event) {
    e.Reply? && IsShort(e.text)
  }

  /** Event `i` counts towards the answer for `norm` at `now`. */
  ghost predicate Supports(events: seq<Event>, i: int, norm: string, now: Time) {
    && 0 <= i < |events|
    && (forall k :: i <= k < |events| ==> IsShortReply(events[k]))
    && now - events[i].at <= 90 * 1_000_000_000
    && Lev(Normalize(events[i].text), norm) <= 2
  }

  lemma SupportsShorter(events: seq<Event>, i: int, norm: string, now: Time)
    requires events != [] && IsShortReply(events[|events| - 1]) && i < |events| - 1
    ensures Supports(events, i, norm, now) <==> Supports(events[..|events| - 1], i, norm, now)
  {
    var front := events[..|events| - 1];
    if Supports(front, i, norm, now) {
      forall k | i <= k < |events| ensures IsShortReply(events[k]) {
        if k < |front| { assert front[k] == events[k]; }
      }
    }
    if Supports(events, i, norm, now) {
      forall k | i <= k < |front| ensures IsShortReply(front[k]) { assert front[k] == events[k]; }
    }
  }

  ghost predicate OneSupports(events: seq<Event>, norm: string, now: Time) {
    exists i :: Supports(events, i, norm, now)
  }

  ghost predicate TwoSupport(events: seq<Event>, norm: string, now: Time) {
    exists i, j :: i < j && Supports(events, i, norm, now) && Supports(events, j, norm, now)
  }

  ghost predicate Trips(events: seq<Event>, reply: string, now: Time) {
    IsShort(reply) && TwoSupport(events, Normalize(reply), now)
  }

  /** The count is at least one, or two, exactly when so many events support the answer. */
  lemma {:induction false} CountIsSupport(events: seq<Event>, norm: string, now: Time)
    requires Ordered(events, now) && norm == Normalize(norm)
    ensures CountKeptNear(History(events), norm, now) >= 1 <==> OneSupports(events, norm, now)
    ensures CountKeptNear(History(events), norm, now) >= 2 <==> TwoSupport(events, norm, now)
  {
    if events != [] {
      var k := |events| - 1;
      if IsShortReply(events[k]) {
        CountIsSupport(events[..k], norm, now);
        CountTail(events, norm, now);
        SupportTail(events, norm, now);
      } else {
        forall i ensures !Supports(events, i, norm, now) {
          assert !IsShortReply(events[k]);
        }
      }
    }
  }

  lemma SupportTail(events: seq<Event>, norm: string, now: Time)
    requires events != [] && IsShortReply(events[|events| - 1])
    ensures var front, last := events[..|events| - 1], Supports(events, |events| - 1, norm, now);
      && (OneSupports(events, norm, now) <==> OneSupports(front, norm, now) || last)
      && (TwoSupport(events, norm, now) <==> TwoSupport(front, norm, now) || (last && OneSupports(front, norm, now)))
  {
    var k := |events| - 1;
    forall i | i < k ensures Supports(events, i, norm, now) <==> Supports(events[..k], i, norm, now) {
      SupportsShorter(events, i, norm, now);
    }
  }

  lemma ShortReplyIsNear(text: string, norm: string)
    requires NormalizeShort(text).Some? && norm == Normalize(norm)
    ensures NearIdentical(NormalizeShort(text).value, norm) <==> Lev(NormalizeShort(text).value, norm) <= 2
  {
    hide Normalize, NearIdentical, Lev;
    NormalizedPrefilterIsLossless(text, norm);
  }

  lemma CountTail(events: seq<Event>, norm: string, now: Time)
    requires Ordered(events, now) && events != [] && IsShortReply(events[|events| - 1]) && norm == Normalize(norm)
    ensures CountKeptNear(History(events), norm, now) ==
      CountKeptNear(History(events[..|events| - 1]), norm, now)
      + (if Supports(events, |events| - 1, norm, now) then 1 else 0)
  {
    hide Normalize, NormalizeShort, IsShort, NearIdentical, Lev, CountKeptNear;
    var front, last := events[..|events| - 1], events[|events| - 1];
    ShortExactly(last.text);
    CountKeptNearSnoc(History(front), Entry(NormalizeShort(last.text).value, last.at), norm, now);
    ShortReplyIsNear(last.text, norm);
  }

  /**
   The latch trips on a reply exactly when two earlier short replies, with no
   clear and no long or empty reply since, are within the window and
   at most two edits away from it, all of them normalised.
   */
  lemma TripsExactly(events: seq<Event>, reply: string, now: Time)
    requires Ordered(events, now)
    ensures RecordStep(Recent(events), reply, now).1 <==> Trips(events, reply, now)
  {
    hide NormalizeShort, IsShort, Lev, NearIdentical, Normalize;
    ShortExactly(reply);
    if NormalizeShort(reply).Some? {
      var norm := NormalizeShort(reply).value;
      PruningIsInvisible(events, now);
      CountsAgree(History(events), norm, now);
      NormalizeFixpoint(reply);
      CountIsSupport(events, norm, now);
    }
  }
}
