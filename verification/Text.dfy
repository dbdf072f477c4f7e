/**
 Character classes and trimming, as Rust's `char` and `str` methods define them.
 `Solid` keeps the non-whitespace characters of a text: it is what the stream
 cutters must neither lose nor repeat.
 */
module Text {

  /** Rust's `char::is_whitespace`: the Unicode White_Space property. */
  predicate IsWhitespace(c: char) {
    || '\t' <= c <= '\r'
    || c == ' '
    || c == '\U{0085}'
    || c == '\U{00A0}'
    || c == '\U{1680}'
    || '\U{2000}' <= c <= '\U{200A}'
    || c == '\U{2028}'
    || c == '\U{2029}'
    || c == '\U{202F}'
    || c == '\U{205F}'
    || c == '\U{3000}'
  }

  predicate IsAsciiDigit(c: char) {
    '0' <= c <= '9'
  }

  predicate IsAsciiAlphanumeric(c: char) {
    'a' <= c <= 'z' || 'A' <= c <= 'Z' || IsAsciiDigit(c)
  }

  function ToAsciiLowercase(c: char): char {
    if 'A' <= c <= 'Z' then (c as int + 32) as char else c
  }

  function TrimStart(s: string): string {
    if s != [] && IsWhitespace(s[0]) then TrimStart(s[1..]) else s
  }

  function TrimEnd(s: string): string {
    if s != [] && IsWhitespace(s[|s| - 1]) then TrimEnd(s[..|s| - 1]) else s
  }

  function Trim(s: string): string {
    TrimEnd(TrimStart(s))
  }

  function Solid(s: string): string {
    if s == [] then []
    else if IsWhitespace(s[0]) then Solid(s[1..])
    else [s[0]] + Solid(s[1..])
  }

  lemma {:induction false} SolidConcat(a: string, b: string)
    ensures Solid(a + b) == Solid(a) + Solid(b)
  {
    if a == [] {
      assert a + b == b;
    } else {
      SolidConcat(a[1..], b);
      assert (a + b)[1..] == a[1..] + b;
    }
  }

  lemma {:induction false} TrimKeepsSolid(s: string)
    ensures Solid(Trim(s)) == Solid(s)
  {
    TrimStartKeepsSolid(s);
    TrimEndKeepsSolid(TrimStart(s));
  }

  lemma {:induction false} TrimStartKeepsSolid(s: string)
    ensures Solid(TrimStart(s)) == Solid(s)
  {
    if s != [] && IsWhitespace(s[0]) { TrimStartKeepsSolid(s[1..]); }
  }

  lemma {:induction false} TrimEndKeepsSolid(s: string)
    ensures Solid(TrimEnd(s)) == Solid(s)
  {
    if s != [] && IsWhitespace(s[|s| - 1]) {
      TrimEndKeepsSolid(s[..|s| - 1]);
      SolidConcat(s[..|s| - 1], s[|s| - 1..]);
      assert s == s[..|s| - 1] + s[|s| - 1..];
    }
  }

  /** A trimmed text is empty exactly when it had nothing but whitespace. */
  lemma TrimIsEmpty(s: string)
    ensures Trim(s) == [] <==> Solid(s) == []
  {
    TrimKeepsSolid(s);
    TrimStartEnds(s);
    TrimEndEnds(TrimStart(s));
    var t := Trim(s);
    if t != [] {
      assert t == t[..|t| - 1] + t[|t| - 1..];
      SolidConcat(t[..|t| - 1], t[|t| - 1..]);
    }
  }

  lemma {:induction false} TrimStartEnds(s: string)
    ensures TrimStart(s) == [] || !IsWhitespace(TrimStart(s)[0])
  {
    if s != [] && IsWhitespace(s[0]) { TrimStartEnds(s[1..]); }
  }

  lemma {:induction false} TrimEndEnds(s: string)
    ensures TrimEnd(s) == [] || !IsWhitespace(TrimEnd(s)[|TrimEnd(s)| - 1])
    ensures TrimEnd(s) <= s
  {
    if s != [] && IsWhitespace(s[|s| - 1]) { TrimEndEnds(s[..|s| - 1]); }
  }

  /** A text with no whitespace at either end is left alone. */
  lemma TrimNoop(s: string)
    requires s == [] || (!IsWhitespace(s[0]) && !IsWhitespace(s[|s| - 1]))
    ensures Trim(s) == s
  {
  }

  lemma {:induction false} SolidOfSolid(s: string)
    requires forall c <- s :: !IsWhitespace(c)
    ensures Solid(s) == s
  {
    if s != [] { SolidOfSolid(s[1..]); }
  }

  /** Trimming takes the whitespace off both ends, all of it and nothing else. */
  lemma TrimExactly(s: string) returns (before: string, after: string)
    ensures s == before + Trim(s) + after
    ensures (forall c <- before :: IsWhitespace(c)) && (forall c <- after :: IsWhitespace(c))
    ensures Trim(s) != [] ==> !IsWhitespace(Trim(s)[0]) && !IsWhitespace(Trim(s)[|Trim(s)| - 1])
  {
    hide IsWhitespace;
    before := TrimStartTakes(s);
    after := TrimEndTakes(TrimStart(s));
    TrimStartEnds(s);
    TrimEndEnds(TrimStart(s));
    assert before + (Trim(s) + after) == before + Trim(s) + after;
  }

  lemma {:induction false} TrimStartTakes(s: string) returns (before: string)
    ensures s == before + TrimStart(s) && forall c <- before :: IsWhitespace(c)
  {
    hide IsWhitespace;
    if s != [] && IsWhitespace(s[0]) {
      var rest := TrimStartTakes(s[1..]);
      before := [s[0]] + rest;
    } else {
      before := [];
    }
  }

  lemma {:induction false} TrimEndTakes(s: string) returns (after: string)
    ensures s == TrimEnd(s) + after && forall c <- after :: IsWhitespace(c)
  {
    hide IsWhitespace;
    if s != [] && IsWhitespace(s[|s| - 1]) {
      var rest := TrimEndTakes(s[..|s| - 1]);
      after := rest + [s[|s| - 1]];
    } else {
      after := [];
    }
  }

  // ---------- Joining ----------

  /** Rust's `join`. */
  function JoinWith(items: seq<string>, sep: string): string {
    if items == [] then ""
    else if |items| == 1 then items[0]
    else items[0] + sep + JoinWith(items[1..], sep)
  }

  /** Where item `k` starts. */
  function StartOf(items: seq<string>, sep: string, k: nat): nat
    requires k < |items|
  {
    if k == 0 then 0 else StartOf(items, sep, k - 1) + |items[k - 1]| + |sep|
  }

  lemma {:induction false} StartOfRest(items: seq<string>, sep: string, k: nat)
    requires 0 < k < |items|
    ensures StartOf(items, sep, k) == |items[0]| + |sep| + StartOf(items[1..], sep, k - 1)
  {
    if k > 1 { StartOfRest(items, sep, k - 1); }
  }

  /** Every item stands whole in its place, with the separator between it and the next, and nothing else. */
  lemma {:induction false} JoinPlaces(items: seq<string>, sep: string, k: nat)
    requires k < |items|
    ensures StandsIn(items, sep, k, JoinWith(items, sep), StartOf(items, sep, k))
    decreases |items|
  {
    if k == 0 {
      FirstPlace(items, sep);
    } else {
      hide StandsIn;
      JoinPlaces(items[1..], sep, k - 1);
      StartOfRest(items, sep, k);
      LaterPlace(items, sep, k, JoinWith(items[1..], sep), StartOf(items[1..], sep, k - 1));
    }
  }

  /** Item `k` starts there, whole, and then comes the separator, or the end behind the last. */
  predicate StandsIn(items: seq<string>, sep: string, k: nat, joined: string, start: nat)
    requires k < |items|
  {
    var end := start + |items[k]|;
    && end <= |joined| && joined[start..end] == items[k]
    && (if k + 1 < |items| then end + |sep| <= |joined| && joined[end..end + |sep|] == sep else end == |joined|)
  }

  lemma FirstPlace(items: seq<string>, sep: string)
    requires items != []
    ensures StandsIn(items, sep, 0, JoinWith(items, sep), 0)
  {
  }

  lemma LaterPlace(items: seq<string>, sep: string, k: nat, rest: string, start: nat)
    requires 0 < k < |items| && StandsIn(items[1..], sep, k - 1, rest, start)
    ensures StandsIn(items, sep, k, items[0] + sep + rest, |items[0]| + |sep| + start)
  {
    var head, end := items[0] + sep, start + |items[k]|;
    ShiftedSlice(head, rest, start, end);
    if k + 1 < |items| { ShiftedSlice(head, rest, end, end + |sep|); }
  }

  lemma ShiftedSlice(head: string, rest: string, from: nat, to: nat)
    requires from <= to <= |rest|
    ensures (head + rest)[|head| + from..|head| + to] == rest[from..to]
  {
  }

  /** The characters that count as whitespace, by their codes. */
  lemma WhitespaceExactly(c: char)
    ensures IsWhitespace(c) <==>
      var n := c as int;
      || 9 <= n <= 13 || n == 32 || n == 133 || n == 160 || n == 5760 || 8192 <= n <= 8202
      || n == 8232 || n == 8233 || n == 8239 || n == 8287 || n == 12288
  {
  }
}
