/**
 Levenshtein distance: the recursive definition, its metric laws, what it
 means (the fewest single-character edits from one text to the other), and the
 two in-place, two-row dynamic programs that compute it.
 */
module EditDistance {

  function Min(x: nat, y: nat): nat {
    if x <= y then x else y
  }

  function Gap(x: nat, y: nat): nat {
    if x <= y then y - x else x - y
  }

  function Cost(x: char, y: char): nat {
    if x == y then 0 else 1
  }

  function Front(s: string): string
    requires s != []
  {
    s[..|s| - 1]
  }

  function Last(s: string): char
    requires s != []
  {
    s[|s| - 1]
  }

  function Lev(a: string, b: string): nat
    decreases |a| + |b|
  {
    if a == [] then |b|
    else if b == [] then |a|
    else Min(Min(Lev(Front(a), b) + 1, Lev(a, Front(b)) + 1), Lev(Front(a), Front(b)) + Cost(Last(a), Last(b)))
  }

  // ---------- Metric laws ----------

  lemma {:induction false} LevBounds(a: string, b: string)
    ensures Gap(|a|, |b|) <= Lev(a, b)
    ensures Lev(a, b) <= |a| || Lev(a, b) <= |b|
    decreases |a| + |b|
  {
    if a != [] && b != [] {
      LevBounds(Front(a), b);
      LevBounds(a, Front(b));
      LevBounds(Front(a), Front(b));
    }
  }

  lemma {:induction false} LevZero(a: string, b: string)
    ensures Lev(a, b) == 0 <==> a == b
    decreases |a| + |b|
  {
    if a != [] && b != [] {
      LevZero(Front(a), Front(b));
      assert a == Front(a) + [Last(a)] && b == Front(b) + [Last(b)];
    }
  }

  lemma {:induction false} LevSymmetric(a: string, b: string)
    ensures Lev(a, b) == Lev(b, a)
    decreases |a| + |b|
  {
    if a != [] && b != [] {
      LevSymmetric(Front(a), b);
      LevSymmetric(a, Front(b));
      LevSymmetric(Front(a), Front(b));
    }
  }

  /** Dropping the last character of one text moves the distance by at most one. */
  lemma LevDrop(a: string, b: string)
    requires a != []
    ensures Lev(a, b) <= Lev(Front(a), b) + 1
  {
  }

  lemma {:induction false} LevTriangle(a: string, b: string, c: string)
    ensures Lev(a, c) <= Lev(a, b) + Lev(b, c)
    decreases |a| + |b| + |c|
  {
    if a == [] || b == [] || c == [] {
      LevBounds(a, b);
      LevBounds(b, c);
      LevBounds(a, c);
    } else if Lev(a, b) == Lev(Front(a), b) + 1 {
      LevTriangle(Front(a), b, c);
    } else if Lev(b, c) == Lev(b, Front(c)) + 1 {
      LevTriangle(a, b, Front(c));
    } else if Lev(a, b) == Lev(a, Front(b)) + 1 {
      if Lev(b, c) == Lev(Front(b), c) + 1 { LevTriangle(a, Front(b), c); }
      else { LevTriangle(a, Front(b), Front(c)); }
    } else if Lev(b, c) == Lev(Front(b), c) + 1 {
      LevTriangle(Front(a), Front(b), c);
    } else {
      LevTriangle(Front(a), Front(b), Front(c));
    }
  }

  // ---------- What the distance means ----------

  /** `t` is `s` with one character inserted at `i`. */
  ghost predicate InsertedAt(s: string, t: string, i: nat) {
    i < |t| && s == t[..i] + t[i + 1..]
  }

  /** `t` is `s` with the character at `i` replaced. */
  ghost predicate ReplacedAt(s: string, t: string, i: nat) {
    i < |s| == |t| && s[..i] == t[..i] && s[i + 1..] == t[i + 1..]
  }

  /** One insertion, deletion or replacement. */
  ghost predicate OneEdit(s: string, t: string) {
    exists i: nat :: InsertedAt(s, t, i) || InsertedAt(t, s, i) || ReplacedAt(s, t, i)
  }

  /** A list of texts, each one edit away from the one before. */
  ghost predicate EditPath(path: seq<string>) {
    && path != []
    && forall k {:trigger path[k]} :: 0 < k < |path| ==> OneEdit(path[k - 1], path[k])
  }

  /** Texts that differ only before a shared ending are no further apart than those beginnings. */
  lemma {:induction false} LevSharedEnd(a: string, b: string, end: string)
    ensures Lev(a + end, b + end) <= Lev(a, b)
    decreases |end|
  {
    if end == [] {
      assert a + end == a && b + end == b;
    } else {
      hide Lev;
      LevSharedLast(a, b, end[0]);
      LevSharedEnd(a + [end[0]], b + [end[0]], end[1..]);
      OneOnTheLeft(a, end);
      OneOnTheLeft(b, end);
    }
  }

  lemma OneOnTheLeft(a: string, end: string)
    requires end != []
    ensures a + [end[0]] + end[1..] == a + end
  {
  }

  lemma LevSharedLast(a: string, b: string, x: char)
    ensures Lev(a + [x], b + [x]) <= Lev(a, b)
  {
    assert Front(a + [x]) == a && Front(b + [x]) == b;
  }

  lemma OneEditIsNear(s: string, t: string)
    requires OneEdit(s, t)
    ensures Lev(s, t) <= 1
  {
    var i: nat :| InsertedAt(s, t, i) || InsertedAt(t, s, i) || ReplacedAt(s, t, i);
    if InsertedAt(s, t, i) {
      InsertionIsNear(s, t, i);
    } else if InsertedAt(t, s, i) {
      InsertionIsNear(t, s, i);
      LevSymmetric(s, t);
    } else {
      ReplacementIsNear(s, t, i);
    }
  }

  lemma ReplacementIsNear(s: string, t: string, i: nat)
    requires ReplacedAt(s, t, i)
    ensures Lev(s, t) <= 1
  {
    var x, y := s[..i + 1], t[..i + 1];
    assert Front(x) == s[..i] && Front(y) == t[..i];
    LastIsReplaced(x, y);
    LevSharedEnd(x, y, s[i + 1..]);
    hide Lev;
    assert s == x + s[i + 1..] && t == y + s[i + 1..];
  }

  lemma LastIsReplaced(x: string, y: string)
    requires x != [] && y != [] && Front(x) == Front(y)
    ensures Lev(x, y) <= 1
  {
    LevZero(Front(x), Front(y));
  }

  lemma InsertionIsNear(s: string, t: string, i: nat)
    requires InsertedAt(s, t, i)
    ensures Lev(s, t) <= 1
  {
    LevZero(t[..i], t[..i]);
    LevSymmetric(t[..i], t[..i + 1]);
    assert Front(t[..i + 1]) == t[..i];
    LevDrop(t[..i + 1], t[..i]);
    LevSharedEnd(t[..i], t[..i + 1], t[i + 1..]);
    assert t == t[..i + 1] + t[i + 1..];
  }

  /** No path is shorter than the distance between its ends. */
  lemma {:induction false} PathIsNoShorter(path: seq<string>)
    requires EditPath(path)
    ensures Lev(path[0], path[|path| - 1]) < |path|
  {
    var n := |path| - 1;
    if n == 0 {
      LevZero(path[0], path[0]);
    } else {
      PathIsNoShorter(path[..n]);
      OneEditIsNear(path[n - 1], path[n]);
      LevTriangle(path[0], path[n - 1], path[n]);
    }
  }

  /** Every text of a path, with the same ending added. */
  ghost function AppendAll(path: seq<string>, end: string): (r: seq<string>)
    ensures |r| == |path|
  {
    seq(|path|, k requires 0 <= k < |path| => path[k] + end)
  }

  lemma InsertionAppended(s: string, t: string, i: nat, end: string)
    requires InsertedAt(s, t, i)
    ensures InsertedAt(s + end, t + end, i)
  {
    assert (t + end)[..i] + (t + end)[i + 1..] == s + end;
  }

  lemma OneEditAppended(s: string, t: string, end: string)
    requires OneEdit(s, t)
    ensures OneEdit(s + end, t + end)
  {
    var i: nat :| InsertedAt(s, t, i) || InsertedAt(t, s, i) || ReplacedAt(s, t, i);
    if InsertedAt(s, t, i) {
      InsertionAppended(s, t, i, end);
    } else if InsertedAt(t, s, i) {
      InsertionAppended(t, s, i, end);
    } else {
      assert (s + end)[i + 1..] == s[i + 1..] + end && (t + end)[i + 1..] == t[i + 1..] + end;
      assert (s + end)[..i] == s[..i] && (t + end)[..i] == t[..i];
      assert ReplacedAt(s + end, t + end, i);
    }
  }

  lemma AppendAllIsPath(path: seq<string>, end: string)
    requires EditPath(path)
    ensures EditPath(AppendAll(path, end))
  {
    var r := AppendAll(path, end);
    forall k | 0 < k < |r| ensures OneEdit(r[k - 1], r[k]) {
      OneEditAppended(path[k - 1], path[k], end);
    }
  }

  ghost predicate PathBetween(path: seq<string>, a: string, b: string) {
    EditPath(path) && path[0] == a && path[|path| - 1] == b
  }

  lemma StepBefore(a: string, path: seq<string>, b: string)
    requires a != [] && PathBetween(path, Front(a), b)
    ensures PathBetween([a] + path, a, b)
  {
    assert InsertedAt(Front(a), a, |a| - 1);
    assert OneEdit(a, Front(a));
  }

  lemma StepAfter(path: seq<string>, a: string, b: string, c: string)
    requires PathBetween(path, a, b) && OneEdit(b, c)
    ensures PathBetween(path + [c], a, c)
  {
    hide OneEdit;
  }

  lemma EditOfLast(b: string, x: char)
    requires b != []
    ensures OneEdit(Front(b), b) && OneEdit(Front(b) + [x], b)
  {
    assert InsertedAt(Front(b), b, |b| - 1);
    assert ReplacedAt(Front(b) + [x], b, |b| - 1);
  }

  /** A path that follows the recursion of `Lev`, one text per edit. */
  lemma {:induction false} ShortestPath(a: string, b: string) returns (path: seq<string>)
    ensures PathBetween(path, a, b) && |path| == Lev(a, b) + 1
    decreases |a| + |b|
  {
    hide OneEdit;
    if a == [] && b == [] {
      path := [a];
    } else if b == [] || (a != [] && Lev(a, b) == Lev(Front(a), b) + 1) {
      path := ShortestPath(Front(a), b);
      StepBefore(a, path, b);
      path := [a] + path;
    } else if a == [] || Lev(a, b) == Lev(a, Front(b)) + 1 {
      path := ShortestPath(a, Front(b));
      EditOfLast(b, Last(b));
      StepAfter(path, a, Front(b), b);
      path := path + [b];
    } else {
      path := ShortestPath(Front(a), Front(b));
      path := StepLast(path, a, b);
    }
  }

  lemma AppendedPath(path: seq<string>, a: string, b: string, end: string)
    requires PathBetween(path, a, b)
    ensures PathBetween(AppendAll(path, end), a + end, b + end)
  {
    AppendAllIsPath(path, end);
  }

  /** The last characters, kept while the rest is edited, and then replaced if they differ. */
  lemma StepLast(path: seq<string>, a: string, b: string) returns (longer: seq<string>)
    requires a != [] && b != [] && PathBetween(path, Front(a), Front(b))
    ensures PathBetween(longer, a, b) && |longer| == |path| + Cost(Last(a), Last(b))
  {
    hide OneEdit, PathBetween;
    var end := [Last(a)];
    AppendedPath(path, Front(a), Front(b), end);
    longer := AppendAll(path, end);
    assert a == Front(a) + end && b == Front(b) + [Last(b)];
    if Last(a) != Last(b) {
      EditOfLast(b, Last(a));
      StepAfter(longer, a, Front(b) + end, b);
      longer := longer + [b];
    }
  }

  /** The distance is at most `n` exactly when at most `n` single edits lead from `a` to `b`. */
  lemma LevIsFewestEdits(a: string, b: string, n: nat)
    ensures Lev(a, b) <= n <==> exists path: seq<string> :: PathBetween(path, a, b) && |path| <= n + 1
  {
    if Lev(a, b) <= n {
      var path := ShortestPath(a, b);
    }
    if path: seq<string> :| PathBetween(path, a, b) && |path| <= n + 1 {
      PathIsNoShorter(path);
    }
  }

  // ---------- The two programs ----------

  /** One cell of the table: the distance between the first `i` and the first `j` characters. */
  ghost function Cell(a: string, i: nat, b: string, j: nat): nat
    requires i <= |a| && j <= |b|
  {
    Lev(a[..i], b[..j])
  }

  lemma Borders(a: string, b: string)
    ensures forall j: nat {:trigger Cell(a, 0, b, j)} :: j <= |b| ==> Cell(a, 0, b, j) == j
    ensures forall i: nat {:trigger Cell(a, i, b, 0)} :: i <= |a| ==> Cell(a, i, b, 0) == i
    ensures Cell(a, |a|, b, |b|) == Lev(a, b)
  {
    assert a[..|a|] == a && b[..|b|] == b;
  }

  lemma CellRule(a: string, i: nat, b: string, j: nat)
    requires 0 < i <= |a| && 0 < j <= |b|
    ensures Cell(a, i, b, j) ==
      Min(Min(Cell(a, i - 1, b, j) + 1, Cell(a, i, b, j - 1) + 1), Cell(a, i - 1, b, j - 1) + Cost(a[i - 1], b[j - 1]))
  {
    assert Front(a[..i]) == a[..i - 1] && Front(b[..j]) == b[..j - 1];
  }

  lemma EmptyDistance(a: string, b: string)
    ensures a == [] ==> Lev(a, b) == |b|
    ensures b == [] ==> Lev(a, b) == |a|
  {
  }

  /** `edit_distance` of the reply latch: two rows, swapped after each character of `a`. */
  method EditDistance(a: string, b: string) returns (distance: nat)
    ensures distance == Lev(a, b)
  {
    hide Cell, Lev, Min, Cost;
    EmptyDistance(a, b);
    var m, n := |a|, |b|;
    if m == 0 { return n; }
    if n == 0 { return m; }
    Borders(a, b);
    var prev := new nat[n + 1](j => j);
    var cur := new nat[n + 1](_ => 0);
    for i := 1 to m + 1
      invariant prev != cur && prev.Length == cur.Length == n + 1 && fresh(prev) && fresh(cur)
      invariant forall k :: 0 <= k <= n ==> prev[k] == Cell(a, i - 1, b, k)
    {
      cur[0] := i;
      for j := 1 to n + 1
        invariant forall k :: 0 <= k <= n ==> prev[k] == Cell(a, i - 1, b, k)
        invariant forall k :: 0 <= k < j ==> cur[k] == Cell(a, i, b, k)
      {
        CellRule(a, i, b, j);
        cur[j] := Min(Min(prev[j] + 1, cur[j - 1] + 1), prev[j - 1] + Cost(a[i - 1], b[j - 1]));
      }
      prev, cur := cur, prev;
    }
    return prev[n];
  }

  /** What `mode_intent` computes: far lengths are answered by their gap alone. */
  function IntentDistance(a: string, b: string): nat {
    if Gap(|a|, |b|) > 1 then Gap(|a|, |b|) else Lev(a, b)
  }

  /** `edit_distance` of `mode_intent`: an early exit, then the same rows counted from zero. */
  method EditDistanceForIntent(a: string, b: string) returns (distance: nat)
    ensures distance == IntentDistance(a, b)
  {
    hide Cell, Lev, Min, Cost, Gap;
    if Gap(|a|, |b|) > 1 {
      return Gap(|a|, |b|);
    }
    Borders(a, b);
    var prev := new nat[|b| + 1](j => j);
    var curr := new nat[|b| + 1](_ => 0);
    for i := 0 to |a|
      invariant prev != curr && prev.Length == curr.Length == |b| + 1 && fresh(prev) && fresh(curr)
      invariant forall k :: 0 <= k <= |b| ==> prev[k] == Cell(a, i, b, k)
    {
      curr[0] := i + 1;
      for j := 0 to |b|
        invariant forall k :: 0 <= k <= |b| ==> prev[k] == Cell(a, i, b, k)
        invariant forall k :: 0 <= k <= j ==> curr[k] == Cell(a, i + 1, b, k)
      {
        CellRule(a, i + 1, b, j + 1);
        curr[j + 1] := Min(Min(prev[j + 1] + 1, curr[j] + 1), prev[j] + Cost(a[i], b[j]));
      }
      prev, curr := curr, prev;
    }
    return prev[|b|];
  }

  /**
   The early exit never changes the one question the fuzzy wake asks, "is the
   distance exactly 1", nor any answer for lengths that differ by at most one.
   */
  lemma EarlyExitIsSafe(a: string, b: string)
    ensures IntentDistance(a, b) == 1 <==> Lev(a, b) == 1
    ensures Gap(|a|, |b|) <= 1 ==> IntentDistance(a, b) == Lev(a, b)
    ensures IntentDistance(a, b) <= Lev(a, b)
  {
    LevBounds(a, b);
  }
}
