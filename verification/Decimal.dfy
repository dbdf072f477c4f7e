/** Decimal numerals: how Rust prints an unsigned integer, and how it reads one back. */
module Decimal {
  import opened Text

  function Digit(n: nat): (c: char)
    requires n < 10
    ensures IsAsciiDigit(c)
  {
    ('0' as int + n) as char
  }

  function DigitValue(c: char): (n: nat)
    requires IsAsciiDigit(c)
    ensures n < 10 && Digit(n) == c
  {
    c as int - '0' as int
  }

  predicate AllDigits(s: string) {
    forall c <- s :: IsAsciiDigit(c)
  }

  /** `{}` of an unsigned integer. */
  function ToString(n: nat): (s: string)
    ensures |s| > 0 && AllDigits(s)
  {
    if n < 10 then [Digit(n)] else ToString(n / 10) + [Digit(n % 10)]
  }

  function Value(s: string): nat
    requires AllDigits(s)
  {
    if s == [] then 0 else 10 * Value(s[..|s| - 1]) + DigitValue(s[|s| - 1])
  }

  lemma {:induction false} ValueOfToString(n: nat)
    ensures Value(ToString(n)) == n
  {
    if n >= 10 {
      ValueOfToString(n / 10);
      var s := ToString(n);
      assert s[..|s| - 1] == ToString(n / 10);
    }
  }

  /** Different numbers never print alike. */
  lemma ToStringInjective(m: nat, n: nat)
    requires ToString(m) == ToString(n)
    ensures m == n
  {
    ValueOfToString(m);
    ValueOfToString(n);
  }

  // ---------- Zero-padded, fixed-width numerals ----------

  /** Ten to the power `w`. */
  function Pow10(w: nat): (p: nat)
    ensures p > 0
  {
    if w == 0 then 1 else 10 * Pow10(w - 1)
  }

  function Zeros(n: nat): (s: string)
    ensures |s| == n && AllDigits(s)
  {
    if n == 0 then [] else ['0'] + Zeros(n - 1)
  }

  /** `{:0w}` of an unsigned integer: zeros on the left, up to `w` characters. */
  function Padded(n: nat, w: nat): (s: string)
    ensures |s| >= w && |s| > 0 && AllDigits(s)
  {
    var digits := ToString(n);
    Zeros(if |digits| < w then w - |digits| else 0) + digits
  }

  lemma {:induction false} ValueIgnoresZeros(k: nat, s: string)
    requires AllDigits(s)
    ensures Value(Zeros(k) + s) == Value(s)
  {
    if s != [] {
      var t := Zeros(k) + s;
      assert t[..|t| - 1] == Zeros(k) + s[..|s| - 1];
      ValueIgnoresZeros(k, s[..|s| - 1]);
    } else if k > 0 {
      ZerosSnoc(k);
      assert Zeros(k) + s == Zeros(k);
      assert Zeros(k)[..k - 1] == Zeros(k - 1) + [];
      ValueIgnoresZeros(k - 1, []);
    }
  }

  lemma {:induction false} ZerosSnoc(k: nat)
    requires k > 0
    ensures Zeros(k) == Zeros(k - 1) + ['0']
  {
    if k > 1 { ZerosSnoc(k - 1); }
  }

  lemma PaddedValue(n: nat, w: nat)
    ensures Value(Padded(n, w)) == n
  {
    ValueOfToString(n);
    ValueIgnoresZeros(if |ToString(n)| < w then w - |ToString(n)| else 0, ToString(n));
  }

  /** A number below `10^w` is the one that prints with at most `w` digits. */
  lemma {:induction false} DigitCount(n: nat, w: nat)
    requires w > 0
    ensures |ToString(n)| <= w <==> n < Pow10(w)
  {
    if n >= 10 && w > 1 {
      DigitCount(n / 10, w - 1);
    }
  }

  /** Counting past a run of nines: the longer numeral starts with 1, the shorter with 9. */
  lemma {:induction false} LongerSuccessor(n: nat)
    requires |ToString(n)| != |ToString(n + 1)|
    ensures ToString(n)[0] == '9' && ToString(n + 1)[0] == '1'
  {
    if n >= 10 {
      assert n % 10 == 9;
      LongerSuccessor(n / 10);
    }
  }

  // ---------- Dictionary order ----------

  /** Strict dictionary order on strings. */
  predicate LexLess(a: string, b: string) {
    if b == [] then false
    else if a == [] then true
    else if a[0] != b[0] then a[0] < b[0]
    else LexLess(a[1..], b[1..])
  }

  lemma {:induction false} LexPrefix(p: string, a: string, b: string)
    ensures LexLess(p + a, p + b) <==> LexLess(a, b)
  {
    if p == [] {
      assert p + a == a && p + b == b;
    } else {
      LexPrefix(p[1..], a, b);
      assert (p + a)[1..] == p[1..] + a && (p + b)[1..] == p[1..] + b;
    }
  }

  /** Behind digit blocks of equal length and different value, the blocks decide. */
  lemma {:induction false} LexOfDigits(x: string, y: string, a: string, b: string)
    requires |x| == |y| && AllDigits(x) && AllDigits(y)
    ensures LexLess(x + a, y + b) <==> Value(x) < Value(y) || (Value(x) == Value(y) && LexLess(a, b))
    decreases |x|
  {
    if x == [] {
      assert x + a == a && y + b == b;
    } else {
      var k := |x| - 1;
      assert x + a == x[..k] + ([x[k]] + a) && y + b == y[..k] + ([y[k]] + b);
      LexOfDigits(x[..k], y[..k], [x[k]] + a, [y[k]] + b);
      assert ([x[k]] + a)[1..] == a && ([y[k]] + b)[1..] == b;
      assert DigitValue(x[k]) < DigitValue(y[k]) <==> x[k] < y[k];
    }
  }
}
