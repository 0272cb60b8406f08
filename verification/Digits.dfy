/** Whole numbers in decimal, and strings that are put together from pieces. */
module Digits {

  function Digit(d: nat): char
    requires d < 10
  {
    "0123456789"[d]
  }

  predicate IsDigit(c: char) {
    '0' <= c <= '9'
  }

  function DigitValue(c: char): (d: nat)
    requires IsDigit(c)
    ensures d < 10
  {
    c as int - '0' as int
  }

  lemma DigitRoundTrip(d: nat)
    requires d < 10
    ensures IsDigit(Digit(d)) && DigitValue(Digit(d)) == d
  {
  }

  predicate AllDigits(s: string) {
    forall i :: 0 <= i < |s| ==> IsDigit(s[i])
  }

  function Decimal(n: nat): (s: string)
    ensures |s| >= 1
  {
    if n < 10 then [Digit(n)] else Decimal(n / 10) + [Digit(n % 10)]
  }

  function Parse(s: string): nat
    requires AllDigits(s)
  {
    if s == "" then 0 else 10 * Parse(s[..|s| - 1]) + DigitValue(s[|s| - 1])
  }

  function Zeros(k: nat): (s: string)
    ensures |s| == k && forall i :: 0 <= i < k ==> s[i] == '0'
  {
    seq(k, i => '0')
  }

  /** At least `width` digits, with zeros in front. */
  function Padded(n: nat, width: nat): (s: string)
    ensures |s| == if |Decimal(n)| < width then width else |Decimal(n)|
  {
    if |Decimal(n)| < width then Zeros(width - |Decimal(n)|) + Decimal(n) else Decimal(n)
  }

  lemma {:induction false} ParseDecimal(n: nat)
    ensures AllDigits(Decimal(n)) && Parse(Decimal(n)) == n
  {
    if n >= 10 {
      ParseDecimal(n / 10);
      DigitRoundTrip(n % 10);
      assert Decimal(n)[..|Decimal(n)| - 1] == Decimal(n / 10);
    }
  }

  lemma {:induction false} ParseZeros(k: nat, s: string)
    requires AllDigits(s)
    ensures AllDigits(Zeros(k) + s) && Parse(Zeros(k) + s) == Parse(s)
  {
    if s == "" {
      if k > 0 {
        assert Zeros(k)[..k - 1] == Zeros(k - 1);
        ParseZeros(k - 1, s);
        assert Zeros(k) + s == Zeros(k) && Zeros(k - 1) + s == Zeros(k - 1);
      }
    } else {
      ParseZeros(k, s[..|s| - 1]);
      assert (Zeros(k) + s)[..k + |s| - 1] == Zeros(k) + s[..|s| - 1];
    }
  }

  lemma ParsePadded(n: nat, width: nat)
    ensures AllDigits(Padded(n, width)) && Parse(Padded(n, width)) == n
  {
    hide Parse, Decimal, Zeros;
    ParseDecimal(n);
    if |Decimal(n)| < width {
      ParseZeros(width - |Decimal(n)|, Decimal(n));
    }
  }

  function Pow10(k: nat): (p: nat)
    ensures p >= 1
  {
    if k == 0 then 1 else 10 * Pow10(k - 1)
  }

  /** A number below 10^k has at most k digits, and conversely. */
  lemma {:induction false} DecimalLength(n: nat, k: nat)
    requires k >= 1
    ensures |Decimal(n)| <= k <==> n < Pow10(k)
  {
    if n < 10 {
      assert Pow10(k) == 10 * Pow10(k - 1);
    } else if k > 1 {
      DecimalLength(n / 10, k - 1);
    }
  }

  lemma ParseLast(s: string)
    requires AllDigits(s) && s != ""
    ensures Parse(s) == 10 * Parse(s[..|s| - 1]) + DigitValue(s[|s| - 1])
  {
  }

  lemma {:induction false} ParseAppend(a: string, b: string)
    requires AllDigits(a) && AllDigits(b)
    ensures AllDigits(a + b) && Parse(a + b) == Parse(a) * Pow10(|b|) + Parse(b)
  {
    if b == "" {
      assert a + b == a;
    } else {
      var front := b[..|b| - 1];
      ParseAppend(a, front);
      assert (a + b)[..|a + b| - 1] == a + front;
      ParseLast(a + b);
      ParseLast(b);
      ShiftTen(Parse(a), Pow10(|front|), Parse(front), DigitValue(b[|b| - 1]));
    }
    hide Parse, DigitValue;
  }

  lemma ShiftTen(a: nat, w: nat, f: nat, d: nat)
    ensures 10 * (a * w + f) + d == a * (10 * w) + (10 * f + d)
  {
  }

  /** Cutting at the last separator: what stands on either side of it is determined. */
  lemma SplitAtLast(a: string, x: string, b: string, y: string, sep: char)
    requires a + [sep] + x == b + [sep] + y
    requires sep !in x && sep !in y
    ensures a == b && x == y
  {
    var whole := a + [sep] + x;
    assert whole == b + [sep] + y;
    assert whole[|a|] == sep && whole[|b|] == sep;
    assert forall k :: |a| < k < |whole| ==> whole[k] == x[k - |a| - 1];
    assert forall k :: |b| < k < |whole| ==> whole[k] == y[k - |b| - 1];
    assert a == whole[..|a|] && b == whole[..|b|];
    assert x == whole[|a| + 1..] && y == whole[|b| + 1..];
  }
}
