/** Decimal digit strings, and the two facts about them the program relies on:
    equal-length digit strings compare as strings the way they compare as numbers,
    and a number has exactly one decimal without a leading zero. */
module Digits {
  import opened Common

  predicate IsDigit(c: char) {
    '0' <= c <= '9'
  }

  predicate AllDigits(s: string) {
    forall i :: 0 <= i < |s| ==> IsDigit(s[i])
  }

  function DigitValue(c: char): nat
    requires IsDigit(c)
  {
    c as int - '0' as int
  }

  function DigitChar(d: nat): char
    requires d < 10
  {
    ('0' as int + d) as char
  }

  function Pow10(n: nat): (p: nat)
    ensures p >= 1
  {
    if n == 0 then 1 else 10 * Pow10(n - 1)
  }

  function Value(s: string): nat
    requires AllDigits(s)
  {
    if s == "" then 0 else 10 * Value(s[..|s| - 1]) + DigitValue(s[|s| - 1])
  }

  function Zeros(n: nat): string {
    seq(n, _ => '0')
  }

  /** The `<` of JavaScript strings: by code unit, a proper prefix first. */
  predicate LexLess(a: string, b: string) {
    b != "" && (a == "" || a[0] < b[0] || (a[0] == b[0] && LexLess(a[1..], b[1..])))
  }

  lemma {:induction false} Pow10Sum(m: nat, n: nat)
    ensures Pow10(m + n) == Pow10(m) * Pow10(n)
  {
    if n == 0 {
    } else {
      Pow10Sum(m, n - 1);
      calc {
        Pow10(m + n);
        10 * Pow10(m + n - 1);
        10 * (Pow10(m) * Pow10(n - 1));
        Pow10(m) * (10 * Pow10(n - 1));
      }
    }
  }

  lemma Shift(v: nat, p: nat, i: nat, d: nat)
    ensures 10 * (v * p + i) + d == v * (10 * p) + (10 * i + d)
  {
  }

  lemma {:induction false} ValueConcat(a: string, b: string)
    requires AllDigits(a) && AllDigits(b)
    ensures AllDigits(a + b)
    ensures Value(a + b) == Value(a) * Pow10(|b|) + Value(b)
  {
    if b == "" {
      assert a + b == a;
    } else {
      var init, last := b[..|b| - 1], b[|b| - 1];
      ValueConcat(a, init);
      assert (a + b)[..|a + b| - 1] == a + init;
      Shift(Value(a), Pow10(|init|), Value(init), DigitValue(last));
    }
  }

  lemma {:induction false} ValueBound(s: string)
    requires AllDigits(s)
    ensures Value(s) < Pow10(|s|)
  {
    if s == "" {
    } else {
      ValueBound(s[..|s| - 1]);
    }
  }

  lemma {:induction false} ValueZeros(n: nat)
    ensures AllDigits(Zeros(n)) && Value(Zeros(n)) == 0
  {
    if n == 0 {
    } else {
      ValueZeros(n - 1);
      assert Zeros(n)[..n - 1] == Zeros(n - 1);
    }
  }

  /** The first digit decides; with equal first digits, the rest does. */
  lemma LeadingDigit(x: int, y: int, u: nat, v: nat, p: nat)
    requires u < p && v < p
    ensures x < y ==> x * p + u < y * p + v
    ensures x == y ==> (x * p + u < y * p + v <==> u < v)
  {
    if x < y { MulMonotone(x + 1, y, p); }
  }

  lemma {:induction false} ValueOfHead(s: string)
    requires s != "" && AllDigits(s)
    ensures Value(s) == DigitValue(s[0]) * Pow10(|s| - 1) + Value(s[1..])
  {
    assert s == s[..1] + s[1..];
    ValueConcat(s[..1], s[1..]);
    assert s[..1][..0] == "";
  }

  lemma {:induction false} LexIsNumeric(a: string, b: string)
    requires |a| == |b| && AllDigits(a) && AllDigits(b)
    ensures LexLess(a, b) <==> Value(a) < Value(b)
    ensures a == b <==> Value(a) == Value(b)
  {
    if a == "" {
    } else {
      LexIsNumeric(a[1..], b[1..]);
      ValueOfHead(a);
      ValueOfHead(b);
      ValueBound(a[1..]);
      ValueBound(b[1..]);
      assert a == b <==> a[0] == b[0] && a[1..] == b[1..];
      var x, y := DigitValue(a[0]), DigitValue(b[0]);
      LeadingDigit(x, y, Value(a[1..]), Value(b[1..]), Pow10(|a| - 1));
      LeadingDigit(y, x, Value(b[1..]), Value(a[1..]), Pow10(|a| - 1));
    }
  }

  /** Dropping the last k digits divides by 10^k, rounding down. */
  lemma ValuePrefix(s: string, k: nat)
    requires AllDigits(s) && k <= |s|
    ensures Value(s[..|s| - k]) == Value(s) / Pow10(k)
  {
    var a, b := s[..|s| - k], s[|s| - k..];
    assert s == a + b;
    ValueConcat(a, b);
    ValueBound(b);
    DivExact(Value(a), Value(b), Pow10(k));
  }

  lemma DivExact(q: nat, r: nat, d: nat)
    requires r < d
    ensures (q * d + r) / d == q
  {
    var x := q * d + r;
    var q' := x / d;
    assert x == q' * d + x % d;
    LeadingDigit(q, q', r, x % d, d);
    LeadingDigit(q', q, x % d, r, d);
  }

  /** The decimal of n, with no leading zero. */
  function Decimal(n: nat): string {
    if n < 10 then [DigitChar(n)] else Decimal(n / 10) + [DigitChar(n % 10)]
  }

  /** The language of /^(0|[1-9]\d*)$/. */
  predicate IsCanonical(s: string) {
    s != "" && AllDigits(s) && (s[0] == '0' ==> |s| == 1)
  }

  lemma {:induction false} DecimalIsCanonical(n: nat)
    ensures IsCanonical(Decimal(n)) && Value(Decimal(n)) == n
    ensures n > 0 ==> Decimal(n)[0] != '0'
  {
    if n < 10 {
      assert Decimal(n)[..0] == "";
    } else {
      DecimalIsCanonical(n / 10);
      assert Decimal(n)[..|Decimal(n)| - 1] == Decimal(n / 10);
    }
  }

  lemma {:induction false} CanonicalIsDecimal(s: string)
    requires IsCanonical(s)
    ensures s == Decimal(Value(s))
  {
    var init := s[..|s| - 1];
    if |s| == 1 {
      assert Value(init) == 0;
    } else {
      CanonicalIsDecimal(init);
      PositiveValue(init);
      assert s == init + [s[|s| - 1]];
    }
  }

  lemma {:induction false} PositiveValue(s: string)
    requires s != "" && AllDigits(s) && s[0] != '0'
    ensures Value(s) > 0
  {
    if |s| <= 1 {
    } else {
      PositiveValue(s[..|s| - 1]);
    }
  }
}
