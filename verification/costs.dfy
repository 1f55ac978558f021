/**
 * Cost accounting (lib/utils/costs.ts): blended USD rates per million
 * tokens, and the dollar string with 4 decimals under one cent and 2
 * otherwise. Arithmetic is exact (`real`); `toFixed` is modelled as rounding
 * half up on the exact value.
 */
module Costs {

  /** USD per million tokens, blended over input and output. */
  const GptBlendedRate: real := 6.25
  const ClaudeBlendedRate: real := 9.0

  /** `calculateCost`. */
  function CalculateCost(gptTokens: int, claudeTokens: int): (cost: real)
    ensures gptTokens >= 0 && claudeTokens >= 0 ==> cost >= 0.0
  {
    (gptTokens as real / 1000000.0) * GptBlendedRate + (claudeTokens as real / 1000000.0) * ClaudeBlendedRate
  }

  /** No tokens cost nothing; a million tokens cost exactly the blended rate. */
  lemma CostRates()
    ensures CalculateCost(0, 0) == 0.0
    ensures CalculateCost(1000000, 0) == GptBlendedRate
    ensures CalculateCost(0, 1000000) == ClaudeBlendedRate
  {
  }

  /** Cost is additive in both token counts. */
  lemma CostAdditive(g1: int, c1: int, g2: int, c2: int)
    ensures CalculateCost(g1 + g2, c1 + c2) == CalculateCost(g1, c1) + CalculateCost(g2, c2)
  {
  }

  /** Cost never decreases when either token count grows. */
  lemma CostMonotone(g1: int, c1: int, g2: int, c2: int)
    requires g1 <= g2 && c1 <= c2
    ensures CalculateCost(g1, c1) <= CalculateCost(g2, c2)
  {
    CostAdditive(g1, c1, g2 - g1, c2 - c1);
  }

  function Pow10(d: nat): (p: nat)
    ensures p >= 1
  {
    if d == 0 then 1 else 10 * Pow10(d - 1)
  }

  predicate IsDigit(c: char) {
    '0' <= c <= '9'
  }

  predicate AllDigits(s: string) {
    forall k :: 0 <= k < |s| ==> IsDigit(s[k])
  }

  /** The value of a string of decimal digits. */
  function DigitsValue(s: string): nat
    requires AllDigits(s)
  {
    if |s| == 0 then 0 else 10 * DigitsValue(s[..|s| - 1]) + (s[|s| - 1] as int - '0' as int)
  }

  /** Decimal notation of `n`, without leading zeros. */
  function Digits(n: nat): (s: string)
    ensures 1 <= |s| && AllDigits(s)
    ensures DigitsValue(s) == n
    ensures n < 10 <==> |s| == 1
  {
    var last := ['0' + (n % 10) as char];
    if n < 10 then last
    else
      var s := Digits(n / 10) + last;
      assert s[..|s| - 1] == Digits(n / 10);
      s
  }

  /** A number below `10^k` needs at most `k` digits. */
  lemma {:induction false} DigitsLength(n: nat, k: nat)
    requires 1 <= k && n < Pow10(k)
    ensures |Digits(n)| <= k
  {
    if n >= 10 {
      assert k >= 2;
      DigitsLength(n / 10, k - 1);
    }
  }

  function Zeros(k: nat): (z: string)
    ensures |z| == k && AllDigits(z) && DigitsValue(z) == 0
  {
    if k == 0 then "" else
      var z := Zeros(k - 1) + "0";
      assert z[..k - 1] == Zeros(k - 1);
      z
  }

  lemma AllDigitsConcat(a: string, b: string)
    requires AllDigits(a) && AllDigits(b)
    ensures AllDigits(a + b)
  {
    var ab := a + b;
    forall k | 0 <= k < |ab| ensures IsDigit(ab[k]) {
      if k < |a| { assert ab[k] == a[k]; } else { assert ab[k] == b[k - |a|]; }
    }
  }

  lemma ShiftDigit(va: nat, p: nat, vb: nat, last: int)
    ensures 10 * (va * p + vb) + last == va * (10 * p) + (10 * vb + last)
  {
    assert 10 * (va * p) == va * (10 * p);
  }

  /** Digits of `a + b` read as one number. */
  lemma {:induction false} DigitsValueConcat(a: string, b: string)
    requires AllDigits(a) && AllDigits(b)
    ensures AllDigits(a + b)
    ensures DigitsValue(a + b) == DigitsValue(a) * Pow10(|b|) + DigitsValue(b)
  {
    AllDigitsConcat(a, b);
    var ab := a + b;
    if |b| == 0 {
      assert ab == a;
    } else {
      var b' := b[..|b| - 1];
      var last := b[|b| - 1] as int - '0' as int;
      assert ab[..|ab| - 1] == a + b';
      assert ab[|ab| - 1] == b[|b| - 1];
      DigitsValueConcat(a, b');
      assert DigitsValue(ab) == 10 * DigitsValue(a + b') + last;
      assert DigitsValue(b) == 10 * DigitsValue(b') + last;
      ShiftDigit(DigitsValue(a), Pow10(|b'|), DigitsValue(b'), last);
    }
  }

  /** `n` left-padded with zeros to width `w`. */
  function PadDigits(n: nat, w: nat): (s: string)
    requires 1 <= w && n < Pow10(w)
    ensures |s| == w && AllDigits(s) && DigitsValue(s) == n
  {
    DigitsLength(n, w);
    var d := Digits(n);
    DigitsValueConcat(Zeros(w - |d|), d);
    Zeros(w - |d|) + d
  }

  /** The nearest integer to `y`, ties going up (what `toFixed` picks). */
  function RoundHalfUp(y: real): (n: int)
    ensures y - 0.5 < n as real <= y + 0.5
  {
    (y + 0.5).Floor
  }

  /** `s` is digits, a point, and exactly `d` digits. */
  predicate HasDecimals(s: string, d: nat) {
    && |s| > d + 1
    && s[|s| - d - 1] == '.'
    && AllDigits(s[..|s| - d - 1])
    && AllDigits(s[|s| - d..])
  }

  /** The digits of a fixed-point string with the point removed. */
  function Unpointed(s: string, d: nat): string
    requires |s| > d + 1
  {
    s[..|s| - d - 1] + s[|s| - d..]
  }

  /** Whole digits, a point and `d` fraction digits form a fixed-point string. */
  lemma Pointed(whole: string, frac: string, d: nat)
    requires |whole| >= 1 && AllDigits(whole) && |frac| == d && AllDigits(frac)
    ensures HasDecimals(whole + "." + frac, d)
    ensures Unpointed(whole + "." + frac, d) == whole + frac
  {
    var s := whole + "." + frac;
    assert s[..|s| - d - 1] == whole && s[|s| - d..] == frac;
  }

  lemma DivMod(n: nat, p: nat)
    requires p >= 1
    ensures n / p >= 0 && 0 <= n % p < p
    ensures (n / p) * p + n % p == n
  {
  }

  /** `x` shifted `d` decimal places left. */
  function Scale(x: real, d: nat): (y: real)
    ensures x >= 0.0 ==> y >= 0.0
  {
    x * Pow10(d) as real
  }

  /** The fixed-point string with `d >= 1` decimals whose digits spell `n`. */
  function FixedPoint(n: nat, d: nat): (s: string)
    requires d >= 1
  {
    DivMod(n, Pow10(d));
    Digits(n / Pow10(d)) + "." + PadDigits(n % Pow10(d), d)
  }

  /** `FixedPoint` has `d` decimals, and without its point it reads `n`. */
  lemma FixedPointShape(n: nat, d: nat)
    requires d >= 1
    ensures HasDecimals(FixedPoint(n, d), d)
    ensures DigitsValue(Unpointed(FixedPoint(n, d), d)) == n
  {
    var p := Pow10(d);
    DivMod(n, p);
    var q, r := n / p, n % p;
    var whole := Digits(q);
    var frac := PadDigits(r, d);
    assert FixedPoint(n, d) == whole + "." + frac;
    Pointed(whole, frac, d);
    assert DigitsValue(whole + frac) == n by {
      DigitsValueConcat(whole, frac);
    }
  }

  /** `Number.prototype.toFixed(d)` for `d >= 1`: a minus sign for negatives. */
  function ToFixed(x: real, d: nat): (s: string)
    requires d >= 1
  {
    if x < 0.0 then "-" + FixedPoint(RoundHalfUp(Scale(-x, d)), d)
    else FixedPoint(RoundHalfUp(Scale(x, d)), d)
  }

  /** `ToFixed`: a minus sign exactly for negatives, then `d` decimals reading the rounded magnitude. */
  lemma ToFixedShape(x: real, d: nat)
    requires d >= 1
    ensures var s := ToFixed(x, d);
      && |s| > 0
      && (x < 0.0 ==> s[0] == '-' && HasDecimals(s[1..], d)
                      && DigitsValue(Unpointed(s[1..], d)) == RoundHalfUp(Scale(-x, d)))
      && (x >= 0.0 ==> HasDecimals(s, d) && DigitsValue(Unpointed(s, d)) == RoundHalfUp(Scale(x, d)))
  {
    if x < 0.0 {
      var t := FixedPoint(RoundHalfUp(Scale(-x, d)), d);
      FixedPointShape(RoundHalfUp(Scale(-x, d)), d);
      assert ("-" + t)[1..] == t;
    } else {
      FixedPointShape(RoundHalfUp(Scale(x, d)), d);
    }
  }

  /** Decimals `formatCost` uses. */
  function CostDecimals(cost: real): nat {
    if cost < 0.01 then 4 else 2
  }

  /**
   * `formatCost`: a `$` and the cost with 4 decimals exactly when it is
   * below one cent, 2 decimals otherwise.
   */
  function FormatCost(cost: real): (s: string)
    ensures |s| > 0 && s[0] == '$'
  {
    "$" + ToFixed(cost, CostDecimals(cost))
  }

  /** After the `$`, a non-negative cost has its decimals and reads as the cost rounded to them. */
  lemma FormatCostShape(cost: real)
    ensures var s := FormatCost(cost);
      var d := CostDecimals(cost);
      cost >= 0.0 ==>
        && HasDecimals(s[1..], d)
        && DigitsValue(Unpointed(s[1..], d)) == RoundHalfUp(Scale(cost, d))
  {
    var d := CostDecimals(cost);
    assert FormatCost(cost)[1..] == ToFixed(cost, d);
    ToFixedShape(cost, d);
  }

  /** The point's position tells two decimals from four. */
  lemma DecimalsExclusive(s: string)
    ensures !(HasDecimals(s, 4) && HasDecimals(s, 2))
  {
  }

  /** A non-negative cost shows four decimals exactly below one cent, two otherwise. */
  lemma FormatCostDecimals(cost: real)
    requires cost >= 0.0
    ensures HasDecimals(FormatCost(cost)[1..], 4) <==> cost < 0.01
    ensures HasDecimals(FormatCost(cost)[1..], 2) <==> cost >= 0.01
  {
    FormatCostShape(cost);
    DecimalsExclusive(FormatCost(cost)[1..]);
  }

  /**
   * `calculateAndFormat`: for non-negative counts, a `$`, then the cost the
   * counts incur at the blended rates, to four decimals below one cent and
   * to two from one cent up, rounded half up.
   */
  function CalculateAndFormat(gptTokens: int, claudeTokens: int): (s: string)
    ensures |s| > 0 && s[0] == '$'
    ensures gptTokens >= 0 && claudeTokens >= 0 ==>
      var cost := gptTokens as real * GptBlendedRate / 1000000.0
                  + claudeTokens as real * ClaudeBlendedRate / 1000000.0;
      var d := if cost < 0.01 then 4 else 2;
      && HasDecimals(s[1..], d)
      && DigitsValue(Unpointed(s[1..], d)) == RoundHalfUp(Scale(cost, d))
  {
    var cost := CalculateCost(gptTokens, claudeTokens);
    FormatCostShape(cost);
    FormatCost(cost)
  }

  lemma Pow10Small()
    ensures Pow10(2) == 100 && Pow10(4) == 10000
  {
    assert Pow10(1) == 10;
    assert Pow10(3) == 1000;
  }

  lemma SmallDigits()
    ensures Digits(0) == "0" && Digits(1) == "1" && Digits(23) == "23" && Digits(50) == "50"
  {
    assert Digits(2) == "2" && Digits(3) == "3" && Digits(5) == "5";
  }

  lemma HalfCentDigits()
    ensures FixedPoint(50, 4) == "0.0050"
  {
    Pow10Small();
    SmallDigits();
    assert Zeros(1) == "0";
    assert Zeros(2) == "00";
    assert 50 / 10000 == 0 && 50 % 10000 == 50;
    assert PadDigits(50, 4) == "0050";
    assert FixedPoint(50, 4) == Digits(0) + "." + PadDigits(50, 4);
  }

  lemma DollarDigits()
    ensures FixedPoint(123, 2) == "1.23"
  {
    Pow10Small();
    SmallDigits();
    assert 123 / 100 == 1 && 123 % 100 == 23;
    assert Zeros(0) == "";
    assert PadDigits(23, 2) == "23";
    assert FixedPoint(123, 2) == Digits(1) + "." + PadDigits(23, 2);
  }

  /** The two worked examples: half a cent and a dollar and a quarter. */
  lemma FormatCostExamples()
    ensures FormatCost(0.005) == "$0.0050"
    ensures FormatCost(1.2345) == "$1.23"
  {
    Pow10Small();
    assert Scale(0.005, 4) == 50.0;
    assert RoundHalfUp(50.0) == 50;
    HalfCentDigits();
    assert Scale(1.2345, 2) == 123.45;
    assert RoundHalfUp(123.45) == 123;
    DollarDigits();
  }
}
