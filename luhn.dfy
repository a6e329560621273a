/**
 * The Luhn mod-10 check of a card number (ISO/IEC 7812-1, Annex B), as
 * pkg/core/core.go computes it: a loop over the digits to the left of the
 * check digit, doubling every other one starting with the nearest.
 */
module Luhn {

  /** What the digit `d` at loop position `i` adds to the checksum. */
  function Contribution(d: nat, i: nat): (r: nat)
    requires d < 10
    ensures r <= 9
    ensures i % 2 == 1 ==> r == d
    ensures i % 2 == 0 ==> r == if d >= 5 then 2 * d - 9 else 2 * d
  {
    if i % 2 == 0 then
      var doubled := d * 2;
      if doubled > 9 then doubled % 10 + doubled / 10 else doubled
    else
      d
  }

  /** The checksum of the digits of `m`, the lowest one standing at loop position `i`. */
  function WeightedSum(m: nat, i: nat): nat
    decreases m
  {
    if m == 0 then 0 else Contribution(m % 10, i) + WeightedSum(m / 10, i + 1)
  }

  /** The number of decimal digits of `m` (none for 0). */
  function DigitCount(m: nat): nat
    decreases m
  {
    if m == 0 then 0 else 1 + DigitCount(m / 10)
  }

  /** The recursive specification of the check. */
  predicate IsLuhnValid(n: nat)
  {
    (n % 10 + WeightedSum(n / 10, 0)) % 10 == 0
  }

  /**
   * The loop of LuhnValid. The ghost `iterations` counts the loop's rounds:
   * one per digit to the left of the check digit.
   */
  method LuhnValid(creditCardNumber: nat) returns (valid: bool, ghost iterations: nat)
    ensures valid == IsLuhnValid(creditCardNumber)
    ensures iterations == DigitCount(creditCardNumber / 10)
  {
    var lastDigit: nat := creditCardNumber % 10;
    var remainingDigits: nat := creditCardNumber / 10;
    var checksum: nat := 0;
    var i: nat := 0;
    while remainingDigits > 0
      invariant checksum + WeightedSum(remainingDigits, i) == WeightedSum(creditCardNumber / 10, 0)
      invariant i + DigitCount(remainingDigits) == DigitCount(creditCardNumber / 10)
      decreases remainingDigits
    {
      var currentDigit: nat := remainingDigits % 10;
      if i % 2 == 0 {
        currentDigit := currentDigit * 2;
        if currentDigit > 9 {
          currentDigit := currentDigit % 10 + currentDigit / 10;
        }
      }
      checksum := checksum + currentDigit;
      remainingDigits := remainingDigits / 10;
      i := i + 1;
    }
    ModuloOfSum(lastDigit, checksum);
    checksum := checksum % 10;
    var result := (lastDigit + checksum) % 10;
    valid := result == 0;
    iterations := i;
  }

  lemma ModuloOfSum(a: nat, b: nat)
    ensures (a + b % 10) % 10 == (a + b) % 10
  {
    var q := b / 10;
    assert b == 10 * q + b % 10;
    assert a + b == (a + b % 10) + 10 * q;
  }

  // ---------------------------------------------------------------------------
  // The check as ISO/IEC 7812-1 states it: over the digit string, the check
  // digit at position 0 from the right, every digit at an odd position doubled.

  /** The decimal digits of `n`, least significant first. */
  function Digits(n: nat): (ds: seq<nat>)
    ensures |ds| == DigitCount(n)
    ensures forall k :: 0 <= k < |ds| ==> ds[k] < 10
    decreases n
  {
    if n == 0 then [] else [n % 10] + Digits(n / 10)
  }

  /** The doubled value of a digit with its two digits added. */
  function DoubledDigit(d: nat): nat
    requires d < 10
  {
    if 2 * d > 9 then 2 * d - 9 else 2 * d
  }

  /** The weighted sum of `ds`, whose first element stands at position `k` from the right. */
  function IsoSum(ds: seq<nat>, k: nat): nat
    requires forall j :: 0 <= j < |ds| ==> ds[j] < 10
    decreases |ds|
  {
    if ds == [] then 0
    else (if k % 2 == 1 then DoubledDigit(ds[0]) else ds[0]) + IsoSum(ds[1..], k + 1)
  }

  predicate IsoLuhnValid(n: nat)
  {
    IsoSum(Digits(n), 0) % 10 == 0
  }

  lemma {:induction false} WeightedSumIsIsoSum(m: nat, i: nat)
    ensures WeightedSum(m, i) == IsoSum(Digits(m), i + 1)
    decreases m
  {
    if m != 0 {
      WeightedSumIsIsoSum(m / 10, i + 1);
      var ds := Digits(m);
      assert ds[0] == m % 10 && ds[1..] == Digits(m / 10);
      ContributionIsWeight(m % 10, i);
      assert IsoSum(ds, i + 1) == Contribution(m % 10, i) + IsoSum(ds[1..], i + 2);
    }
  }

  /** The loop's position `i` is the digit's position i + 1 in the standard's numbering. */
  lemma ContributionIsWeight(d: nat, i: nat)
    requires d < 10
    ensures Contribution(d, i) == if (i + 1) % 2 == 1 then DoubledDigit(d) else d
  {
    assert (i + 1) % 2 == 1 <==> i % 2 == 0;
  }

  /** The loop's check agrees with the digit-string formulation of the standard. */
  lemma LuhnMatchesIso(n: nat)
    ensures IsLuhnValid(n) <==> IsoLuhnValid(n)
  {
    WeightedSumIsIsoSum(n / 10, 0);
    if n != 0 {
      assert Digits(n)[1..] == Digits(n / 10);
      assert IsoSum(Digits(n), 0) == n % 10 + IsoSum(Digits(n / 10), 1);
    }
  }

  /** A number of one digit passes only when that digit is 0. */
  lemma SingleDigit(d: nat)
    requires d < 10
    ensures IsLuhnValid(d) <==> d == 0
  {
  }

  lemma DivideByTen(q: nat, r: nat)
    requires r < 10
    ensures (10 * q + r) % 10 == r && (10 * q + r) / 10 == q
  {
  }

  /** The check digit that completes the digits `m`. */
  function CheckDigit(m: nat): (d: nat)
    ensures d < 10
  {
    (10 - WeightedSum(m, 0) % 10) % 10
  }

  /** The last digit `d` and the weighted sum `w` of the others add up to a multiple of ten exactly for one `d`. */
  lemma CompletesToTen(d: nat, w: nat)
    requires d < 10
    ensures (d + w) % 10 == 0 <==> d == (10 - w % 10) % 10
  {
    ModuloOfSum(d, w);
    var r := w % 10;
    assert r < 10;
    assert (d + r) % 10 == 0 <==> d + r == 0 || d + r == 10;
  }

  /**
   * Appending CheckDigit(m) to the digits of `m` yields a number that passes,
   * and any other last digit fails: a mistyped check digit is always caught.
   */
  lemma CheckDigitUnique(m: nat, d: nat)
    requires d < 10
    ensures IsLuhnValid(10 * m + d) <==> d == CheckDigit(m)
  {
    DivideByTen(m, d);
    CompletesToTen(d, WeightedSum(m, 0));
  }

  // ---------------------------------------------------------------------------
  // The card numbers of pkg/core/core_test.go, taken apart digit by digit.

  /** `a` followed by `k` zero digits. */
  function Shifted(a: nat, k: nat): (r: nat)
    ensures a > 0 ==> r > 0
  {
    if k == 0 then a else 10 * Shifted(a, k - 1)
  }

  /** A leading digit followed by zeros adds only its own contribution. */
  lemma {:induction false} LeadingDigit(a: nat, k: nat, i: nat)
    requires 0 < a < 10
    ensures WeightedSum(Shifted(a, k), i) == Contribution(a, i + k)
    decreases k
  {
    if k == 0 {
      DivideByTen(0, a);
    } else {
      LeadingDigit(a, k - 1, i + 1);
      DivideByTen(Shifted(a, k - 1), 0);
    }
  }

  /** The lowest digit `d` of a positive number 10 * q + d adds its contribution to that of `q`. */
  lemma DigitStep(q: nat, d: nat, i: nat)
    requires d < 10 && 10 * q + d > 0
    ensures WeightedSum(10 * q + d, i) == Contribution(d, i) + WeightedSum(q, i + 1)
  {
    DivideByTen(q, d);
  }

  lemma ValidCard1(n: nat)
    requires n == 4000000000000119
    ensures IsLuhnValid(n)
  {
    var s := Shifted(4, 12);
    assert s == 4000000000000;
    LeadingDigit(4, 12, 2);
    var q1 := 10 * s + 1;
    var q := 10 * q1 + 1;
    DigitStep(s, 1, 1);
    DigitStep(q1, 1, 0);
    DivideByTen(q, 9);
  }

  lemma ValidCard2(n: nat)
    requires n == 4000000000000259
    ensures IsLuhnValid(n)
  {
    var s := Shifted(4, 12);
    assert s == 4000000000000;
    LeadingDigit(4, 12, 2);
    var q1 := 10 * s + 2;
    var q := 10 * q1 + 5;
    DigitStep(s, 2, 1);
    DigitStep(q1, 5, 0);
    DivideByTen(q, 9);
  }

  lemma ValidCard3(n: nat)
    requires n == 4000000000003238
    ensures IsLuhnValid(n)
  {
    var s := Shifted(4, 11);
    assert s == 400000000000;
    LeadingDigit(4, 11, 3);
    var q2 := 10 * s + 3;
    var q1 := 10 * q2 + 2;
    var q := 10 * q1 + 3;
    DigitStep(s, 3, 2);
    DigitStep(q2, 2, 1);
    DigitStep(q1, 3, 0);
    DivideByTen(q, 8);
  }

  lemma InvalidCard1(n: nat)
    requires n == 4000000000000009
    ensures !IsLuhnValid(n)
  {
    var s := Shifted(4, 14);
    assert s == 400000000000000;
    LeadingDigit(4, 14, 0);
    DivideByTen(s, 9);
  }
}
