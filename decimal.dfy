/**
 * Decimal notation of non-negative integers: `Integer.toString` for `n >= 0`, the zero padding
 * of the `%0<width>d` format, and the integer part of `Math.log10`, each with its inverse or an
 * independent characterisation.
 */
module Decimal {

  predicate IsDigit(c: char) {
    '0' <= c <= '9'
  }

  predicate AllDigits(s: string) {
    forall i :: 0 <= i < |s| ==> IsDigit(s[i])
  }

  function DigitChar(d: nat): char
    requires d < 10
  {
    ('0' as int + d) as char
  }

  function DigitValue(c: char): nat
    requires IsDigit(c)
  {
    c as int - '0' as int
  }

  function Pow10(k: nat): (p: nat)
    ensures p >= 1
  {
    if k == 0 then 1 else 10 * Pow10(k - 1)
  }

  /** `Integer.toString(n)` for `n >= 0`: the shortest decimal notation of `n`. */
  function Digits(n: nat): (r: string)
    ensures |r| >= 1 && AllDigits(r)
    decreases n
  {
    if n < 10 then [DigitChar(n)] else Digits(n / 10) + [DigitChar(n % 10)]
  }

  /** The number a string of decimal digits denotes (leading zeros allowed). */
  function Value(s: string): nat
    requires AllDigits(s)
    decreases |s|
  {
    if s == [] then 0 else 10 * Value(s[..|s| - 1]) + DigitValue(s[|s| - 1])
  }

  /** Reading back the digits of `n` gives `n`. */
  lemma {:induction false} ValueOfDigits(n: nat)
    ensures Value(Digits(n)) == n
    decreases n
  {
    if n >= 10 {
      ValueOfDigits(n / 10);
      var s := Digits(n / 10) + [DigitChar(n % 10)];
      assert s[..|s| - 1] == Digits(n / 10);
    }
  }

  /** The notation of a positive number never starts with `0`; that of zero is exactly "0". */
  lemma {:induction false} DigitsLeadingChar(n: nat)
    ensures Digits(n)[0] == '0' <==> n == 0
    ensures n == 0 ==> Digits(n) == "0"
    decreases n
  {
    if n >= 10 {
      DigitsLeadingChar(n / 10);
    }
  }

  /** `|Digits(n)|` is the number of decimal digits: `10^(k-1) <= n < 10^k`. */
  lemma {:induction false} DigitsLength(n: nat)
    ensures n < Pow10(|Digits(n)|)
    ensures n >= 1 ==> Pow10(|Digits(n)| - 1) <= n
    decreases n
  {
    if n >= 10 {
      DigitsLength(n / 10);
      assert |Digits(n)| == |Digits(n / 10)| + 1;
    }
  }

  /** The digit count is the only `k` with `10^(k-1) <= n < 10^k`. */
  lemma DigitsLengthUnique(n: nat, k: nat)
    requires k >= 1 && Pow10(k - 1) <= n < Pow10(k)
    ensures |Digits(n)| == k
  {
    DigitsLength(n);
    var d := |Digits(n)|;
    if d < k {
      Pow10Monotone(d, k - 1);
    } else if d > k {
      Pow10Monotone(k, d - 1);
    }
  }

  lemma {:induction false} Pow10Monotone(i: nat, j: nat)
    requires i <= j
    ensures Pow10(i) <= Pow10(j)
    decreases j
  {
    if i < j {
      Pow10Monotone(i, j - 1);
    }
  }

  /** `(int) Math.log10(n)` for `n >= 1`: the integer part of the decimal logarithm. */
  function Log10(n: nat): (k: nat)
    requires n >= 1
    ensures Pow10(k) <= n < Pow10(k + 1)
    decreases n
  {
    if n < 10 then 0
    else
      var k := 1 + Log10(n / 10);
      assert Pow10(k) == 10 * Pow10(k - 1) && Pow10(k + 1) == 10 * Pow10(k);
      k
  }

  /** `Math.log10(n) + 1` truncated is the decimal digit count of `n`. */
  lemma Log10DigitCount(n: nat)
    requires n >= 1
    ensures Log10(n) + 1 == |Digits(n)|
  {
    DigitsLengthUnique(n, Log10(n) + 1);
  }

  function Zeros(k: nat): (r: string)
    ensures |r| == k && forall i :: 0 <= i < k ==> r[i] == '0'
  {
    seq(k, _ => '0')
  }

  function Max(a: nat, b: nat): nat {
    if a < b then b else a
  }

  /**
   * What `%0<width>d` prints for `n >= 0`: the digits of `n`, left-padded with `0` up to `width`.
   * A number wider than `width` is printed in full, never truncated.
   */
  function ZeroPad(n: nat, width: nat): (r: string)
    ensures |r| == Max(width, |Digits(n)|)
    ensures AllDigits(r)
  {
    var d := Digits(n);
    if |d| < width then Zeros(width - |d|) + d else d
  }

  /** The padded text ends with the digits of `n` and has only zeros before them. */
  lemma ZeroPadLayout(n: nat, width: nat)
    ensures var r := ZeroPad(n, width);
      && r[|r| - |Digits(n)|..] == Digits(n)
      && forall i :: 0 <= i < |r| - |Digits(n)| ==> r[i] == '0'
  {
    var d := Digits(n);
    if |d| < width {
      var r := Zeros(width - |d|) + d;
      assert r[|r| - |d|..] == d;
    }
  }

  lemma {:induction false} ValueOfZeros(k: nat)
    ensures Value(Zeros(k)) == 0
    decreases k
  {
    if k > 0 {
      assert Zeros(k)[..k - 1] == Zeros(k - 1);
      ValueOfZeros(k - 1);
    }
  }

  /** Leading zeros do not change the value. */
  lemma {:induction false} ValueIgnoresLeadingZeros(k: nat, s: string)
    requires AllDigits(s)
    ensures AllDigits(Zeros(k) + s) && Value(Zeros(k) + s) == Value(s)
    decreases |s|
  {
    var t := Zeros(k) + s;
    if s == [] {
      assert t == Zeros(k);
      ValueOfZeros(k);
    } else {
      assert t[..|t| - 1] == Zeros(k) + s[..|s| - 1];
      ValueIgnoresLeadingZeros(k, s[..|s| - 1]);
    }
  }

  /** Reading back a zero-padded number gives the number. */
  lemma ZeroPadValue(n: nat, width: nat)
    ensures Value(ZeroPad(n, width)) == n
  {
    var d := Digits(n);
    ValueOfDigits(n);
    if |d| < width {
      ValueIgnoresLeadingZeros(width - |d|, d);
    }
  }

  /** Zero padding is injective, whatever the widths: distinct numbers give distinct text. */
  lemma ZeroPadInjective(a: nat, wa: nat, b: nat, wb: nat)
    ensures ZeroPad(a, wa) == ZeroPad(b, wb) ==> a == b
  {
    ZeroPadValue(a, wa);
    ZeroPadValue(b, wb);
  }

  /** A number below `10^width` pads to exactly `width` digits. */
  lemma ZeroPadExactWidth(n: nat, width: nat)
    requires width >= 1 && n < Pow10(width)
    ensures |ZeroPad(n, width)| == width
  {
    DigitsLength(n);
    if |Digits(n)| > width {
      assert n >= 1;
      Pow10Monotone(width, |Digits(n)| - 1);
    }
  }
}
