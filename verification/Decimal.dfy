/** Decimal digits and searching in strings. */
module Decimal {
  predicate IsDigit(c: char) { '0' <= c <= '9' }

  predicate IsDecimal(s: string) { s != "" && forall i :: 0 <= i < |s| ==> IsDigit(s[i]) }

  function DigitChar(d: nat): (c: char)
    requires d < 10
    ensures IsDigit(c) && DigitValue(c) == d
  {
    '0' + d as char
  }

  function DigitValue(c: char): nat
    requires IsDigit(c)
  {
    c as int - '0' as int
  }

  /** std::stoi, on digits. */
  function Number(s: string): nat
    requires forall i :: 0 <= i < |s| ==> IsDigit(s[i])
  {
    if s == "" then 0 else 10 * Number(s[..|s| - 1]) + DigitValue(s[|s| - 1])
  }

  /** The decimal digits of a number, at least `width` of them: "%0*d". */
  function Padded(n: nat, width: nat): (s: string)
    ensures forall i :: 0 <= i < |s| ==> IsDigit(s[i])
    ensures |s| >= width && (n > 0 ==> s != "")
    decreases n, width
  {
    if n == 0 && width == 0 then ""
    else Padded(n / 10, if width > 0 then width - 1 else 0) + [DigitChar(n % 10)]
  }

  /** Printing and reading back. */
  lemma {:induction false} PaddedNumber(n: nat, width: nat)
    ensures Number(Padded(n, width)) == n
    decreases n, width
  {
    if !(n == 0 && width == 0) {
      var w := if width > 0 then width - 1 else 0;
      PaddedNumber(n / 10, w);
      assert Padded(n, width)[..|Padded(n / 10, w)|] == Padded(n / 10, w);
    }
  }

  function Pow10(k: nat): (r: nat)
    ensures r > 0
  {
    if k == 0 then 1 else 10 * Pow10(k - 1)
  }

  /** A number has at most k digits exactly when it is below 10^k. */
  lemma {:induction false} PaddedLength(n: nat, width: nat, k: nat)
    requires k >= width
    ensures |Padded(n, width)| <= k <==> n < Pow10(k)
    decreases n, width
  {
    if n == 0 && width == 0 {
    } else if k == 0 {
    } else {
      PaddedLength(n / 10, if width > 0 then width - 1 else 0, k - 1);
    }
  }

  lemma {:induction false} NumberBound(s: string)
    requires forall i :: 0 <= i < |s| ==> IsDigit(s[i])
    ensures Number(s) < Pow10(|s|)
  {
    if s != "" { NumberBound(s[..|s| - 1]); }
  }

  lemma {:induction false} Pow10Grows(j: nat, k: nat)
    requires j <= k
    ensures Pow10(j) <= Pow10(k) && (j < k ==> 10 * Pow10(j) <= Pow10(k))
    decreases k - j
  {
    if j < k { Pow10Grows(j, k - 1); }
  }

  /** The first occurrence of a character at or after a position, or the end. */
  function FirstOf(s: string, c: char, from: nat): (i: nat)
    requires from <= |s|
    ensures from <= i <= |s| && (i < |s| ==> s[i] == c)
    ensures forall k :: from <= k < i ==> s[k] != c
    decreases |s| - from
  {
    if from == |s| || s[from] == c then from else FirstOf(s, c, from + 1)
  }
}
