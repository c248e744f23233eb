/** Decimal printing as fmt's %d and %0Nd do it for non-negative numbers, and reading it back. */
module Decimal {
  predicate IsDigit(c: char) {
    '0' <= c <= '9'
  }

  predicate AllDigits(s: string) {
    forall i :: 0 <= i < |s| ==> IsDigit(s[i])
  }

  function Digit(d: nat): (c: char)
    requires d < 10
    ensures IsDigit(c)
  {
    '0' + d as char
  }

  function DigitValue(c: char): (d: nat)
    requires IsDigit(c)
    ensures d < 10
  {
    (c - '0') as nat
  }

  /** %d */
  function Digits(n: nat): (s: string)
    ensures AllDigits(s) && |s| >= 1
  {
    if n < 10 then [Digit(n)] else Digits(n / 10) + [Digit(n % 10)]
  }

  function ZeroDigits(count: nat): (s: string)
    ensures |s| == count && forall i :: 0 <= i < |s| ==> s[i] == '0'
  {
    seq(count, _ => '0')
  }

  /** %0Nd: at least width digits, and more when the number needs more. */
  function Padded(n: nat, width: nat): (s: string)
    ensures AllDigits(s) && |s| >= width && |s| >= 1
  {
    var digits := Digits(n);
    if |digits| >= width then digits else ZeroDigits(width - |digits|) + digits
  }

  function Value(s: string): nat
    requires AllDigits(s)
  {
    if s == "" then 0 else 10 * Value(s[..|s| - 1]) + DigitValue(s[|s| - 1])
  }

  lemma {:induction false} ValueOfDigits(n: nat)
    ensures Value(Digits(n)) == n
  {
    if n < 10 {
      assert Value(Digits(n)) == 10 * Value("") + DigitValue(Digit(n));
    } else {
      ValueOfDigits(n / 10);
      var s := Digits(n);
      assert s[..|s| - 1] == Digits(n / 10);
    }
  }

  lemma {:induction false} ValueOfZeroDigits(count: nat, s: string)
    requires AllDigits(s)
    ensures Value(ZeroDigits(count) + s) == Value(s)
    decreases count + |s|
  {
    var t := ZeroDigits(count) + s;
    if s != "" {
      assert t[..|t| - 1] == ZeroDigits(count) + s[..|s| - 1];
      ValueOfZeroDigits(count, s[..|s| - 1]);
    } else if count > 0 {
      assert t[..|t| - 1] == ZeroDigits(count - 1) + "";
      ValueOfZeroDigits(count - 1, "");
    }
  }

  /** Reading a padded number gives it back, whatever the width. */
  lemma ValueOfPadded(n: nat, width: nat)
    ensures Value(Padded(n, width)) == n
  {
    var digits := Digits(n);
    assert Value(digits) == n by { ValueOfDigits(n); }
    if |digits| < width {
      assert Value(ZeroDigits(width - |digits|) + digits) == Value(digits) by { ValueOfZeroDigits(width - |digits|, digits); }
    }
  }

  /** Two digits suffice exactly below 100. */
  lemma TwoDigits(n: nat)
    ensures |Padded(n, 2)| == 2 <==> n < 100
  {
    if n < 10 {
      assert |Digits(n)| == 1;
    } else if n < 100 {
      assert |Digits(n / 10)| == 1;
    } else {
      assert |Digits(n / 10)| == |Digits(n / 10 / 10)| + 1;
    }
  }
}
