/**
  Decimal digits: rendering a whole number the way printf's `%0Ni` does, and
  reading a run of digits back into a number.
 */
module Decimal {

  predicate IsDigit(c: char) {
    '0' <= c <= '9'
  }

  predicate AllDigits(s: seq<char>) {
    forall i :: 0 <= i < |s| ==> IsDigit(s[i])
  }

  function DigitValue(c: char): (v: nat)
    requires IsDigit(c)
    ensures v < 10
  {
    c as int - '0' as int
  }

  function DigitChar(v: nat): (c: char)
    requires v < 10
    ensures IsDigit(c) && DigitValue(c) == v
  {
    ('0' as int + v) as char
  }

  function Pow10(k: nat): (p: nat)
    ensures p >= 1
  {
    if k == 0 then 1 else 10 * Pow10(k - 1)
  }

  /** The number a run of decimal digits denotes, most significant digit first. */
  function DigitsValue(s: seq<char>): nat
    requires AllDigits(s)
  {
    if |s| == 0 then 0 else DigitsValue(s[..|s| - 1]) * 10 + DigitValue(s[|s| - 1])
  }

  /** The shortest decimal rendering of `n` (no leading zeros, "0" for zero). */
  function NatDigits(n: nat): (s: seq<char>)
    ensures |s| >= 1 && AllDigits(s)
    ensures DigitsValue(s) == n
    ensures n >= 1 ==> s[0] != '0'
  {
    if n < 10 then [DigitChar(n)] else
      var s := NatDigits(n / 10) + [DigitChar(n % 10)];
      assert s[..|s| - 1] == NatDigits(n / 10);
      s
  }

  function Zeros(k: nat): (s: seq<char>)
    ensures |s| == k && AllDigits(s)
    ensures forall i :: 0 <= i < k ==> s[i] == '0'
  {
    seq(k, _ => '0')
  }

  lemma {:induction false} LeadingZeros(k: nat, s: seq<char>)
    requires AllDigits(s)
    ensures AllDigits(Zeros(k) + s)
    ensures DigitsValue(Zeros(k) + s) == DigitsValue(s)
  {
    var z := Zeros(k) + s;
    if |s| == 0 {
      assert z == Zeros(k);
      ZerosValue(k);
    } else {
      assert z[..|z| - 1] == Zeros(k) + s[..|s| - 1];
      LeadingZeros(k, s[..|s| - 1]);
    }
  }

  lemma {:induction false} ZerosValue(k: nat)
    ensures DigitsValue(Zeros(k)) == 0
  {
    if k > 0 {
      assert Zeros(k)[..k - 1] == Zeros(k - 1);
      ZerosValue(k - 1);
    }
  }

  lemma {:induction false} NatDigitsFit(n: nat, w: nat)
    requires w >= 1 && n < Pow10(w)
    ensures |NatDigits(n)| <= w
  {
    if n >= 10 {
      assert w != 1;
      assert n / 10 < Pow10(w - 1);
      NatDigitsFit(n / 10, w - 1);
    }
  }

  /** Zero-padding of a non-negative number to at least `w` digits. */
  function Pad(n: nat, w: nat): (s: seq<char>)
    ensures AllDigits(s) && DigitsValue(s) == n
    ensures |s| >= w && |s| >= 1
    ensures w >= 1 && n < Pow10(w) ==> |s| == w
    ensures |s| > w && n >= 1 ==> s[0] != '0'
  {
    var ds := NatDigits(n);
    if |ds| >= w then
      (if w >= 1 && n < Pow10(w) then NatDigitsFit(n, w); ds else ds)
    else
      LeadingZeros(w - |ds|, ds);
      Zeros(w - |ds|) + ds
  }

  /**
    printf's `%0wi` (also `%0wli`): a negative number gets its minus sign first
    and the zeros go between the sign and the digits, the sign counting toward
    the width.
   */
  function FormatInt(n: int, w: nat): (s: seq<char>)
    ensures n >= 0 ==> AllDigits(s) && DigitsValue(s) == n
    ensures n < 0 ==> |s| >= 2 && s[0] == '-' && AllDigits(s[1..]) && DigitsValue(s[1..]) == -n
    ensures |s| >= w && |s| >= 1
    ensures 0 <= n && w >= 1 && n < Pow10(w) ==> |s| == w
    ensures n < 0 && w >= 2 && -n < Pow10(w - 1) ==> |s| == w
    ensures |s| > w && n != 0 ==> s[if n < 0 then 1 else 0] != '0'
  {
    if n < 0 then
      var s := "-" + Pad(-n, if w >= 1 then w - 1 else 0);
      assert s[1..] == Pad(-n, if w >= 1 then w - 1 else 0);
      s
    else Pad(n, w)
  }

  /** A printf rendering contains only digits and the minus sign. */
  lemma FormatIntCharacters(n: int, w: nat, i: nat)
    requires i < |FormatInt(n, w)|
    ensures IsDigit(FormatInt(n, w)[i]) || FormatInt(n, w)[i] == '-'
    ensures i > 0 ==> IsDigit(FormatInt(n, w)[i])
  {
    var s := FormatInt(n, w);
    if n < 0 && i > 0 {
      assert s[i] == s[1..][i - 1];
    }
  }
}
