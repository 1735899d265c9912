/**
 * Decimal text for integers: Python's `str(n)` (used by every f-string that
 * prints a seed) and `int(s)` (used to read the seed of the `/seed` command).
 */
module Decimal {
  import opened Wrappers

  predicate IsDigit(c: char)
  {
    '0' <= c <= '9'
  }

  predicate AllDigits(s: string)
  {
    forall k :: 0 <= k < |s| ==> IsDigit(s[k])
  }

  function DigitChar(d: nat): (c: char)
    requires d < 10
    ensures IsDigit(c) && c as int - '0' as int == d
  {
    "0123456789"[d]
  }

  function DigitValue(c: char): (d: nat)
    requires IsDigit(c)
    ensures d < 10 && DigitChar(d) == c
  {
    c as int - '0' as int
  }

  /**
   * The value of the digits `s[lo..hi]`, most significant first, or `None`
   * when one of them is not a decimal digit.
   */
  function Digits(s: string, lo: nat, hi: nat): Option<nat>
    requires lo <= hi <= |s|
  {
    if hi == lo then Some(0)
    else match Digits(s, lo, hi - 1)
      case Some(v) => if IsDigit(s[hi - 1]) then Some(10 * v + DigitValue(s[hi - 1])) else None
      case None => None
  }

  /** The digits of `s[lo..hi]` have a value exactly when they are all decimal digits. */
  lemma {:induction false} DigitsDefined(s: string, lo: nat, hi: nat)
    requires lo <= hi <= |s|
    ensures Digits(s, lo, hi).Some? <==> forall k :: lo <= k < hi ==> IsDigit(s[k])
  {
    if hi > lo {
      DigitsDefined(s, lo, hi - 1);
    }
  }

  /** Appending text does not change the value of digits before it. */
  lemma {:induction false} DigitsOfPrefix(a: string, b: string, hi: nat)
    requires hi <= |a|
    ensures Digits(a + b, 0, hi) == Digits(a, 0, hi)
  {
    if hi > 0 {
      DigitsOfPrefix(a, b, hi - 1);
      assert (a + b)[hi - 1] == a[hi - 1];
    }
  }

  /** A leading sign shifts the digits after it by one place. */
  lemma {:induction false} DigitsAfterSign(c: char, t: string, hi: nat)
    requires hi <= |t|
    ensures Digits([c] + t, 1, hi + 1) == Digits(t, 0, hi)
  {
    if hi > 0 {
      DigitsAfterSign(c, t, hi - 1);
      assert ([c] + t)[hi] == t[hi - 1];
    }
  }

  /** Python's `str(n)` for `n >= 0`: the shortest decimal numeral of `n`. */
  function ShowNat(n: nat): (r: string)
    ensures |r| > 0 && AllDigits(r)
    ensures |r| > 1 ==> r[0] != '0'
  {
    if n < 10 then [DigitChar(n)] else ShowNat(n / 10) + [DigitChar(n % 10)]
  }

  /** Python's `str(n)` for any integer: a minus sign for negative values. */
  function Show(n: int): (r: string)
    ensures |r| > 0 && (r[0] == '-' <==> n < 0)
  {
    if n < 0 then "-" + ShowNat(-n) else ShowNat(n)
  }

  /**
   * The strings Python's `int(s)` accepts in this model: an optional sign
   * followed by one or more ASCII decimal digits.
   */
  predicate IsIntLiteral(s: string)
  {
    if |s| > 0 && (s[0] == '+' || s[0] == '-') then |s| > 1 && AllDigits(s[1..])
    else |s| > 0 && AllDigits(s)
  }

  /**
   * Python's `int(s)`, with `None` where it raises `ValueError`. Only a
   * leading minus sign makes the value negative.
   */
  function Parse(s: string): (r: Option<int>)
    ensures r.Some? ==> |s| > 0 && (r.value < 0 ==> s[0] == '-') && (s[0] == '-' ==> r.value <= 0)
  {
    if |s| > 0 && (s[0] == '+' || s[0] == '-') then
      if |s| > 1 then
        match Digits(s, 1, |s|)
        case Some(v) => Some(if s[0] == '-' then -(v as int) else v as int)
        case None => None
      else None
    else if |s| > 0 then
      match Digits(s, 0, |s|)
      case Some(v) => Some(v as int)
      case None => None
    else None
  }

  /** `int(s)` succeeds exactly on an optional sign followed by one or more decimal digits. */
  lemma ParseAccepts(s: string)
    ensures Parse(s).Some? <==> IsIntLiteral(s)
  {
    if |s| > 0 && (s[0] == '+' || s[0] == '-') {
      if |s| > 1 {
        DigitsDefined(s, 1, |s|);
        assert AllDigits(s[1..]) <==> forall k :: 1 <= k < |s| ==> IsDigit(s[k]) by {
          assert forall k :: 1 <= k < |s| ==> s[k] == s[1..][k - 1];
        }
      }
    } else if |s| > 0 {
      DigitsDefined(s, 0, |s|);
    }
  }

  /** Reading back a numeral gives the number it was written from. */
  lemma {:induction false} DigitsOfShowNat(n: nat)
    ensures Digits(ShowNat(n), 0, |ShowNat(n)|) == Some(n)
  {
    if n >= 10 {
      var hs := ShowNat(n / 10);
      DigitsOfShowNat(n / 10);
      DigitsOfPrefix(hs, [DigitChar(n % 10)], |hs|);
    }
  }

  /** `int(str(n)) == n` for every integer `n`. */
  lemma ParseShow(n: int)
    ensures Parse(Show(n)) == Some(n)
  {
    if n < 0 {
      var t := ShowNat(-n);
      DigitsOfShowNat(-n);
      DigitsAfterSign('-', t, |t|);
      assert Show(n) == ['-'] + t;
    } else {
      DigitsOfShowNat(n);
      assert IsDigit(Show(n)[0]);
    }
  }

  /** The last code point of a numeral is a digit, never white space or a sign. */
  lemma ShowEndsWithDigit(n: int)
    ensures |Show(n)| > 0 && IsDigit(Show(n)[|Show(n)| - 1])
  {
  }

  function Pow10(k: nat): (p: nat)
    ensures p >= 1
  {
    if k == 0 then 1 else 10 * Pow10(k - 1)
  }

  /** A natural number has at most `k` digits exactly when it is below 10^k. */
  lemma {:induction false} ShowNatLength(n: nat, k: nat)
    requires k >= 1
    ensures |ShowNat(n)| <= k <==> n < Pow10(k)
  {
    if n >= 10 {
      if k == 1 {
        assert Pow10(1) == 10;
      } else {
        ShowNatLength(n / 10, k - 1);
        assert n / 10 < Pow10(k - 1) <==> n < 10 * Pow10(k - 1);
      }
    } else {
      assert Pow10(k) >= 10 by {
        assert Pow10(k) == 10 * Pow10(k - 1);
      }
    }
  }

  /** The non-negative integers with exactly seven decimal digits are those in [1000000, 9999999]. */
  lemma SevenDigits(n: int)
    ensures (1000000 <= n <= 9999999) <==> (n >= 0 && |Show(n)| == 7)
  {
    if n >= 0 {
      ShowNatLength(n, 7);
      ShowNatLength(n, 6);
      assert Pow10(7) == 10000000;
      assert Pow10(6) == 1000000;
    }
  }
}
