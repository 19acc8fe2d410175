/** Decimal numerals as the polling-interval check reads them.

    The check hands the option text to Java's `Long.parseLong`: an optional
    `+` or `-`, then one or more decimal digits, whose value must fit a signed
    64-bit long. Nothing else is checked: zero and negative values pass.

    `Numeral` and `ParseLong` are the reference reading; `ParseLongScan` is the
    library's own left-to-right scan, which accumulates the value negatively and
    rejects an overflow before it happens, proved to agree with the reference. */

module Decimal {
  import opened Wrappers

  const MIN_LONG: int := -0x8000_0000_0000_0000
  const MAX_LONG: int := 0x7fff_ffff_ffff_ffff

  predicate InLongRange(x: int) {
    MIN_LONG <= x <= MAX_LONG
  }

  predicate IsDigit(c: char) {
    '0' <= c <= '9'
  }

  predicate AllDigits(s: string) {
    forall i :: 0 <= i < |s| ==> IsDigit(s[i])
  }

  function DigitValue(c: char): (d: nat)
    requires IsDigit(c)
    ensures d < 10
  {
    (c as int) - ('0' as int)
  }

  function DigitChar(d: nat): (c: char)
    requires d < 10
    ensures IsDigit(c) && DigitValue(c) == d
  {
    (('0' as int) + d) as char
  }

  /** The value of a string of decimal digits, most significant first. */
  function DigitsValue(s: string): nat
    requires AllDigits(s)
    decreases |s|
  {
    if s == [] then 0 else DigitsValue(s[..|s| - 1]) * 10 + DigitValue(s[|s| - 1])
  }

  /** The value of `s` when it is a sign followed by at least one digit, or at
      least one digit alone; `None` for any other string.  No range check. */
  function Numeral(s: string): Option<int> {
    if |s| == 0 then None
    else if s[0] == '-' || s[0] == '+' then
      if |s| > 1 && AllDigits(s[1..]) then
        Some(if s[0] == '-' then -(DigitsValue(s[1..]) as int) else DigitsValue(s[1..]))
      else None
    else if AllDigits(s) then Some(DigitsValue(s))
    else None
  }

  /** `Long.parseLong(s)`: the numeral's value when it fits a long; `None`
      stands for the `NumberFormatException`. */
  function ParseLong(s: string): (r: Option<int>)
    ensures r.Some? ==> InLongRange(r.value)
    ensures r.Some? <==> Numeral(s).Some? && InLongRange(Numeral(s).value)
    ensures r.Some? ==> r == Numeral(s)
  {
    match Numeral(s)
    case Some(v) => if InLongRange(v) then Some(v) else None
    case None => None
  }

  /** Appending a digit multiplies the value by ten and adds the digit. */
  lemma DigitsValueSnoc(s: string, c: char)
    requires AllDigits(s) && IsDigit(c)
    ensures AllDigits(s + [c])
    ensures DigitsValue(s + [c]) == DigitsValue(s) * 10 + DigitValue(c)
  {
    assert (s + [c])[..|s|] == s;
  }

  /** A digit string is worth at least as much as any of its prefixes. */
  lemma {:induction false} DigitsValuePrefix(s: string, j: nat)
    requires AllDigits(s) && j <= |s|
    ensures AllDigits(s[..j])
    ensures DigitsValue(s[..j]) <= DigitsValue(s)
    decreases |s| - j
  {
    if j < |s| {
      DigitsValuePrefix(s, j + 1);
      assert s[..j + 1][..j] == s[..j];
      assert s[..j + 1] == s[..j] + [s[j]];
      DigitsValueSnoc(s[..j], s[j]);
    } else {
      assert s[..j] == s;
    }
  }

  /** Once the digits read so far are worth more than `bound`, the whole
      numeral is out of the range the scan allows. */
  lemma TooLargeRejected(s: string, start: nat, i: nat, bound: int, negative: bool)
    requires start <= i <= |s|
    requires start == 0 || (start == 1 && (s[0] == '-' || s[0] == '+') && |s| > 1)
    requires start == 0 ==> |s| > 0 && '0' <= s[0]
    requires negative <==> start == 1 && s[0] == '-'
    requires bound == (if negative then -MIN_LONG else MAX_LONG)
    requires AllDigits(s[start..i]) && DigitsValue(s[start..i]) > bound
    ensures ParseLong(s) == None
  {
    if Numeral(s).Some? {
      var ds := s[start..];
      assert AllDigits(ds);
      assert ds[..i - start] == s[start..i];
      DigitsValuePrefix(ds, i - start);
      if start == 1 {
        assert ds == s[1..];
      } else {
        assert ds == s;
      }
    }
  }

  /** The scan of `Long.parseLong` (radix 10), step by step: the running value
      is kept negative and compared against `limit` before every step, so it
      never leaves the long range. */
  method ParseLongScan(s: string) returns (r: Option<int>)
    ensures r == ParseLong(s)
  {
    if |s| == 0 {
      return None;
    }
    var negative := false;
    var limit := -MAX_LONG;
    var i := 0;
    if s[0] < '0' {
      if s[0] == '-' {
        negative := true;
        limit := MIN_LONG;
      } else if s[0] != '+' {
        assert !IsDigit(s[0]);
        return None;
      }
      if |s| == 1 {
        return None;
      }
      i := 1;
    }
    var start := i;
    // Java's `limit / radix` truncates toward zero; `limit` is negative.
    var multmin := -((-limit) / 10);
    var result := 0;
    while i < |s|
      invariant start <= i <= |s|
      invariant AllDigits(s[start..i])
      invariant result == -(DigitsValue(s[start..i]) as int)
      invariant limit <= result <= 0
    {
      if !IsDigit(s[i]) {
        assert !AllDigits(s[start..]) by {
          assert s[start..][i - start] == s[i];
        }
        if start == 1 {
          assert s[1..] == s[start..];
        } else {
          assert !IsDigit(s[0]) || !AllDigits(s);
        }
        return None;
      }
      var digit := DigitValue(s[i]);
      assert s[start..i + 1] == s[start..i] + [s[i]];
      DigitsValueSnoc(s[start..i], s[i]);
      if result < multmin {
        TooLargeRejected(s, start, i + 1, -limit, negative);
        return None;
      }
      result := result * 10;
      if result < limit + digit {
        TooLargeRejected(s, start, i + 1, -limit, negative);
        return None;
      }
      result := result - digit;
      i := i + 1;
    }
    assert s[start..i] == s[start..];
    if start == 1 {
      assert s[1..] == s[start..];
    } else {
      assert s[start..] == s;
    }
    r := if negative then Some(result) else Some(-result);
  }

  /** The digits of a natural number, most significant first, without
      leading zeros. */
  function ShowNat(n: nat): (s: string)
    ensures |s| > 0 && AllDigits(s)
    ensures DigitsValue(s) == n
    decreases n
  {
    if n < 10 then [DigitChar(n)]
    else
      var s := ShowNat(n / 10) + [DigitChar(n % 10)];
      DigitsValueSnoc(ShowNat(n / 10), DigitChar(n % 10));
      s
  }

  /** `Long.toString`: a minus sign for negative values, then the digits. */
  function Show(n: int): (s: string)
    ensures |s| > 0
    ensures n < 0 <==> s[0] == '-'
  {
    if n < 0 then "-" + ShowNat(-n) else ShowNat(n)
  }

  /** Every long survives printing and parsing back. */
  lemma ParseShow(n: int)
    requires InLongRange(n)
    ensures ParseLong(Show(n)) == Some(n)
  {
    var s := Show(n);
    if n < 0 {
      assert s[1..] == ShowNat(-n);
    } else {
      assert IsDigit(s[0]);
    }
  }

  /** Parsing is format-only: the default interval, zero and negative values
      are all accepted; the empty string, a lone sign and a fraction are not. */
  lemma ParseLongExamples()
    ensures ParseLong("3600") == Some(3600)
    ensures ParseLong("0") == Some(0)
    ensures ParseLong("-60000") == Some(-60000)
    ensures ParseLong("+7") == Some(7)
    ensures ParseLong("") == None
    ensures ParseLong("-") == None
    ensures ParseLong("1.5") == None
  {
    assert "3600"[..3] == "360" && "360"[..2] == "36" && "36"[..1] == "3";
    assert DigitsValue("3") == 3 && DigitsValue("36") == 36;
    assert DigitsValue("360") == 360 && DigitsValue("3600") == 3600;
    assert "-60000"[1..] == "60000";
    assert "60000"[..4] == "6000" && "6000"[..3] == "600" && "600"[..2] == "60" && "60"[..1] == "6";
    assert "+7"[1..] == "7";
    assert !IsDigit("1.5"[1]);
  }

  /** Every value one past either end of the long range is rejected. */
  lemma ParseLongRange()
    ensures ParseLong(Show(MAX_LONG + 1)) == None
    ensures ParseLong(Show(MIN_LONG - 1)) == None
  {
    assert Show(MIN_LONG - 1)[1..] == ShowNat(-(MIN_LONG - 1));
    assert IsDigit(Show(MAX_LONG + 1)[0]);
  }
}
