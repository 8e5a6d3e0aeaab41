/** Decimal integer text: the part of Python's `int(str)` and `str(int)` that
    the location store relies on. Accepted text is an optional sign followed
    by one or more ASCII decimal digits. */
module Numerals {
  import opened Wrappers

  predicate IsDigit(c: char)
  {
    '0' <= c <= '9'
  }

  predicate AllDigits(t: string)
  {
    forall i :: 0 <= i < |t| ==> IsDigit(t[i])
  }

  /** One or more decimal digits. */
  predicate IsDigits(t: string)
  {
    |t| > 0 && AllDigits(t)
  }

  /** The grammar of an integer string: optional `+` or `-`, then digits. */
  predicate IsIntString(s: string)
  {
    IsDigits(s) || (|s| > 1 && (s[0] == '+' || s[0] == '-') && IsDigits(s[1..]))
  }

  function DigitValue(c: char): (d: nat)
    requires IsDigit(c)
    ensures d < 10
  {
    c as int - '0' as int
  }

  function DigitChar(d: nat): (c: char)
    requires d < 10
    ensures IsDigit(c) && DigitValue(c) == d
  {
    ('0' as int + d) as char
  }

  /** The value of a digit string, most significant digit first. */
  function DigitsValue(t: string): nat
    requires AllDigits(t)
    decreases |t|
  {
    if t == [] then 0 else DigitsValue(t[..|t| - 1]) * 10 + DigitValue(t[|t| - 1])
  }

  /** `int(s)`: the value of `s`, or `None` where Python raises ValueError. */
  function ParseInt(s: string): (r: Option<int>)
    ensures r.Some? <==> IsIntString(s)
    ensures r.Some? && s[0] != '-' ==> r.value >= 0
    ensures r.Some? && s[0] == '-' ==> r.value <= 0
  {
    if IsDigits(s) then Some(DigitsValue(s) as int)
    else if |s| > 1 && s[0] == '-' && IsDigits(s[1..]) then Some(0 - DigitsValue(s[1..]) as int)
    else if |s| > 1 && s[0] == '+' && IsDigits(s[1..]) then Some(DigitsValue(s[1..]))
    else None
  }

  /** `str(n)` for a natural number: its shortest decimal digits. */
  function NatToString(n: nat): (r: string)
    ensures IsDigits(r) && DigitsValue(r) == n
    ensures |r| > 1 ==> r[0] != '0'
    decreases n
  {
    if n < 10 then [DigitChar(n)]
    else
      var front := NatToString(n / 10);
      var r := front + [DigitChar(n % 10)];
      assert r[..|r| - 1] == front;
      r
  }

  /** `str(n)`: a `-` for negative numbers, then the digits of the magnitude,
      with no leading zero. */
  function IntToString(n: int): (r: string)
    ensures |r| > 0 && forall i :: 0 <= i < |r| ==> r[i] == '-' || IsDigit(r[i])
  {
    if n < 0 then "-" + NatToString(-n) else NatToString(n)
  }

  /** The text of an integer is canonical: it starts with `-` exactly when the
      number is negative, and its digits have no leading zero (so 0 is `0`,
      never `-0` or `00`). Together with `ParseIntToString` this fixes the
      text completely. */
  lemma IntToStringCanonical(n: int)
    ensures IsCanonicalIntString(IntToString(n))
    ensures IntToString(n)[0] == '-' <==> n < 0
  {
    if n < 0 {
      var digits := NatToString(-n);
      assert ("-" + digits)[1..] == digits;
    }
  }

  /** A leading zero does not change the value of a digit string. */
  lemma {:induction false} LeadingZeroValue(t: string)
    requires AllDigits(t)
    ensures AllDigits("0" + t) && DigitsValue("0" + t) == DigitsValue(t)
    decreases |t|
  {
    if t != [] {
      var front := t[..|t| - 1];
      assert ("0" + t)[..|t|] == "0" + front;
      LeadingZeroValue(front);
    }
  }

  /** How `int` treats the forms of the same digits: a `+` changes nothing, a
      `-` negates, and leading zeros are ignored (so `-0` and `007` are 0
      and 7). */
  lemma ParseIntForms(t: string)
    requires IsDigits(t)
    ensures ParseInt("+" + t) == ParseInt(t)
    ensures ParseInt("-" + t).Some? && ParseInt("-" + t).value == -ParseInt(t).value
    ensures ParseInt("0" + t) == ParseInt(t)
  {
    assert ("+" + t)[1..] == t;
    assert ("-" + t)[1..] == t;
    LeadingZeroValue(t);
  }

  /** A digit string without a leading zero is the only one `str` writes for
      its value. */
  lemma {:induction false} NatToStringOfDigits(t: string)
    requires IsDigits(t) && (|t| > 1 ==> t[0] != '0')
    ensures NatToString(DigitsValue(t)) == t
    decreases |t|
  {
    if |t| == 1 {
      assert t == [DigitChar(DigitValue(t[0]))];
    } else {
      var front := t[..|t| - 1];
      assert front[0] == t[0];
      NatToStringOfDigits(front);
      var n := DigitsValue(t);
      assert DigitsValue(front) != 0;
      assert n / 10 == DigitsValue(front) && n % 10 == DigitValue(t[|t| - 1]);
      assert [DigitChar(n % 10)] == [t[|t| - 1]];
      assert t == front + [t[|t| - 1]];
    }
  }

  /** The text `str` writes for integers: an optional `-`, then digits with no
      leading zero, and no `-0`. */
  predicate IsCanonicalIntString(s: string)
  {
    || (IsDigits(s) && (|s| > 1 ==> s[0] != '0'))
    || (|s| > 1 && s[0] == '-' && IsDigits(s[1..]) && s[1] != '0')
  }

  /** Parsing then printing gives back canonical text. */
  lemma IntToStringOfParse(s: string)
    requires IsCanonicalIntString(s)
    ensures ParseInt(s).Some? && IntToString(ParseInt(s).value) == s
  {
    if IsDigits(s) {
      NatToStringOfDigits(s);
    } else {
      NatToStringOfDigits(s[1..]);
      assert DigitsValue(s[1..]) != 0;
      assert s == "-" + s[1..];
    }
  }

  /** Printing then parsing gives back the number: every value `str` writes
      is accepted by `int` and denotes that value. */
  lemma ParseIntToString(n: int)
    ensures IsIntString(IntToString(n))
    ensures ParseInt(IntToString(n)) == Some(n)
  {
    if n < 0 {
      var digits := NatToString(-n);
      assert ("-" + digits)[1..] == digits;
    }
  }
}
