/**
 Decimal integer literals: the part of Python's `int(s, 10)` that the
 coercion of `integer` fields relies on, and `str(i)` for an integer,
 which the project lookup compares identifiers against.
 */
module Decimal {
  import opened Wrappers

  predicate IsDigit(c: char) {
    '0' <= c <= '9'
  }

  function DigitValue(c: char): (d: nat)
    requires IsDigit(c)
    ensures d < 10
  {
    c as int - '0' as int
  }

  function DigitChar(d: nat): (c: char)
    requires d < 10
    ensures IsDigit(c) && DigitValue(c) == d
  {
    ('0' as int + d) as char
  }

  /** A non-empty run of decimal digits. */
  ghost predicate AllDigits(s: string) {
    |s| > 0 && forall i :: 0 <= i < |s| ==> IsDigit(s[i])
  }

  /** The literals the model accepts: digits with an optional sign. */
  ghost predicate IsLiteral(s: string) {
    AllDigits(s) || (|s| >= 2 && (s[0] == '+' || s[0] == '-') && AllDigits(s[1..]))
  }

  /** The value of a run of digits, read left to right; None at the first non-digit. */
  function ParseDigits(s: string): Option<nat>
    decreases |s|
  {
    if |s| == 0 then None
    else
      var last := s[|s| - 1];
      if !IsDigit(last) then None
      else if |s| == 1 then Some(DigitValue(last))
      else
        match ParseDigits(s[..|s| - 1])
        case None => None
        case Some(n) => Some(10 * n + DigitValue(last))
  }

  /** `int(s, 10)`: the value of the literal, or None where Python raises ValueError. */
  function ParseInt(s: string): (r: Option<int>) {
    if |s| > 0 && s[0] == '-' then
      match ParseDigits(s[1..])
      case None => None
      case Some(n) => Some(-(n as int))
    else if |s| > 0 && s[0] == '+' then
      match ParseDigits(s[1..])
      case None => None
      case Some(n) => Some(n)
    else
      match ParseDigits(s)
      case None => None
      case Some(n) => Some(n)
  }

  /** `k` zero digits. */
  function Zeros(k: nat): (s: string)
    ensures |s| == k && forall i :: 0 <= i < k ==> s[i] == '0'
  {
    seq(k, _ => '0')
  }

  /** The shortest decimal rendering of a natural number. */
  function Digits(n: nat): (s: string)
    ensures AllDigits(s)
  {
    if n < 10 then [DigitChar(n)] else Digits(n / 10) + [DigitChar(n % 10)]
  }

  /** `str(i)` for an integer `i`. */
  function IntToString(i: int): string {
    if i < 0 then "-" + Digits(-i) else Digits(i)
  }

  lemma {:induction false} ParseDigitsAccepts(s: string)
    ensures ParseDigits(s).Some? <==> AllDigits(s)
    decreases |s|
  {
    if |s| > 1 {
      var init := s[..|s| - 1];
      ParseDigitsAccepts(init);
      if AllDigits(s) {
        assert forall i :: 0 <= i < |init| ==> init[i] == s[i];
      }
      if AllDigits(init) && IsDigit(s[|s| - 1]) {
        forall i | 0 <= i < |s| ensures IsDigit(s[i]) {
          if i < |init| { assert s[i] == init[i]; }
        }
      }
    }
  }

  /** ParseInt succeeds exactly on the literals IsLiteral describes. */
  lemma ParseIntAccepts(s: string)
    ensures ParseInt(s).Some? <==> IsLiteral(s)
  {
    ParseDigitsAccepts(s);
    if |s| > 0 {
      ParseDigitsAccepts(s[1..]);
    }
  }

  lemma {:induction false} DigitsRoundTrip(n: nat)
    ensures ParseDigits(Digits(n)) == Some(n)
  {
    if n >= 10 {
      DigitsRoundTrip(n / 10);
      var s := Digits(n);
      assert s[..|s| - 1] == Digits(n / 10);
    }
  }

  /** Reading back what `str` wrote gives the original integer. */
  lemma IntRoundTrip(i: int)
    ensures ParseInt(IntToString(i)) == Some(i)
  {
    if i < 0 {
      DigitsRoundTrip(-i);
      assert IntToString(i)[1..] == Digits(-i);
    } else {
      DigitsRoundTrip(i);
      assert IsDigit(Digits(i)[0]);
    }
  }

  /** A leading zero does not change the value of a run of digits. */
  lemma {:induction false} LeadingZero(s: string)
    requires AllDigits(s)
    ensures ParseDigits(['0'] + s) == ParseDigits(s)
    decreases |s|
  {
    var t := ['0'] + s;
    if |s| > 1 {
      var init := s[..|s| - 1];
      assert t[..|t| - 1] == ['0'] + init;
      LeadingZero(init);
    }
  }

  /** Any number of leading zeros before `str(n)` read back as `n`. */
  lemma {:induction false} PaddedDigits(k: nat, n: nat)
    ensures AllDigits(Zeros(k) + Digits(n))
    ensures ParseDigits(Zeros(k) + Digits(n)) == Some(n)
  {
    var s := Zeros(k) + Digits(n);
    forall i | 0 <= i < |s| ensures IsDigit(s[i]) {
      if i >= k {
        assert s[i] == Digits(n)[i - k];
      }
    }
    if k == 0 {
      assert s == Digits(n);
      DigitsRoundTrip(n);
    } else {
      PaddedDigits(k - 1, n);
      assert s == ['0'] + (Zeros(k - 1) + Digits(n));
      LeadingZero(Zeros(k - 1) + Digits(n));
    }
  }

  /**
   The value `int(d, 10)` gives a literal with leading zeros and an
   optional sign: the digits' number, negated under '-' (so "-0" is 0).
   */
  lemma PaddedLiteral(k: nat, n: nat)
    ensures ParseInt(Zeros(k) + Digits(n)) == Some(n)
    ensures ParseInt("+" + Zeros(k) + Digits(n)) == Some(n)
    ensures ParseInt("-" + Zeros(k) + Digits(n)) == Some(-(n as int))
  {
    var s := Zeros(k) + Digits(n);
    PaddedDigits(k, n);
    SignedDigits(s, n);
    assert "+" + Zeros(k) + Digits(n) == "+" + s;
    assert "-" + Zeros(k) + Digits(n) == "-" + s;
  }

  /** A run of digits reads as its number bare or after '+', and as its negation after '-'. */
  lemma SignedDigits(s: string, n: nat)
    requires AllDigits(s) && ParseDigits(s) == Some(n)
    ensures ParseInt(s) == Some(n)
    ensures ParseInt("+" + s) == Some(n)
    ensures ParseInt("-" + s) == Some(-(n as int))
  {
    assert IsDigit(s[0]);
    assert ("+" + s)[1..] == s;
    assert ("-" + s)[1..] == s;
  }
}
