/**
 * Decimal text of natural numbers: Python's `str(n)` for an `n >= 0`
 * (used when a user id is written into a button identifier) and
 * `int(s)` for a string of ASCII digits (used when one is read back).
 */
module Decimal {

  predicate IsDigit(c: char) {
    '0' <= c <= '9'
  }

  /** A non-empty run of ASCII digits: what the regular expression `[0-9]+` accepts. */
  predicate IsDigitString(s: string) {
    |s| > 0 && forall i :: 0 <= i < |s| ==> IsDigit(s[i])
  }

  /** A digit string with no superfluous leading zero: the form `str(n)` produces. */
  predicate IsCanonical(s: string) {
    IsDigitString(s) && (s[0] == '0' ==> |s| == 1)
  }

  function DigitValue(c: char): nat
    requires IsDigit(c)
  {
    (c - '0') as nat
  }

  function DigitChar(d: nat): (c: char)
    requires d < 10
    ensures IsDigit(c) && DigitValue(c) == d
  {
    ('0' as int + d) as char
  }

  /** `int(s)`: the value of a string of decimal digits, most significant first. */
  function Value(s: string): nat
    requires forall i :: 0 <= i < |s| ==> IsDigit(s[i])
  {
    if |s| == 0 then 0 else 10 * Value(s[..|s| - 1]) + DigitValue(s[|s| - 1])
  }

  /** `str(n)` for a natural number `n`. */
  function Show(n: nat): string {
    if n < 10 then [DigitChar(n)] else Show(n / 10) + [DigitChar(n % 10)]
  }

  /** What `str` produces is a non-empty digit string without leading zeros. */
  lemma {:induction false} ShowIsCanonical(n: nat)
    ensures IsCanonical(Show(n))
  {
    if n >= 10 {
      ShowIsCanonical(n / 10);
      var a := Show(n / 10);
      ShowPositive(n / 10);
      assert Show(n) == a + [DigitChar(n % 10)];
      assert Show(n)[0] == a[0];
    }
  }

  /** A positive number is shown without a leading zero. */
  lemma {:induction false} ShowPositive(n: nat)
    requires n > 0
    ensures |Show(n)| > 0 && Show(n)[0] != '0'
  {
    if n >= 10 {
      ShowPositive(n / 10);
      assert Show(n)[0] == Show(n / 10)[0];
    }
  }

  /** `int(str(n)) == n`. */
  lemma {:induction false} ValueOfShow(n: nat)
    ensures IsDigitString(Show(n)) && Value(Show(n)) == n
  {
    ShowIsCanonical(n);
    if n >= 10 {
      var a := Show(n / 10);
      ValueOfShow(n / 10);
      assert Show(n)[..|Show(n)| - 1] == a;
    }
  }

  /** A digit string that starts with a non-zero digit has a positive value. */
  lemma {:induction false} LeadingNonZeroPositive(s: string)
    requires IsDigitString(s) && s[0] != '0'
    ensures Value(s) > 0
  {
    if |s| > 1 {
      LeadingNonZeroPositive(s[..|s| - 1]);
    }
  }

  /**
   * `str(int(s)) == s` exactly for the canonical digit strings; any other digit
   * string (one with a leading zero, such as "007") is normalised.
   */
  lemma {:induction false} ShowOfValue(s: string)
    requires IsDigitString(s)
    ensures Show(Value(s)) == s <==> IsCanonical(s)
  {
    if IsCanonical(s) {
      CanonicalShowOfValue(s);
    } else {
      ShowIsCanonical(Value(s));
    }
  }

  lemma {:induction false} CanonicalShowOfValue(s: string)
    requires IsCanonical(s)
    ensures Show(Value(s)) == s
  {
    if |s| > 1 {
      var p := s[..|s| - 1];
      var c := s[|s| - 1];
      assert p[0] == s[0];
      LeadingNonZeroPositive(p);
      CanonicalShowOfValue(p);
      var n := Value(s);
      assert n == 10 * Value(p) + DigitValue(c);
      assert n / 10 == Value(p) && n % 10 == DigitValue(c);
      assert DigitChar(DigitValue(c)) == c;
      assert s == p + [c];
    } else {
      assert DigitChar(DigitValue(s[0])) == s[0];
    }
  }
}
