/**
 * Base-10 text of integers, as Python's str() and f-strings write them.
 * Used for user mentions, level numbers and leaderboard ranks.
 */
module Decimal {

  predicate IsDigit(c: char) {
    '0' <= c <= '9'
  }

  predicate AllDigits(s: string) {
    forall i :: 0 <= i < |s| ==> IsDigit(s[i])
  }

  function DigitChar(d: nat): (c: char)
    requires d < 10
    ensures IsDigit(c)
    ensures c == '0' <==> d == 0
  {
    ('0' as int + d) as char
  }

  function DigitValue(c: char): (d: nat)
    requires IsDigit(c)
    ensures d < 10 && DigitChar(d) == c
  {
    c as int - '0' as int
  }

  /** The text of a natural number: digits only, at least one, no leading zero. */
  function Natural(n: nat): (s: string)
    ensures 1 <= |s| && AllDigits(s)
    ensures s[0] == '0' ==> n == 0
    decreases n
  {
    if n < 10 then [DigitChar(n)] else Natural(n / 10) + [DigitChar(n % 10)]
  }

  /** Reads a run of digits back as a number (the reference inverse of Natural). */
  function ParseNatural(s: string): nat
    requires AllDigits(s)
    decreases |s|
  {
    if s == [] then 0 else 10 * ParseNatural(s[..|s| - 1]) + DigitValue(s[|s| - 1])
  }

  lemma {:induction false} ParseNaturalInverts(n: nat)
    ensures ParseNatural(Natural(n)) == n
    decreases n
  {
    if n >= 10 {
      var s := Natural(n);
      assert s[..|s| - 1] == Natural(n / 10);
      ParseNaturalInverts(n / 10);
    }
  }

  lemma NaturalInjective(a: nat, b: nat)
    requires Natural(a) == Natural(b)
    ensures a == b
  {
    ParseNaturalInverts(a);
    ParseNaturalInverts(b);
  }

  /** The text of any integer: a minus sign before the digits of a negative one. */
  function Integer(i: int): (s: string)
    ensures 1 <= |s|
    ensures s[0] == '-' <==> i < 0
    ensures i >= 0 ==> AllDigits(s)
  {
    if i < 0 then "-" + Natural(-i) else Natural(i)
  }

  lemma IntegerInjective(a: int, b: int)
    requires Integer(a) == Integer(b)
    ensures a == b
  {
    if a < 0 {
      assert Integer(a)[1..] == Natural(-a);
      assert Integer(b)[1..] == Natural(-b);
      NaturalInjective(-a, -b);
    } else {
      NaturalInjective(a, b);
    }
  }

  /**
   * A run of digits followed by text that starts with a non-digit splits in
   * exactly one way: the digits of a number are recoverable from what follows.
   */
  lemma DigitRunSplits(a: string, x: string, b: string, y: string)
    requires AllDigits(a) && AllDigits(b)
    requires |x| > 0 && !IsDigit(x[0]) && |y| > 0 && !IsDigit(y[0])
    requires a + x == b + y
    ensures a == b && x == y
  {
    assert a == (a + x)[..|a|];
    assert b == (b + y)[..|b|];
    assert x == (a + x)[|a|..];
    assert y == (b + y)[|b|..];
  }
}
