/**
 Decimal text of integers, as `fmt.Sprintf("%d", n)` and the JSON encoder write
 them (an optional minus sign followed by the digits, most significant first, no
 leading zeros), and a parser that reads such text back from the front of a
 string. Parsers return what they read together with the rest of the input.
 */
module Decimal {
  import opened Sdk

  /** A value read from the front of a string, and the unread rest. */
  datatype Parsed<+T> = Parsed(value: T, rest: string)

  predicate IsDigit(c: char) {
    '0' <= c <= '9'
  }

  predicate AllDigits(s: string) {
    forall i :: 0 <= i < |s| ==> IsDigit(s[i])
  }

  function DigitChar(d: nat): (c: char)
    requires d < 10
    ensures IsDigit(c)
  {
    ('0' as int + d) as char
  }

  function DigitValue(c: char): (d: nat)
    requires IsDigit(c)
    ensures d < 10 && DigitChar(d) == c
  {
    c as int - '0' as int
  }

  /** The digits of n, most significant first. */
  function NatToDecimal(n: nat): (s: string)
    ensures |s| >= 1 && AllDigits(s)
    ensures n < 10 <==> |s| == 1
    ensures |s| > 1 ==> s[0] != '0'
  {
    if n < 10 then [DigitChar(n)] else NatToDecimal(n / 10) + [DigitChar(n % 10)]
  }

  /** `%d`: a minus sign before the digits of a negative number. */
  function IntToDecimal(n: int): string {
    if n < 0 then "-" + NatToDecimal(-n) else NatToDecimal(n)
  }

  /** The number a run of digits denotes. */
  function DigitsValue(ds: string): nat
    requires AllDigits(ds)
  {
    if ds == [] then 0 else DigitsValue(ds[..|ds| - 1]) * 10 + DigitValue(ds[|ds| - 1])
  }

  /** The length of the run of digits at the front of s. */
  function DigitRun(s: string): (k: nat)
    ensures k <= |s| && AllDigits(s[..k])
    ensures k < |s| ==> !IsDigit(s[k])
  {
    if s == [] || !IsDigit(s[0]) then 0 else 1 + DigitRun(s[1..])
  }

  /**
   Reads the longest non-empty run of digits at the front of s. As in a JSON
   number, a run of more than one digit may not start with `0`.
   */
  function ParseNat(s: string): Option<Parsed<nat>> {
    var k := DigitRun(s);
    if k == 0 || (k > 1 && s[0] == '0') then None else Some(Parsed(DigitsValue(s[..k]), s[k..]))
  }

  /** Reads an optional minus sign followed by digits at the front of s. */
  function ParseInt(s: string): Option<Parsed<int>> {
    var negative := |s| > 0 && s[0] == '-';
    var p :- ParseNat(if negative then s[1..] else s);
    var v: int := if negative then 0 - p.value else p.value;
    Some(Parsed(v, p.rest))
  }

  /** Consumes the literal lit at the front of s. */
  function Expect(s: string, lit: string): (r: Option<string>)
    ensures r.Some? <==> lit <= s
    ensures r.Some? ==> s == lit + r.value
  {
    if lit <= s then Some(s[|lit|..]) else None
  }

  lemma {:induction false} DigitsValueOfDecimal(n: nat)
    ensures DigitsValue(NatToDecimal(n)) == n
  {
    if n >= 10 {
      var s := NatToDecimal(n);
      DigitsValueOfDecimal(n / 10);
      assert s[..|s| - 1] == NatToDecimal(n / 10);
      assert DigitValue(s[|s| - 1]) == n % 10;
    }
  }

  lemma {:induction false} DigitRunStopsAfter(ds: string, rest: string)
    requires AllDigits(ds)
    requires rest == [] || !IsDigit(rest[0])
    ensures DigitRun(ds + rest) == |ds|
  {
    if ds != [] {
      assert (ds + rest)[1..] == ds[1..] + rest;
      DigitRunStopsAfter(ds[1..], rest);
    }
  }

  /** The digits of a natural number read back as that number. */
  lemma NatRoundTrip(m: nat, rest: string)
    requires rest == [] || !IsDigit(rest[0])
    ensures ParseNat(NatToDecimal(m) + rest) == Some(Parsed(m, rest))
  {
    var ds := NatToDecimal(m);
    DigitRunStopsAfter(ds, rest);
    DigitsValueOfDecimal(m);
    assert (ds + rest)[..|ds|] == ds;
    assert (ds + rest)[|ds|..] == rest;
    assert (ds + rest)[0] == ds[0];
  }

  /** A minus sign before a readable natural number reads as its negation. */
  lemma SignedInt(t: string, m: nat, rest: string)
    requires ParseNat(t) == Some(Parsed(m, rest))
    ensures ParseInt("-" + t) == Some(Parsed(0 - m, rest))
  {
    assert ("-" + t)[1..] == t;
  }

  /** The text of a negative integer is a minus sign before the digits of its magnitude. */
  lemma NegativeText(n: int, m: nat, rest: string)
    requires n < 0 && m == -n
    ensures IntToDecimal(n) + rest == "-" + (NatToDecimal(m) + rest)
  {
  }

  /** The text of a negative integer reads back as that integer. */
  lemma NegativeRoundTrip(n: int, rest: string)
    requires n < 0
    requires rest == [] || !IsDigit(rest[0])
    ensures ParseInt(IntToDecimal(n) + rest) == Some(Parsed(n, rest))
  {
    var m: nat := -n;
    var t := NatToDecimal(m) + rest;
    NatRoundTrip(m, rest);
    SignedInt(t, m, rest);
    NegativeText(n, m, rest);
  }

  /** The text of a non-negative integer reads back as that integer. */
  lemma NonNegativeRoundTrip(n: nat, rest: string)
    requires rest == [] || !IsDigit(rest[0])
    ensures ParseInt(IntToDecimal(n) + rest) == Some(Parsed(n as int, rest))
  {
    var ds := NatToDecimal(n);
    NatRoundTrip(n, rest);
    var s := IntToDecimal(n) + rest;
    assert s == ds + rest;
    assert IsDigit(s[0]);
  }

  /**
   The decimal text of any integer, negative ones included, reads back as that
   integer, provided what follows it does not start with a digit.
   */
  lemma IntRoundTrip(n: int, rest: string)
    requires rest == [] || !IsDigit(rest[0])
    ensures ParseInt(IntToDecimal(n) + rest) == Some(Parsed(n, rest))
  {
    if n < 0 {
      NegativeRoundTrip(n, rest);
    } else {
      NonNegativeRoundTrip(n, rest);
    }
  }

  /** A zero followed by further digits is not a number, with or without a sign. */
  lemma LeadingZeroRejected(s: string)
    requires |s| >= 2 && s[0] == '0' && IsDigit(s[1])
    ensures ParseNat(s) == None
    ensures ParseInt(s) == None && ParseInt("-" + s) == None
  {
    assert DigitRun(s) > 1 by {
      assert s[1..][0] == s[1];
    }
    assert ("-" + s)[1..] == s;
  }

  /** The decimal text of an integer never contains the separator `_`. */
  lemma NoUnderscore(n: int)
    ensures '_' !in IntToDecimal(n)
  {
    var m: nat := if n < 0 then -n else n;
    var ds := NatToDecimal(m);
    assert forall i :: 0 <= i < |ds| ==> ds[i] != '_';
  }
}
