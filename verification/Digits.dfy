/**
 Decimal text, and the bound check that never builds a large integer
 (`_bounded_entry_count` in src/aruba_session_tracker/parsers/datapath.py:327-337 and `_bounded_count` in
 src/aruba_session_tracker/offline/parser.py:656-668).
 */
module Digits {
  import opened Wrappers

  predicate IsDigit(c: char) {
    '0' <= c <= '9'
  }

  predicate AllDigits(s: string) {
    forall i :: 0 <= i < |s| ==> IsDigit(s[i])
  }

  function DigitValue(c: char): nat
    requires IsDigit(c)
  {
    (c - '0') as int
  }

  /** `int(s, 10)` of a digit string. */
  function Value(s: string): nat
    requires AllDigits(s)
  {
    if s == "" then 0 else 10 * Value(s[..|s| - 1]) + DigitValue(s[|s| - 1])
  }

  /** `str(n)`. */
  function Decimal(n: nat): (s: string)
    ensures s != "" && AllDigits(s)
  {
    if n < 10 then [('0' as int + n) as char] else Decimal(n / 10) + [('0' as int + n % 10) as char]
  }

  lemma {:induction false} ValueOfDecimal(n: nat)
    ensures Value(Decimal(n)) == n
  {
    var s := Decimal(n);
    if n < 10 {
      assert s[..0] == "";
    } else {
      ValueOfDecimal(n / 10);
      assert s[..|s| - 1] == Decimal(n / 10);
    }
  }

  lemma {:induction false} DecimalNoZero(n: nat)
    ensures n > 0 ==> Decimal(n)[0] != '0'
  {
    if n >= 10 {
      DecimalNoZero(n / 10);
    }
  }

  function Pow10(n: nat): nat {
    if n == 0 then 1 else 10 * Pow10(n - 1)
  }

  lemma {:induction false} ValueBelow(s: string)
    requires AllDigits(s)
    ensures Value(s) < Pow10(|s|)
  {
    if s != "" {
      ValueBelow(s[..|s| - 1]);
    }
  }

  /** The leading digit counts most. */
  lemma {:induction false} ValueHead(s: string)
    requires AllDigits(s) && s != ""
    ensures Value(s) == DigitValue(s[0]) * Pow10(|s| - 1) + Value(s[1..])
  {
    if |s| == 1 {
      assert s[..0] == "" && s[1..] == "";
    } else {
      var init := s[..|s| - 1];
      ValueHead(init);
      assert init[1..] == s[1..][..|s| - 2];
      assert Value(s[1..]) == 10 * Value(init[1..]) + DigitValue(s[|s| - 1]);
      Scale(DigitValue(s[0]), Pow10(|s| - 2));
    }
  }

  lemma Scale(d: nat, p: nat)
    ensures 10 * (d * p) == d * (10 * p)
  {
  }

  // ----- the comparison of the source -----

  /** `value.lstrip("0") or "0"`. */
  function Stripped(s: string): string {
    if s == "" then "0" else if s[0] == '0' then Stripped(s[1..]) else s
  }

  /** String order, as `>` compares. */
  predicate Greater(a: string, b: string) {
    if a == "" then false
    else if b == "" then true
    else if a[0] != b[0] then a[0] > b[0]
    else Greater(a[1..], b[1..])
  }

  lemma {:induction false} StrippedValue(s: string)
    requires AllDigits(s)
    ensures AllDigits(Stripped(s)) && Value(Stripped(s)) == Value(s)
    ensures Stripped(s) != "" && (Stripped(s)[0] != '0' || Stripped(s) == "0")
  {
    if s == "" {
      assert "0"[..0] == "";
    } else if s[0] == '0' {
      StrippedValue(s[1..]);
      ValueHead(s);
    }
  }

  lemma {:induction false} MoreTimes(a: nat, b: nat, p: nat)
    requires a > b
    ensures a * p >= b * p + p
    decreases a
  {
    OneMore(a - 1, p);
    if a > b + 1 {
      MoreTimes(a - 1, b, p);
    }
  }

  lemma OneMore(a: nat, p: nat)
    ensures (a + 1) * p == a * p + p
  {
  }

  /** Between digit strings of one length, string order is the order of the numbers. */
  lemma {:induction false} SameLength(a: string, b: string)
    requires AllDigits(a) && AllDigits(b) && |a| == |b|
    ensures Greater(a, b) <==> Value(a) > Value(b)
  {
    if a != "" {
      ValueHead(a);
      ValueHead(b);
      ValueBelow(a[1..]);
      ValueBelow(b[1..]);
      SameLength(a[1..], b[1..]);
      if a[0] > b[0] {
        MoreTimes(DigitValue(a[0]), DigitValue(b[0]), Pow10(|a| - 1));
      } else if b[0] > a[0] {
        MoreTimes(DigitValue(b[0]), DigitValue(a[0]), Pow10(|a| - 1));
      }
    }
  }

  lemma {:induction false} Pow10Grows(m: nat, n: nat)
    requires m <= n
    ensures Pow10(m) <= Pow10(n)
  {
    if m < n {
      Pow10Grows(m, n - 1);
    }
  }

  /** Without leading zeros a longer number is larger. */
  lemma Longer(a: string, b: string)
    requires AllDigits(a) && AllDigits(b) && |a| > |b| && a[0] != '0'
    ensures Value(a) > Value(b)
  {
    ValueHead(a);
    ValueBelow(b);
    Pow10Grows(|b|, |a| - 1);
    MoreTimes(DigitValue(a[0]), 0, Pow10(|a| - 1));
  }

  /** The count that a footer declares, or None where the source raises. */
  function BoundedCount(value: string, maximum: nat): Option<nat>
    requires AllDigits(value)
  {
    var normalized, limit := Stripped(value), Decimal(maximum);
    StrippedValue(value);
    if |normalized| > |limit| || (|normalized| == |limit| && Greater(normalized, limit)) then None
    else Some(Value(normalized))
  }

  /** The comparison by length and then by string order is the comparison of the numbers, at any length. */
  lemma BoundedCountIff(value: string, maximum: nat)
    requires AllDigits(value)
    ensures BoundedCount(value, maximum) == if Value(value) <= maximum then Some(Value(value)) else None
  {
    var a, b := Stripped(value), Decimal(maximum);
    StrippedValue(value);
    ValueOfDecimal(maximum);
    DecimalNoZero(maximum);
    if |a| > |b| {
      Longer(a, b);
    } else if |a| == |b| {
      SameLength(a, b);
    } else {
      if maximum > 0 {
        Longer(b, a);
      }
    }
  }
}
