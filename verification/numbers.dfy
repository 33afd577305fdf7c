/**
 * Decimal rendering of integers: `int.ToString()`, the fixed-width fields of
 * the date patterns, and the "N0" format (digits grouped by thousands, en-US).
 */
module Numbers {
  import opened Text

  predicate IsDigit(c: char) {
    '0' <= c <= '9'
  }

  predicate AllDigits(s: string) {
    forall i :: 0 <= i < |s| ==> IsDigit(s[i])
  }

  function DigitChar(d: int): (c: char)
    requires 0 <= d <= 9
    ensures IsDigit(c) && DigitValue(c) == d
  {
    ('0' as int + d) as char
  }

  function DigitValue(c: char): int
    requires IsDigit(c)
  {
    c as int - '0' as int
  }

  /** The number a string of decimal digits denotes (leading zeros allowed). */
  function DigitsValue(s: string): nat
    requires AllDigits(s)
    decreases |s|
  {
    if |s| == 0 then 0 else DigitsValue(s[..|s| - 1]) * 10 + DigitValue(s[|s| - 1])
  }

  /** `n.ToString()` for a natural number: the shortest digit string that denotes `n`. */
  function NatToString(n: nat): (r: string)
    ensures |r| > 0 && AllDigits(r)
    ensures |r| > 1 ==> r[0] != '0'
    ensures DigitsValue(r) == n
    decreases n
  {
    if n < 10 then
      [DigitChar(n)]
    else
      var front := NatToString(n / 10);
      var r := front + [DigitChar(n % 10)];
      assert r[..|r| - 1] == front;
      r
  }

  /** `i.ToString()`: a minus sign exactly for negative numbers, then the digits of the magnitude. */
  function IntToString(i: int): (r: string)
    ensures |r| > 0 && BraceFree(r)
    ensures r[0] == '-' <==> i < 0
    ensures i < 0 ==> AllDigits(r[1..]) && DigitsValue(r[1..]) == -i
    ensures i >= 0 ==> AllDigits(r) && DigitsValue(r) == i
    ensures i >= 0 && |r| > 1 ==> r[0] != '0'
    ensures i < 0 ==> |r| >= 2 && (|r| > 2 ==> r[1] != '0')
  {
    if i < 0 then
      var r := "-" + NatToString(-i);
      assert r[1..] == NatToString(-i);
      r
    else
      NatToString(i)
  }

  lemma DigitsValueSnoc(s: string, c: char)
    requires AllDigits(s) && IsDigit(c)
    ensures AllDigits(s + [c]) && DigitsValue(s + [c]) == DigitsValue(s) * 10 + DigitValue(c)
  {
    assert (s + [c])[..|s|] == s;
  }

  /** Two-digit zero-padded field ("dd", "MM", "HH", "mm", "ss"). */
  function Pad2(n: int): (r: string)
    requires 0 <= n < 100
    ensures |r| == 2 && AllDigits(r) && DigitsValue(r) == n
  {
    DigitsValueSnoc([], DigitChar(n / 10));
    DigitsValueSnoc([DigitChar(n / 10)], DigitChar(n % 10));
    [DigitChar(n / 10)] + [DigitChar(n % 10)]
  }

  /** Three-digit zero-padded group, as printed after a thousands separator. */
  function Pad3(n: int): (r: string)
    requires 0 <= n < 1000
    ensures |r| == 3 && AllDigits(r) && DigitsValue(r) == n
  {
    DigitsValueSnoc(Pad2(n / 10), DigitChar(n % 10));
    Pad2(n / 10) + [DigitChar(n % 10)]
  }

  /** Four-digit zero-padded field ("yyyy"). */
  function Pad4(n: int): (r: string)
    requires 0 <= n < 10000
    ensures |r| == 4 && AllDigits(r) && DigitsValue(r) == n
  {
    DigitsValueSnoc(Pad3(n / 10), DigitChar(n % 10));
    Pad3(n / 10) + [DigitChar(n % 10)]
  }

  // ---------------------------------------------------------------------------
  // "N0": thousands separators
  // ---------------------------------------------------------------------------

  /** The digits of `n` in groups of three separated by commas. */
  function GroupThousands(n: nat): (r: string)
    ensures |r| > 0 && BraceFree(r) && IsDigit(r[0])
    decreases n
  {
    if n < 1000 then NatToString(n) else GroupThousands(n / 1000) + "," + Pad3(n % 1000)
  }

  /** `i.ToString("N0")` for an integer under the en-US culture: sign, then grouped digits. */
  function FormatN0(i: int): (r: string)
    ensures |r| > 0 && BraceFree(r)
    ensures r[0] == '-' <==> i < 0
  {
    if i < 0 then "-" + GroupThousands(-i) else GroupThousands(i)
  }

  /** Drops every group separator. */
  function RemoveSeparators(s: string): string
    decreases |s|
  {
    if |s| == 0 then "" else (if s[0] == ',' then "" else [s[0]]) + RemoveSeparators(s[1..])
  }

  lemma {:induction false} RemoveSeparatorsAppend(a: string, b: string)
    ensures RemoveSeparators(a + b) == RemoveSeparators(a) + RemoveSeparators(b)
    decreases |a|
  {
    if |a| > 0 {
      assert (a + b)[1..] == a[1..] + b;
      RemoveSeparatorsAppend(a[1..], b);
    } else {
      assert a + b == b;
    }
  }

  lemma {:induction false} RemoveSeparatorsOfDigits(s: string)
    requires AllDigits(s)
    ensures RemoveSeparators(s) == s
    decreases |s|
  {
    if |s| > 0 {
      RemoveSeparatorsOfDigits(s[1..]);
    }
  }

  /** The last three digits of a number of four or more digits form its final group. */
  lemma NatToStringLastGroup(n: nat)
    requires n >= 1000
    ensures NatToString(n) == NatToString(n / 1000) + Pad3(n % 1000)
  {
    var q, m := n / 1000, n % 1000;
    assert n / 10 / 10 == n / 100 && n / 100 / 10 == q;
    assert m / 10 / 10 == n / 100 % 10 && m / 10 % 10 == n / 10 % 10 && m % 10 == n % 10;
    calc {
      NatToString(n);
      NatToString(n / 10) + [DigitChar(n % 10)];
      NatToString(n / 100) + [DigitChar(n / 10 % 10)] + [DigitChar(n % 10)];
      NatToString(q) + [DigitChar(n / 100 % 10)] + [DigitChar(n / 10 % 10)] + [DigitChar(n % 10)];
      NatToString(q) + Pad3(m);
    }
  }

  /** Removing the separators from the grouped form gives back plain `ToString()`. */
  lemma {:induction false} GroupThousandsDigits(n: nat)
    ensures RemoveSeparators(GroupThousands(n)) == NatToString(n)
    decreases n
  {
    if n < 1000 {
      RemoveSeparatorsOfDigits(NatToString(n));
    } else {
      GroupThousandsDigits(n / 1000);
      RemoveSeparatorsAppend(GroupThousands(n / 1000) + ",", Pad3(n % 1000));
      RemoveSeparatorsAppend(GroupThousands(n / 1000), ",");
      RemoveSeparatorsOfDigits(Pad3(n % 1000));
      NatToStringLastGroup(n);
    }
  }

  /** "N0" differs from `ToString()` only by its separators. */
  lemma FormatN0Digits(i: int)
    ensures RemoveSeparators(FormatN0(i)) == IntToString(i)
  {
    if i < 0 {
      var g := GroupThousands(-i);
      GroupThousandsDigits(-i);
      RemoveSeparatorsAppend("-", g);
      assert "-"[1..] == "";
      assert RemoveSeparators("-") == "-";
      assert FormatN0(i) == "-" + g;
    } else {
      GroupThousandsDigits(i);
    }
  }
}
