/** String helpers the pages rely on through Python built-ins: the substring test
    `sub in s`, `s.split('/')[0]`, `str(n)` for integers and the `:,` format
    specifier (thousands separators). */
module Text {

  // ---------------------------------------------------------------------------
  // Substring test (Python's `sub in s` on strings)
  // ---------------------------------------------------------------------------

  predicate StartsWith(s: string, prefix: string) {
    |prefix| <= |s| && s[..|prefix|] == prefix
  }

  /** `sub` occurs in `s` at position `i`. */
  predicate OccursAt(s: string, sub: string, i: int) {
    0 <= i <= |s| - |sub| && s[i..i + |sub|] == sub
  }

  /** `sub in s`: `sub` occurs somewhere in `s` (the empty string occurs everywhere). */
  predicate Contains(s: string, sub: string)
    ensures Contains(s, sub) ==> |sub| <= |s|
  {
    exists i | 0 <= i <= |s| - |sub| :: OccursAt(s, sub, i)
  }

  /** The scan Python performs: `sub` is in `s` when `s` starts with it or it is in
      the rest of `s` after the first character. */
  lemma ContainsStep(s: string, sub: string)
    ensures Contains(s, sub) <==> StartsWith(s, sub) || (|s| > 0 && Contains(s[1..], sub))
  {
    if StartsWith(s, sub) {
      assert OccursAt(s, sub, 0);
    } else if |s| > 0 {
      if Contains(s, sub) {
        var i :| 0 <= i <= |s| - |sub| && OccursAt(s, sub, i);
        assert i != 0;
        assert s[1..][i - 1..i - 1 + |sub|] == s[i..i + |sub|];
        assert OccursAt(s[1..], sub, i - 1);
      }
      if Contains(s[1..], sub) {
        var j :| 0 <= j <= |s[1..]| - |sub| && OccursAt(s[1..], sub, j);
        assert s[1..][j..j + |sub|] == s[j + 1..j + 1 + |sub|];
        assert OccursAt(s, sub, j + 1);
      }
    }
  }

  /** Every character of an occurring fragment is a character of the string. */
  lemma ContainsHasChars(s: string, sub: string, k: nat)
    requires Contains(s, sub) && k < |sub|
    ensures sub[k] in s
  {
    var i :| 0 <= i <= |s| - |sub| && OccursAt(s, sub, i);
    assert s[i..i + |sub|][k] == s[i + k];
  }

  /** A string that lacks the character at position `k` of `sub` does not contain `sub`. */
  lemma MissingCharNotContained(s: string, sub: string, k: nat)
    requires k < |sub| && sub[k] !in s
    ensures !Contains(s, sub)
  {
    if Contains(s, sub) {
      ContainsHasChars(s, sub, k);
    }
  }

  // ---------------------------------------------------------------------------
  // `s.split('/')[0]`
  // ---------------------------------------------------------------------------

  /** The part of `s` before the first '/', or all of `s` when it has none. */
  function FirstSegment(s: string): (r: string)
    ensures StartsWith(s, r)
    ensures '/' !in r
    ensures '/' !in s ==> r == s
    ensures '/' in s ==> |r| < |s| && s[|r|] == '/'
  {
    if |s| == 0 then ""
    else if s[0] == '/' then ""
    else [s[0]] + FirstSegment(s[1..])
  }

  // ---------------------------------------------------------------------------
  // Decimal notation of integers (`str(n)`) and reading it back
  // ---------------------------------------------------------------------------

  predicate IsDigit(c: char) {
    '0' <= c <= '9'
  }

  predicate AllDigits(s: string) {
    forall k | 0 <= k < |s| :: IsDigit(s[k])
  }

  function DigitChar(d: nat): (c: char)
    requires d < 10
    ensures IsDigit(c)
  {
    (48 + d) as char
  }

  function DigitValue(c: char): (d: nat)
    requires IsDigit(c)
    ensures d < 10
  {
    c as int - 48
  }

  /** `str(n)` for a non-negative integer: at least one digit, no leading zero. */
  function NatToString(n: nat): (r: string)
    ensures |r| >= 1 && AllDigits(r)
    ensures (r[0] == '0') <==> n == 0
    ensures n < 10 ==> |r| == 1
    ensures n < 100 ==> |r| <= 2
    ensures n < 1000 ==> |r| <= 3
    decreases n
  {
    if n < 10 then [DigitChar(n)] else NatToString(n / 10) + [DigitChar(n % 10)]
  }

  /** `str(i)` for any integer: a minus sign before the digits of a negative one. */
  function IntToString(i: int): (r: string)
    ensures i >= 0 ==> AllDigits(r) && ParseNat(r) == i
    ensures i < 0 ==> |r| >= 2 && r[0] == '-' && AllDigits(r[1..]) && ParseNat(r[1..]) == -i
  {
    if i < 0 then
      ParseNatToString(-i);
      assert ("-" + NatToString(-i))[1..] == NatToString(-i);
      "-" + NatToString(-i)
    else
      ParseNatToString(i);
      NatToString(i)
  }

  /** The value of a string of decimal digits (`int(s)`); the empty string reads as 0. */
  function ParseNat(s: string): nat
    requires AllDigits(s)
    decreases |s|
  {
    if |s| == 0 then 0 else ParseNat(s[..|s| - 1]) * 10 + DigitValue(s[|s| - 1])
  }

  /** Reading back the decimal notation gives the number. */
  lemma {:induction false} ParseNatToString(n: nat)
    ensures ParseNat(NatToString(n)) == n
    decreases n
  {
    var s := NatToString(n);
    if n >= 10 {
      ParseNatToString(n / 10);
      assert s[..|s| - 1] == NatToString(n / 10);
    }
  }

  /** Distinct numbers have distinct decimal notations. */
  lemma NatToStringInjective(m: nat, n: nat)
    requires NatToString(m) == NatToString(n)
    ensures m == n
  {
    ParseNatToString(m);
    ParseNatToString(n);
  }

  // ---------------------------------------------------------------------------
  // The `:,` format specifier (thousands separators)
  // ---------------------------------------------------------------------------

  /** Exactly three digits, with leading zeros, for `m < 1000`. */
  function Pad3(m: nat): (r: string)
    requires m < 1000
    ensures |r| == 3 && AllDigits(r)
  {
    [DigitChar(m / 100), DigitChar(m / 10 % 10), DigitChar(m % 10)]
  }

  /** `f"{n:,}"` for a non-negative integer. */
  function GroupThousands(n: nat): string
    decreases n
  {
    if n < 1000 then NatToString(n) else GroupThousands(n / 1000) + "," + Pad3(n % 1000)
  }

  /** `f"{i:,}"` for any integer. */
  function IntWithCommas(i: int): string {
    if i < 0 then "-" + GroupThousands(-i) else GroupThousands(i)
  }

  /** Digit groups separated by commas: a first group of one to three digits, every
      later group exactly three. */
  predicate Grouped(s: string)
    decreases |s|
  {
    || (1 <= |s| <= 3 && AllDigits(s))
    || (|s| > 4 && s[|s| - 4] == ',' && AllDigits(s[|s| - 3..]) && Grouped(s[..|s| - 4]))
  }

  /** The string with every comma removed. */
  function RemoveCommas(s: string): (r: string)
    ensures ',' !in r
    decreases |s|
  {
    if |s| == 0 then "" else (if s[0] == ',' then "" else [s[0]]) + RemoveCommas(s[1..])
  }

  lemma {:induction false} RemoveCommasAppend(a: string, b: string)
    ensures RemoveCommas(a + b) == RemoveCommas(a) + RemoveCommas(b)
    decreases |a|
  {
    if |a| > 0 {
      RemoveCommasAppend(a[1..], b);
      var c := a + b;
      assert c[0] == a[0] && c[1..] == a[1..] + b;
      assert RemoveCommas(c) == (if a[0] == ',' then "" else [a[0]]) + RemoveCommas(a[1..] + b);
    } else {
      assert a + b == b;
    }
  }

  lemma {:induction false} RemoveCommasOfDigits(s: string)
    requires AllDigits(s)
    ensures RemoveCommas(s) == s
    decreases |s|
  {
    if |s| > 0 {
      RemoveCommasOfDigits(s[1..]);
      assert s == [s[0]] + s[1..];
    }
  }

  /** The last three digits of a number of four or more digits are `Pad3(n % 1000)`. */
  lemma NatToStringSplit(n: nat)
    requires n >= 1000
    ensures NatToString(n) == NatToString(n / 1000) + Pad3(n % 1000)
  {
    var q1 := n / 10;
    var q2 := q1 / 10;
    var q3 := q2 / 10;
    assert q3 == n / 1000;
    assert n % 1000 / 100 == q2 % 10;
    assert n % 1000 / 10 % 10 == q1 % 10;
    assert n % 1000 % 10 == n % 10;
    calc {
      NatToString(n);
      NatToString(q1) + [DigitChar(n % 10)];
      NatToString(q2) + [DigitChar(q1 % 10)] + [DigitChar(n % 10)];
      NatToString(q3) + [DigitChar(q2 % 10)] + [DigitChar(q1 % 10)] + [DigitChar(n % 10)];
      NatToString(n / 1000) + Pad3(n % 1000);
    }
  }

  /** The thousands-separated form is well grouped (PEP 378). */
  lemma {:induction false} GroupThousandsGrouped(n: nat)
    ensures Grouped(GroupThousands(n))
    decreases n
  {
    if n >= 1000 {
      GroupThousandsGrouped(n / 1000);
      var g := GroupThousands(n);
      var h := GroupThousands(n / 1000);
      var p := Pad3(n % 1000);
      assert g == h + "," + p;
      assert g[|g| - 4] == ',' && g[|g| - 3..] == p && g[..|g| - 4] == h;
    }
  }

  /** Without its commas the thousands-separated form is the plain decimal form. */
  lemma {:induction false} GroupThousandsDigits(n: nat)
    ensures RemoveCommas(GroupThousands(n)) == NatToString(n)
    decreases n
  {
    if n < 1000 {
      RemoveCommasOfDigits(NatToString(n));
    } else {
      GroupThousandsDigits(n / 1000);
      var h := GroupThousands(n / 1000);
      var p := Pad3(n % 1000);
      assert GroupThousands(n) == h + "," + p;
      RemoveCommasAppend(h + ",", p);
      RemoveCommasAppend(h, ",");
      RemoveCommasOfDigits(p);
      assert RemoveCommas(",") == "";
      NatToStringSplit(n);
    }
  }

  /** The thousands-separated form starts with the first digit of the number, so it
      has no leading zero unless the number is 0. */
  lemma {:induction false} GroupThousandsFirst(n: nat)
    ensures |GroupThousands(n)| >= 1 && GroupThousands(n)[0] == NatToString(n)[0]
    decreases n
  {
    if n >= 1000 {
      GroupThousandsFirst(n / 1000);
      NatToStringSplit(n);
      var h := GroupThousands(n / 1000);
      assert GroupThousands(n) == h + "," + Pad3(n % 1000);
      assert GroupThousands(n)[0] == h[0];
      assert NatToString(n)[0] == NatToString(n / 1000)[0];
    }
  }
}
