/** Decimal text of numbers as the quote pages print them: `String(n)`, `padStart(2, '0')`,
    `slice(-2)`, `toFixed(2)` and the thousands grouping the renderers apply with
    `replace(/\B(?=(\d{3})+(?!\d))/g, ",")`. */
module Numerals {

  predicate IsDigit(c: char) {
    '0' <= c <= '9'
  }

  predicate IsDigits(s: string) {
    forall i :: 0 <= i < |s| ==> IsDigit(s[i])
  }

  function DigitChar(d: nat): (c: char)
    requires d < 10
    ensures IsDigit(c) && c as int - '0' as int == d
  {
    ('0' as int + d) as char
  }

  /** The number a string of decimal digits denotes. */
  function DigitsValue(s: string): nat
    requires IsDigits(s)
  {
    if s == [] then 0
    else DigitsValue(s[..|s| - 1]) * 10 + (s[|s| - 1] as int - '0' as int)
  }

  /** `String(n)` for a natural number: its shortest decimal text. */
  function NatToString(n: nat): (r: string)
    ensures |r| >= 1 && IsDigits(r)
    ensures DigitsValue(r) == n
    ensures r[0] == '0' ==> n == 0
    ensures r[|r| - 1] == DigitChar(n % 10)
  {
    if n < 10 then [DigitChar(n)]
    else
      var init := NatToString(n / 10);
      var r := init + [DigitChar(n % 10)];
      assert r[..|r| - 1] == init;
      r
  }

  /** `String(x)` for an integer. */
  function IntToString(x: int): (r: string)
    ensures x >= 0 ==> r == NatToString(x)
    ensures x < 0 ==> r == "-" + NatToString(-x)
  {
    if x < 0 then "-" + NatToString(-x) else NatToString(x)
  }

  /** `s.padStart(2, '0')`. */
  function PadStart2(s: string): (r: string)
    ensures |r| == if |s| >= 2 then |s| else 2
    ensures r[|r| - |s|..] == s
    ensures forall i :: 0 <= i < |r| - |s| ==> r[i] == '0'
  {
    if |s| >= 2 then s else seq(2 - |s|, _ => '0') + s
  }

  /** `s.slice(-2)`: the last two characters, or all of a shorter string. */
  function LastTwo(s: string): (r: string)
    ensures |r| == if |s| >= 2 then 2 else |s|
    ensures s[|s| - |r|..] == r
  {
    if |s| >= 2 then s[|s| - 2..] else s
  }

  /** Two decimal digits of a number below one hundred. */
  function TwoDigits(n: nat): (r: string)
    requires n < 100
    ensures |r| == 2 && IsDigits(r) && DigitsValue(r) == n
  {
    var r := [DigitChar(n / 10), DigitChar(n % 10)];
    assert r[..1][..0] == [];
    assert DigitsValue(r[..1]) == n / 10;
    r
  }

  lemma {:induction false} PadStart2OfSmall(n: nat)
    requires n < 100
    ensures PadStart2(NatToString(n)) == TwoDigits(n)
  {
    if n >= 10 {
      assert NatToString(n / 10) == [DigitChar(n / 10)];
    }
  }

  /** The last two decimal digits of `y` are those of `y % 100`. */
  lemma YearDigits(y: nat)
    ensures (y / 10) % 10 == (y % 100) / 10
    ensures y % 10 == (y % 100) % 10
  {
    var q, r := y / 100, y % 100;
    assert y == 10 * (10 * q + r / 10) + r % 10;
    assert y / 10 == 10 * q + r / 10;
  }

  lemma {:induction false} LastTwoOfYear(y: nat)
    requires y >= 10
    ensures LastTwo(NatToString(y)) == TwoDigits(y % 100)
  {
    var s, init := NatToString(y), NatToString(y / 10);
    var a, b := DigitChar((y / 10) % 10), DigitChar(y % 10);
    assert s == init + [b];
    assert init[|init| - 1] == a;
    assert LastTwo(s) == [a, b];
    YearDigits(y);
  }

  // ----- toFixed(2) -----

  function Abs(x: real): real {
    if x < 0.0 then -x else x
  }

  /** The whole number of hundredths nearest to `x`, the larger one on a tie:
      the `n` that `Number.prototype.toFixed(2)` picks for a non-negative `x`. */
  function RoundCents(x: real): (n: nat)
    requires x >= 0.0
    ensures x * 100.0 - 0.5 < n as real <= x * 100.0 + 0.5
  {
    (x * 100.0 + 0.5).Floor
  }

  /** The unsigned text `toFixed(2)` gives for `n` hundredths: the integer digits without
      leading zeros, a point and two decimals. */
  function FixedText(n: nat): (t: string)
    ensures |t| >= 4 && t[|t| - 3] == '.'
    ensures IsDigits(t[..|t| - 3]) && IsDigits(t[|t| - 2..])
    ensures DigitsValue(t[..|t| - 3]) * 100 + DigitsValue(t[|t| - 2..]) == n
    ensures |t| > 4 ==> t[0] != '0'
  {
    var intPart, frac := NatToString(n / 100), TwoDigits(n % 100);
    var t := intPart + "." + frac;
    assert t[..|t| - 3] == intPart && t[|t| - 2..] == frac;
    NoLeadingZero(n / 100);
    t
  }

  /** `x.toFixed(2)`: a sign for negative `x`, the integer digits, a point and two decimals. */
  function ToFixed2(x: real): (r: string)
    ensures |r| >= 4 && r[|r| - 3] == '.'
    ensures (r[0] == '-') <==> x < 0.0
    ensures var body := if x < 0.0 then r[1..] else r;
            && |body| >= 4 && IsDigits(body[..|body| - 3]) && IsDigits(body[|body| - 2..])
            && DigitsValue(body[..|body| - 3]) * 100 + DigitsValue(body[|body| - 2..])
               == RoundCents(Abs(x))
            && (|body| > 4 ==> body[0] != '0')
  {
    var t := FixedText(RoundCents(Abs(x)));
    if x < 0.0 then
      var r := "-" + t;
      assert r[1..] == t;
      r
    else t
  }

  /** `String(n)` starts with `0` only for 0 itself. */
  lemma NoLeadingZero(n: nat)
    ensures |NatToString(n)| > 1 ==> NatToString(n)[0] != '0'
  {
    if n == 0 {
      assert NatToString(0) == [DigitChar(0)];
    }
  }

  /** The integer digits and the two decimals of `ToFixed2(x)`, without the sign. */
  function FixedIntDigits(x: real): (d: string)
    ensures |d| >= 1 && IsDigits(d)
    ensures DigitsValue(d) == RoundCents(Abs(x)) / 100
  {
    NatToString(RoundCents(Abs(x)) / 100)
  }

  // ----- thousands grouping -----

  /** Commas between groups of three digits, counted from the right. */
  function GroupThousands(d: string): string
    decreases |d|
  {
    if |d| <= 3 then d
    else GroupThousands(d[..|d| - 3]) + "," + d[|d| - 3..]
  }

  /** Reference reading of the regular expression `\B(?=(\d{3})+(?!\d))` on a run of
      `n` digits: a comma goes before the digit at position `p` when `p` is not the first
      position and the digits from `p` to the end come in whole groups of three. */
  predicate CommaBefore(n: nat, p: nat) {
    0 < p && (n - p) % 3 == 0
  }

  /** The regex replacement performed left to right, from position `p` of `d` onwards. */
  function ScanGroup(d: string, p: nat): string
    requires p <= |d|
    decreases |d| - p
  {
    if p == |d| then ""
    else (if CommaBefore(|d|, p) then "," else "") + [d[p]] + ScanGroup(d, p + 1)
  }

  lemma {:induction false} ScanGroupTail(d: string, p: nat)
    requires p <= |d| <= p + 3 && (p == 0 || |d| - p < 3)
    ensures ScanGroup(d, p) == d[p..]
    decreases |d| - p
  {
    if p < |d| {
      ScanGroupTail(d, p + 1);
      assert d[p..] == [d[p]] + d[p + 1..];
    }
  }

  /** Scanning `d` up to the last three digits agrees with scanning the shorter string. */
  lemma {:induction false} ScanGroupSplit(d: string, p: nat)
    requires |d| > 3 && p <= |d| - 3
    ensures ScanGroup(d, p) == ScanGroup(d[..|d| - 3], p) + "," + d[|d| - 3..]
    decreases |d| - p
  {
    if p == |d| - 3 {
      ScanGroupAtCut(d);
    } else {
      ScanGroupSplit(d, p + 1);
      ScanGroupStep(d, p);
    }
  }

  /** The last three digits of a longer run are scanned as a comma and the digits. */
  lemma ScanGroupAtCut(d: string)
    requires |d| > 3
    ensures ScanGroup(d, |d| - 3) == ScanGroup(d[..|d| - 3], |d| - 3) + "," + d[|d| - 3..]
  {
    var k := |d| - 3;
    var short, tail := d[..k], d[k + 1..];
    assert ScanGroup(short, k) == "";
    ScanGroupTail(d, k + 1);
    assert CommaBefore(|d|, k);
    assert ScanGroup(d, k) == "," + [d[k]] + tail;
    assert d[k..] == [d[k]] + tail;
    assert "," + [d[k]] + tail == "" + "," + ([d[k]] + tail);
  }

  /** One scanning step before the cut: the same comma decision and digit on both sides. */
  lemma ScanGroupStep(d: string, p: nat)
    requires |d| > 3 && p < |d| - 3
    requires ScanGroup(d, p + 1) == ScanGroup(d[..|d| - 3], p + 1) + "," + d[|d| - 3..]
    ensures ScanGroup(d, p) == ScanGroup(d[..|d| - 3], p) + "," + d[|d| - 3..]
  {
    var k := |d| - 3;
    var short := d[..k];
    var rest, tail := ScanGroup(short, p + 1), d[k..];
    assert CommaBefore(|d|, p) == CommaBefore(|short|, p) by {
      ThreeMore(k - p);
    }
    var x := (if CommaBefore(|d|, p) then "," else "") + [d[p]];
    assert short[p] == d[p];
    assert ScanGroup(d, p) == x + ScanGroup(d, p + 1);
    assert ScanGroup(short, p) == x + rest;
    Regroup4(x, rest, ",", tail);
  }

  lemma ThreeMore(a: nat)
    ensures (a + 3) % 3 == a % 3
  {
  }

  /** The recursive grouping inserts exactly the commas the regular expression inserts. */
  lemma {:induction false} GroupThousandsMatchesRegex(d: string)
    ensures GroupThousands(d) == ScanGroup(d, 0)
    decreases |d|
  {
    if |d| <= 3 {
      ScanGroupTail(d, 0);
    } else {
      GroupThousandsMatchesRegex(d[..|d| - 3]);
      ScanGroupSplit(d, 0);
    }
  }

  /** The text without its commas. */
  function StripCommas(s: string): string
  {
    if s == [] then ""
    else (if s[0] == ',' then "" else [s[0]]) + StripCommas(s[1..])
  }

  lemma {:induction false} StripCommasAppend(a: string, b: string)
    ensures StripCommas(a + b) == StripCommas(a) + StripCommas(b)
    decreases |a|
  {
    if a == [] {
      assert a + b == b;
    } else {
      StripCommasAppend(a[1..], b);
      var c0 := if a[0] == ',' then "" else [a[0]];
      var x, y := StripCommas(a[1..]), StripCommas(b);
      assert (a + b)[0] == a[0];
      assert (a + b)[1..] == a[1..] + b;
      assert StripCommas(a + b) == c0 + (x + y);
      assert StripCommas(a) == c0 + x;
      assert c0 + (x + y) == (c0 + x) + y;
    }
  }

  lemma {:induction false} StripCommasOfDigits(d: string)
    requires IsDigits(d)
    ensures StripCommas(d) == d
    decreases |d|
  {
    if d != [] {
      StripCommasOfDigits(d[1..]);
      assert d == [d[0]] + d[1..];
    }
  }

  lemma StripCommasSkipsComma(s: string)
    ensures StripCommas("," + s) == StripCommas(s)
  {
    assert ("," + s)[1..] == s;
  }

  lemma StripCommasJoin(g: string, head: string, tail: string)
    requires StripCommas(g) == head && StripCommas(tail) == tail
    ensures StripCommas(g + ("," + tail)) == head + tail
  {
    StripCommasAppend(g, "," + tail);
    StripCommasSkipsComma(tail);
  }

  /** Grouping only inserts commas: removing them gives the digits back. */
  lemma {:induction false} GroupThousandsRoundTrip(d: string)
    requires IsDigits(d)
    ensures StripCommas(GroupThousands(d)) == d
    decreases |d|
  {
    if |d| <= 3 {
      StripCommasOfDigits(d);
    } else {
      var k := |d| - 3;
      var head, tail := d[..k], d[k..];
      assert IsDigits(head) && IsDigits(tail);
      var g := GroupThousands(head);
      GroupThousandsRoundTrip(head);
      assert GroupThousands(d) == g + ("," + tail);
      StripCommasOfDigits(tail);
      StripCommasJoin(g, head, tail);
      assert d == head + tail;
    }
  }

  /** `x.toFixed(2).replace(/\B(?=(\d{3})+(?!\d))/g, ",")`. The pattern can only match
      between two digits of the integer part: the decimals are two digits long and the
      sign and the point are not word characters. */
  function MoneyText(x: real): string {
    var n := RoundCents(Abs(x));
    (if x < 0.0 then "-" else "") + GroupThousands(FixedIntDigits(x)) + "." + TwoDigits(n % 100)
  }

  lemma StripCommasFixed(sign: string, g: string, i: string, frac: string)
    requires sign == "" || sign == "-"
    requires StripCommas(g) == i && StripCommas(frac) == frac
    ensures StripCommas(sign + g + "." + frac) == sign + i + "." + frac
  {
    StripCommasAppend(sign + g + ".", frac);
    StripCommasAppend(sign + g, ".");
    StripCommasAppend(sign, g);
    assert StripCommas(sign) == sign by {
      if sign == "-" {
        assert sign[1..] == [];
      }
    }
    assert StripCommas(".") == "." by {
      assert "."[1..] == [];
    }
  }

  lemma Regroup4(a: string, b: string, c: string, d: string)
    ensures a + (b + c + d) == a + b + c + d
  {
  }

  lemma MoneyTextIsGroupedToFixed(x: real)
    ensures StripCommas(MoneyText(x)) == ToFixed2(x)
  {
    var n := RoundCents(Abs(x));
    var sign := if x < 0.0 then "-" else "";
    var i := FixedIntDigits(x);
    var frac := TwoDigits(n % 100);
    var t := FixedText(n);
    assert t == i + "." + frac;
    assert ToFixed2(x) == sign + t by {
      if x < 0.0 {
        assert ToFixed2(x) == "-" + t;
      }
    }
    Regroup4(sign, i, ".", frac);
    GroupThousandsRoundTrip(i);
    StripCommasOfDigits(frac);
    StripCommasFixed(sign, GroupThousands(i), i, frac);
  }
}
