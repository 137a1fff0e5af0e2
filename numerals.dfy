/**
 * Decimal rendering of non-negative integers, as Python's `str(i)` and the
 * format specification `{i:0{w}}` produce it, and the value of a digit string.
 */
module Numerals {

  /** 10^k. */
  function Pow10(k: nat): (p: nat)
    ensures p >= 1
    ensures k >= 1 ==> p >= 10
  {
    if k == 0 then 1 else 10 * Pow10(k - 1)
  }

  lemma {:induction false} Pow10Monotone(a: nat, b: nat)
    requires a <= b
    ensures Pow10(a) <= Pow10(b)
    decreases b
  {
    if a < b {
      Pow10Monotone(a, b - 1);
    }
  }

  predicate IsDigit(c: char) {
    '0' <= c <= '9'
  }

  predicate AllDigits(s: string) {
    forall k :: 0 <= k < |s| ==> IsDigit(s[k])
  }

  function DigitChar(v: nat): (c: char)
    requires v < 10
    ensures IsDigit(c)
  {
    (('0' as int) + v) as char
  }

  function DigitValue(c: char): (v: nat)
    requires IsDigit(c)
    ensures v < 10 && DigitChar(v) == c
  {
    (c as int) - ('0' as int)
  }

  /** Python's `str(n)` for `n >= 0`: the decimal digits, no leading zero. */
  function Decimal(n: nat): (s: string)
    ensures |s| >= 1 && AllDigits(s)
    ensures n >= 10 ==> s[0] != '0'
  {
    if n < 10 then [DigitChar(n)] else Decimal(n / 10) + [DigitChar(n % 10)]
  }

  /** `k` zero characters. */
  function Zeros(k: nat): (s: string)
    ensures |s| == k && AllDigits(s)
  {
    seq(k, _ => '0')
  }

  /**
   * Python's `f"{n:0{w}}"` for `n >= 0`: `str(n)`, left-padded with zeros to a
   * MINIMUM width `w`; a width not above `len(str(n))`, zero included, pads nothing.
   */
  function Pad(n: nat, w: int): string {
    var s := Decimal(n);
    if |s| < w then Zeros(w - |s|) + s else s
  }

  /** The number a digit string denotes (leading zeros allowed). */
  function ValueOf(s: string): (v: nat)
    requires AllDigits(s)
    ensures v < Pow10(|s|)
  {
    if s == [] then 0 else 10 * ValueOf(s[..|s| - 1]) + DigitValue(s[|s| - 1])
  }

  lemma {:induction false} ValueOfDecimal(n: nat)
    ensures ValueOf(Decimal(n)) == n
  {
    var s := Decimal(n);
    if n >= 10 {
      ValueOfDecimal(n / 10);
      assert s[..|s| - 1] == Decimal(n / 10);
    }
  }

  lemma {:induction false} ValueOfZeros(k: nat)
    ensures ValueOf(Zeros(k)) == 0
  {
    if k > 0 {
      assert Zeros(k)[..k - 1] == Zeros(k - 1);
      ValueOfZeros(k - 1);
    }
  }

  /** Leading zeros do not change the value of a digit string. */
  lemma {:induction false} ValueOfLeadingZeros(k: nat, s: string)
    requires AllDigits(s)
    ensures AllDigits(Zeros(k) + s) && ValueOf(Zeros(k) + s) == ValueOf(s)
    decreases |s|
  {
    var t := Zeros(k) + s;
    if s == [] {
      assert t == Zeros(k);
      ValueOfZeros(k);
    } else {
      assert t[..|t| - 1] == Zeros(k) + s[..|s| - 1];
      ValueOfLeadingZeros(k, s[..|s| - 1]);
    }
  }

  /** `str(n)` fits in `k >= 1` characters exactly when `n < 10^k`. */
  lemma {:induction false} DecimalLength(n: nat, k: nat)
    requires k >= 1
    ensures |Decimal(n)| <= k <==> n < Pow10(k)
  {
    if n >= 10 {
      if k == 1 {
        assert Pow10(1) == 10;
      } else {
        DecimalLength(n / 10, k - 1);
      }
    }
  }

  /** Padding is undone by reading the value back: the decimal round trip. */
  lemma {:induction false} PadRoundTrip(n: nat, w: int)
    ensures AllDigits(Pad(n, w)) && ValueOf(Pad(n, w)) == n
    ensures |Pad(n, w)| == if w > |Decimal(n)| then w else |Decimal(n)|
  {
    var s := Decimal(n);
    ValueOfDecimal(n);
    if |s| < w {
      ValueOfLeadingZeros(w - |s|, s);
      assert Pad(n, w) == Zeros(w - |s|) + s;
    } else {
      assert Pad(n, w) == s;
    }
  }

  /** Below `10^w` (for `w >= 1`), the padded label has exactly `w` digits. */
  lemma {:induction false} PadWidth(n: nat, w: nat)
    requires w >= 1 && n < Pow10(w)
    ensures |Pad(n, w)| == w
  {
    DecimalLength(n, w);
  }

  /** The value of a digit string splits at any position `a`. */
  lemma {:induction false} ValueOfSplit(s: string, a: nat)
    requires AllDigits(s) && a <= |s|
    ensures AllDigits(s[..a]) && AllDigits(s[a..])
    ensures ValueOf(s) == ValueOf(s[..a]) * Pow10(|s| - a) + ValueOf(s[a..])
    decreases |s|
  {
    if a < |s| {
      var t := s[..|s| - 1];
      var d := DigitValue(s[|s| - 1]);
      assert t[..a] == s[..a];
      assert s[a..][..|s[a..]| - 1] == t[a..];
      ValueOfSplit(t, a);
      ShiftDigit(ValueOf(s[..a]), Pow10(|t| - a), ValueOf(t[a..]), d);
    } else {
      assert s[a..] == [];
      assert s[..a] == s;
    }
  }

  /** Appending digit `d` to `x * p + y` multiplies the first place value by 10. */
  lemma ShiftDigit(x: int, p: int, y: int, d: int)
    ensures 10 * (x * p + y) + d == x * (10 * p) + (10 * y + d)
  {
  }

  /** The two-digit name of `v < 100`, with a leading zero below 10. */
  function TwoDigit(v: nat): (s: string)
    requires v < 100
    ensures |s| == 2 && AllDigits(s)
  {
    [DigitChar(v / 10), DigitChar(v % 10)]
  }

  /** The two-digit names of the values below `m`. */
  function TwoDigitNames(m: nat): (r: set<string>)
    requires m <= 100
    ensures |r| <= m
  {
    if m == 0 then {} else TwoDigitNames(m - 1) + {TwoDigit(m - 1)}
  }

  lemma {:induction false} TwoDigitNamesHas(m: nat, v: nat)
    requires v < m <= 100
    ensures TwoDigit(v) in TwoDigitNames(m)
  {
    if v < m - 1 {
      TwoDigitNamesHas(m - 1, v);
    }
  }

  /** A two-character digit string is the two-digit name of its value. */
  lemma TwoDigitOf(s: string)
    requires |s| == 2 && AllDigits(s)
    ensures 10 * DigitValue(s[0]) + DigitValue(s[1]) < 100
    ensures s == TwoDigit(10 * DigitValue(s[0]) + DigitValue(s[1]))
  {
  }

  /** There are at most 100 strings of two decimal digits. */
  lemma TwoDigitStringsBound(names: set<string>)
    requires forall s :: s in names ==> |s| == 2 && AllDigits(s)
    ensures |names| <= 100
  {
    var all := TwoDigitNames(100);
    forall s | s in names ensures s in all {
      TwoDigitOf(s);
      TwoDigitNamesHas(100, 10 * DigitValue(s[0]) + DigitValue(s[1]));
    }
    assert all == names + (all - names);
  }

  /** The integers `lo`, ..., `lo + m - 1`. */
  function IntRange(lo: int, m: nat): (r: set<int>)
    ensures |r| == m
    ensures forall i :: i in r <==> lo <= i < lo + m
  {
    if m == 0 then {} else IntRange(lo, m - 1) + {lo + m - 1}
  }

  /** A set of integers inside a window of `m` consecutive values has at most `m` elements. */
  lemma WindowBound(ints: set<int>, lo: int, m: nat)
    requires forall i :: i in ints ==> lo <= i < lo + m
    ensures |ints| <= m
  {
    var window := IntRange(lo, m);
    assert window == ints + (window - ints);
  }
}
