/** Decimal digit strings: the value strconv.Atoi reads from them and the zero-padded
    numerals that fmt.Sprint and time.Format write. */
module Decimal {

  predicate IsDigit(c: char) { '0' <= c <= '9' }

  predicate AllDigits(s: string) { forall i :: 0 <= i < |s| ==> IsDigit(s[i]) }

  function DigitValue(c: char): (n: nat)
    requires IsDigit(c)
    ensures n < 10
  {
    c as int - '0' as int
  }

  function DigitChar(n: nat): (c: char)
    requires n < 10
    ensures IsDigit(c) && DigitValue(c) == n
  {
    ('0' as int + n) as char
  }

  function Pow10(w: nat): (p: nat)
    ensures p >= 1
  {
    if w == 0 then 1 else 10 * Pow10(w - 1)
  }

  /** The number a digit string denotes (leading zeros allowed). */
  function Value(s: string): (v: nat)
    requires AllDigits(s)
    ensures v < Pow10(|s|)
    decreases |s|
  {
    if s == [] then 0 else Value(s[..|s| - 1]) * 10 + DigitValue(s[|s| - 1])
  }

  /** n written in decimal, left-padded with zeros to at least `width` digits; with width 1
      this is the plain numeral that fmt.Sprint and strconv.Itoa produce. */
  function Pad(n: nat, width: nat): (s: string)
    ensures |s| >= 1 && AllDigits(s)
    decreases n + width
  {
    if n < 10 && width <= 1 then [DigitChar(n)]
    else Pad(n / 10, if width == 0 then 0 else width - 1) + [DigitChar(n % 10)]
  }

  lemma ValueSnoc(p: string, c: char)
    requires AllDigits(p) && IsDigit(c)
    ensures AllDigits(p + [c]) && Value(p + [c]) == Value(p) * 10 + DigitValue(c)
  {
    assert (p + [c])[..|p|] == p;
  }

  /** Reading back a padded numeral gives the number: Pad is injective for every width. */
  lemma {:induction false} ValueOfPad(n: nat, width: nat)
    ensures Value(Pad(n, width)) == n
    decreases n + width
  {
    if n < 10 && width <= 1 {
      assert Pad(n, width) == [DigitChar(n)];
      assert Value([DigitChar(n)]) == Value([DigitChar(n)][..0]) * 10 + n;
    } else {
      var w := if width == 0 then 0 else width - 1;
      ValueOfPad(n / 10, w);
      ValueSnoc(Pad(n / 10, w), DigitChar(n % 10));
    }
  }

  /** A number below 10^width is written with exactly width digits. */
  lemma {:induction false} PadLength(n: nat, width: nat)
    requires 1 <= width && n < Pow10(width)
    ensures |Pad(n, width)| == width
    decreases width
  {
    if !(n < 10 && width <= 1) {
      assert width >= 2;
      PadLength(n / 10, width - 1);
    }
  }

  /** Padding the value of a digit string to the string's own length gives the string back. */
  lemma {:induction false} PadOfValue(s: string)
    requires |s| >= 1 && AllDigits(s)
    ensures Pad(Value(s), |s|) == s
    decreases |s|
  {
    var p, c := s[..|s| - 1], s[|s| - 1];
    assert s == p + [c];
    ValueSnoc(p, c);
    var n := Value(s);
    if p != [] {
      assert n / 10 == Value(p) && n % 10 == DigitValue(c);
      PadOfValue(p);
      assert DigitChar(DigitValue(c)) == c;
    } else {
      assert DigitChar(DigitValue(c)) == c;
    }
  }
}
