/** Token amounts as text: `formatUnits` and `parseUnits` of agent/src/utils/amounts.ts. */
module Amounts {
  import opened Prelude

  function Pow10(d: nat): (r: nat)
    ensures r >= 1
  {
    if d == 0 then 1 else 10 * Pow10(d - 1)
  }

  // === Decimal text ===

  predicate IsDigit(c: char) { '0' <= c <= '9' }

  predicate AllDigits(s: string) { forall k :: 0 <= k < |s| ==> IsDigit(s[k]) }

  function DigitChar(n: nat): char
    requires n < 10
  {
    ('0' as int + n) as char
  }

  function DigitValue(c: char): nat
    requires IsDigit(c)
  {
    c as int - '0' as int
  }

  /** `BigInt.prototype.toString` of a non-negative value. */
  function NatToString(n: nat): (s: string)
    ensures |s| >= 1 && AllDigits(s)
  {
    if n < 10 then [DigitChar(n)] else NatToString(n / 10) + [DigitChar(n % 10)]
  }

  function IntToString(v: int): string {
    if v < 0 then "-" + NatToString(-v) else NatToString(v)
  }

  function DigitsValue(s: string): nat
    requires AllDigits(s)
  {
    if s == [] then 0 else 10 * DigitsValue(s[..|s| - 1]) + DigitValue(s[|s| - 1])
  }

  /** `BigInt(text)`: empty text is zero, an optional sign and digits are a number, anything else throws. */
  function BigIntOf(s: string): Option<int> {
    if s == [] then Some(0)
    else if AllDigits(s) then Some(DigitsValue(s))
    else if |s| >= 2 && s[0] == '-' && AllDigits(s[1..]) then
      var magnitude: int := DigitsValue(s[1..]);
      Some(-magnitude)
    else if |s| >= 2 && s[0] == '+' && AllDigits(s[1..]) then Some(DigitsValue(s[1..]))
    else None
  }

  // === String helpers of the language ===

  function PadEnd(s: string, width: nat, c: char): string {
    if |s| >= width then s else s + Repeat(c, width - |s|)
  }

  /** `replace(/0+$/, '')`. */
  function TrimZeros(s: string): string {
    if s != [] && s[|s| - 1] == '0' then TrimZeros(s[..|s| - 1]) else s
  }

  /** `split('.')`. */
  function SplitDots(s: string): (parts: seq<string>)
    ensures |parts| >= 1
  {
    var k := FindIndex(s, c => c == '.');
    if k == |s| then [s] else [s[..k]] + SplitDots(s[k + 1..])
  }

  // === The printer and the parser ===

  /** BigInt division truncates toward zero. */
  function TruncDiv(a: int, b: int): int
    requires b > 0
  {
    if a >= 0 then a / b else -((-a) / b)
  }

  function TruncRem(a: int, b: int): int
    requires b > 0
  {
    a - TruncDiv(a, b) * b
  }

  function FormatUnits(raw: int, decimals: nat): string {
    FormatParts(TruncDiv(raw, Pow10(decimals)), TruncRem(raw, Pow10(decimals)), decimals)
  }

  function FormatParts(whole: int, fraction: int, decimals: nat): string {
    if fraction == 0 then IntToString(whole)
    else IntToString(whole) + "." + FractionText(fraction, decimals)
  }

  /** The printed fraction: zero-padded on the left, trimmed on the right. */
  function FractionText(fraction: int, decimals: nat): string {
    TrimZeros(PadStart(IntToString(fraction), decimals, '0'))
  }

  function OrZero(s: string): string { if s == [] then "0" else s }

  /** `None` where `BigInt` throws a SyntaxError. */
  function ParseUnits(value: string, decimals: nat): Option<int> {
    var parts := SplitDots(value);
    var wholePart := parts[0];
    var fractionPart := if |parts| >= 2 then parts[1] else "";
    var normalized := Take(PadEnd(fractionPart, decimals, '0'), decimals);
    match (BigIntOf(OrZero(wholePart)), BigIntOf(OrZero(normalized)))
    case (Some(w), Some(f)) => Some(w * Pow10(decimals) + f)
    case _ => None
  }

  // === Properties ===

  lemma {:induction false} DigitsOfNat(n: nat)
    ensures DigitsValue(NatToString(n)) == n
  {
    if n >= 10 {
      var s := NatToString(n);
      assert s[..|s| - 1] == NatToString(n / 10);
      DigitsOfNat(n / 10);
    }
  }

  lemma {:induction false} NatToStringWidth(n: nat, d: nat)
    requires n < Pow10(d) && d >= 1
    ensures |NatToString(n)| <= d
  {
    if n >= 10 {
      if d == 1 {
        assert false;
      } else {
        NatToStringWidth(n / 10, d - 1);
      }
    }
  }

  lemma {:induction false} LeadingZeros(k: nat, s: string)
    requires AllDigits(s)
    ensures AllDigits(Repeat('0', k) + s)
    ensures DigitsValue(Repeat('0', k) + s) == DigitsValue(s)
  {
    var t := Repeat('0', k) + s;
    if s != [] {
      assert t[..|t| - 1] == Repeat('0', k) + s[..|s| - 1];
      LeadingZeros(k, s[..|s| - 1]);
    } else if k > 0 {
      assert t[..|t| - 1] == Repeat('0', k - 1) + s;
      LeadingZeros(k - 1, s);
    }
  }

  lemma {:induction false} TrimThenPad(s: string)
    ensures |TrimZeros(s)| <= |s|
    ensures TrimZeros(s) == s[..|TrimZeros(s)|]
    ensures PadEnd(TrimZeros(s), |s|, '0') == s
    ensures TrimZeros(s) != [] ==> TrimZeros(s)[|TrimZeros(s)| - 1] != '0'
  {
    if s != [] && s[|s| - 1] == '0' {
      var r := s[..|s| - 1];
      TrimThenPad(r);
      assert PadEnd(TrimZeros(s), |s|, '0') == PadEnd(TrimZeros(r), |r|, '0') + "0";
    }
  }

  lemma {:induction false} TrimmedAwayMeansZero(s: string)
    requires AllDigits(s) && TrimZeros(s) == []
    ensures DigitsValue(s) == 0
  {
    if s != [] { TrimmedAwayMeansZero(s[..|s| - 1]); }
  }

  predicate NoDots(s: string) { forall k :: 0 <= k < |s| ==> s[k] != '.' }

  lemma SplitOnce(a: string, b: string)
    requires NoDots(a) && NoDots(b)
    ensures SplitDots(a) == [a]
    ensures SplitDots(a + "." + b) == [a, b]
  {
    var s := a + "." + b;
    var k := FindIndex(s, c => c == '.');
    assert s[|a|] == '.';
    assert forall j :: 0 <= j < |a| ==> s[j] == a[j];
    assert k == |a|;
    assert s[..k] == a && s[k + 1..] == b;
    assert FindIndex(b, c => c == '.') == |b|;
  }

  lemma PaddedDigits(fraction: nat, decimals: nat)
    requires 0 < fraction < Pow10(decimals)
    ensures var padded := PadStart(NatToString(fraction), decimals, '0');
      decimals >= 1 && |padded| == decimals && AllDigits(padded) && DigitsValue(padded) == fraction
  {
    assert decimals >= 1;
    NatToStringWidth(fraction, decimals);
    var n := NatToString(fraction);
    assert PadStart(n, decimals, '0') == Repeat('0', decimals - |n|) + n;
    LeadingZeros(decimals - |n|, n);
    DigitsOfNat(fraction);
  }

  /** The fraction is digits only, never ends in zero, and has between one and `decimals` of them. */
  lemma FractionIsCanonical(fraction: nat, decimals: nat)
    requires 0 < fraction < Pow10(decimals)
    ensures var t := FractionText(fraction, decimals);
            1 <= |t| <= decimals && AllDigits(t) && t[|t| - 1] != '0'
            && AllDigits(PadEnd(t, decimals, '0'))
            && |PadEnd(t, decimals, '0')| == decimals
            && DigitsValue(PadEnd(t, decimals, '0')) == fraction
  {
    PaddedDigits(fraction, decimals);
    TrimmedDigits(PadStart(NatToString(fraction), decimals, '0'));
  }

  lemma TrimmedDigits(padded: string)
    requires AllDigits(padded) && DigitsValue(padded) > 0
    ensures var t := TrimZeros(padded);
      1 <= |t| <= |padded| && AllDigits(t) && t[|t| - 1] != '0' && PadEnd(t, |padded|, '0') == padded
  {
    TrimThenPad(padded);
    if TrimZeros(padded) == [] { TrimmedAwayMeansZero(padded); }
  }

  lemma ParseWhole(w: string, whole: nat, raw: int, decimals: nat)
    requires w != [] && AllDigits(w) && DigitsValue(w) == whole && raw == whole * Pow10(decimals)
    ensures ParseUnits(w, decimals) == Some(raw)
  {
    SplitOnce(w, "");
    var zeros := PadEnd("", decimals, '0');
    assert zeros == Repeat('0', decimals) + "";
    LeadingZeros(decimals, "");
    assert BigIntOf(OrZero(zeros)) == Some(0);
  }

  lemma ParseFraction(w: string, t: string, whole: nat, fraction: nat, raw: int, decimals: nat)
    requires w != [] && AllDigits(w) && DigitsValue(w) == whole
    requires t != [] && AllDigits(t)
    requires AllDigits(PadEnd(t, decimals, '0')) && |PadEnd(t, decimals, '0')| == decimals
    requires DigitsValue(PadEnd(t, decimals, '0')) == fraction && raw == whole * Pow10(decimals) + fraction
    ensures ParseUnits(w + "." + t, decimals) == Some(raw)
  {
    SplitOnce(w, t);
  }

  lemma TruncatesLikeEuclid(a: nat, b: int)
    requires b > 0
    ensures TruncDiv(a, b) == a / b >= 0 && TruncRem(a, b) == a % b
    ensures a == (a / b) * b + a % b
  {
  }

  lemma PartsRoundTrip(whole: nat, fraction: nat, raw: int, decimals: nat)
    requires fraction < Pow10(decimals) && raw == whole * Pow10(decimals) + fraction
    ensures ParseUnits(FormatParts(whole, fraction, decimals), decimals) == Some(raw)
  {
    var w, t := NatToString(whole), FractionText(fraction, decimals);
    DigitsOfNat(whole);
    if fraction == 0 {
      ParseWhole(w, whole, raw, decimals);
    } else {
      FractionIsCanonical(fraction, decimals);
      ParseFraction(w, t, whole, fraction, raw, decimals);
      assert FormatParts(whole, fraction, decimals) == w + "." + t;
    }
  }

  /** Printing and then parsing gives the raw amount back, for every amount and every precision. */
  lemma FormatParseRoundTrip(raw: nat, decimals: nat)
    ensures ParseUnits(FormatUnits(raw, decimals), decimals) == Some(raw)
  {
    var scale := Pow10(decimals);
    TruncatesLikeEuclid(raw, scale);
    PartsRoundTrip(raw / scale, raw % scale, raw, decimals);
  }

  /** Distinct amounts print differently. */
  lemma FormatIsInjective(a: nat, b: nat, decimals: nat)
    requires FormatUnits(a, decimals) == FormatUnits(b, decimals)
    ensures a == b
  {
    FormatParseRoundTrip(a, decimals);
    FormatParseRoundTrip(b, decimals);
  }

  // === Negative amounts ===

  lemma IntRoundTrip(v: int)
    ensures IntToString(v) != [] && NoDots(IntToString(v)) && BigIntOf(IntToString(v)) == Some(v)
  {
    var digits := NatToString(if v < 0 then -v else v);
    DigitsOfNat(if v < 0 then -v else v);
    assert forall k :: 0 <= k < |digits| ==> IsDigit(digits[k]);
    if v < 0 {
      var s := "-" + digits;
      assert s[1..] == digits;
      assert !IsDigit(s[0]);
      assert forall k :: 1 <= k < |s| ==> s[k] == digits[k - 1];
    }
  }

  /** Trimming, padding back and cutting to `d` characters leaves the first `d` of the text. */
  lemma TrimPadTake(s: string, d: nat)
    requires d <= |s|
    ensures Take(PadEnd(TrimZeros(s), d, '0'), d) == s[..d]
  {
    TrimThenPad(s);
  }

  function Combined(base: int, fraction: Option<int>): Option<int> {
    match fraction
    case None => None
    case Some(f) => Some(base + f)
  }

  lemma ParseParts(w: string, t: string, whole: int, fraction: Option<int>, base: int, decimals: nat)
    requires w != [] && NoDots(w) && NoDots(t) && BigIntOf(w) == Some(whole) && base == whole * Pow10(decimals)
    requires BigIntOf(OrZero(Take(PadEnd(t, decimals, '0'), decimals))) == fraction
    ensures ParseUnits(w + "." + t, decimals) == Combined(base, fraction)
  {
    SplitOnce(w, t);
  }

  /** What is left of a negative fraction after it is printed, padded and cut. */
  function ReadBack(fraction: int, decimals: nat): Option<int>
    requires fraction < 0
  {
    var width, cut := |IntToString(fraction)|, (-fraction) / 10;
    if width == decimals then Some(fraction)
    else if width == decimals + 1 && decimals >= 2 then Some(0 - cut)
    else None
  }

  lemma NegativeText(fraction: int, decimals: nat)
    requires 0 - Pow10(decimals) < fraction < 0
    ensures decimals >= 1 && IntToString(fraction) == "-" + NatToString(-fraction)
    ensures 2 <= |IntToString(fraction)| <= decimals + 1
  {
    assert decimals >= 1;
    NatToStringWidth(-fraction, decimals);
  }

  lemma PaddedFraction(text: string, decimals: nat)
    requires NoDots(text) && decimals >= 1
    ensures var t := TrimZeros(PadStart(text, decimals, '0'));
      NoDots(t) && OrZero(Take(PadEnd(t, decimals, '0'), decimals)) == PadStart(text, decimals, '0')[..decimals]
  {
    var padded := PadStart(text, decimals, '0');
    TrimThenPad(padded);
    TrimPadTake(padded, decimals);
  }

  lemma SignAfterPadding(text: string, width: nat)
    requires text != [] && text[0] == '-' && |text| < width
    ensures BigIntOf(PadStart(text, width, '0')) == None
  {
    var s := PadStart(text, width, '0');
    assert s[0] == '0' && s[width - |text|] == '-';
    assert !IsDigit(s[width - |text|]);
  }

  lemma CutLastDigit(n: nat)
    ensures var s := NatToString(n);
      AllDigits(s[..|s| - 1]) && DigitsValue(s[..|s| - 1]) == n / 10 && (|s| == 1 <==> n < 10)
  {
    DigitsOfNat(n);
    var s := NatToString(n);
    if n >= 10 {
      assert s[..|s| - 1] == NatToString(n / 10);
      DigitsOfNat(n / 10);
    }
  }

  lemma SignedPrefix(digits: string, n: int)
    requires AllDigits(digits) && DigitsValue(digits) == n
    ensures BigIntOf("-" + digits) == if digits == [] then None else Some(0 - n)
  {
    var s := "-" + digits;
    assert s[1..] == digits;
    assert !IsDigit(s[0]);
  }

  lemma SignInFront(fraction: int, text: string, decimals: nat)
    requires fraction < 0 && text == IntToString(fraction) && |text| == decimals + 1
    ensures BigIntOf(text[..decimals]) == if decimals >= 2 then Some(0 - (-fraction) / 10) else None
  {
    var digits := NatToString(-fraction);
    CutLastDigit(-fraction);
    assert text[..decimals] == "-" + digits[..|digits| - 1];
    SignedPrefix(digits[..|digits| - 1], (-fraction) / 10);
  }

  /** The sign stands where a digit should: behind the padding it is refused, in front it costs the last digit. */
  lemma NegativeFraction(fraction: int, decimals: nat)
    requires 0 - Pow10(decimals) < fraction < 0
    ensures var t := FractionText(fraction, decimals);
      && NoDots(t)
      && BigIntOf(OrZero(Take(PadEnd(t, decimals, '0'), decimals))) == ReadBack(fraction, decimals)
  {
    var text := IntToString(fraction);
    NegativeText(fraction, decimals);
    IntRoundTrip(fraction);
    PaddedFraction(text, decimals);
    if |text| < decimals {
      assert PadStart(text, decimals, '0')[..decimals] == PadStart(text, decimals, '0');
      SignAfterPadding(text, decimals);
    } else if |text| == decimals {
      assert text[..decimals] == text;
    } else {
      SignInFront(fraction, text, decimals);
    }
  }

  lemma TruncatesNegative(raw: int, b: int)
    requires raw < 0 < b
    ensures -b < TruncRem(raw, b) <= 0 && raw == TruncDiv(raw, b) * b + TruncRem(raw, b)
  {
    var m := -raw;
    assert m == (m / b) * b + m % b;
  }

  /** What a negative amount with a fraction is read back as; `base` is the whole part in raw units. */
  lemma NegativeParses(whole: int, fraction: int, base: int, decimals: nat)
    requires 0 - Pow10(decimals) < fraction < 0 && base == whole * Pow10(decimals)
    ensures ParseUnits(FormatParts(whole, fraction, decimals), decimals) == Combined(base, ReadBack(fraction, decimals))
  {
    var w, t, f := IntToString(whole), FractionText(fraction, decimals), ReadBack(fraction, decimals);
    assert FormatParts(whole, fraction, decimals) == w + "." + t;
    assert NoDots(t) && BigIntOf(OrZero(Take(PadEnd(t, decimals, '0'), decimals))) == f by {
      NegativeFraction(fraction, decimals);
    }
    assert w != [] && NoDots(w) && BigIntOf(w) == Some(whole) by { IntRoundTrip(whole); }
    ParseParts(w, t, whole, f, base, decimals);
  }

  lemma NegativeWhole(whole: int, base: int, decimals: nat)
    requires base == whole * Pow10(decimals)
    ensures ParseUnits(IntToString(whole), decimals) == Some(base)
  {
    IntRoundTrip(whole);
    SplitOnce(IntToString(whole), "");
    var zeros := PadEnd("", decimals, '0');
    assert zeros == Repeat('0', decimals) + "";
    LeadingZeros(decimals, "");
    assert BigIntOf(OrZero(zeros)) == Some(0);
  }

  function ReadAs(fraction: int, base: int, decimals: nat): Option<int>
    requires fraction <= 0
  {
    if fraction == 0 then Some(base) else Combined(base, ReadBack(fraction, decimals))
  }

  lemma ReadAsIff(read: Option<int>, raw: int, fraction: int, base: int, decimals: nat)
    requires 0 - Pow10(decimals) < fraction <= 0 && raw == base + fraction && read == ReadAs(fraction, base, decimals)
    ensures read == Some(raw) <==> fraction == 0 || |IntToString(fraction)| == decimals
  {
    if fraction < 0 { NegativeText(fraction, decimals); }
  }

  lemma ZeroFraction(whole: int, base: int, decimals: nat)
    requires base == whole * Pow10(decimals)
    ensures ParseUnits(FormatParts(whole, 0, decimals), decimals) == Some(base)
  {
    assert FormatParts(whole, 0, decimals) == IntToString(whole);
    NegativeWhole(whole, base, decimals);
  }

  lemma NegativeFormatted(raw: int, whole: int, fraction: int, base: int, decimals: nat)
    requires whole == TruncDiv(raw, Pow10(decimals)) && fraction == TruncRem(raw, Pow10(decimals))
    requires base == whole * Pow10(decimals) && 0 - Pow10(decimals) < fraction <= 0
    ensures ParseUnits(FormatUnits(raw, decimals), decimals) == ReadAs(fraction, base, decimals)
  {
    assert FormatUnits(raw, decimals) == FormatParts(whole, fraction, decimals);
    if fraction == 0 { ZeroFraction(whole, base, decimals); } else { NegativeParses(whole, fraction, base, decimals); }
  }

  /**
   * The sign of a negative fraction is printed after the dot, in the place of a digit. The round trip holds
   * exactly for amounts that are not negative, whole amounts, and fractions that fill their places sign included.
   */
  lemma RoundTripIff(raw: int, decimals: nat)
    ensures ParseUnits(FormatUnits(raw, decimals), decimals) == Some(raw)
       <==> raw >= 0 || TruncRem(raw, Pow10(decimals)) == 0
            || |IntToString(TruncRem(raw, Pow10(decimals)))| == decimals
  {
    if raw >= 0 {
      FormatParseRoundTrip(raw, decimals);
    } else {
      var whole, fraction := TruncDiv(raw, Pow10(decimals)), TruncRem(raw, Pow10(decimals));
      TruncatesNegative(raw, Pow10(decimals));
      var base := whole * Pow10(decimals);
      NegativeFormatted(raw, whole, fraction, base, decimals);
      ReadAsIff(ParseUnits(FormatUnits(raw, decimals), decimals), raw, fraction, base, decimals);
    }
  }

  lemma ReadBackExamples()
    ensures Pow10(1) == 10 && Pow10(2) == 100
    ensures ReadBack(-5, 2) == Some(-5) && ReadBack(-5, 1) == None && ReadBack(-50, 2) == Some(-5)
  {
    assert Pow10(2) == 10 * Pow10(1) && Pow10(1) == 10 * Pow10(0);
    assert |NatToString(5)| == 1 && |NatToString(50)| == |NatToString(5)| + 1;
  }

  /** Minus 0.05, minus 1.5, minus 1.50: the first comes back, the second is refused, the third becomes minus 1.05. */
  lemma NegativeExamples()
    ensures ParseUnits(FormatUnits(-5, 2), 2) == Some(-5)
    ensures ParseUnits(FormatUnits(-15, 1), 1) == None
    ensures ParseUnits(FormatUnits(-150, 2), 2) == Some(-105)
  {
    ReadBackExamples();
    NegativeFormatted(-5, 0, -5, 0, 2);
    NegativeFormatted(-15, -1, -5, -10, 1);
    NegativeFormatted(-150, -1, -50, -100, 2);
  }
}
