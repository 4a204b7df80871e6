/**
 * Money amounts as whole cents. A repair item's amount is the text of a
 * number input (step 0.01, min 0); the invoice editor turns it into a number
 * with `parseFloat(amount) || 0` and shows totals with `toFixed(2)`.
 * `ParseAmount` reads a plain decimal ("1200", "1200.5", "1200.50", "12.",
 * ".5") into cents and gives None for anything else ("", ".", "1.234",
 * "-5", "1e3"), which the editor then counts as 0.
 */
module Amounts {
  import opened Common
  import opened Text

  function DigitValue(c: char): (r: nat)
    ensures r < 10
  {
    if IsDigit(c) then c as int - '0' as int else 0
  }

  function DigitChar(d: nat): (c: char)
    requires d < 10
    ensures IsDigit(c) && DigitValue(c) == d
  {
    ('0' as int + d) as char
  }

  /** The value of a string of decimal digits, most significant first. */
  function DigitsValue(s: string): nat
  {
    if s == [] then 0 else DigitsValue(s[..|s| - 1]) * 10 + DigitValue(s[|s| - 1])
  }

  /** The decimal spelling of n, without leading zeros. */
  function NatToDigits(n: nat): (r: string)
    ensures |r| > 0
  {
    if n < 10 then [DigitChar(n)] else NatToDigits(n / 10) + [DigitChar(n % 10)]
  }

  lemma {:induction false} NatToDigitsRoundTrip(n: nat)
    ensures AllDigits(NatToDigits(n))
    ensures DigitsValue(NatToDigits(n)) == n
    decreases n
  {
    var s := NatToDigits(n);
    if n >= 10 {
      NatToDigitsRoundTrip(n / 10);
      var high := NatToDigits(n / 10);
      assert s[..|s| - 1] == high;
      AllDigitsMeans(high);
      AllDigitsMeans(s);
    } else {
      AllDigitsMeans(s);
    }
  }

  /** Cents contributed by at most two digits after the decimal point. */
  function FractionCents(frac: string): (r: nat)
    requires |frac| <= 2
    ensures r < 100
  {
    if |frac| == 0 then 0
    else if |frac| == 1 then DigitValue(frac[0]) * 10
    else DigitValue(frac[0]) * 10 + DigitValue(frac[1])
  }

  /** The amount, in cents, that a decimal string denotes; None if it is not one. */
  function ParseAmount(s: string): (r: Option<nat>)
    ensures r.Some? ==> |s| > 0 && (IsDigit(s[0]) || s[0] == '.')
  {
    var k := IndexOf(s, '.');
    var whole := s[..k];
    var frac := if k < |s| then s[k + 1..] else "";
    if (|whole| > 0 || |frac| > 0) && AllDigits(whole) && AllDigits(frac) && |frac| <= 2 then
      Some(DigitsValue(whole) * 100 + FractionCents(frac))
    else
      None
  }

  /** `parseFloat(amount) || 0`, in cents. */
  function AmountOf(s: string): nat
  {
    ParseAmount(s).GetOr(0)
  }

  lemma EmptyAmountIsZero()
    ensures ParseAmount("") == None && AmountOf("") == 0
  {
  }

  /** A leading decimal point is read as a zero whole part; a lone point is no number. */
  lemma LeadingPointAmounts()
    ensures ParseAmount(".5") == Some(50)
    ensures ParseAmount(".") == None
  {
    assert IndexOf(".5", '.') == 0;
    assert ".5"[1..] == "5";
    assert AllDigits("5");
    assert IndexOf(".", '.') == 0;
  }

  /** `(cents / 100).toFixed(2)`. */
  function FormatCents(c: nat): (r: string)
    ensures |r| >= 4 && r[|r| - 3] == '.'
  {
    NatToDigits(c / 100) + "." + [DigitChar(c % 100 / 10), DigitChar(c % 10)]
  }

  /** Formatting a total with two decimals and reading it back gives the same cents. */
  lemma ParseFormatRoundTrip(c: nat)
    ensures ParseAmount(FormatCents(c)) == Some(c)
  {
    var whole := NatToDigits(c / 100);
    var tail := [DigitChar(c % 100 / 10), DigitChar(c % 10)];
    var s := FormatCents(c);
    assert s == whole + ['.'] + tail;
    NatToDigitsRoundTrip(c / 100);
    AllDigitsMeans(whole);
    IndexOfAfterDigits(whole, tail);
    assert s[..|whole|] == whole;
    assert s[|whole| + 1..] == tail;
    AllDigitsMeans(tail);
    assert FractionCents(tail) == c % 100;
    assert DigitsValue(whole) * 100 + c % 100 == c;
  }

  lemma {:induction false} IndexOfAfterDigits(whole: string, tail: string)
    requires AllDigits(whole)
    ensures IndexOf(whole + ['.'] + tail, '.') == |whole|
    decreases |whole|
  {
    if whole != [] {
      assert (whole + ['.'] + tail)[1..] == whole[1..] + ['.'] + tail;
      IndexOfAfterDigits(whole[1..], tail);
    }
  }
}
