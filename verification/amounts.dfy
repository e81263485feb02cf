/**
 * The amount text of the bill form: the pattern `setAmount` lets through
 * (BillViewModel.kt, `^\d*\.?\d{0,2}$`) and the number `saveBill` reads from
 * the text with `toDoubleOrNull`, for plain decimal notation.
 */
module Amounts {

  import opened Wrappers
  import opened Text

  /** The length of the run of decimal digits at the start of `s`. */
  function DigitRun(s: string): (n: nat)
    ensures n <= |s| && AllDigits(s[..n])
    ensures n < |s| ==> !IsDigit(s[n])
  {
    if s == [] || !IsDigit(s[0]) then 0
    else
      var m := DigitRun(s[1..]);
      assert s[..m + 1] == [s[0]] + s[1..][..m];
      m + 1
  }

  /**
   * `^\d*\.?\d{0,2}$` read as a language: a run of digits, or a run of
   * digits, a point and at most two digits. (Without the point the pattern
   * is `\d*\d{0,2}`, which is just a run of digits.)
   */
  ghost predicate AmountSyntax(s: string)
  {
    || AllDigits(s)
    || exists k :: 0 <= k < |s| && AllDigits(s[..k]) && s[k] == '.' && AllDigits(s[k + 1..]) && |s| - k - 1 <= 2
  }

  /** The match `setAmount` asks for: the leading digits, then the end or a point, at most two digits and the end. */
  predicate MatchesAmount(s: string)
  {
    var n := DigitRun(s);
    n == |s| || (s[n] == '.' && AllDigits(s[n + 1..]) && |s| - n - 1 <= 2)
  }

  /** On a string of digits the run is the whole string. */
  lemma {:induction false} DigitRunAll(s: string)
    requires AllDigits(s)
    ensures DigitRun(s) == |s|
  {
    if s != [] {
      DigitRunAll(s[1..]);
    }
  }

  /** The run ends at the first character that is not a digit. */
  lemma {:induction false} DigitRunStops(s: string, k: nat)
    requires k < |s| && AllDigits(s[..k]) && !IsDigit(s[k])
    ensures DigitRun(s) == k
  {
    if k > 0 {
      assert IsDigit(s[..k][0]);
      assert s[1..][..k - 1] == s[1..k];
      DigitRunStops(s[1..], k - 1);
    }
  }

  /** The matcher accepts exactly the pattern's language. */
  lemma MatchesAmountIff(s: string)
    ensures MatchesAmount(s) <==> AmountSyntax(s)
  {
    var n := DigitRun(s);
    if MatchesAmount(s) && n == |s| {
      assert s[..n] == s;
    }
    if AmountSyntax(s) {
      if AllDigits(s) {
        DigitRunAll(s);
      } else {
        var k :| 0 <= k < |s| && AllDigits(s[..k]) && s[k] == '.' && AllDigits(s[k + 1..]) && |s| - k - 1 <= 2;
        DigitRunStops(s, k);
      }
    }
  }

  /** The empty text matches, so `setAmount("")` always clears the amount. */
  lemma EmptyMatches()
    ensures MatchesAmount("")
  {
  }

  function Pow10(n: nat): (r: real)
    ensures r >= 1.0
  {
    if n == 0 then 1.0 else 10.0 * Pow10(n - 1)
  }

  /** `m` times ten to the power `e`. */
  function Scale(m: real, e: int): real
  {
    if e >= 0 then m * Pow10(e) else m / Pow10(-e)
  }

  /** The exponent part: nothing (0), or `e`/`E`, an optional sign and at least one digit. */
  function ParseExponent(s: string): Option<int>
  {
    if s == [] then Some(0)
    else if s[0] != 'e' && s[0] != 'E' then None
    else
      var t := s[1..];
      var negative := t != [] && t[0] == '-';
      var digits := if t != [] && (t[0] == '+' || t[0] == '-') then t[1..] else t;
      if digits == [] || !AllDigits(digits) then None
      else
        var v: int := DigitsValue(digits);
        Some(if negative then -v else v)
  }

  /** The number the digits before and after the point spell. */
  function Mantissa(whole: string, fraction: string): (m: real)
    requires AllDigits(whole) && AllDigits(fraction)
    ensures m >= 0.0
  {
    DigitsValue(whole) as real + DigitsValue(fraction) as real / Pow10(|fraction|)
  }

  /**
   * An unsigned decimal: digits, optionally a point and more digits (at
   * least one digit in all), then an optional exponent, and nothing else.
   */
  function ParseUnsigned(s: string): Option<real>
  {
    var n := DigitRun(s);
    var rest := s[n..];
    var hasPoint := rest != [] && rest[0] == '.';
    var afterPoint := if hasPoint then rest[1..] else [];
    var f := DigitRun(afterPoint);
    var fraction := afterPoint[..f];
    var tail := if hasPoint then afterPoint[f..] else rest;
    if n + f == 0 then None
    else match ParseExponent(tail)
      case None => None
      case Some(e) =>
        Some(Scale(Mantissa(s[..n], fraction), e))
  }

  /**
   * `String.toDoubleOrNull()` on decimal notation: an optional sign, then an
   * unsigned decimal; anything else is not a number.
   */
  function ToDoubleOrNull(s: string): Option<real>
  {
    if s != [] && (s[0] == '+' || s[0] == '-') then
      match ParseUnsigned(s[1..])
      case None => None
      case Some(v) => Some(if s[0] == '-' then -v else v)
    else ParseUnsigned(s)
  }

  lemma ScaleByNothing(m: real)
    ensures Scale(m, 0) == m
  {
    assert Pow10(0) == 1.0;
  }

  /** A text that starts with a digit or a point has no sign to strip. */
  lemma UnsignedText(s: string)
    requires s != [] ==> IsDigit(s[0]) || s[0] == '.'
    ensures ToDoubleOrNull(s) == ParseUnsigned(s)
  {
  }

  /** A run of digits reads as its value. */
  lemma DigitsParse(s: string)
    requires s != [] && AllDigits(s)
    ensures ParseUnsigned(s) == Some(Mantissa(s, []))
  {
    DigitRunAll(s);
    assert s[..|s|] == s && s[|s|..] == [];
    assert DigitRun([]) == 0 && ParseExponent([]) == Some(0);
    ScaleByNothing(Mantissa(s, []));
  }

  /** Digits, a point and digits (at least one digit in all) read as the whole part plus the fraction. */
  lemma PointParse(s: string, n: nat)
    requires n == DigitRun(s) && n < |s| && s[n] == '.' && AllDigits(s[n + 1..])
    requires n > 0 || n + 1 < |s|
    ensures ParseUnsigned(s) == Some(Mantissa(s[..n], s[n + 1..]))
  {
    var rest := s[n..];
    var afterPoint := s[n + 1..];
    DigitRunAll(afterPoint);
    var f := |afterPoint|;
    assert rest != [] && rest[0] == '.' && rest[1..] == afterPoint;
    assert afterPoint[..f] == afterPoint && afterPoint[f..] == [];
    assert ParseExponent([]) == Some(0);
    ScaleByNothing(Mantissa(s[..n], afterPoint));
  }

  /**
   * Every text `setAmount` accepts reads as a number except "" and ".", and
   * the number is never negative.
   */
  lemma MatchedAmountParses(s: string)
    requires MatchesAmount(s)
    ensures ToDoubleOrNull(s).None? <==> s == "" || s == "."
    ensures ToDoubleOrNull(s).Some? ==> ToDoubleOrNull(s).value >= 0.0
  {
    var n := DigitRun(s);
    if n > 0 {
      assert IsDigit(s[..n][0]);
    }
    UnsignedText(s);
    if n == |s| {
      assert s[..n] == s;
      if s != [] {
        DigitsParse(s);
      } else {
        assert ParseUnsigned(s) == None;
      }
    } else if s == "." {
      assert ParseUnsigned(s) == None;
    } else {
      assert n > 0 || n + 1 < |s|;
      PointParse(s, n);
    }
  }

  /** "0.00" passes `setAmount` but reads as zero, so `saveBill` rejects it. */
  lemma ZeroAmountMatches()
    ensures MatchesAmount("0.00") && ToDoubleOrNull("0.00") == Some(0.0)
  {
    var s := "0.00";
    DigitRunStops(s, 1);
    assert s[..1] == "0" && s[2..] == "00";
    assert DigitsValue("00") == 0 && DigitsValue("0") == 0;
    PointParse(s, 1);
    UnsignedText(s);
  }
}
