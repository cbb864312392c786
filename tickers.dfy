/**
 * Ticker derivation (lib/utils/tickers.ts): a raw symbol cell, a string or a
 * number, is turned into an exchange-qualified ticker, or into UNKNOWN.
 */
module Tickers {
  import opened Js
  import opened PortfolioTypes

  /** ALPHA_TICKER_REGEX, /^[A-Z&\-]+$/ */
  predicate IsAlphaTicker(s: string): (b: bool)
    ensures b ==> |s| > 0 && '.' !in s && (forall i :: 0 <= i < |s| ==> !IsDigit(s[i])) && !IsDigit(s[0]) && !IsNumericTicker(s)
  {
    |s| > 0 && forall i :: 0 <= i < |s| ==> ('A' <= s[i] <= 'Z' || s[i] == '&' || s[i] == '-')
  }

  /** NUMERIC_TICKER_REGEX, /^[0-9]{4,6}$/ */
  predicate IsNumericTicker(s: string): (b: bool)
    ensures b ==> '.' !in s
  {
    4 <= |s| <= 6 && forall i :: 0 <= i < |s| ==> IsDigit(s[i])
  }

  /** /\.(NS|BO)$/ */
  predicate IsQualified(s: string): (b: bool)
    ensures b ==> |s| >= 3 && s[|s| - 3] == '.'
  {
    EndsWith(s, ".NS") || EndsWith(s, ".BO")
  }

  const UNKNOWN_TICKER := DerivedTicker("UNKNOWN", UNKNOWN)

  /** raw.trim().toUpperCase() */
  function Cleaned(raw: string): string
  {
    ToUpper(Trim(raw))
  }

  /** String(Math.trunc(n)); a finite value prints as a plain decimal integer. */
  function TruncatedText(n: Num): string
  {
    match n
    case Finite(x) => IntText(Trunc(x))
    case NaN => "NaN"
    case PosInfinity => "Infinity"
    case NegInfinity => "-Infinity"
  }

  /** A ticker and an exchange that belong together. */
  predicate Agrees(d: DerivedTicker)
  {
    && (d.ticker == "UNKNOWN" <==> d.exchange == UNKNOWN)
    && (d.exchange == NSE ==> EndsWith(d.ticker, ".NS"))
    && (d.exchange == BSE ==> EndsWith(d.ticker, ".BO"))
  }

  lemma SuffixedIsNotUnknown(s: string, suffix: string)
    requires suffix == ".NS" || suffix == ".BO"
    ensures s + suffix != "UNKNOWN"
  {
    var t := s + suffix;
    assert t[|t| - 1] == suffix[2];
  }

  /** Appending a suffix gives a ticker that ends in it and names its exchange. */
  lemma SuffixedAgrees(s: string)
    ensures Agrees(DerivedTicker(s + ".NS", NSE))
    ensures Agrees(DerivedTicker(s + ".BO", BSE))
  {
    SuffixedIsNotUnknown(s, ".NS");
    SuffixedIsNotUnknown(s, ".BO");
    var n, b := s + ".NS", s + ".BO";
    assert n[|n| - 3..] == ".NS";
    assert b[|b| - 3..] == ".BO";
  }

  /** A string that is already qualified keeps the exchange its suffix names. */
  lemma QualifiedAgrees(c: string)
    requires IsQualified(c)
    ensures Agrees(DerivedTicker(c, if EndsWith(c, ".NS") then NSE else BSE))
  {
    assert c[|c| - 3] == '.';
    assert c != "UNKNOWN" by {
      assert "UNKNOWN"[4] != '.';
    }
  }

  function DeriveTicker(raw: JsValue): (r: DerivedTicker)
    ensures Agrees(r)
  {
    match raw
    case Str(s) =>
      var cleaned := Cleaned(s);
      if IsQualified(cleaned) then
        QualifiedAgrees(cleaned);
        DerivedTicker(cleaned, if EndsWith(cleaned, ".NS") then NSE else BSE)
      else if IsAlphaTicker(cleaned) then
        SuffixedAgrees(cleaned);
        DerivedTicker(cleaned + ".NS", NSE)
      else if IsNumericTicker(cleaned) then
        SuffixedAgrees(cleaned);
        DerivedTicker(cleaned + ".BO", BSE)
      else
        UNKNOWN_TICKER
    case Number(n, _) =>
      var code := TruncatedText(n);
      if IsNumericTicker(code) then
        SuffixedAgrees(code);
        DerivedTicker(code + ".BO", BSE)
      else
        UNKNOWN_TICKER
    case _ => UNKNOWN_TICKER
  }

  /** A string that already ends in .NS or .BO is kept, with the exchange its suffix names. */
  lemma QualifiedPassesThrough(s: string)
    requires IsQualified(Cleaned(s))
    ensures DeriveTicker(Str(s)).ticker == Cleaned(s)
    ensures DeriveTicker(Str(s)).exchange == (if EndsWith(Cleaned(s), ".NS") then NSE else BSE)
  {
  }

  /** Neither regex class contains '.', so neither kind of string can look qualified. */
  lemma NoDotNotQualified(s: string)
    requires '.' !in s
    ensures !IsQualified(s)
  {
    assert |s| >= 3 ==> s[|s| - 3] != '.';
  }

  lemma AlphaGetsNse(s: string)
    requires IsAlphaTicker(Cleaned(s))
    ensures DeriveTicker(Str(s)) == DerivedTicker(Cleaned(s) + ".NS", NSE)
  {
    var c := Cleaned(s);
    assert forall i :: 0 <= i < |c| ==> c[i] != '.';
    NoDotNotQualified(c);
  }

  lemma NumericGetsBse(s: string)
    requires IsNumericTicker(Cleaned(s))
    ensures DeriveTicker(Str(s)) == DerivedTicker(Cleaned(s) + ".BO", BSE)
  {
    var c := Cleaned(s);
    assert forall i :: 0 <= i < |c| ==> c[i] != '.';
    NoDotNotQualified(c);
    assert !IsAlphaTicker(c) by {
      assert IsDigit(c[0]);
    }
  }

  lemma {:induction false} NatTextLength(n: nat, d: nat)
    requires d >= 1
    ensures |NatText(n)| <= d <==> n < Pow10(d)
    decreases n
  {
    if n < 10 {
      assert Pow10(d) == 10 * Pow10(d - 1);
    } else {
      if d == 1 {
        assert Pow10(1) == 10;
      } else {
        NatTextLength(n / 10, d - 1);
        assert Pow10(d) == 10 * Pow10(d - 1);
      }
    }
  }

  /** The decimal text of an integer has 4 to 6 digits exactly when 1000 <= k <= 999999. */
  lemma NumericTextRange(k: int)
    ensures IsNumericTicker(IntText(k)) <==> 1000 <= k <= 999999
  {
    if k < 0 {
      assert IntText(k)[0] == '-';
    } else {
      NatTextLength(k, 3);
      NatTextLength(k, 6);
      assert Pow10(3) == 1000 && Pow10(6) == 1000000;
    }
  }

  /**
   * A number is truncated toward zero; it names a BSE code exactly when the
   * truncated value has 4 to 6 digits, so negatives and non-finite values are UNKNOWN.
   */
  lemma NumberInput(n: Num, text: string)
    ensures DeriveTicker(Number(n, text)) ==
      if n.Finite? && 1000 <= Trunc(n.value) <= 999999
      then DerivedTicker(IntText(Trunc(n.value)) + ".BO", BSE)
      else UNKNOWN_TICKER
  {
    match n
    case Finite(x) => NumericTextRange(Trunc(x));
    case NaN => assert !IsDigit('N');
    case PosInfinity => assert !IsDigit('I');
    case NegInfinity => assert !IsDigit('-');
  }

  /** Exactly the inputs none of the three rules accepts become UNKNOWN. */
  lemma UnknownExactly(raw: JsValue)
    ensures DeriveTicker(raw) == UNKNOWN_TICKER <==>
      && !(raw.Str? && (IsQualified(Cleaned(raw.s)) || IsAlphaTicker(Cleaned(raw.s)) || IsNumericTicker(Cleaned(raw.s))))
      && !(raw.Number? && raw.n.Finite? && 1000 <= Trunc(raw.n.value) <= 999999)
  {
    if raw.Number? {
      NumberInput(raw.n, raw.text);
    }
  }

  /** Trimming only looks at the two ends, so a string without padding is simply upper-cased. */
  lemma CleanedUnpadded(s: string)
    requires s == [] || (!IsWhitespace(s[0]) && !IsWhitespace(s[|s| - 1]))
    ensures Cleaned(s) == ToUpper(s)
  {
    TrimUnpadded(s);
  }

  lemma UpperOfUpper(s: string)
    requires forall i :: 0 <= i < |s| ==> !('a' <= s[i] <= 'z')
    ensures ToUpper(s) == s
  {
  }

  lemma AlphaCharIsNotSpace(c: char)
    requires 'A' <= c <= 'Z' || c == '&' || c == '-'
    ensures !IsWhitespace(c)
  {
  }

  /** A string the alphabetic rule accepts is already clean. */
  lemma AlphaTickerIsClean(s: string)
    requires IsAlphaTicker(s)
    ensures Cleaned(s) == s
  {
    AlphaCharIsNotSpace(s[0]);
    AlphaCharIsNotSpace(s[|s| - 1]);
    CleanedUnpadded(s);
    UpperOfUpper(s);
  }

  lemma UpperReliance()
    ensures ToUpper("reliance") == "RELIANCE"
  {
    var up := ToUpper("reliance");
    forall i | 0 <= i < 8 ensures up[i] == "RELIANCE"[i] {
      assert up[i] == UpperChar("reliance"[i]);
    }
  }

  lemma RelianceUnpadded()
    ensures Cleaned("reliance") == ToUpper("reliance")
  {
    assert "reliance"[0] == 'r' && "reliance"[7] == 'e';
    CleanedUnpadded("reliance");
  }

  lemma CleanReliance()
    ensures Cleaned("reliance") == "RELIANCE"
    ensures IsAlphaTicker("RELIANCE")
  {
    RelianceUnpadded();
    UpperReliance();
  }

  lemma ExampleWord()
    ensures DeriveTicker(Str("reliance")) == DerivedTicker("RELIANCE.NS", NSE)
  {
    CleanReliance();
    AlphaGetsNse("reliance");
  }

  lemma Text532174()
    ensures IntText(532174) == "532174"
  {
    assert NatText(5) == "5";
    assert NatText(53) == "53";
    assert NatText(532) == "532";
    assert NatText(5321) == "5321";
    assert NatText(53217) == "53217";
  }

  lemma ExampleCode()
    ensures DeriveTicker(Number(Finite(532174.0), "532174")) == DerivedTicker("532174.BO", BSE)
  {
    NumberInput(Finite(532174.0), "532174");
    assert Trunc(532174.0) == 532174;
    Text532174();
  }

  lemma ExampleSymbolNoise()
    ensures DeriveTicker(Str("???")) == UNKNOWN_TICKER
  {
    CleanNoise();
    NoiseMatchesNoRule();
  }

  lemma CleanNoise()
    ensures Cleaned("???") == "???"
  {
    var s := "???";
    assert s[0] == '?' && s[2] == '?';
    CleanedUnpadded(s);
    UpperOfUpper(s);
  }

  lemma NoiseMatchesNoRule()
    ensures !IsQualified("???") && !IsAlphaTicker("???") && !IsNumericTicker("???")
  {
    var s := "???";
    assert s[0] == '?';
    NoRuleForFirstChar(s);
  }

  /** A three-character string whose first character is neither a dot, a letter, '&', '-' nor a digit matches no rule. */
  lemma NoRuleForFirstChar(s: string)
    requires |s| == 3 && s[0] != '.'
    requires !('A' <= s[0] <= 'Z' || s[0] == '&' || s[0] == '-') && !IsDigit(s[0])
    ensures !IsQualified(s) && !IsAlphaTicker(s) && !IsNumericTicker(s)
  {
  }
}
