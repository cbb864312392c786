/**
 * The popular-symbol check (lib/utils/popular.ts): a holding is popular when
 * its ticker base is on the whitelist, or when its name contains a
 * whitelisted base, both compared in upper case.
 */
module Popular {
  import opened Js

  /** POPULAR_BASES, in the order of the source's set literal. */
  const POPULAR_BASES: seq<string> := [
    "RELIANCE", "TCS", "INFY", "HDFCBANK", "ICICIBANK", "SBIN", "AXISBANK", "KOTAKBANK",
    "ITC", "LT", "LTIM", "HINDUNILVR", "TATAMOTORS", "MARUTI", "TATAPOWER", "TATACONSUMER",
    "PIDILITIND", "ASTRAL", "POLYCAB", "ASIANPAINT", "ULTRACEMCO", "BHARTIARTL", "SUNPHARMA",
    "BAJFINANCE", "BAJAJFINSV", "HCLTECH", "WIPRO", "TECHM", "POWERGRID", "NTPC", "ONGC",
    "COALINDIA", "TITAN", "NESTLEIND", "BRITANNIA", "ADANIENT", "ADANIPORTS"]

  /** `v || ""` for a string that may be null. */
  function OrEmpty(v: Option<string>): string
  {
    match v case Some(s) => s case None => ""
  }

  /** (ticker || "").toUpperCase().split(".")[0] */
  function TickerBase(ticker: Option<string>): (base: string)
    ensures '.' !in base
    ensures |base| <= |OrEmpty(ticker)| && base == ToUpper(OrEmpty(ticker))[..|base|]
    ensures |base| < |OrEmpty(ticker)| ==> ToUpper(OrEmpty(ticker))[|base|] == '.'
  {
    BeforeFirst(ToUpper(OrEmpty(ticker)), '.')
  }

  /** The `for ... of` scan from index k on, returning at the first base the name contains. */
  function AnyIncludedFrom(nameUpper: string, k: nat): (found: bool)
    requires k <= |POPULAR_BASES|
    ensures found <==> exists j :: k <= j < |POPULAR_BASES| && Includes(nameUpper, POPULAR_BASES[j])
    decreases |POPULAR_BASES| - k
  {
    if k == |POPULAR_BASES| then false
    else if Includes(nameUpper, POPULAR_BASES[k]) then true
    else AnyIncludedFrom(nameUpper, k + 1)
  }

  /** isPopularSymbol: listed base, or a listed base inside the upper-cased name. */
  function IsPopularSymbol(ticker: Option<string>, name: Option<string>): (popular: bool)
    ensures popular <==>
      || TickerBase(ticker) in POPULAR_BASES
      || exists sym :: sym in POPULAR_BASES && Includes(ToUpper(OrEmpty(name)), sym)
  {
    if TickerBase(ticker) in POPULAR_BASES then true
    else
      var found := AnyIncludedFrom(ToUpper(OrEmpty(name)), 0);
      assert found ==> exists j :: 0 <= j < |POPULAR_BASES| && Includes(ToUpper(OrEmpty(name)), POPULAR_BASES[j]);
      found
  }

  /** Upper and lower case give the same answer, in either argument. */
  lemma CaseInsensitive(ticker: string, name: string)
    ensures IsPopularSymbol(Some(ToLower(ticker)), Some(ToLower(name))) == IsPopularSymbol(Some(ticker), Some(name))
  {
    UpperOfLower(ticker);
    UpperOfLower(name);
  }

  /** A null ticker or name reads as the empty string. */
  lemma NullReadsAsEmpty(ticker: Option<string>, name: Option<string>)
    ensures IsPopularSymbol(None, name) == IsPopularSymbol(Some(""), name)
    ensures IsPopularSymbol(ticker, None) == IsPopularSymbol(ticker, Some(""))
  {
  }

  /** A qualified ticker is matched on its base, whatever follows the first dot. */
  lemma QualifiedTickerMatchesBase(base: string, suffix: string)
    requires '.' !in base
    requires ToUpper(base) in POPULAR_BASES
    ensures IsPopularSymbol(Some(base + "." + suffix), None)
  {
    var t := ToUpper(base + "." + suffix);
    assert t == ToUpper(base) + "." + ToUpper(suffix);
    BeforeFirstOfDotted(ToUpper(base), ToUpper(suffix));
  }
}
