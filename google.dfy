/**
 * The Google Finance layer (lib/api/google.ts): one lookup per unique
 * ticker, then a Yahoo fallback that fills only the fields still null.
 *
 * The page fetch and the scraping of fetchGoogleMetrics are an oracle:
 * `google(t)` is what the lookup for t throws or returns, already reduced to
 * a pair of finite-or-null values. What the model keeps of
 * fetchGoogleMetrics is how it turns a ticker into a listing.
 */
module Google {
  import opened Js
  import opened PortfolioTypes
  import opened Yahoo

  const FALLBACK_BATCH_SIZE: int := 20

  // ---------------------------------------------------------------- the listing a ticker names

  datatype Listing = Listing(base: string, exchange: Exchange)

  /** `const [base, suffix] = ticker.split(".")`; BSE when the suffix is "BO", NSE otherwise. */
  function GoogleListing(ticker: string): (l: Listing)
    ensures l.exchange == BSE <==> SecondPiece(ticker, '.') == Some("BO")
    ensures l.exchange != UNKNOWN
    ensures '.' !in l.base
  {
    var suffix := SecondPiece(ticker, '.');
    Listing(BeforeFirst(ticker, '.'), if suffix == Some("BO") then BSE else NSE)
  }

  function ExchangeName(e: Exchange): string
  {
    match e case NSE => "NSE" case BSE => "BSE" case UNKNOWN => "UNKNOWN"
  }

  /** The quote page the lookup requests. */
  function QuoteUrl(ticker: string): string
  {
    var l := GoogleListing(ticker);
    "https://www.google.com/finance/quote/" + l.base + ":" + ExchangeName(l.exchange) + "?hl=en&gl=IN"
  }

  /** A dot-free base, a dot and a dot-free suffix split into exactly those two pieces. */
  lemma SplitOfDotted(b: string, sfx: string)
    requires '.' !in b && '.' !in sfx
    ensures BeforeFirst(b + "." + sfx, '.') == b
    ensures SecondPiece(b + "." + sfx, '.') == Some(sfx)
  {
    var s := b + "." + sfx;
    BeforeFirstOfDotted(b, sfx);
    assert s[|b| + 1..] == sfx;
    var r := BeforeFirst(sfx, '.');
    assert |r| == |sfx|;
    assert r == sfx;
  }

  lemma ListingOfDotted(b: string, sfx: string)
    requires '.' !in b && '.' !in sfx
    ensures GoogleListing(b + "." + sfx) == Listing(b, if sfx == "BO" then BSE else NSE)
  {
    SplitOfDotted(b, sfx);
  }

  lemma ListingOfBse(b: string)
    requires '.' !in b
    ensures GoogleListing(b + ".BO") == Listing(b, BSE)
  {
    assert '.' !in "BO";
    ListingOfDotted(b, "BO");
    assert b + ".BO" == b + "." + "BO";
  }

  lemma ListingOfNse(b: string)
    requires '.' !in b
    ensures GoogleListing(b + ".NS") == Listing(b, NSE)
  {
    assert '.' !in "NS" && "NS" != "BO";
    ListingOfDotted(b, "NS");
    assert b + ".NS" == b + "." + "NS";
  }

  /** For the two ticker forms the rest of the system derives, the listing is the code and its exchange. */
  lemma DerivedTickerListing(b: string)
    requires '.' !in b
    ensures GoogleListing(b + ".BO") == Listing(b, BSE)
    ensures GoogleListing(b + ".NS") == Listing(b, NSE)
  {
    ListingOfBse(b);
    ListingOfNse(b);
  }

  /** Only the piece right after the first dot decides; a ticker with no dot is looked up on NSE. */
  lemma UndottedIsNse(b: string)
    requires '.' !in b
    ensures GoogleListing(b) == Listing(b, NSE)
  {
  }

  /** A BSE code is looked up as CODE:BSE and an NSE symbol as SYMBOL:NSE. */
  lemma QuoteUrlOfDerived(b: string)
    requires '.' !in b
    ensures QuoteUrl(b + ".BO") == "https://www.google.com/finance/quote/" + b + ":" + "BSE" + "?hl=en&gl=IN"
    ensures QuoteUrl(b + ".NS") == "https://www.google.com/finance/quote/" + b + ":" + "NSE" + "?hl=en&gl=IN"
  {
    DerivedTickerListing(b);
    assert ExchangeName(BSE) == "BSE" && ExchangeName(NSE) == "NSE";
  }

  // ---------------------------------------------------------------- fetchGoogleAll

  /** A lookup that throws leaves both fields null. */
  function PrimaryOf(google: string -> Outcome<Fundamentals>, t: string): (f: Fundamentals)
    ensures google(t).Threw? ==> f == NO_FUNDAMENTALS
    ensures google(t).Returned? ==> f == google(t).value
  {
    match google(t) case Returned(m) => m case Threw(_) => NO_FUNDAMENTALS
  }

  /** `out[t].peTTM == null || out[t].latestEps == null` */
  predicate IsIncomplete(f: Fundamentals)
  {
    f.peTTM.None? || f.latestEps.None?
  }

  /** The map the lookups leave, before the fallback. */
  function PrimaryMap(ts: seq<string>, google: string -> Outcome<Fundamentals>): map<string, Fundamentals>
  {
    map t | t in ts && t != "" :: PrimaryOf(google, t)
  }

  /** `unique.filter((t) => !out[t] || out[t].peTTM == null || out[t].latestEps == null)` */
  function Missing(u: seq<string>, out: map<string, Fundamentals>): (m: seq<string>)
    ensures forall t :: t in m <==> t in u && (t !in out || IsIncomplete(out[t]))
    ensures Distinct(u) ==> Distinct(m)
    ensures |m| <= |u|
  {
    if u == [] then []
    else
      var prefix := Missing(u[..|u| - 1], out);
      var t := u[|u| - 1];
      assert forall x :: x in u <==> x in u[..|u| - 1] || x == t;
      if t !in out || IsIncomplete(out[t]) then prefix + [t] else prefix
  }

  /** `a ?? b` on two nullable numbers. */
  function OrElse(a: Option<real>, b: Option<real>): (r: Option<real>)
    ensures a.Some? ==> r == a
    ensures a.None? ==> r == b
  {
    if a.Some? then a else b
  }

  /** What `yahoo[t]` contributes: its fields, or nulls when it has no entry. */
  function FallbackOf(yahoo: map<string, Fundamentals>, t: string): Fundamentals
  {
    if t in yahoo then yahoo[t] else NO_FUNDAMENTALS
  }

  /** Each field keeps a non-null primary value and otherwise takes the fallback's. */
  function Filled(cur: Fundamentals, y: Fundamentals): (f: Fundamentals)
    ensures cur.peTTM.Some? ==> f.peTTM == cur.peTTM
    ensures cur.peTTM.None? ==> f.peTTM == y.peTTM
    ensures cur.latestEps.Some? ==> f.latestEps == cur.latestEps
    ensures cur.latestEps.None? ==> f.latestEps == y.latestEps
  {
    Fundamentals(OrElse(cur.peTTM, y.peTTM), OrElse(cur.latestEps, y.latestEps))
  }

  /** What fetchGoogleAll returns for one ticker. */
  function GoogleEntry(google: string -> Outcome<Fundamentals>, quote: string -> nat -> Outcome<JsValue>, t: string): Fundamentals
  {
    var p := PrimaryOf(google, t);
    if IsIncomplete(p) then Filled(p, TickerFundamentals(quote, t)) else p
  }

  /** The whole result: every unique ticker, with the fallback applied where a field was null. */
  function GoogleAll(ts: seq<string>, google: string -> Outcome<Fundamentals>,
                     quote: string -> nat -> Outcome<JsValue>): map<string, Fundamentals>
  {
    map t | t in ts && t != "" :: GoogleEntry(google, quote, t)
  }

  /** Every unique ticker gets exactly one entry. */
  lemma EveryUniqueTickerHasEntry(ts: seq<string>, google: string -> Outcome<Fundamentals>,
                                  quote: string -> nat -> Outcome<JsValue>)
    ensures forall t :: t in GoogleAll(ts, google, quote) <==> t in Unique(ts)
  {
  }

  /** An entry whose lookup gave both values is not touched by the fallback. */
  lemma CompleteEntryUnchanged(google: string -> Outcome<Fundamentals>, quote: string -> nat -> Outcome<JsValue>, t: string)
    requires google(t).Returned? && !IsIncomplete(google(t).value)
    ensures GoogleEntry(google, quote, t) == google(t).value
  {
  }

  /** A failed lookup is replaced field by field by the Yahoo fallback. */
  lemma FailedLookupTakesFallback(google: string -> Outcome<Fundamentals>, quote: string -> nat -> Outcome<JsValue>, t: string)
    requires google(t).Threw?
    ensures GoogleEntry(google, quote, t) == TickerFundamentals(quote, t)
  {
  }

  /** The fallback never turns a value into null: a field is null only when both sources lack it. */
  lemma NullOnlyWhenBothNull(google: string -> Outcome<Fundamentals>, quote: string -> nat -> Outcome<JsValue>, t: string)
    ensures GoogleEntry(google, quote, t).peTTM.None? <==>
            PrimaryOf(google, t).peTTM.None? && TickerFundamentals(quote, t).peTTM.None?
    ensures GoogleEntry(google, quote, t).latestEps.None? <==>
            PrimaryOf(google, t).latestEps.None? && TickerFundamentals(quote, t).latestEps.None?
  {
  }

  /** Adding one ticker to the list adds its one entry to the map. */
  lemma PrimaryMapSnoc(a: seq<string>, t: string, google: string -> Outcome<Fundamentals>)
    requires t != ""
    ensures PrimaryMap(a + [t], google) == PrimaryMap(a, google)[t := PrimaryOf(google, t)]
  {
    assert forall x :: x in a + [t] <==> x in a || x == t;
  }

  /**
   * The lookup pass: the worker pool as one sequential loop over the unique
   * list, with a pause after every lookup when delayMs is truthy.
   */
  method LookupAll(unique: seq<string>, delayMs: int, google: string -> Outcome<Fundamentals>)
    returns (out: map<string, Fundamentals>, sleeps: seq<int>)
    requires "" !in unique
    ensures out == PrimaryMap(unique, google)
    ensures delayMs != 0 ==> sleeps == seq(|unique|, _ => delayMs)
    ensures delayMs == 0 ==> sleeps == []
  {
    out := map[];
    sleeps := [];
    for i := 0 to |unique|
      invariant out == PrimaryMap(unique[..i], google)
      invariant delayMs != 0 ==> sleeps == seq(i, _ => delayMs)
      invariant delayMs == 0 ==> sleeps == []
    {
      var t := unique[i];
      var m := google(t);
      var f := if m.Returned? then m.value else NO_FUNDAMENTALS;
      assert unique[..i + 1] == unique[..i] + [t];
      PrimaryMapSnoc(unique[..i], t, google);
      out := out[t := f];
      if delayMs != 0 {
        sleeps := sleeps + [delayMs];
      }
    }
    assert unique[..|unique|] == unique;
  }

  /** The fallback pass over the missing tickers, each written once. */
  method FillMissing(primary: map<string, Fundamentals>, missing: seq<string>, yahoo: map<string, Fundamentals>)
    returns (out: map<string, Fundamentals>)
    requires Distinct(missing)
    ensures out.Keys == primary.Keys + set t | t in missing
    ensures forall t :: t in out ==>
      out[t] == (if t in missing then Filled(if t in primary then primary[t] else NO_FUNDAMENTALS, FallbackOf(yahoo, t))
                 else primary[t])
  {
    out := primary;
    for j := 0 to |missing|
      invariant out.Keys == primary.Keys + set t | t in missing[..j]
      invariant forall t :: t in out ==>
        out[t] == (if t in missing[..j] then Filled(if t in primary then primary[t] else NO_FUNDAMENTALS, FallbackOf(yahoo, t))
                   else primary[t])
    {
      var t := missing[j];
      assert t !in missing[..j];
      var cur := if t in out then out[t] else NO_FUNDAMENTALS;
      var y := FallbackOf(yahoo, t);
      out := out[t := Filled(cur, y)];
      assert missing[..j + 1] == missing[..j] + [t];
    }
    assert missing[..|missing|] == missing;
  }

  /** The Yahoo pass of fetchGoogleAll: the missing tickers are quoted and their gaps filled. */
  method FallbackPass(tickers: seq<string>, google: string -> Outcome<Fundamentals>,
                      quote: string -> nat -> Outcome<JsValue>, primary: map<string, Fundamentals>,
                      missing: seq<string>)
    returns (out: map<string, Fundamentals>)
    requires primary == PrimaryMap(Unique(tickers), google)
    requires missing == Missing(Unique(tickers), primary)
    ensures out == GoogleAll(tickers, google, quote)
  {
    var yahoo, _ := FetchPeEpsAll(missing, FALLBACK_BATCH_SIZE, quote);
    out := FillMissing(primary, missing, yahoo);
    FallbackCovers(tickers, google, quote, primary, missing, yahoo, out);
  }

  /**
   * fetchGoogleAll(tickers, delayMs). Also returns the lookup pauses, the
   * missing list, and whether the Yahoo fallback was consulted.
   */
  method FetchGoogleAll(tickers: seq<string>, delayMs: int, google: string -> Outcome<Fundamentals>,
                        quote: string -> nat -> Outcome<JsValue>)
    returns (out: map<string, Fundamentals>, sleeps: seq<int>, missing: seq<string>, consulted: bool)
    ensures out == GoogleAll(tickers, google, quote)
    ensures forall t :: t in missing <==> t in Unique(tickers) && IsIncomplete(PrimaryOf(google, t))
    ensures consulted <==> missing != []
    ensures delayMs != 0 ==> sleeps == seq(|Unique(tickers)|, _ => delayMs)
    ensures delayMs == 0 ==> sleeps == []
  {
    var unique := Unique(tickers);
    var primary;
    primary, sleeps := LookupAll(unique, delayMs, google);
    missing := Missing(unique, primary);
    consulted := false;
    out := primary;
    if |missing| > 0 {
      consulted := true;
      out := FallbackPass(tickers, google, quote, primary, missing);
    } else {
      NoMissingMeansPrimary(tickers, google, quote, primary, missing);
    }
  }

  lemma PrimaryKeys(ts: seq<string>, google: string -> Outcome<Fundamentals>)
    ensures forall t :: t in PrimaryMap(Unique(ts), google) <==> t in Unique(ts)
  {
  }

  /** One ticker's entry after the fallback pass is its GoogleEntry. */
  lemma FallbackEntry(unique: seq<string>, google: string -> Outcome<Fundamentals>,
                      quote: string -> nat -> Outcome<JsValue>, primary: map<string, Fundamentals>,
                      missing: seq<string>, yahoo: map<string, Fundamentals>, t: string)
    requires primary == PrimaryMap(unique, google)
    requires missing == Missing(unique, primary)
    requires yahoo == FundamentalsMap(missing, quote)
    requires t in unique && t != ""
    ensures t in primary
    ensures (if t in missing then Filled(primary[t], FallbackOf(yahoo, t)) else primary[t]) == GoogleEntry(google, quote, t)
  {
    assert primary[t] == PrimaryOf(google, t);
    if t in missing {
      assert FallbackOf(yahoo, t) == TickerFundamentals(quote, t);
    }
  }

  /** The fallback pass adds no key: the missing tickers already have a primary entry. */
  lemma FallbackKeys(tickers: seq<string>, google: string -> Outcome<Fundamentals>,
                     quote: string -> nat -> Outcome<JsValue>, primary: map<string, Fundamentals>,
                     missing: seq<string>, out: map<string, Fundamentals>)
    requires primary == PrimaryMap(Unique(tickers), google)
    requires missing == Missing(Unique(tickers), primary)
    requires out.Keys == primary.Keys + set t | t in missing
    ensures out.Keys == GoogleAll(tickers, google, quote).Keys
    ensures forall t :: t in out ==> t in Unique(tickers) && t != ""
  {
    PrimaryKeys(tickers, google);
    EveryUniqueTickerHasEntry(tickers, google, quote);
    assert forall t :: t in missing ==> t in Unique(tickers);
  }

  lemma FallbackCovers(tickers: seq<string>, google: string -> Outcome<Fundamentals>,
                       quote: string -> nat -> Outcome<JsValue>, primary: map<string, Fundamentals>,
                       missing: seq<string>, yahoo: map<string, Fundamentals>, out: map<string, Fundamentals>)
    requires primary == PrimaryMap(Unique(tickers), google)
    requires missing == Missing(Unique(tickers), primary)
    requires yahoo == FundamentalsMap(missing, quote)
    requires out.Keys == primary.Keys + set t | t in missing
    requires forall t :: t in out ==>
      out[t] == (if t in missing then Filled(if t in primary then primary[t] else NO_FUNDAMENTALS, FallbackOf(yahoo, t))
                 else primary[t])
    ensures out == GoogleAll(tickers, google, quote)
  {
    var u := Unique(tickers);
    var g := GoogleAll(tickers, google, quote);
    FallbackKeys(tickers, google, quote, primary, missing, out);
    forall t | t in out
      ensures out[t] == g[t]
    {
      FallbackEntry(u, google, quote, primary, missing, yahoo, t);
    }
  }

  lemma NoMissingMeansPrimary(tickers: seq<string>, google: string -> Outcome<Fundamentals>,
                              quote: string -> nat -> Outcome<JsValue>, primary: map<string, Fundamentals>,
                              missing: seq<string>)
    requires primary == PrimaryMap(Unique(tickers), google)
    requires missing == Missing(Unique(tickers), primary)
    requires missing == []
    ensures primary == GoogleAll(tickers, google, quote)
  {
    var g := GoogleAll(tickers, google, quote);
    forall t | t in primary
      ensures primary[t] == g[t]
    {
      assert t !in missing;
    }
  }
}
