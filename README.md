# FinPulse portfolio pipeline in Dafny

FinPulse is a dashboard for an Indian equity portfolio. Its server side reads
rows of holdings from a spreadsheet export and normalises them: each row gets
an NSE or BSE ticker, and sector headers are folded into the rows beneath them.
It then prices the holdings with live Yahoo Finance quotes, works out each
holding's investment, present value, gain/loss and portfolio share, and groups
the holdings by sector with grand totals. The response is cached for fifteen
seconds. Google Finance is a second source of P/E and EPS, backed by Yahoo.

This project models that pipeline and proves what it promises. It has one
module per source file:

| module | file | models |
|---|---|---|
| `Js` | `js.dfy` | the JavaScript values and built-ins the code relies on: `??`, truthiness, `in`, `trim`, `toUpperCase`, `includes`, `split`, `String(n)`, `Number(v)`, `Math.trunc` |
| `PortfolioTypes` | `portfolio_types.dfy` | the records of `lib/types/portfolio.ts` |
| `Tickers` | `tickers.dfy` | `deriveTicker` (pure) |
| `NormalizePortfolioTable` | `normalize.dfy` | `normalizePortfolioTable`: a loop specified by a left-to-right step function |
| `Calculations` | `calculations.dfy` | the four derivation formulas (pure) |
| `SimpleCache` | `simple_cache.dfy` | the TTL cache, as a class that owns the map |
| `Yahoo` | `yahoo.dfy` | `withRetries`, `fetchCmpBatch`, `fetchPeEpsAll` (methods with loops, each specified by a function) |
| `Google` | `google.dfy` | the exchange rule of `fetchGoogleMetrics` and the fill/fallback logic of `fetchGoogleAll` |
| `PortfolioRoute` | `portfolio_route.dfy` | `fetchCmpAll` and `GET` of the portfolio endpoint |
| `Popular` | `popular.dfy` | `isPopularSymbol` (pure) |

The model does not perform I/O, so it takes these as parameters:

- **Remote calls** are oracles. `quote(t)(k)` is what the k-th attempt of
  `yahooFinance.quote(t)` within one `withRetries` throws or returns, the same
  in every retry loop for `t`; the loop sees the outcome of each attempt in
  turn. `google(t)` is what the Google Finance
  scrape for `t` throws or returns.
- **`sleep(ms)`** becomes the list of delays a method would wait, which it
  returns.
- **The clock.** `Date.now()` is the `now` argument of each cache operation.
  `GET` also takes `now`, the time it reads the cache, and `storedAt`, the
  time it writes the cache. `new Date().toISOString()` is the `lastUpdated`
  string.
- **The rows** that `loadPortfolioRaw` reads from disk are the `rows` argument
  of `GET`.
- **The two whole-fetch `try`/`catch` blocks** of `GET` become the boolean
  inputs `priceFetchThrows` and `fundFetchThrows`.

Four details of the code that the model keeps as written:

- **The portfolio percentage** tests `!totalInvestment`, so a total of 0 gives
  0.
- **The portfolio endpoint** uses only the Yahoo fetchers. It never calls
  `fetchGoogleAll`.
- **The fallback of `fetchGoogleAll`** is Yahoo's `fetchPeEpsAll` with a batch
  size of 20.
- **`lib/api/google.ts` imports `sleep`** from `lib/api/yahoo.ts`, which does
  not export it. The model records a pause of `delayMs` after every lookup
  when `delayMs` is non-zero (see `Google.LookupAll` under "Left out").

## Model

| member | source | states |
|---|---|---|
| Tickers.IsAlphaTicker | lib/utils/tickers.ts:3 | a match of /^[A-Z&\-]+$/ is non-empty, has no "." and no digit anywhere, and never matches the numeric pattern |
| Tickers.IsNumericTicker | lib/utils/tickers.ts:4 | a match of /^[0-9]{4,6}$/ has no "." |
| Tickers.IsQualified | lib/utils/tickers.ts:15 | a match of /\.(NS|BO)$/ has a "." third from the end |
| Tickers.DeriveTicker | lib/utils/tickers.ts:11-38 | total on every input. "UNKNOWN" is the ticker exactly when UNKNOWN is the exchange. An NSE ticker ends in ".NS" and a BSE ticker in ".BO" |
| Tickers.QualifiedPassesThrough | lib/utils/tickers.ts:13-20 | a trimmed, upper-cased string that ends in .NS or .BO is returned as it is, with NSE exactly when it ends in .NS and BSE otherwise |
| Tickers.AlphaGetsNse | lib/utils/tickers.ts:21-23 | a cleaned string of A-Z, & and - gives cleaned + ".NS" on NSE |
| Tickers.NumericGetsBse | lib/utils/tickers.ts:24-26 | a cleaned string of 4 to 6 digits gives cleaned + ".BO" on BSE |
| Tickers.NumericTextRange | lib/utils/tickers.ts:30-31 | the decimal text of an integer has 4 to 6 digits exactly when 1000 <= k <= 999999. Negative numbers carry a "-" and never match |
| Tickers.NumberInput | lib/utils/tickers.ts:29-34 | a finite number is truncated toward zero. It gives code + ".BO" on BSE when that code lies in 1000..999999, and UNKNOWN otherwise (NaN and infinities included) |
| Tickers.UnknownExactly | lib/utils/tickers.ts:12-37 | the result is UNKNOWN if and only if no string rule and no number rule applies |
| Tickers.ExampleWord | lib/utils/tickers.ts:21-23 | "reliance" gives RELIANCE.NS on NSE |
| Tickers.ExampleCode | lib/utils/tickers.ts:29-34 | the number 532174 gives 532174.BO on BSE |
| Tickers.ExampleSymbolNoise | lib/utils/tickers.ts:36-37 | "???" gives UNKNOWN |
| NormalizePortfolioTable.IsNumberLike | lib/utils/normalizePortfolioTable.ts:6-8 | a number-like value is a number that converts to a finite number; a string, even a numeric one, and null or undefined never are |
| NormalizePortfolioTable.NormalizeRows | lib/utils/normalizePortfolioTable.ts:42-95 | the loop returns the holdings of the left-to-right pass `Normalized(rows)`. Its invariant ties the pushed holdings and the current sector to the processed prefix |
| NormalizePortfolioTable.Step | lib/utils/normalizePortfolioTable.ts:47-62 | a falsy or non-object row emits nothing and keeps the sector. A valid clean-shape row emits its holding. A clean-shape row that fails validation falls through to the legacy rules. The sector changes only on a header with a non-empty trimmed name |
| NormalizePortfolioTable.LegacyStep | lib/utils/normalizePortfolioTable.ts:64-91 | a sector header emits nothing and sets the sector to the trimmed name if that name is non-empty. A legacy data row emits the trimmed name, the current sector and the ticker from Column7. Any other row is skipped |
| NormalizePortfolioTable.NormalizedAppend | lib/utils/normalizePortfolioTable.ts:43-94 | holdings appear in input order: those of a + b are those of a, then those of b read on from a's sector |
| NormalizePortfolioTable.RunFromKeepsHoldings | lib/utils/normalizePortfolioTable.ts:59-91 | holdings already pushed are never changed. New ones are only appended |
| NormalizePortfolioTable.NormalizedLength | lib/utils/normalizePortfolioTable.ts:43-94 | there are at most as many holdings as rows |
| NormalizePortfolioTable.CurrentSectorTrimmed | lib/utils/normalizePortfolioTable.ts:44-73 | the current sector starts as "Unknown" and is always non-empty and already trimmed |
| NormalizePortfolioTable.LegacyRowTaggedWithCurrentSector | lib/utils/normalizePortfolioTable.ts:84-91 | a legacy data row is tagged with exactly the current sector, since `currentSector.trim()` changes nothing |
| NormalizePortfolioTable.NormalizedTickersAgree | lib/utils/normalizePortfolioTable.ts:57-82 | every holding's ticker and exchange agree as deriveTicker promises |
| NormalizePortfolioTable.ExampleAcmeRow | lib/utils/normalizePortfolioTable.ts:51-61 | the clean row {Acme, Tech, 100, 10, ACME} becomes the holding Acme / ACME.NS / NSE / Tech / 100 / 10 |
| Calculations.CalculateInvestment | lib/utils/calculations.ts:1-3 | never negative. It is price × quantity when both are non-negative, and 0 when either is not positive |
| Calculations.CalculatePresentValue | lib/utils/calculations.ts:5-7 | 0 for a null cmp or a non-positive quantity, and cmp × quantity otherwise |
| Calculations.CalculateGainLoss | lib/utils/calculations.ts:9-11 | gain/loss + investment = present value |
| Calculations.NullPriceLosesInvestment | lib/utils/calculations.ts:5-11 | a null cmp gives a gain/loss of minus the investment |
| Calculations.CalculatePortfolioPercentage | lib/utils/calculations.ts:13-16 | 0 when the total is 0, and otherwise r × total = investment × 100. It lies in [0, 100] when 0 <= investment <= total |
| Calculations.SharesOfTotalSumTo100 | lib/utils/calculations.ts:13-16 | when the total is the positive sum of the investments, the percentages sum to exactly 100 |
| Calculations.SharesInRange | lib/types/portfolio.ts:23 | with non-negative investments, every percentage of their sum lies in [0, 100] |
| Calculations.SharesOfZeroTotal | lib/utils/calculations.ts:14 | against a total of 0 every percentage is 0 |
| SimpleCache.Get | lib/cache/simpleCache.ts:7-16 | a missing key gives null and leaves the map unchanged. An entry older than the TTL gives null and is deleted. A live entry (age <= TTL, inclusive) gives its data with age now - timestamp and leaves the map unchanged |
| SimpleCache.SetThenGet | lib/cache/simpleCache.ts:7-20 | a read at the moment of a write returns the written data with age 0 |
| SimpleCache.OverwriteRestartsAge | lib/cache/simpleCache.ts:18-20 | a second write overwrites the data and restarts the age |
| SimpleCache.ExpiryEvictsOnlyThatKey | lib/cache/simpleCache.ts:10-13 | expiry removes that key and leaves every other entry as it was |
| SimpleCache.Cache.constructor | lib/cache/simpleCache.ts:4 | the cache starts empty |
| SimpleCache.Cache.GetCache | lib/cache/simpleCache.ts:7-16 | the result and the new map are those of Get at the same clock reading |
| SimpleCache.Cache.SetCache | lib/cache/simpleCache.ts:18-20 | the key now maps to the data, stamped with `now`, and nothing else changes |
| SimpleCache.Cache.ClearCache | lib/cache/simpleCache.ts:22-25 | a non-empty key removes only that key. A missing or empty key empties the map |
| Yahoo.RetryFrom | lib/api/yahoo.ts:9-22 | the attempts from `attempt` on: every attempt before the last one threw, and the result is the last attempt's outcome. A thrown result comes only after retries + 1 calls |
| Yahoo.AtMostRetriesPlusOne | lib/api/yahoo.ts:9-17 | fn is called between 1 and retries + 1 times |
| Yahoo.FirstSuccessReturned | lib/api/yahoo.ts:13-14 | the first successful attempt's value is returned, and no later attempt is made |
| Yahoo.LastErrorRethrown | lib/api/yahoo.ts:15-17 | after retries + 1 failures the last error is rethrown |
| Yahoo.BackoffIsCappedDoubling | lib/api/yahoo.ts:11-19 | the k-th delay is min(800 × 2^k, 5000) |
| Yahoo.DefaultScheduleWhenAlwaysFailing | lib/api/yahoo.ts:9-19 | with the default 3 retries, a call that always fails makes 4 attempts and sleeps 800, 1600 and 3200 |
| Yahoo.WithRetries | lib/api/yahoo.ts:9-22 | the loop's result and call count are those of Retried. The delays slept are the back-off schedule, one before each retry |
| Yahoo.Unique | lib/api/yahoo.ts:26 | `Array.from(new Set(tickers.filter(Boolean)))`: exactly the non-empty tickers, each once, in the order of their first occurrence in the input, and no longer than the input |
| Yahoo.UniqueKeepsDistinct | lib/api/yahoo.ts:26 | a list that is already distinct and has no empty entry is unchanged |
| Yahoo.UniqueAbsorbsRepeat | lib/api/yahoo.ts:26 | appending a ticker that is already present changes nothing |
| Yahoo.FiniteOf | lib/api/yahoo.ts:63-64 | a value is kept exactly when it is a finite number, and null otherwise |
| Yahoo.PriceOf | lib/api/yahoo.ts:36-37 | the price is regularMarketPrice when that is not nullish, else postMarketPrice when that is not nullish, else preMarketPrice, each kept only when finite. A non-object quote has no price |
| Yahoo.FundamentalsOf | lib/api/yahoo.ts:60-65 | peTTM is the finite trailingPE or null. latestEps is epsTrailingTwelveMonths when that is not nullish and epsCurrentYear otherwise, kept only when finite. A non-object quote gives {null, null} |
| Yahoo.TickerPrice | lib/api/yahoo.ts:34-40 | when the retries throw, the price is null. Otherwise it is read from the returned quote |
| Yahoo.TickerFundamentals | lib/api/yahoo.ts:58-68 | when the retries throw, both fields are null. Otherwise they are read from the returned quote |
| Yahoo.RegularPriceWins | lib/api/yahoo.ts:36-37 | a finite regularMarketPrice is the price, whatever the other two fields hold |
| Yahoo.UnreachableTickerIsNull | lib/api/yahoo.ts:38-67 | a ticker whose every attempt throws gets a null price and null fundamentals, and it still has an entry |
| Yahoo.MapKeys | lib/api/yahoo.ts:26-43 | each result map has exactly one entry per unique ticker |
| Yahoo.PriceMapAppend | lib/api/yahoo.ts:31-43 | the price map of a + b is the left-to-right merge of the price maps of a and b |
| Yahoo.QuotePrice | lib/api/yahoo.ts:34-40 | one worker iteration computes TickerPrice |
| Yahoo.FetchCmpBatch | lib/api/yahoo.ts:24-45 | the loop over the unique tickers builds PriceMap. An empty list gives {} |
| Yahoo.Chunks | lib/api/yahoo.ts:55-56 | every chunk is non-empty, holds at most b tickers, and holds exactly b except the last |
| Yahoo.ChunksCover | lib/api/yahoo.ts:55-56 | once concatenated, the chunks are the list itself, in order |
| Yahoo.PausesFromCountsChunks | lib/api/yahoo.ts:71 | the pause is taken once between consecutive chunks, so the count is the number of chunks minus 1 |
| Yahoo.FundamentalsMapOfUnique | lib/api/yahoo.ts:54 | de-duplicating first does not change the fundamentals map |
| Yahoo.FillChunk | lib/api/yahoo.ts:56-70 | a chunk's pass extends the map of the prefix to the map of the prefix plus the chunk |
| Yahoo.QuoteFundamentals | lib/api/yahoo.ts:57-68 | one task of a chunk: quoting t with retries and reading its two fields computes TickerFundamentals, so a throwing quote gives {null, null} |
| Yahoo.FetchPeEpsAll | lib/api/yahoo.ts:52-74 | the chunked loop builds FundamentalsMap of the tickers, pausing 120 ms between chunks and never after the last |
| Google.GoogleListing | lib/api/google.ts:12-13 | BSE exactly when the piece after the first "." is "BO", and NSE otherwise. The base has no "." |
| Google.DerivedTickerListing | lib/api/google.ts:12-13 | a derived "X.BO" ticker is looked up on BSE and a derived "X.NS" ticker on NSE, both with the base X |
| Google.UndottedIsNse | lib/api/google.ts:12-13 | a ticker with no "." is looked up on NSE under its whole text |
| Google.QuoteUrlOfDerived | lib/api/google.ts:14 | the page address for X.BO and for X.NS |
| Google.PrimaryOf | lib/api/google.ts:50-54 | a failed lookup gives {null, null}. Otherwise the lookup's value is kept |
| Google.Missing | lib/api/google.ts:61 | exactly the unique tickers whose entry is absent or has a null field |
| Google.Filled | lib/api/google.ts:65-70 | each field keeps a non-null primary value and otherwise takes the fallback's value |
| Google.EveryUniqueTickerHasEntry | lib/api/google.ts:44-58 | the result has exactly one entry per unique ticker |
| Google.CompleteEntryUnchanged | lib/api/google.ts:61-72 | a ticker whose lookup returned both fields keeps that entry unchanged |
| Google.FailedLookupTakesFallback | lib/api/google.ts:52-70 | a ticker whose lookup threw takes the Yahoo fundamentals |
| Google.NullOnlyWhenBothNull | lib/api/google.ts:68-69 | a field ends null exactly when both the primary and the fallback are null |
| Google.LookupAll | lib/api/google.ts:47-58 | the first pass builds PrimaryMap, sleeping delayMs after each lookup when delayMs is non-zero |
| Google.FillMissing | lib/api/google.ts:64-71 | the second pass refills exactly the missing tickers and leaves every other entry unchanged |
| Google.FallbackPass | lib/api/google.ts:62-71 | the Yahoo pass over the missing tickers (fetchPeEpsAll with batch size 20, then the per-field fill) turns PrimaryMap into GoogleAll |
| Google.FallbackCovers | lib/api/google.ts:60-72 | the two passes together give GoogleAll |
| Google.NoMissingMeansPrimary | lib/api/google.ts:61-62 | with nothing missing the primary map is the result |
| Google.FetchGoogleAll | lib/api/google.ts:42-74 | the result is GoogleAll. The missing list is exactly the incomplete primary entries. The fallback is consulted exactly when that list is non-empty |
| PortfolioRoute.ChunksFromCounts | app/api/portfolio/route.ts:15 | the loop `i += batchSize` runs once per chunk |
| PortfolioRoute.MergeChunk | app/api/portfolio/route.ts:16-18 | merging a chunk's map into the map of the prefix gives the map of the longer prefix |
| PortfolioRoute.FetchCmpAll | app/api/portfolio/route.ts:13-22 | the merge of the per-chunk maps is PriceMap of the whole list, with one 250 ms pause after every chunk |
| PortfolioRoute.TickersToFetch | app/api/portfolio/route.ts:35 | exactly the base tickers other than "UNKNOWN" |
| PortfolioRoute.TickersToFetchAppend | app/api/portfolio/route.ts:35 | map and filter work holding by holding: the list for a + b is the list for a followed by the list for b, so order and repeats are kept |
| PortfolioRoute.TickersToFetchOne | app/api/portfolio/route.ts:35 | a single holding contributes its ticker, or nothing when the ticker is UNKNOWN |
| PortfolioRoute.CmpOf | app/api/portfolio/route.ts:54 | `cmpMap[h.ticker] ?? null`: the map's entry for a present ticker, null for an absent one |
| PortfolioRoute.FundamentalsFor | app/api/portfolio/route.ts:55 | the map's entry for a present ticker, {null, null} for an absent one |
| PortfolioRoute.DeriveHolding | app/api/portfolio/route.ts:53-71 | keeps the base fields, and takes cmp and fundamentals from the maps or null. Investment, present value, gain/loss and portfolio percentage are calculateInvestment(price, quantity), calculatePresentValue(cmp, quantity), calculateGainLoss(presentValue, investment) and calculatePortfolioPercentage(investment, totalInvestment). Investment is non-negative, and a null cmp gives present value 0 and a loss of the whole investment |
| PortfolioRoute.HoldingsJoinLiveData | app/api/portfolio/route.ts:53-71 | one output holding per base holding, in order, joined with its map entries or nulls. Each holding's investment, present value, gain/loss and percentage are the calculation functions applied to its own fields, the percentage against the sum of the base investments |
| PortfolioRoute.ZeroTotalGivesZeroPercent | app/api/portfolio/route.ts:59 | when the base investments sum to 0, every holding's portfolio percentage is 0 |
| PortfolioRoute.InvestmentSumMatchesBase | app/api/portfolio/route.ts:33-56 | the total taken from the base holdings equals the sum of the derived holdings' investments |
| PortfolioRoute.GainLossSum | app/api/portfolio/route.ts:91-92 | the summed gain/loss is the summed present value minus the summed investment |
| PortfolioRoute.SectorOrder | app/api/portfolio/route.ts:73-87 | sectors are listed once each, and each is the sector of some holding. Every holding's sector is listed. The sectors come in the order in which they first occur among the holdings, the insertion order of the source's Map |
| PortfolioRoute.SectorsFor | app/api/portfolio/route.ts:87 | entry k is the total of sector k |
| PortfolioRoute.FoldStep | app/api/portfolio/route.ts:74-85 | one iteration keeps the fold invariant: each entry holds the running sums of its sector, and the order is first occurrence |
| PortfolioRoute.AggregateSectors | app/api/portfolio/route.ts:73-87 | the loop over a Map in insertion order gives Sectors: the sums per exact sector string, in first-occurrence order |
| PortfolioRoute.SectorsSumToTotals | app/api/portfolio/route.ts:73-93 | summing any field over the sector entries gives that field's grand total |
| PortfolioRoute.SectorsListedOnce | app/api/portfolio/route.ts:73-87 | no sector appears twice, and every holding's sector appears |
| PortfolioRoute.TotalsAreSums | app/api/portfolio/route.ts:89-100 | totalInvestment is the sum of the holdings' investments and totalGainLoss = totalPresentValue - totalInvestment. A fresh response has usedCache false |
| PortfolioRoute.SectorsAddUpToTotals | app/api/portfolio/route.ts:73-93 | each of the three sector sums equals its grand total |
| PortfolioRoute.PercentagesSumTo100 | app/api/portfolio/route.ts:33-59 | with a positive total investment, every portfolioPercent lies in [0, 100] and together they sum to 100 |
| PortfolioRoute.EmptyMapsGiveNulls | app/api/portfolio/route.ts:54-55 | an empty price map gives every holding a null cmp and a present value of 0. An empty fundamentals map gives null P/E and EPS |
| PortfolioRoute.FetchFailureGivesNulls | app/api/portfolio/route.ts:38-51 | a throwing price fetch nulls every cmp. A throwing fundamentals fetch nulls every P/E and EPS |
| PortfolioRoute.UnknownTickerGetsNoLiveData | app/api/portfolio/route.ts:35-55 | a holding with ticker UNKNOWN is never priced |
| PortfolioRoute.CopyFundamentals | app/api/portfolio/route.ts:45-48 | copying field by field gives the same map |
| PortfolioRoute.BuildSnapshot | app/api/portfolio/route.ts:30-101 | the imperative build computes BuildResponse |
| PortfolioRoute.Get | app/api/portfolio/route.ts:24-105 | a live entry under CACHE_KEY is returned with usedCache true, and the cache is unchanged. Otherwise the fresh response is returned and stored under CACHE_KEY |
| PortfolioRoute.ExampleAcmeSnapshot | app/api/portfolio/route.ts:53-93 | 10 shares bought at 100 and quoted at 120: investment 1000, value 1200, gain 200, share 100 %, with the totals to match |
| Popular.TickerBase | lib/utils/popular.ts:45 | the upper-cased ticker up to its first ".", with null read as "" |
| Popular.AnyIncludedFrom | lib/utils/popular.ts:48-50 | the loop finds a match exactly when some base from k on occurs in the name |
| Popular.IsPopularSymbol | lib/utils/popular.ts:44-52 | true if and only if the base is on the whitelist or the upper-cased name contains a whitelisted base |
| Popular.CaseInsensitive | lib/utils/popular.ts:45-47 | lower-casing either argument does not change the answer |
| Popular.NullReadsAsEmpty | lib/utils/popular.ts:45-47 | a null ticker or name reads as "" |
| Popular.QualifiedTickerMatchesBase | lib/utils/popular.ts:45-46 | a whitelisted base with any suffix after a "." is popular |

## Left out

- loadPortfolioRaw: reading the three candidate files and parsing JSON is file I/O. The parsed rows are the `rows` parameter of `GET`.
- The network calls (`yahooFinance.quote`, `axios.get`) are oracles. The HTML scraping of `fetchGoogleMetrics` (its selectors and `parseFloat` of page text) is not modelled: `google(t)` returns the fundamentals directly.
- `sleep`/`setTimeout` are recorded delays. No time passes.
- `Promise.all` worker pools run as one sequential pass over the de-duplicated list. The pool size (6 or 8) does not affect the result map.
- IEEE-754 doubles are real numbers. Rounding is not modelled. NaN and the infinities are kept only where the code tests for them (`Number.isFinite`, `Math.trunc`). Sums over reals are exact, so the sector sums and the grand total agree exactly and the percentages sum to exactly 100.
- Yahoo.PriceOf: keeps only a finite number, where the source (`typeof price === "number"`) also keeps NaN and ±Infinity as the price. Prices are real numbers here, so a non-finite price has no value and is read as null.
- `toUpperCase` and `toLowerCase` map ASCII letters only. No Unicode case mapping is modelled.
- `String(n)` for a number is the text the JsValue carries with it. Shortest round-trip printing of doubles is not modelled.
- `Number(v)` covers decimal text (sign, fraction, exponent), "Infinity", and 0x/0o/0b literals. Strings outside those forms give NaN. An array converts through its comma-joined text and an object through "[object Object]"; a custom `toString`/`valueOf` is not modelled.
- Yahoo.FetchPeEpsAll: requires batchSize > 0. With 0 the source's loop never advances. Every call site passes 8 or 20.
- PortfolioRoute.FetchCmpAll: requires batchSize > 0, for the same reason. `GET` passes 20.
- PortfolioRoute.FetchCmpAll: the ticker list is not de-duplicated, so a ticker listed in two chunks is quoted twice and `Object.assign` (app/api/portfolio/route.ts:18) keeps the later answer. The oracle gives a ticker the same answer in every retry loop, so the model cannot show a later attempt overwriting an earlier price with null.
- Google.LookupAll: as written, a truthy `delayMs` calls `sleep`, which lib/api/yahoo.ts does not export, outside the `try` (lib/api/google.ts:55); where the bundler binds the missing export to undefined, that call throws and rejects `fetchGoogleAll`; a type-checked build rejects the import itself, and native ES modules fail when the module is linked. The model records the pause instead.
- Why a whole fetch in `GET` throws is not modelled. It is a boolean input.
- The optional `page`, `limit` and `totalCount` fields of the response are never set by the route and are not modelled.
- The health route, the React components and the formatters are presentation and are not part of this model.
