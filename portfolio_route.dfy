/**
 * The portfolio endpoint (app/api/portfolio/route.ts): serve the cached
 * snapshot while it is live; otherwise normalise the rows, price them,
 * derive each holding's figures, fold them per sector, total them, and store
 * the new snapshot in the cache.
 *
 * Reading the rows from disk, the wall clock and the ISO timestamp are
 * parameters; the two Yahoo fetches are the oracles of the Yahoo module,
 * and whether a fetch as a whole throws is a flag.
 */
module PortfolioRoute {
  import opened Js
  import opened PortfolioTypes
  import opened Calculations
  import opened SimpleCache
  import opened Yahoo
  import NormalizePortfolioTable

  const CACHE_KEY := "portfolio-response-all-v1"
  const BATCH_SIZE: int := 20
  const CHUNK_PAUSE_MS: int := 250

  // ---------------------------------------------------------------- fetchCmpAll

  /** The number of chunks of size b that start at or after position i in a list of n. */
  function ChunksFrom(n: int, b: int, i: int): nat
    requires b > 0
    decreases n - i
  {
    if i >= n then 0 else 1 + ChunksFrom(n, b, i + b)
  }

  /** Counted from position i, these are the chunks Yahoo.Chunks cuts the rest of the list into. */
  lemma {:induction false} ChunksFromCounts(u: seq<string>, b: nat, i: nat)
    requires b > 0 && i <= |u|
    ensures ChunksFrom(|u|, b, i) == |Chunks(u[i..], b)|
    decreases |u| - i
  {
    var v := u[i..];
    if i + b < |u| {
      assert v[b..] == u[i + b..];
      ChunksFromCounts(u, b, i + b);
    }
  }

  /** Merging the next slice's prices into those of the prefix gives the prices of the longer prefix. */
  lemma MergeChunk(tickers: seq<string>, i: int, hi: int, out: map<string, Option<real>>,
                   res: map<string, Option<real>>, quote: string -> nat -> Outcome<JsValue>)
    requires 0 <= i <= hi <= |tickers|
    requires out == PriceMap(tickers[..i], quote)
    requires res == PriceMap(tickers[i..hi], quote)
    ensures out + res == PriceMap(tickers[..hi], quote)
  {
    PriceMapAppend(tickers[..i], tickers[i..hi], quote);
    assert tickers[..i] + tickers[i..hi] == tickers[..hi];
  }

  /**
   * fetchCmpAll(tickers, batchSize): fetchCmpBatch on consecutive slices,
   * merged left to right, with a 250 ms pause after every slice.
   */
  method FetchCmpAll(tickers: seq<string>, batchSize: int, quote: string -> nat -> Outcome<JsValue>)
    returns (out: map<string, Option<real>>, sleeps: seq<int>)
    requires batchSize > 0
    ensures out == PriceMap(tickers, quote)
    ensures |sleeps| == |Chunks(tickers, batchSize)|
    ensures forall k :: 0 <= k < |sleeps| ==> sleeps[k] == CHUNK_PAUSE_MS
  {
    out := map[];
    sleeps := [];
    var n := |tickers|;
    var i := 0;
    while i < n
      invariant 0 <= i
      invariant out == PriceMap(tickers[..Min(i, n)], quote)
      invariant |sleeps| + ChunksFrom(n, batchSize, i) == ChunksFrom(n, batchSize, 0)
      invariant forall k :: 0 <= k < |sleeps| ==> sleeps[k] == CHUNK_PAUSE_MS
      decreases n - i
    {
      var hi := Min(i + batchSize, n);
      var chunk := tickers[i..hi];
      var res := FetchCmpBatch(chunk, quote);
      MergeChunk(tickers, i, hi, out, res, quote);
      out := out + res;
      sleeps := sleeps + [CHUNK_PAUSE_MS];
      i := i + batchSize;
    }
    assert tickers[..n] == tickers;
    ChunksFromCounts(tickers, batchSize, 0);
    assert tickers[0..] == tickers;
  }

  // ---------------------------------------------------------------- holdings

  /** `baseHoldings.map((h) => h.ticker).filter((t) => t !== "UNKNOWN")` */
  function TickersToFetch(base: seq<HoldingBase>): (ts: seq<string>)
    ensures forall t :: t in ts <==> t != "UNKNOWN" && exists i :: 0 <= i < |base| && base[i].ticker == t
    ensures |ts| <= |base|
  {
    if base == [] then []
    else
      var prefix := TickersToFetch(base[..|base| - 1]);
      var h := base[|base| - 1];
      assert forall i :: 0 <= i < |base| - 1 ==> base[..|base| - 1][i] == base[i];
      if h.ticker != "UNKNOWN" then prefix + [h.ticker] else prefix
  }

  /**
   * The filter works holding by holding: the list for a + b is the list for a
   * followed by the list for b, so order and repeats are kept.
   */
  lemma {:induction false} TickersToFetchAppend(a: seq<HoldingBase>, b: seq<HoldingBase>)
    ensures TickersToFetch(a + b) == TickersToFetch(a) + TickersToFetch(b)
    decreases |b|
  {
    if b != [] {
      var b' := b[..|b| - 1];
      assert (a + b)[..|a + b| - 1] == a + b';
      assert (a + b)[|a + b| - 1] == b[|b| - 1];
      TickersToFetchAppend(a, b');
    } else {
      assert a + b == a;
    }
  }

  /** One holding contributes its ticker unless that ticker is UNKNOWN. */
  lemma TickersToFetchOne(h: HoldingBase)
    ensures TickersToFetch([h]) == if h.ticker == "UNKNOWN" then [] else [h.ticker]
  {
    assert [h][..0] == [];
  }

  /** `cmpMap[h.ticker] ?? null` */
  function CmpOf(cmpMap: map<string, Option<real>>, t: string): (cmp: Option<real>)
    ensures t in cmpMap ==> cmp == cmpMap[t]
    ensures t !in cmpMap ==> cmp.None?
  {
    if t in cmpMap then cmpMap[t] else None
  }

  /** `peeps[h.ticker] || { peTTM: null, latestEps: null }` (an entry is an object, so always truthy). */
  function FundamentalsFor(peeps: map<string, Fundamentals>, t: string): (g: Fundamentals)
    ensures t in peeps ==> g == peeps[t]
    ensures t !in peeps ==> g.peTTM.None? && g.latestEps.None?
  {
    if t in peeps then peeps[t] else NO_FUNDAMENTALS
  }

  /** One holding with its live data and derived figures. */
  function DeriveHolding(h: HoldingBase, cmpMap: map<string, Option<real>>, peeps: map<string, Fundamentals>,
                         totalInvestment: real): (r: HoldingWithLive)
    ensures r.base == h
    ensures r.cmp == CmpOf(cmpMap, h.ticker)
    ensures r.peTTM == FundamentalsFor(peeps, h.ticker).peTTM
    ensures r.latestEps == FundamentalsFor(peeps, h.ticker).latestEps
    ensures r.investment == CalculateInvestment(h.purchasePrice, h.quantity) && r.investment >= 0.0
    ensures r.presentValue == CalculatePresentValue(r.cmp, h.quantity)
    ensures r.gainLoss == CalculateGainLoss(r.presentValue, r.investment) && r.gainLoss == r.presentValue - r.investment
    ensures r.portfolioPercent == CalculatePortfolioPercentage(r.investment, totalInvestment)
    ensures r.cmp.None? ==> r.presentValue == 0.0 && r.gainLoss == -r.investment
  {
    var cmp := CmpOf(cmpMap, h.ticker);
    var g := FundamentalsFor(peeps, h.ticker);
    var investment := CalculateInvestment(h.purchasePrice, h.quantity);
    var presentValue := CalculatePresentValue(cmp, h.quantity);
    var gainLoss := CalculateGainLoss(presentValue, investment);
    var portfolioPercent := CalculatePortfolioPercentage(investment, totalInvestment);
    HoldingWithLive(h, cmp, g.peTTM, g.latestEps, investment, presentValue, gainLoss, portfolioPercent)
  }

  function DeriveHoldings(base: seq<HoldingBase>, cmpMap: map<string, Option<real>>,
                          peeps: map<string, Fundamentals>, totalInvestment: real): (hs: seq<HoldingWithLive>)
    ensures |hs| == |base|
    ensures forall i :: 0 <= i < |base| ==> hs[i] == DeriveHolding(base[i], cmpMap, peeps, totalInvestment)
  {
    seq(|base|, i requires 0 <= i < |base| => DeriveHolding(base[i], cmpMap, peeps, totalInvestment))
  }

  /** `calculateInvestment` of each base holding, in order. */
  function BaseInvestments(base: seq<HoldingBase>): (xs: seq<real>)
    ensures |xs| == |base|
    ensures forall i :: 0 <= i < |base| ==> xs[i] == CalculateInvestment(base[i].purchasePrice, base[i].quantity)
  {
    seq(|base|, i requires 0 <= i < |base| => CalculateInvestment(base[i].purchasePrice, base[i].quantity))
  }

  // ---------------------------------------------------------------- sums over holdings

  datatype Field = Investment | PresentValue | GainLoss

  function FieldOf(h: HoldingWithLive, f: Field): real
  {
    match f
    case Investment => h.investment
    case PresentValue => h.presentValue
    case GainLoss => h.gainLoss
  }

  /** `holdings.reduce((s, h) => s + h.<field>, 0)` */
  function FieldSum(hs: seq<HoldingWithLive>, f: Field): real
  {
    if hs == [] then 0.0 else FieldSum(hs[..|hs| - 1], f) + FieldOf(hs[|hs| - 1], f)
  }

  /** The same sum over the holdings whose sector is exactly s. */
  function SumWhere(hs: seq<HoldingWithLive>, s: string, f: Field): real
  {
    if hs == [] then 0.0
    else SumWhere(hs[..|hs| - 1], s, f) + (if hs[|hs| - 1].base.sector == s then FieldOf(hs[|hs| - 1], f) else 0.0)
  }

  /** The holdings' investments sum to the total computed from the base holdings. */
  lemma InvestmentSumMatchesBase(base: seq<HoldingBase>, cmpMap: map<string, Option<real>>,
                                 peeps: map<string, Fundamentals>, total: real)
    ensures FieldSum(DeriveHoldings(base, cmpMap, peeps, total), Investment) == Sum(BaseInvestments(base))
  {
    InvestmentSumOfMatching(DeriveHoldings(base, cmpMap, peeps, total), BaseInvestments(base));
  }

  /** Holdings whose investments are xs, element by element, sum to Sum(xs). */
  lemma {:induction false} InvestmentSumOfMatching(hs: seq<HoldingWithLive>, xs: seq<real>)
    requires |hs| == |xs|
    requires forall i :: 0 <= i < |hs| ==> hs[i].investment == xs[i]
    ensures FieldSum(hs, Investment) == Sum(xs)
    decreases |hs|
  {
    if hs != [] {
      var n := |hs|;
      InvestmentSumOfMatching(hs[..n - 1], xs[..n - 1]);
    }
  }

  /** Gain/loss summed is present value summed minus investment summed. */
  lemma {:induction false} GainLossSum(hs: seq<HoldingWithLive>)
    requires forall i :: 0 <= i < |hs| ==> hs[i].gainLoss == hs[i].presentValue - hs[i].investment
    ensures FieldSum(hs, GainLoss) == FieldSum(hs, PresentValue) - FieldSum(hs, Investment)
    decreases |hs|
  {
    if hs != [] {
      GainLossSum(hs[..|hs| - 1]);
    }
  }

  // ---------------------------------------------------------------- the sector fold

  /** The distinct sectors in order of first occurrence, as the insertion order of a JavaScript Map. */
  function SectorOrder(hs: seq<HoldingWithLive>): (order: seq<string>)
    ensures Distinct(order)
    ensures forall i :: 0 <= i < |hs| ==> hs[i].base.sector in order
    ensures forall s :: s in order ==> exists i :: 0 <= i < |hs| && hs[i].base.sector == s
    ensures InFirstOccurrenceOrder(order, SectorNames(hs))
  {
    if hs == [] then []
    else
      var prefix := SectorOrder(hs[..|hs| - 1]);
      var s := hs[|hs| - 1].base.sector;
      assert forall i :: 0 <= i < |hs| - 1 ==> hs[..|hs| - 1][i] == hs[i];
      assert SectorNames(hs) == SectorNames(hs[..|hs| - 1]) + [s];
      FirstOccurrenceOrderStep(prefix, SectorNames(hs[..|hs| - 1]), s);
      if s in prefix then prefix else prefix + [s]
  }

  /** The sector of each holding, in order. */
  function SectorNames(hs: seq<HoldingWithLive>): (names: seq<string>)
    ensures |names| == |hs|
    ensures forall i :: 0 <= i < |hs| ==> names[i] == hs[i].base.sector
  {
    seq(|hs|, i requires 0 <= i < |hs| => hs[i].base.sector)
  }

  /** The entry a sector ends with: the three sums over its holdings. */
  function SectorTotal(hs: seq<HoldingWithLive>, s: string): SectorGroupTotals
  {
    SectorGroupTotals(s, SumWhere(hs, s, Investment), SumWhere(hs, s, PresentValue), SumWhere(hs, s, GainLoss))
  }

  /** `Array.from(sectorsMap.values())` once every holding is folded in. */
  function SectorsFor(order: seq<string>, hs: seq<HoldingWithLive>): (sectors: seq<SectorGroupTotals>)
    ensures |sectors| == |order|
    ensures forall k :: 0 <= k < |order| ==> sectors[k] == SectorTotal(hs, order[k])
  {
    seq(|order|, k requires 0 <= k < |order| => SectorTotal(hs, order[k]))
  }

  function Sectors(hs: seq<HoldingWithLive>): seq<SectorGroupTotals>
  {
    SectorsFor(SectorOrder(hs), hs)
  }

  lemma SectorOrderStep(hs: seq<HoldingWithLive>, h: HoldingWithLive)
    ensures SectorOrder(hs + [h]) == if h.base.sector in SectorOrder(hs) then SectorOrder(hs) else SectorOrder(hs) + [h.base.sector]
  {
    assert (hs + [h])[..|hs|] == hs;
  }

  lemma SumWhereStep(hs: seq<HoldingWithLive>, h: HoldingWithLive, s: string, f: Field)
    ensures SumWhere(hs + [h], s, f) == SumWhere(hs, s, f) + (if h.base.sector == s then FieldOf(h, f) else 0.0)
  {
    assert (hs + [h])[..|hs|] == hs;
  }

  lemma {:induction false} SumWhereNone(hs: seq<HoldingWithLive>, s: string, f: Field)
    requires forall i :: 0 <= i < |hs| ==> hs[i].base.sector != s
    ensures SumWhere(hs, s, f) == 0.0
    decreases |hs|
  {
    if hs != [] {
      SumWhereNone(hs[..|hs| - 1], s, f);
    }
  }

  /** `entry.totalX += h.x` for the three figures. */
  function AddFigures(entry: SectorGroupTotals, h: HoldingWithLive): SectorGroupTotals
  {
    entry.(totalInvestment := entry.totalInvestment + h.investment,
           totalPresentValue := entry.totalPresentValue + h.presentValue,
           totalGainLoss := entry.totalGainLoss + h.gainLoss)
  }

  /** The sector map after folding in hs: its keys in insertion order, and each sector's sums. */
  ghost predicate Folded(hs: seq<HoldingWithLive>, order: seq<string>, entries: map<string, SectorGroupTotals>)
  {
    && order == SectorOrder(hs)
    && (forall s :: s in entries <==> s in order)
    && (forall s :: s in entries ==> entries[s] == SectorTotal(hs, s))
  }

  /** One more holding adds its figures to its own sector's sums and to no other. */
  lemma SectorTotalStep(hs: seq<HoldingWithLive>, h: HoldingWithLive, x: string)
    ensures SectorTotal(hs + [h], x) ==
      if h.base.sector == x then AddFigures(SectorTotal(hs, x), h) else SectorTotal(hs, x)
  {
    SumWhereStep(hs, h, x, Investment);
    SumWhereStep(hs, h, x, PresentValue);
    SumWhereStep(hs, h, x, GainLoss);
  }

  /** A sector no holding has yet sums to zero. */
  lemma FreshSectorIsZero(hs: seq<HoldingWithLive>, s: string)
    requires s !in SectorOrder(hs)
    ensures SectorTotal(hs, s) == SectorGroupTotals(s, 0.0, 0.0, 0.0)
  {
    assert forall i :: 0 <= i < |hs| ==> hs[i].base.sector != s;
    SumWhereNone(hs, s, Investment);
    SumWhereNone(hs, s, PresentValue);
    SumWhereNone(hs, s, GainLoss);
  }

  /** Folding in one more holding: fetch or create its sector's entry, add its figures, store it back. */
  lemma FoldStep(hs: seq<HoldingWithLive>, h: HoldingWithLive, order: seq<string>, entries: map<string, SectorGroupTotals>,
                 order': seq<string>, entries': map<string, SectorGroupTotals>)
    requires Folded(hs, order, entries)
    requires order' == if h.base.sector in entries then order else order + [h.base.sector]
    requires entries' == entries[h.base.sector := AddFigures(
      if h.base.sector in entries then entries[h.base.sector] else SectorGroupTotals(h.base.sector, 0.0, 0.0, 0.0), h)]
    ensures Folded(hs + [h], order', entries')
  {
    var s := h.base.sector;
    SectorOrderStep(hs, h);
    if s !in entries {
      FreshSectorIsZero(hs, s);
    }
    var entry := if s in entries then entries[s] else SectorGroupTotals(s, 0.0, 0.0, 0.0);
    StoreStep(hs, h, entries, entry);
  }

  /** Storing the updated entry keeps every entry equal to its sector's sums. */
  lemma StoreStep(hs: seq<HoldingWithLive>, h: HoldingWithLive, entries: map<string, SectorGroupTotals>,
                  entry: SectorGroupTotals)
    requires forall x :: x in entries ==> entries[x] == SectorTotal(hs, x)
    requires entry == SectorTotal(hs, h.base.sector)
    ensures var entries' := entries[h.base.sector := AddFigures(entry, h)];
      forall x :: x in entries' ==> entries'[x] == SectorTotal(hs + [h], x)
  {
    var entries' := entries[h.base.sector := AddFigures(entry, h)];
    forall x | x in entries'
      ensures entries'[x] == SectorTotal(hs + [h], x)
    {
      SectorTotalStep(hs, h, x);
    }
  }

  /** Reading the folded map in insertion order gives the sector list. */
  lemma FoldedSectors(hs: seq<HoldingWithLive>, order: seq<string>, entries: map<string, SectorGroupTotals>)
    requires Folded(hs, order, entries)
    ensures forall k :: 0 <= k < |order| ==> order[k] in entries
    ensures seq(|order|, k requires 0 <= k < |order| && order[k] in entries => entries[order[k]]) == Sectors(hs)
  {
  }

  /**
   * The sector pass: one Map entry per sector, created at zero on the
   * sector's first holding, and each holding's three figures added to it.
   */
  method AggregateSectors(hs: seq<HoldingWithLive>) returns (sectors: seq<SectorGroupTotals>)
    ensures sectors == Sectors(hs)
  {
    var order: seq<string> := [];
    var entries: map<string, SectorGroupTotals> := map[];
    for i := 0 to |hs|
      invariant Folded(hs[..i], order, entries)
    {
      var h := hs[i];
      ghost var order0, entries0 := order, entries;
      var entry;
      if h.base.sector in entries {
        entry := entries[h.base.sector];
      } else {
        entry := SectorGroupTotals(h.base.sector, 0.0, 0.0, 0.0);
        order := order + [h.base.sector];
      }
      entry := AddFigures(entry, h);
      entries := entries[h.base.sector := entry];
      FoldStep(hs[..i], h, order0, entries0, order, entries);
      PrefixSnoc(hs, i);
    }
    assert hs[..|hs|] == hs;
    FoldedSectors(hs, order, entries);
    sectors := seq(|order|, k requires 0 <= k < |order| && order[k] in entries => entries[order[k]]);
  }

  /** A field summed over the sector entries. */
  function SectorFieldSum(sectors: seq<SectorGroupTotals>, f: Field): real
  {
    if sectors == [] then 0.0
    else
      var e := sectors[|sectors| - 1];
      SectorFieldSum(sectors[..|sectors| - 1], f) +
        (match f
         case Investment => e.totalInvestment
         case PresentValue => e.totalPresentValue
         case GainLoss => e.totalGainLoss)
  }

  /** The per-sector sums over a list of sectors. */
  function SumOverSectors(order: seq<string>, hs: seq<HoldingWithLive>, f: Field): real
  {
    if order == [] then 0.0 else SumOverSectors(order[..|order| - 1], hs, f) + SumWhere(hs, order[|order| - 1], f)
  }

  lemma {:induction false} SectorFieldSumIsSumOverSectors(order: seq<string>, hs: seq<HoldingWithLive>, f: Field)
    ensures SectorFieldSum(SectorsFor(order, hs), f) == SumOverSectors(order, hs, f)
    decreases |order|
  {
    if order != [] {
      var n := |order|;
      assert SectorsFor(order, hs)[..n - 1] == SectorsFor(order[..n - 1], hs);
      SectorFieldSumIsSumOverSectors(order[..n - 1], hs, f);
    }
  }

  /** One more holding adds its figure to the sum of exactly one listed sector, if any. */
  lemma {:induction false} SumOverSectorsStep(order: seq<string>, hs: seq<HoldingWithLive>, h: HoldingWithLive, f: Field)
    requires Distinct(order)
    ensures SumOverSectors(order, hs + [h], f) ==
            SumOverSectors(order, hs, f) + (if h.base.sector in order then FieldOf(h, f) else 0.0)
    decreases |order|
  {
    if order != [] {
      var n := |order|;
      var prefix := order[..n - 1];
      assert Distinct(prefix);
      SumOverSectorsStep(prefix, hs, h, f);
      SumWhereStep(hs, h, order[n - 1], f);
      assert h.base.sector in order <==> h.base.sector in prefix || h.base.sector == order[n - 1];
      assert order[n - 1] !in prefix;
    }
  }

  lemma {:induction false} SumOverSectorsOfNothing(order: seq<string>, f: Field)
    ensures SumOverSectors(order, [], f) == 0.0
    decreases |order|
  {
    if order != [] {
      SumOverSectorsOfNothing(order[..|order| - 1], f);
    }
  }

  /** Summing per sector, over sectors that cover every holding once, gives the grand sum. */
  lemma {:induction false} SumOverSectorsCovers(order: seq<string>, hs: seq<HoldingWithLive>, f: Field)
    requires Distinct(order)
    requires forall i :: 0 <= i < |hs| ==> hs[i].base.sector in order
    ensures SumOverSectors(order, hs, f) == FieldSum(hs, f)
    decreases |hs|
  {
    if hs == [] {
      SumOverSectorsOfNothing(order, f);
    } else {
      var n := |hs|;
      var prefix := hs[..n - 1];
      assert forall i :: 0 <= i < n - 1 ==> prefix[i] == hs[i];
      SumOverSectorsCovers(order, prefix, f);
      assert prefix + [hs[n - 1]] == hs;
      SumOverSectorsStep(order, prefix, hs[n - 1], f);
    }
  }

  /** Summing any field across the sector entries gives the same field summed across all holdings. */
  lemma SectorsSumToTotals(hs: seq<HoldingWithLive>, f: Field)
    ensures SectorFieldSum(Sectors(hs), f) == FieldSum(hs, f)
  {
    SectorFieldSumIsSumOverSectors(SectorOrder(hs), hs, f);
    SumOverSectorsCovers(SectorOrder(hs), hs, f);
  }

  /** Each sector appears once, and a sector is listed exactly when some holding has it. */
  lemma SectorsListedOnce(hs: seq<HoldingWithLive>)
    ensures forall j, k :: 0 <= j < k < |Sectors(hs)| ==> Sectors(hs)[j].sector != Sectors(hs)[k].sector
    ensures forall i :: 0 <= i < |hs| ==> exists k :: 0 <= k < |Sectors(hs)| && Sectors(hs)[k].sector == hs[i].base.sector
  {
    var order := SectorOrder(hs);
    forall i | 0 <= i < |hs|
      ensures exists k :: 0 <= k < |Sectors(hs)| && Sectors(hs)[k].sector == hs[i].base.sector
    {
      var k :| 0 <= k < |order| && order[k] == hs[i].base.sector;
      assert Sectors(hs)[k].sector == hs[i].base.sector;
    }
  }

  // ---------------------------------------------------------------- the response

  /** The priced holdings, sectors and totals for the given base holdings and live maps. */
  function Snapshot(base: seq<HoldingBase>, cmpMap: map<string, Option<real>>, peeps: map<string, Fundamentals>,
                    lastUpdated: string): PortfolioResponse
  {
    var totalInvestment := Sum(BaseInvestments(base));
    var holdings := DeriveHoldings(base, cmpMap, peeps, totalInvestment);
    PortfolioResponse(lastUpdated, holdings, Sectors(holdings),
                      PortfolioTotals(totalInvestment, FieldSum(holdings, PresentValue), FieldSum(holdings, GainLoss)),
                      false)
  }

  /** The price map GET works with: the fetched one, or empty when the fetch threw. */
  function CmpMapOf(tickers: seq<string>, priceQuote: string -> nat -> Outcome<JsValue>, priceFetchThrows: bool): map<string, Option<real>>
  {
    if priceFetchThrows then map[] else PriceMap(tickers, priceQuote)
  }

  /** The fundamentals map GET works with: the fetched one, or empty when the fetch threw. */
  function PeepsOf(tickers: seq<string>, fundQuote: string -> nat -> Outcome<JsValue>, fundFetchThrows: bool): map<string, Fundamentals>
  {
    if fundFetchThrows then map[] else FundamentalsMap(tickers, fundQuote)
  }

  /** The response GET builds when the cache has nothing live. */
  function BuildResponse(rows: seq<JsValue>, priceQuote: string -> nat -> Outcome<JsValue>, priceFetchThrows: bool,
                         fundQuote: string -> nat -> Outcome<JsValue>, fundFetchThrows: bool,
                         lastUpdated: string): PortfolioResponse
  {
    var base := NormalizePortfolioTable.Normalized(rows);
    var tickers := TickersToFetch(base);
    Snapshot(base, CmpMapOf(tickers, priceQuote, priceFetchThrows), PeepsOf(tickers, fundQuote, fundFetchThrows), lastUpdated)
  }

  /** Each holding keeps its base fields and takes its live data from the maps, or null. */
  lemma HoldingsJoinLiveData(base: seq<HoldingBase>, cmpMap: map<string, Option<real>>,
                             peeps: map<string, Fundamentals>, lastUpdated: string)
    ensures |Snapshot(base, cmpMap, peeps, lastUpdated).holdings| == |base|
    ensures forall i :: 0 <= i < |base| ==>
      var h := Snapshot(base, cmpMap, peeps, lastUpdated).holdings[i];
      && h.base == base[i]
      && (base[i].ticker in cmpMap ==> h.cmp == cmpMap[base[i].ticker])
      && (base[i].ticker !in cmpMap ==> h.cmp.None?)
      && (base[i].ticker in peeps ==> h.peTTM == peeps[base[i].ticker].peTTM && h.latestEps == peeps[base[i].ticker].latestEps)
      && (base[i].ticker !in peeps ==> h.peTTM.None? && h.latestEps.None?)
      && h.investment == CalculateInvestment(base[i].purchasePrice, base[i].quantity)
      && h.presentValue == CalculatePresentValue(h.cmp, base[i].quantity)
      && h.gainLoss == CalculateGainLoss(h.presentValue, h.investment)
      && h.portfolioPercent == CalculatePortfolioPercentage(h.investment, Sum(BaseInvestments(base)))
  {
  }

  /** When the total investment is 0, every holding's portfolio share is 0. */
  lemma ZeroTotalGivesZeroPercent(base: seq<HoldingBase>, cmpMap: map<string, Option<real>>,
                                  peeps: map<string, Fundamentals>, lastUpdated: string)
    requires Sum(BaseInvestments(base)) == 0.0
    ensures var hs := Snapshot(base, cmpMap, peeps, lastUpdated).holdings;
      forall i :: 0 <= i < |hs| ==> hs[i].portfolioPercent == 0.0
  {
  }

  /** The totals: investment is the sum over holdings, and gain/loss is present value minus investment. */
  lemma TotalsAreSums(base: seq<HoldingBase>, cmpMap: map<string, Option<real>>,
                      peeps: map<string, Fundamentals>, lastUpdated: string)
    ensures var r := Snapshot(base, cmpMap, peeps, lastUpdated);
      && r.totals.totalInvestment == FieldSum(r.holdings, Investment)
      && r.totals.totalGainLoss == r.totals.totalPresentValue - r.totals.totalInvestment
      && !r.usedCache
  {
    var r := Snapshot(base, cmpMap, peeps, lastUpdated);
    InvestmentSumMatchesBase(base, cmpMap, peeps, r.totals.totalInvestment);
    GainLossSum(r.holdings);
  }

  /** The sector entries add up to the grand totals, field by field. */
  lemma SectorsAddUpToTotals(base: seq<HoldingBase>, cmpMap: map<string, Option<real>>,
                             peeps: map<string, Fundamentals>, lastUpdated: string)
    ensures var r := Snapshot(base, cmpMap, peeps, lastUpdated);
      && SectorFieldSum(r.sectors, Investment) == r.totals.totalInvestment
      && SectorFieldSum(r.sectors, PresentValue) == r.totals.totalPresentValue
      && SectorFieldSum(r.sectors, GainLoss) == r.totals.totalGainLoss
  {
    var r := Snapshot(base, cmpMap, peeps, lastUpdated);
    TotalsAreSums(base, cmpMap, peeps, lastUpdated);
    SectorsSumToTotals(r.holdings, Investment);
    SectorsSumToTotals(r.holdings, PresentValue);
    SectorsSumToTotals(r.holdings, GainLoss);
  }

  /** With a positive total investment the portfolio percentages lie in [0, 100] and sum to 100. */
  lemma PercentagesSumTo100(base: seq<HoldingBase>, cmpMap: map<string, Option<real>>,
                            peeps: map<string, Fundamentals>, lastUpdated: string)
    requires Sum(BaseInvestments(base)) > 0.0
    ensures var hs := Snapshot(base, cmpMap, peeps, lastUpdated).holdings;
      && (forall i :: 0 <= i < |hs| ==> 0.0 <= hs[i].portfolioPercent <= 100.0)
      && Sum(seq(|hs|, i requires 0 <= i < |hs| => hs[i].portfolioPercent)) == 100.0
  {
    var xs := BaseInvestments(base);
    var hs := Snapshot(base, cmpMap, peeps, lastUpdated).holdings;
    assert seq(|hs|, i requires 0 <= i < |hs| => hs[i].portfolioPercent) == Shares(xs, Sum(xs));
    SharesOfTotalSumTo100(xs);
    SharesInRange(xs);
  }

  /** With no price map every holding is unpriced; with no fundamentals map, without P/E and EPS. */
  lemma EmptyMapsGiveNulls(base: seq<HoldingBase>, cmpMap: map<string, Option<real>>,
                           peeps: map<string, Fundamentals>, lastUpdated: string)
    ensures var hs := Snapshot(base, cmpMap, peeps, lastUpdated).holdings;
      && (cmpMap == map[] ==> forall i :: 0 <= i < |hs| ==> hs[i].cmp.None? && hs[i].presentValue == 0.0)
      && (peeps == map[] ==> forall i :: 0 <= i < |hs| ==> hs[i].peTTM.None? && hs[i].latestEps.None?)
  {
  }

  /** A failed price fetch leaves every holding without a price; a failed fundamentals fetch, without P/E and EPS. */
  lemma FetchFailureGivesNulls(rows: seq<JsValue>, priceQuote: string -> nat -> Outcome<JsValue>, priceFetchThrows: bool,
                               fundQuote: string -> nat -> Outcome<JsValue>, fundFetchThrows: bool, lastUpdated: string)
    ensures var hs := BuildResponse(rows, priceQuote, priceFetchThrows, fundQuote, fundFetchThrows, lastUpdated).holdings;
      && (priceFetchThrows ==> forall i :: 0 <= i < |hs| ==> hs[i].cmp.None? && hs[i].presentValue == 0.0)
      && (fundFetchThrows ==> forall i :: 0 <= i < |hs| ==> hs[i].peTTM.None? && hs[i].latestEps.None?)
  {
    var base := NormalizePortfolioTable.Normalized(rows);
    var tickers := TickersToFetch(base);
    var cmpMap, peeps := CmpMapOf(tickers, priceQuote, priceFetchThrows), PeepsOf(tickers, fundQuote, fundFetchThrows);
    assert BuildResponse(rows, priceQuote, priceFetchThrows, fundQuote, fundFetchThrows, lastUpdated) ==
           Snapshot(base, cmpMap, peeps, lastUpdated);
    EmptyMapsGiveNulls(base, cmpMap, peeps, lastUpdated);
  }

  /** UNKNOWN tickers are never sent upstream, so those holdings get no price and no fundamentals. */
  lemma UnknownTickerGetsNoLiveData(rows: seq<JsValue>, priceQuote: string -> nat -> Outcome<JsValue>, priceFetchThrows: bool,
                                    fundQuote: string -> nat -> Outcome<JsValue>, fundFetchThrows: bool, lastUpdated: string)
    ensures var hs := BuildResponse(rows, priceQuote, priceFetchThrows, fundQuote, fundFetchThrows, lastUpdated).holdings;
      forall i :: 0 <= i < |hs| && hs[i].base.ticker == "UNKNOWN" ==>
        hs[i].cmp.None? && hs[i].peTTM.None? && hs[i].latestEps.None?
  {
  }

  /**
   * Copies `yahooFund` into `peeps` key by key, as the `Object.keys` loop
   * does; the order of the keys does not matter.
   */
  method CopyFundamentals(yahooFund: map<string, Fundamentals>) returns (peeps: map<string, Fundamentals>)
    ensures peeps == yahooFund
  {
    peeps := map[];
    var keys := yahooFund.Keys;
    while keys != {}
      invariant keys <= yahooFund.Keys
      invariant peeps.Keys == yahooFund.Keys - keys
      invariant forall t :: t in peeps ==> peeps[t] == yahooFund[t]
      decreases keys
    {
      var t :| t in keys;
      var f := yahooFund[t];
      peeps := peeps[t := Fundamentals(f.peTTM, f.latestEps)];
      keys := keys - {t};
    }
  }

  /** The uncached path of GET: everything between the cache read and the cache write. */
  method BuildSnapshot(rows: seq<JsValue>, lastUpdated: string,
                       priceQuote: string -> nat -> Outcome<JsValue>, priceFetchThrows: bool,
                       fundQuote: string -> nat -> Outcome<JsValue>, fundFetchThrows: bool)
    returns (response: PortfolioResponse)
    ensures response == BuildResponse(rows, priceQuote, priceFetchThrows, fundQuote, fundFetchThrows, lastUpdated)
  {
    var baseHoldings := NormalizePortfolioTable.NormalizeRows(rows);
    var totalInvestment := Sum(BaseInvestments(baseHoldings));
    var tickers := TickersToFetch(baseHoldings);

    var cmpMap: map<string, Option<real>> := map[];
    if !priceFetchThrows {
      var pauses;
      cmpMap, pauses := FetchCmpAll(tickers, BATCH_SIZE, priceQuote);
    }
    var peeps: map<string, Fundamentals> := map[];
    if !fundFetchThrows {
      var yahooFund, pauses := FetchPeEpsAll(tickers, BATCH_SIZE, fundQuote);
      peeps := CopyFundamentals(yahooFund);
    }

    var holdings := DeriveHoldings(baseHoldings, cmpMap, peeps, totalInvestment);
    var sectors := AggregateSectors(holdings);
    var totals := PortfolioTotals(totalInvestment, FieldSum(holdings, PresentValue), FieldSum(holdings, GainLoss));
    response := PortfolioResponse(lastUpdated, holdings, sectors, totals, false);
  }

  /**
   * GET at time `now`: a live cache entry is served with usedCache set;
   * otherwise the snapshot is built from `rows`, stored at time `storedAt`
   * and returned.
   */
  method Get(cache: Cache<PortfolioResponse>, rows: seq<JsValue>, now: int, storedAt: int, lastUpdated: string,
             priceQuote: string -> nat -> Outcome<JsValue>, priceFetchThrows: bool,
             fundQuote: string -> nat -> Outcome<JsValue>, fundFetchThrows: bool)
    returns (response: PortfolioResponse)
    modifies cache
    ensures IsLive(old(cache.entries), CACHE_KEY, DEFAULT_TTL_MS, now) ==>
      && response == old(cache.entries)[CACHE_KEY].data.(usedCache := true)
      && cache.entries == old(cache.entries)
    ensures !IsLive(old(cache.entries), CACHE_KEY, DEFAULT_TTL_MS, now) ==>
      && response == BuildResponse(rows, priceQuote, priceFetchThrows, fundQuote, fundFetchThrows, lastUpdated)
      && cache.entries == old(cache.entries)[CACHE_KEY := CacheEntry(response, storedAt)]
  {
    var cached := cache.GetCache(CACHE_KEY, DEFAULT_TTL_MS, now);
    if cached.Some? {
      return cached.value.data.(usedCache := true);
    }
    response := BuildSnapshot(rows, lastUpdated, priceQuote, priceFetchThrows, fundQuote, fundFetchThrows);
    cache.SetCache(CACHE_KEY, response, storedAt);
  }

  // ---------------------------------------------------------------- a worked example

  /** One holding of 10 shares bought at 100 and now quoted at 120. */
  lemma ExampleAcmeSnapshot(lastUpdated: string)
    ensures var r := Snapshot([NormalizePortfolioTable.ACME_HOLDING], map["ACME.NS" := Some(120.0)], map[], lastUpdated);
      && |r.holdings| == 1
      && r.holdings[0].cmp == Some(120.0)
      && r.holdings[0].investment == 1000.0
      && r.holdings[0].presentValue == 1200.0
      && r.holdings[0].gainLoss == 200.0
      && r.holdings[0].portfolioPercent == 100.0
      && r.holdings[0].peTTM.None? && r.holdings[0].latestEps.None?
      && r.totals == PortfolioTotals(1000.0, 1200.0, 200.0)
  {
    var base := [NormalizePortfolioTable.ACME_HOLDING];
    assert base[..0] == [];
    var xs := BaseInvestments(base);
    assert xs == [1000.0];
    assert xs[..0] == [];
    assert Sum(xs) == Sum([]) + 1000.0 == 1000.0;
    var hs := DeriveHoldings(base, map["ACME.NS" := Some(120.0)], map[], 1000.0);
    assert hs[..0] == [];
    assert hs[0].presentValue == 1200.0 && hs[0].gainLoss == 200.0;
    assert FieldSum(hs, PresentValue) == 1200.0;
    assert FieldSum(hs, GainLoss) == 200.0;
  }
}
