/**
 * The records of the portfolio domain: a holding as read from the input file,
 * the same holding priced with live data, per-sector and grand totals, and the
 * response the portfolio endpoint serves. Amounts are real numbers.
 */
module PortfolioTypes {
  import opened Js

  datatype Exchange = NSE | BSE | UNKNOWN

  /** An exchange-qualified ticker such as HDFCBANK.NS or 532174.BO. */
  datatype DerivedTicker = DerivedTicker(ticker: string, exchange: Exchange)

  datatype HoldingBase = HoldingBase(
    name: string,
    ticker: string,
    exchange: Exchange,
    sector: string,
    purchasePrice: real,
    quantity: real)

  /** Trailing P/E and EPS; None stands for JavaScript's null ("not available"). */
  datatype Fundamentals = Fundamentals(peTTM: Option<real>, latestEps: Option<real>)

  const NO_FUNDAMENTALS := Fundamentals(None, None)

  /** A base holding with its live metrics and the fields derived from them. */
  datatype HoldingWithLive = HoldingWithLive(
    base: HoldingBase,
    cmp: Option<real>,
    peTTM: Option<real>,
    latestEps: Option<real>,
    investment: real,
    presentValue: real,
    gainLoss: real,
    portfolioPercent: real)

  datatype SectorGroupTotals = SectorGroupTotals(
    sector: string,
    totalInvestment: real,
    totalPresentValue: real,
    totalGainLoss: real)

  datatype PortfolioTotals = PortfolioTotals(
    totalInvestment: real,
    totalPresentValue: real,
    totalGainLoss: real)

  datatype PortfolioResponse = PortfolioResponse(
    lastUpdated: string,
    holdings: seq<HoldingWithLive>,
    sectors: seq<SectorGroupTotals>,
    totals: PortfolioTotals,
    usedCache: bool)
}
