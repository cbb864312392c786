/**
 * The Yahoo Finance layer (lib/api/yahoo.ts): a retry loop with a capped
 * doubling back-off, and the two batch fetchers built on it.
 *
 * The remote call `yahooFinance.quote(t)` is an oracle: `quote(t)(k)` is
 * what the k-th attempt (counting from 0) within one withRetries throws or
 * returns, the same in every retry loop for t. The
 * quote object itself is a JsValue whose fields are read with Prop, which
 * gives undefined for a missing field just as `(q as any)?.field` does.
 * `sleep(ms)` is recorded as the delay it would wait.
 */
module Yahoo {
  import opened Js
  import opened PortfolioTypes

  /** What an awaited call does: throw an error or return a value. */
  datatype Outcome<T> = Threw(error: string) | Returned(value: T)

  const DEFAULT_RETRIES: int := 3
  const INITIAL_DELAY_MS: int := 800
  const MAX_DELAY_MS: int := 5000
  const CHUNK_PAUSE_MS: int := 120

  function Min(a: int, b: int): (r: int)
    ensures r <= a && r <= b && (r == a || r == b)
  {
    if a <= b then a else b
  }

  // ---------------------------------------------------------------- withRetries

  /** The outcome of a retry loop and how many times it called fn. */
  datatype RetryRun<T> = RetryRun(result: Outcome<T>, calls: nat)

  /**
   * The retry loop from the call numbered `attempt` on: a result ends it at
   * once, a failure ends it when `attempt + 1 > retries`, otherwise it tries again.
   */
  function RetryFrom<T>(fn: nat -> Outcome<T>, retries: int, attempt: nat): (r: RetryRun<T>)
    ensures attempt < r.calls
    ensures r.calls <= (if retries > attempt then retries else attempt) + 1
    ensures r.result == fn(r.calls - 1)
    ensures forall k :: attempt <= k < r.calls - 1 ==> fn(k).Threw?
    ensures r.result.Threw? ==> r.calls == (if retries > attempt then retries else attempt) + 1
    decreases if attempt <= retries then retries - attempt + 1 else 0
  {
    match fn(attempt)
    case Returned(v) => RetryRun(Returned(v), attempt + 1)
    case Threw(e) =>
      if attempt + 1 > retries then RetryRun(Threw(e), attempt + 1)
      else RetryFrom(fn, retries, attempt + 1)
  }

  /** withRetries(fn, retries) as a value. */
  function Retried<T>(fn: nat -> Outcome<T>, retries: int): RetryRun<T>
  {
    RetryFrom(fn, retries, 0)
  }

  /** At most retries + 1 calls, and always at least one. */
  lemma AtMostRetriesPlusOne<T>(fn: nat -> Outcome<T>, retries: nat)
    ensures 1 <= Retried(fn, retries).calls <= retries + 1
  {
    var r := RetryFrom(fn, retries, 0);
  }

  /** The first call that returns is the one whose value comes back. */
  lemma FirstSuccessReturned<T>(fn: nat -> Outcome<T>, retries: nat, k: nat)
    requires k <= retries && fn(k).Returned?
    requires forall j :: 0 <= j < k ==> fn(j).Threw?
    ensures Retried(fn, retries) == RetryRun(fn(k), k + 1)
  {
  }

  /** After retries + 1 failures the last error is rethrown. */
  lemma LastErrorRethrown<T>(fn: nat -> Outcome<T>, retries: nat)
    requires forall j :: 0 <= j <= retries ==> fn(j).Threw?
    ensures Retried(fn, retries) == RetryRun(fn(retries), retries + 1)
  {
    var r := RetryFrom(fn, retries, 0);
    assert fn(r.calls - 1).Threw?;
  }

  /** The delay slept after the failure of call k when another call follows. */
  function BackoffDelay(k: nat): (d: int)
    ensures INITIAL_DELAY_MS <= d <= MAX_DELAY_MS
  {
    if k == 0 then INITIAL_DELAY_MS else Min(BackoffDelay(k - 1) * 2, MAX_DELAY_MS)
  }

  function Pow2(k: nat): (r: nat)
    ensures r >= 1
  {
    if k == 0 then 1 else 2 * Pow2(k - 1)
  }

  /** The delays start at 800 and double, capped at 5000. */
  lemma {:induction false} BackoffIsCappedDoubling(k: nat)
    ensures BackoffDelay(k) == Min(INITIAL_DELAY_MS * Pow2(k), MAX_DELAY_MS)
  {
    if k > 0 {
      BackoffIsCappedDoubling(k - 1);
      assert INITIAL_DELAY_MS * Pow2(k) == 2 * (INITIAL_DELAY_MS * Pow2(k - 1));
    }
  }

  /** The delays slept before the calls numbered 1 to n. */
  function DelaySchedule(n: nat): (s: seq<int>)
    ensures |s| == n
    ensures forall k :: 0 <= k < n ==> s[k] == BackoffDelay(k)
  {
    if n == 0 then [] else DelaySchedule(n - 1) + [BackoffDelay(n - 1)]
  }

  /** With the default three retries, a call that always fails sleeps 800, 1600, 3200. */
  lemma DefaultScheduleWhenAlwaysFailing<T>(fn: nat -> Outcome<T>)
    requires forall j :: 0 <= j <= DEFAULT_RETRIES ==> fn(j).Threw?
    ensures Retried(fn, DEFAULT_RETRIES).calls == 4
    ensures DelaySchedule(Retried(fn, DEFAULT_RETRIES).calls - 1) == [800, 1600, 3200]
  {
    LastErrorRethrown(fn, DEFAULT_RETRIES);
  }

  /**
   * withRetries(fn, retries): the result, the number of calls made, and the
   * delays slept in between, which are the schedule up to the last call.
   */
  method WithRetries<T>(fn: nat -> Outcome<T>, retries: int) returns (r: Outcome<T>, calls: nat, sleeps: seq<int>)
    ensures RetryRun(r, calls) == Retried(fn, retries)
    ensures sleeps == DelaySchedule(calls - 1)
  {
    var attempt: nat := 0;
    var delay := INITIAL_DELAY_MS;
    sleeps := [];
    while true
      invariant RetryFrom(fn, retries, attempt) == Retried(fn, retries)
      invariant delay == BackoffDelay(attempt)
      invariant sleeps == DelaySchedule(attempt)
      decreases retries - attempt
    {
      var outcome := fn(attempt);
      if outcome.Returned? {
        return outcome, attempt + 1, sleeps;
      }
      attempt := attempt + 1;
      if attempt > retries {
        return outcome, attempt, sleeps;
      }
      sleeps := sleeps + [delay];
      delay := Min(delay * 2, MAX_DELAY_MS);
    }
  }

  // ---------------------------------------------------------------- de-duplication

  predicate Distinct(s: seq<string>)
  {
    forall i, j :: 0 <= i < j < |s| ==> s[i] != s[j]
  }

  /** Array.from(new Set(tickers.filter(Boolean))): empty strings dropped, first occurrences kept in order. */
  function Unique(ts: seq<string>): (u: seq<string>)
    ensures forall t :: t in u <==> t in ts && t != ""
    ensures Distinct(u)
    ensures InFirstOccurrenceOrder(u, ts)
    ensures |u| <= |ts|
  {
    if ts == [] then []
    else
      var prefix := Unique(ts[..|ts| - 1]);
      var last := ts[|ts| - 1];
      assert forall t :: t in ts <==> t in ts[..|ts| - 1] || t == last;
      assert ts[..|ts| - 1] + [last] == ts;
      FirstOccurrenceOrderStep(prefix, ts[..|ts| - 1], last);
      if last == "" || last in prefix then prefix else prefix + [last]
  }

  /** A list that is already duplicate-free and has no empty string is kept as it is. */
  lemma {:induction false} UniqueKeepsDistinct(ts: seq<string>)
    requires Distinct(ts) && "" !in ts
    ensures Unique(ts) == ts
  {
    if ts != [] {
      var p := ts[..|ts| - 1];
      var last := ts[|ts| - 1];
      assert Distinct(p);
      UniqueKeepsDistinct(p);
      assert last !in p && last != "";
      assert p + [last] == ts;
      assert Unique(ts) == Unique(p) + [last];
    }
  }

  /** Re-listing tickers already seen adds nothing. */
  lemma {:induction false} UniqueAbsorbsRepeat(ts: seq<string>, t: string)
    requires t in ts
    ensures Unique(ts + [t]) == Unique(ts)
  {
    assert (ts + [t])[..|ts + [t]| - 1] == ts;
  }

  // ---------------------------------------------------------------- reading a quote

  /** `typeof v === "number" && Number.isFinite(v) ? v : null` */
  function FiniteOf(v: JsValue): (r: Option<real>)
    ensures r.Some? <==> v.Number? && v.n.Finite?
    ensures r.Some? ==> r.value == v.n.value
  {
    if v.Number? && v.n.Finite? then Some(v.n.value) else None
  }

  /** regularMarketPrice ?? postMarketPrice ?? preMarketPrice, kept when it is a finite number. */
  function PriceOf(q: JsValue): (p: Option<real>)
    ensures !IsNullish(Prop(q, "regularMarketPrice")) ==> p == FiniteOf(Prop(q, "regularMarketPrice"))
    ensures IsNullish(Prop(q, "regularMarketPrice")) && !IsNullish(Prop(q, "postMarketPrice")) ==>
              p == FiniteOf(Prop(q, "postMarketPrice"))
    ensures IsNullish(Prop(q, "regularMarketPrice")) && IsNullish(Prop(q, "postMarketPrice")) ==>
              p == FiniteOf(Prop(q, "preMarketPrice"))
    ensures !IsObject(q) ==> p.None?
  {
    FiniteOf(Coalesce(Prop(q, "regularMarketPrice"), Coalesce(Prop(q, "postMarketPrice"), Prop(q, "preMarketPrice"))))
  }

  /** trailingPE, and epsTrailingTwelveMonths ?? epsCurrentYear, each kept when finite. */
  function FundamentalsOf(q: JsValue): (f: Fundamentals)
    ensures f.peTTM == FiniteOf(Prop(q, "trailingPE"))
    ensures !IsNullish(Prop(q, "epsTrailingTwelveMonths")) ==> f.latestEps == FiniteOf(Prop(q, "epsTrailingTwelveMonths"))
    ensures IsNullish(Prop(q, "epsTrailingTwelveMonths")) ==> f.latestEps == FiniteOf(Prop(q, "epsCurrentYear"))
    ensures !IsObject(q) ==> f == NO_FUNDAMENTALS
  {
    Fundamentals(FiniteOf(Prop(q, "trailingPE")),
                 FiniteOf(Coalesce(Prop(q, "epsTrailingTwelveMonths"), Prop(q, "epsCurrentYear"))))
  }

  /** The price a ticker gets: read from the quote the retries produced, or null if they threw. */
  function TickerPrice(quote: string -> nat -> Outcome<JsValue>, t: string): (p: Option<real>)
    ensures Retried(quote(t), DEFAULT_RETRIES).result.Threw? ==> p.None?
    ensures Retried(quote(t), DEFAULT_RETRIES).result.Returned? ==>
              p == PriceOf(Retried(quote(t), DEFAULT_RETRIES).result.value)
  {
    match Retried(quote(t), DEFAULT_RETRIES).result
    case Returned(q) => PriceOf(q)
    case Threw(_) => None
  }

  /** The fundamentals a ticker gets, or both null if the retries threw. */
  function TickerFundamentals(quote: string -> nat -> Outcome<JsValue>, t: string): (f: Fundamentals)
    ensures Retried(quote(t), DEFAULT_RETRIES).result.Threw? ==> f == NO_FUNDAMENTALS
    ensures Retried(quote(t), DEFAULT_RETRIES).result.Returned? ==>
              f == FundamentalsOf(Retried(quote(t), DEFAULT_RETRIES).result.value)
  {
    match Retried(quote(t), DEFAULT_RETRIES).result
    case Returned(q) => FundamentalsOf(q)
    case Threw(_) => NO_FUNDAMENTALS
  }

  /** The price map for a ticker list: one entry per non-empty ticker. */
  function PriceMap(ts: seq<string>, quote: string -> nat -> Outcome<JsValue>): (m: map<string, Option<real>>)
  {
    map t | t in ts && t != "" :: TickerPrice(quote, t)
  }

  /** The fundamentals map for a ticker list: one entry per non-empty ticker. */
  function FundamentalsMap(ts: seq<string>, quote: string -> nat -> Outcome<JsValue>): (m: map<string, Fundamentals>)
  {
    map t | t in ts && t != "" :: TickerFundamentals(quote, t)
  }

  /** A ticker whose every attempt throws is priced null and has no fundamentals. */
  lemma UnreachableTickerIsNull(ts: seq<string>, quote: string -> nat -> Outcome<JsValue>, t: string)
    requires forall j :: 0 <= j <= DEFAULT_RETRIES ==> quote(t)(j).Threw?
    ensures TickerPrice(quote, t).None?
    ensures TickerFundamentals(quote, t) == NO_FUNDAMENTALS
    ensures t in ts && t != "" ==> t in PriceMap(ts, quote) && PriceMap(ts, quote)[t].None?
  {
    LastErrorRethrown(quote(t), DEFAULT_RETRIES);
  }

  /** Exactly the non-empty tickers of the list have an entry, so every unique ticker gets one. */
  lemma MapKeys(ts: seq<string>, quote: string -> nat -> Outcome<JsValue>)
    ensures forall t :: t in PriceMap(ts, quote) <==> t in Unique(ts)
    ensures forall t :: t in FundamentalsMap(ts, quote) <==> t in Unique(ts)
  {
  }

  /** A price map of a concatenation is the merge of the two price maps. */
  lemma PriceMapAppend(a: seq<string>, b: seq<string>, quote: string -> nat -> Outcome<JsValue>)
    ensures PriceMap(a + b, quote) == PriceMap(a, quote) + PriceMap(b, quote)
  {
    assert forall t :: t in a + b <==> t in a || t in b;
  }

  // ---------------------------------------------------------------- fetchCmpBatch

  /** A price that is a number but not finite is not kept; see README. */
  lemma NonFinitePriceIsNull(q: JsValue)
    requires Coalesce(Prop(q, "regularMarketPrice"), Coalesce(Prop(q, "postMarketPrice"), Prop(q, "preMarketPrice"))).Number?
    requires !Coalesce(Prop(q, "regularMarketPrice"), Coalesce(Prop(q, "postMarketPrice"), Prop(q, "preMarketPrice"))).n.Finite?
    ensures PriceOf(q).None?
  {
  }

  /** The first non-nullish price field wins, even when it is not a number. */
  lemma RegularPriceWins(q: JsValue, x: real, text: string)
    requires Prop(q, "regularMarketPrice") == Number(Finite(x), text)
    ensures PriceOf(q) == Some(x)
  {
  }

  /** The body of one fetchCmpBatch worker step: quote with retries, read the price, null on error. */
  method QuotePrice(quote: string -> nat -> Outcome<JsValue>, t: string) returns (price: Option<real>)
    ensures price == TickerPrice(quote, t)
  {
    var q, _, _ := WithRetries(quote(t), DEFAULT_RETRIES);
    price := if q.Returned? then PriceOf(q.value) else None;
  }

  /**
   * fetchCmpBatch(tickers): every unique non-empty ticker gets exactly one
   * entry, its price or null. The worker pool is a sequential pass over the
   * unique list, which visits each ticker once.
   */
  method FetchCmpBatch(tickers: seq<string>, quote: string -> nat -> Outcome<JsValue>)
    returns (result: map<string, Option<real>>)
    ensures result == PriceMap(tickers, quote)
    ensures tickers == [] ==> result == map[]
  {
    if |tickers| == 0 {
      return map[];
    }
    var unique := Unique(tickers);
    result := map[];
    for i := 0 to |unique|
      invariant forall t :: t in result <==> t in unique[..i]
      invariant forall t :: t in result ==> result[t] == TickerPrice(quote, t)
    {
      var t := unique[i];
      var price := QuotePrice(quote, t);
      result := result[t := price];
      assert unique[..i + 1] == unique[..i] + [t];
    }
    assert unique[..|unique|] == unique;
  }

  // ---------------------------------------------------------------- fetchPeEpsAll

  /** Consecutive slices of at most b elements; only the last may be shorter. */
  function Chunks(u: seq<string>, b: nat): (cs: seq<seq<string>>)
    requires b > 0
    ensures u == [] <==> cs == []
    ensures forall k :: 0 <= k < |cs| ==> 0 < |cs[k]| <= b
    ensures forall k :: 0 <= k < |cs| - 1 ==> |cs[k]| == b
    decreases |u|
  {
    if u == [] then []
    else if |u| <= b then [u]
    else [u[..b]] + Chunks(u[b..], b)
  }

  function Concat(cs: seq<seq<string>>): seq<string>
  {
    if cs == [] then [] else cs[0] + Concat(cs[1..])
  }

  /** The chunks cover the list in order, each element once. */
  lemma {:induction false} ChunksCover(u: seq<string>, b: nat)
    requires b > 0
    ensures Concat(Chunks(u, b)) == u
    decreases |u|
  {
    if u != [] && |u| > b {
      ChunksCover(u[b..], b);
      var cs := Chunks(u, b);
      assert cs[1..] == Chunks(u[b..], b);
      assert u[..b] + u[b..] == u;
    } else if u != [] {
      assert Concat([u]) == u + Concat([]);
    }
  }

  /** One pause between consecutive chunks, none after the last. */
  function PauseCount(u: seq<string>, b: nat): nat
    requires b > 0
  {
    if u == [] then 0 else |Chunks(u, b)| - 1
  }

  /** The pauses taken from the chunk that starts at i on: one after each chunk another follows. */
  function PausesFrom(n: int, b: int, i: int): nat
    requires b > 0
    decreases n - i
  {
    if i >= n then 0 else (if i + b < n then 1 else 0) + PausesFrom(n, b, i + b)
  }

  /** Counted chunk by chunk from position i on, the pauses are one fewer than the chunks. */
  lemma {:induction false} PausesFromCountsChunks(u: seq<string>, b: nat, i: nat)
    requires b > 0 && i < |u|
    ensures PausesFrom(|u|, b, i) == |Chunks(u[i..], b)| - 1
    decreases |u| - i
  {
    var v := u[i..];
    if i + b < |u| {
      assert v[b..] == u[i + b..];
      PausesFromCountsChunks(u, b, i + b);
    }
  }

  /** De-duplicating first changes nothing in the map. */
  lemma FundamentalsMapOfUnique(ts: seq<string>, quote: string -> nat -> Outcome<JsValue>)
    ensures FundamentalsMap(Unique(ts), quote) == FundamentalsMap(ts, quote)
  {
  }

  /** Adding one ticker to the list adds its one entry to the map. */
  lemma FundamentalsMapSnoc(a: seq<string>, t: string, quote: string -> nat -> Outcome<JsValue>)
    requires t != ""
    ensures FundamentalsMap(a + [t], quote) == FundamentalsMap(a, quote)[t := TickerFundamentals(quote, t)]
  {
    assert forall x :: x in a + [t] <==> x in a || x == t;
  }

  /** The body of one fetchPeEpsAll task: quote with retries, read the two fields, null both on error. */
  method QuoteFundamentals(quote: string -> nat -> Outcome<JsValue>, t: string) returns (f: Fundamentals)
    ensures f == TickerFundamentals(quote, t)
  {
    var q, _, _ := WithRetries(quote(t), DEFAULT_RETRIES);
    f := if q.Returned? then FundamentalsOf(q.value) else NO_FUNDAMENTALS;
  }

  /**
   * The tasks of the chunk unique[lo..hi]. They write distinct keys, so
   * running them one after the other gives the map Promise.all leaves.
   */
  method FillChunk(unique: seq<string>, lo: int, hi: int, out: map<string, Fundamentals>,
                   quote: string -> nat -> Outcome<JsValue>)
    returns (filled: map<string, Fundamentals>)
    requires 0 <= lo <= hi <= |unique| && "" !in unique
    requires out == FundamentalsMap(unique[..lo], quote)
    ensures filled == FundamentalsMap(unique[..hi], quote)
  {
    filled := out;
    for p := lo to hi
      invariant filled == FundamentalsMap(unique[..p], quote)
    {
      var t := unique[p];
      var f := QuoteFundamentals(quote, t);
      assert unique[..p + 1] == unique[..p] + [t];
      FundamentalsMapSnoc(unique[..p], t, quote);
      filled := filled[t := f];
    }
  }

  /**
   * fetchPeEpsAll(tickers, batchSize): the unique tickers in consecutive
   * chunks of batchSize, each ticker given its fundamentals or nulls, with a
   * 120 ms pause after every chunk but the last.
   */
  method FetchPeEpsAll(tickers: seq<string>, batchSize: int, quote: string -> nat -> Outcome<JsValue>)
    returns (out: map<string, Fundamentals>, sleeps: seq<int>)
    requires batchSize > 0
    ensures out == FundamentalsMap(tickers, quote)
    ensures |sleeps| == PauseCount(Unique(tickers), batchSize)
    ensures forall k :: 0 <= k < |sleeps| ==> sleeps[k] == CHUNK_PAUSE_MS
  {
    out := map[];
    sleeps := [];
    var unique := Unique(tickers);
    var n := |unique|;
    var i := 0;
    while i < n
      invariant 0 <= i
      invariant out == FundamentalsMap(unique[..Min(i, n)], quote)
      invariant |sleeps| + PausesFrom(n, batchSize, i) == PausesFrom(n, batchSize, 0)
      invariant forall k :: 0 <= k < |sleeps| ==> sleeps[k] == CHUNK_PAUSE_MS
      decreases n - i
    {
      var hi := Min(i + batchSize, n);
      out := FillChunk(unique, i, hi, out, quote);
      if i + batchSize < n {
        sleeps := sleeps + [CHUNK_PAUSE_MS];
      }
      i := i + batchSize;
    }
    if n > 0 {
      PausesFromCountsChunks(unique, batchSize, 0);
      assert unique[0..] == unique;
    }
    assert unique[..n] == unique;
    FundamentalsMapOfUnique(tickers, quote);
  }
}
