/**
 * Row normalisation (lib/utils/normalizePortfolioTable.ts): one pass over the
 * rows of the input file. A row in the clean shape becomes a holding directly;
 * otherwise the legacy spreadsheet columns are read, where a row with a name
 * and no numbers is a sector header that sets the sector of the rows after it.
 */
module NormalizePortfolioTable {
  import opened Js
  import opened PortfolioTypes
  import Tickers

  /** isNumberLike: a number that is finite. A string never is, even one that spells a number. */
  predicate IsNumberLike(v: JsValue): (b: bool)
    ensures b ==> v.Number? && ToNumber(v) == v.n && ToNumber(v).Finite?
    ensures v.Str? || IsNullish(v) ==> !b
  {
    v.Number? && v.n.Finite?
  }

  const INITIAL_SECTOR := "Unknown"

  /** The four keys of the clean shape are all present (their values may be anything). */
  predicate HasCleanShape(row: JsValue)
  {
    HasProp(row, "name") && HasProp(row, "purchasePrice") && HasProp(row, "quantity") && HasProp(row, "sector")
  }

  /** String(r.name ?? "").trim() */
  function CleanName(row: JsValue): string
  {
    Trim(ToJsString(Coalesce(Prop(row, "name"), Str(""))))
  }

  /** String(r.sector ?? "Unknown").trim() */
  function CleanSector(row: JsValue): string
  {
    Trim(ToJsString(Coalesce(Prop(row, "sector"), Str(INITIAL_SECTOR))))
  }

  /** deriveTicker(r.ticker ?? r.symbol) */
  function CleanTicker(row: JsValue): DerivedTicker
  {
    Tickers.DeriveTicker(Coalesce(Prop(row, "ticker"), Prop(row, "symbol")))
  }

  /** A clean-shape row a holding is taken from: a name left after trimming and two finite numbers. */
  predicate IsValidCleanRow(row: JsValue)
  {
    && HasCleanShape(row)
    && CleanName(row) != ""
    && ToNumber(Prop(row, "purchasePrice")).Finite?
    && ToNumber(Prop(row, "quantity")).Finite?
  }

  /** Legacy sector header: a string name, and neither price nor quantity a finite number. */
  predicate IsSectorHeader(row: JsValue)
  {
    Prop(row, "Column2").Str? && !IsNumberLike(Prop(row, "Column3")) && !IsNumberLike(Prop(row, "Column4"))
  }

  /** Legacy data row: a string name and a finite price and quantity. */
  predicate IsLegacyDataRow(row: JsValue)
  {
    Prop(row, "Column2").Str? && IsNumberLike(Prop(row, "Column3")) && IsNumberLike(Prop(row, "Column4"))
  }

  /** The holding a valid clean-shape row becomes. */
  function CleanHolding(row: JsValue): HoldingBase
    requires IsValidCleanRow(row)
  {
    var d := CleanTicker(row);
    HoldingBase(CleanName(row), d.ticker, d.exchange, CleanSector(row),
                ToNumber(Prop(row, "purchasePrice")).value, ToNumber(Prop(row, "quantity")).value)
  }

  /** The holding a legacy data row becomes, tagged with the current sector. */
  function LegacyHolding(currentSector: string, row: JsValue): HoldingBase
    requires IsLegacyDataRow(row)
  {
    var d := Tickers.DeriveTicker(Prop(row, "Column7"));
    HoldingBase(Trim(Prop(row, "Column2").s), d.ticker, d.exchange, Trim(currentSector),
                Prop(row, "Column3").n.value, Prop(row, "Column4").n.value)
  }

  /** What one row does: the holding it emits, if any, and the current sector after it. */
  datatype RowEffect = RowEffect(emitted: Option<HoldingBase>, sector: string)

  /** The legacy column rules, applied to an object row the clean rule did not take. */
  function LegacyStep(currentSector: string, row: JsValue): (e: RowEffect)
    ensures IsSectorHeader(row) ==>
      e.emitted.None? &&
      e.sector == (if Trim(Prop(row, "Column2").s) != "" then Trim(Prop(row, "Column2").s) else currentSector)
    ensures IsLegacyDataRow(row) ==> e == RowEffect(Some(LegacyHolding(currentSector, row)), currentSector)
    ensures !IsSectorHeader(row) && !IsLegacyDataRow(row) ==> e == RowEffect(None, currentSector)
  {
    var name := Prop(row, "Column2");
    var purchasePrice := Prop(row, "Column3");
    var quantity := Prop(row, "Column4");
    if name.Str? && !IsNumberLike(purchasePrice) && !IsNumberLike(quantity) then
      var sectorCandidate := Trim(name.s);
      RowEffect(None, if sectorCandidate != "" then sectorCandidate else currentSector)
    else if !name.Str? || !IsNumberLike(purchasePrice) || !IsNumberLike(quantity) then
      RowEffect(None, currentSector)
    else
      RowEffect(Some(LegacyHolding(currentSector, row)), currentSector)
  }

  /** The effect of one row of the loop. */
  function Step(currentSector: string, row: JsValue): (e: RowEffect)
    ensures !IsObject(row) ==> e == RowEffect(None, currentSector)
    ensures IsObject(row) && IsValidCleanRow(row) ==> e == RowEffect(Some(CleanHolding(row)), currentSector)
    ensures IsObject(row) && !IsValidCleanRow(row) ==> e == LegacyStep(currentSector, row)
    ensures e.sector == currentSector ||
            (IsObject(row) && IsSectorHeader(row) && e.sector == Trim(Prop(row, "Column2").s) && e.sector != "")
  {
    if !Truthy(row) || !IsObject(row) then RowEffect(None, currentSector)
    else if IsValidCleanRow(row) then RowEffect(Some(CleanHolding(row)), currentSector)
    else LegacyStep(currentSector, row)
  }

  /** The loop's state: the holdings pushed so far and the current sector. */
  datatype Progress = Progress(holdings: seq<HoldingBase>, currentSector: string)

  function Emit(p: Progress, e: RowEffect): Progress
  {
    Progress(p.holdings + (if e.emitted.Some? then [e.emitted.value] else []), e.sector)
  }

  /** The state after the rows, processed left to right from `start`. */
  function RunFrom(start: Progress, rows: seq<JsValue>): Progress
  {
    if rows == [] then start
    else
      var p := RunFrom(start, rows[..|rows| - 1]);
      Emit(p, Step(p.currentSector, rows[|rows| - 1]))
  }

  const INITIAL := Progress([], INITIAL_SECTOR)

  /** The holdings normalizePortfolioTable returns for `rows`. */
  function Normalized(rows: seq<JsValue>): seq<HoldingBase>
  {
    RunFrom(INITIAL, rows).holdings
  }

  method NormalizeRows(rows: seq<JsValue>) returns (holdings: seq<HoldingBase>)
    ensures holdings == Normalized(rows)
  {
    holdings := [];
    var currentSector := INITIAL_SECTOR;
    for i := 0 to |rows|
      invariant RunFrom(INITIAL, rows[..i]) == Progress(holdings, currentSector)
    {
      assert rows[..i + 1][..i] == rows[..i];
      var row := rows[i];
      ghost var e := Step(currentSector, row);
      assert RunFrom(INITIAL, rows[..i + 1]) == Emit(Progress(holdings, currentSector), e);
      if !Truthy(row) || !IsObject(row) {
        continue;
      }
      if HasCleanShape(row) {
        var name := CleanName(row);
        var sector := CleanSector(row);
        var purchasePrice := ToNumber(Prop(row, "purchasePrice"));
        var quantity := ToNumber(Prop(row, "quantity"));
        var d := CleanTicker(row);
        if name != "" && purchasePrice.Finite? && quantity.Finite? {
          assert e == RowEffect(Some(CleanHolding(row)), currentSector);
          holdings := holdings + [HoldingBase(name, d.ticker, d.exchange, sector, purchasePrice.value, quantity.value)];
          continue;
        }
      }
      assert e == LegacyStep(currentSector, row);
      var name := Prop(row, "Column2");
      var purchasePrice := Prop(row, "Column3");
      var quantity := Prop(row, "Column4");
      var symbol := Prop(row, "Column7");
      if name.Str? && !IsNumberLike(purchasePrice) && !IsNumberLike(quantity) {
        var sectorCandidate := Trim(name.s);
        if sectorCandidate != "" {
          currentSector := sectorCandidate;
        }
        continue;
      }
      if !name.Str? || !IsNumberLike(purchasePrice) || !IsNumberLike(quantity) {
        continue;
      }
      var d := Tickers.DeriveTicker(symbol);
      holdings := holdings + [HoldingBase(Trim(name.s), d.ticker, d.exchange, Trim(currentSector),
                                          purchasePrice.n.value, quantity.n.value)];
    }
    assert rows[..|rows|] == rows;
  }

  // ---------------------------------------------------------------------------
  // Properties of the pass

  /** Processing a + b is processing a and then b from where a left off. */
  lemma {:induction false} RunFromAppend(start: Progress, a: seq<JsValue>, b: seq<JsValue>)
    ensures RunFrom(start, a + b) == RunFrom(RunFrom(start, a), b)
    decreases |b|
  {
    if b == [] {
      assert a + b == a;
    } else {
      var n := |b|;
      assert (a + b)[..|a + b| - 1] == a + b[..n - 1];
      RunFromAppend(start, a, b[..n - 1]);
    }
  }

  /** Holdings already pushed are never touched again; new ones are appended after them. */
  lemma {:induction false} RunFromKeepsHoldings(start: Progress, rows: seq<JsValue>)
    ensures RunFrom(start, rows).holdings ==
            start.holdings + RunFrom(Progress([], start.currentSector), rows).holdings
    ensures RunFrom(start, rows).currentSector == RunFrom(Progress([], start.currentSector), rows).currentSector
    decreases |rows|
  {
    if rows != [] {
      RunFromKeepsHoldings(start, rows[..|rows| - 1]);
    }
  }

  /** Holdings appear in input order: those of a come before those of b. */
  lemma NormalizedAppend(a: seq<JsValue>, b: seq<JsValue>)
    ensures Normalized(a + b) ==
            Normalized(a) + RunFrom(Progress([], RunFrom(INITIAL, a).currentSector), b).holdings
  {
    RunFromAppend(INITIAL, a, b);
    RunFromKeepsHoldings(RunFrom(INITIAL, a), b);
  }

  /** Every row emits at most one holding. */
  lemma {:induction false} RunFromLength(start: Progress, rows: seq<JsValue>)
    ensures |RunFrom(start, rows).holdings| <= |start.holdings| + |rows|
    decreases |rows|
  {
    if rows != [] {
      RunFromLength(start, rows[..|rows| - 1]);
    }
  }

  lemma NormalizedLength(rows: seq<JsValue>)
    ensures |Normalized(rows)| <= |rows|
  {
    RunFromLength(INITIAL, rows);
  }

  lemma InitialSectorTrimmed()
    ensures Trim(INITIAL_SECTOR) == INITIAL_SECTOR
  {
    assert INITIAL_SECTOR[0] == 'U' && INITIAL_SECTOR[6] == 'n';
    TrimUnpadded(INITIAL_SECTOR);
  }

  /** The current sector is never empty and is already trimmed. */
  lemma {:induction false} CurrentSectorTrimmed(rows: seq<JsValue>)
    ensures RunFrom(INITIAL, rows).currentSector != ""
    ensures Trim(RunFrom(INITIAL, rows).currentSector) == RunFrom(INITIAL, rows).currentSector
    decreases |rows|
  {
    if rows == [] {
      InitialSectorTrimmed();
    } else {
      CurrentSectorTrimmed(rows[..|rows| - 1]);
      var row := rows[|rows| - 1];
      var before := RunFrom(INITIAL, rows[..|rows| - 1]).currentSector;
      if Step(before, row).sector != before {
        TrimIdempotent(Prop(row, "Column2").s);
      }
    }
  }

  /** So a legacy data row is tagged with exactly the current sector. */
  lemma LegacyRowTaggedWithCurrentSector(rows: seq<JsValue>, row: JsValue)
    requires IsObject(row) && !IsValidCleanRow(row) && IsLegacyDataRow(row)
    ensures Step(RunFrom(INITIAL, rows).currentSector, row).emitted.Some?
    ensures Step(RunFrom(INITIAL, rows).currentSector, row).emitted.value.sector == RunFrom(INITIAL, rows).currentSector
  {
    CurrentSectorTrimmed(rows);
  }

  /** Every holding pushed carries a ticker and an exchange that agree. */
  lemma {:induction false} NormalizedTickersAgree(rows: seq<JsValue>)
    ensures forall h :: h in Normalized(rows) ==> Tickers.Agrees(DerivedTicker(h.ticker, h.exchange))
    decreases |rows|
  {
    if rows != [] {
      NormalizedTickersAgree(rows[..|rows| - 1]);
    }
  }

  /** The clean row {name: "Acme", sector: "Tech", purchasePrice: 100, quantity: 10, ticker: "ACME"}. */
  const ACME_ROW := Obj(map["name" := Str("Acme"), "sector" := Str("Tech"),
                            "purchasePrice" := Number(Finite(100.0), "100"),
                            "quantity" := Number(Finite(10.0), "10"), "ticker" := Str("ACME")])

  const ACME_HOLDING := HoldingBase("Acme", "ACME.NS", NSE, "Tech", 100.0, 10.0)

  lemma AcmeTicker()
    ensures Tickers.DeriveTicker(Str("ACME")) == DerivedTicker("ACME.NS", NSE)
  {
    AcmeIsAlpha();
    Tickers.AlphaTickerIsClean("ACME");
    Tickers.AlphaGetsNse("ACME");
  }

  lemma AcmeIsAlpha()
    ensures Tickers.IsAlphaTicker("ACME")
  {
    var s := "ACME";
    assert s[0] == 'A' && s[1] == 'C' && s[2] == 'M' && s[3] == 'E';
  }

  /** A text cell that starts and ends with a non-space is taken as it is. */
  lemma UnpaddedText(v: JsValue, s: string, fallback: JsValue)
    requires v == Str(s)
    requires s == [] || (!IsWhitespace(s[0]) && !IsWhitespace(s[|s| - 1]))
    ensures Trim(ToJsString(Coalesce(v, fallback))) == s
  {
    TrimUnpadded(s);
  }

  lemma AcmeName()
    ensures CleanName(ACME_ROW) == "Acme"
  {
    assert Prop(ACME_ROW, "name") == Str("Acme");
    assert "Acme"[0] == 'A' && "Acme"[3] == 'e';
    UnpaddedText(Prop(ACME_ROW, "name"), "Acme", Str(""));
  }

  lemma AcmeSector()
    ensures CleanSector(ACME_ROW) == "Tech"
  {
    assert Prop(ACME_ROW, "sector") == Str("Tech");
    assert "Tech"[0] == 'T' && "Tech"[3] == 'h';
    UnpaddedText(Prop(ACME_ROW, "sector"), "Tech", Str(INITIAL_SECTOR));
  }

  lemma AcmeSymbol()
    ensures CleanTicker(ACME_ROW) == DerivedTicker("ACME.NS", NSE)
  {
    assert Prop(ACME_ROW, "ticker") == Str("ACME");
    AcmeTicker();
  }

  lemma AcmeNumbers()
    ensures HasCleanShape(ACME_ROW)
    ensures ToNumber(Prop(ACME_ROW, "purchasePrice")) == Finite(100.0)
    ensures ToNumber(Prop(ACME_ROW, "quantity")) == Finite(10.0)
  {
    assert Prop(ACME_ROW, "purchasePrice") == Number(Finite(100.0), "100");
    assert Prop(ACME_ROW, "quantity") == Number(Finite(10.0), "10");
  }

  lemma ExampleAcmeRow()
    ensures Normalized([ACME_ROW]) == [ACME_HOLDING]
  {
    AcmeName();
    AcmeSector();
    AcmeSymbol();
    AcmeNumbers();
    assert IsValidCleanRow(ACME_ROW);
    assert CleanHolding(ACME_ROW) == ACME_HOLDING;
    assert IsObject(ACME_ROW);
    var e := Step(INITIAL_SECTOR, ACME_ROW);
    assert e == RowEffect(Some(ACME_HOLDING), INITIAL_SECTOR);
    var rows := [ACME_ROW];
    assert rows[..0] == [] && rows[0] == ACME_ROW;
    assert RunFrom(INITIAL, rows) == Emit(INITIAL, e);
  }
}
