/**
 * The Python back end (backend/services.py): its `MarketService` store, which
 * overwrites records and keeps a bounded list of raw prices for a fixed set of
 * seeded symbols, its ticker stream path, and the decision ladder of
 * `SignalService.generate_signals` over already computed indicators.
 */
module Backend {
  import opened Wrappers
  import opened Seqs
  import opened Strings
  import opened PriceRecord
  import History

  const CRYPTO_SYMBOLS: seq<string> := ["BTCUSDT", "ETHUSDT", "BNBUSDT", "SOLUSDT", "XRPUSDT"]
  const STOCK_SYMBOLS: seq<string> := ["AAPL", "MSFT", "GOOGL", "AMZN", "TSLA", "NVDA", "META", "JPM"]

  /** The symbols that get a history list at start-up. */
  const SEEDED_SYMBOLS: seq<string> := CRYPTO_SYMBOLS + STOCK_SYMBOLS

  /** `{s: [] for s in symbols}`. */
  function SeededHistory(symbols: seq<string>): (h: map<string, seq<real>>)
    ensures forall s :: s in h <==> s in symbols
    ensures forall s :: s in h ==> h[s] == []
  {
    map s | s in symbols :: []
  }

  /** Distinct symbols give one history each. */
  lemma {:induction false} SeededCount(symbols: seq<string>)
    requires Distinct(symbols)
    ensures |SeededHistory(symbols).Keys| == |symbols|
  {
    if symbols != [] {
      DistinctTail(symbols);
      SeededCount(symbols[1..]);
      assert SeededHistory(symbols).Keys == {symbols[0]} + SeededHistory(symbols[1..]).Keys;
    }
  }

  /** Thirteen symbols are seeded. */
  lemma SeededSymbolCount()
    ensures |SeededHistory(SEEDED_SYMBOLS).Keys| == 13
  {
    var xs := SEEDED_SYMBOLS;
    assert xs[0][0] == 'B' && xs[0][1] == 'T';
    assert xs[1][0] == 'E' && xs[1][1] == 'T';
    assert xs[2][0] == 'B' && xs[2][1] == 'N';
    assert xs[3][0] == 'S' && xs[3][1] == 'O';
    assert xs[4][0] == 'X' && xs[4][1] == 'R';
    assert xs[5][0] == 'A' && xs[5][1] == 'A';
    assert xs[6][0] == 'M' && xs[6][1] == 'S';
    assert xs[7][0] == 'G' && xs[7][1] == 'O';
    assert xs[8][0] == 'A' && xs[8][1] == 'M';
    assert xs[9][0] == 'T' && xs[9][1] == 'S';
    assert xs[10][0] == 'N' && xs[10][1] == 'V';
    assert xs[11][0] == 'M' && xs[11][1] == 'E';
    assert xs[12][0] == 'J' && xs[12][1] == 'P';
    assert forall i, j :: 0 <= i < j < |xs| ==> (xs[i][0], xs[i][1]) != (xs[j][0], xs[j][1]);
    SeededCount(xs);
  }

  /** `"/".join([f"{s.lower()}@ticker" for s in symbols])`. */
  function StreamPath(symbols: seq<string>): string
  {
    Join(seq(|symbols|, i requires 0 <= i < |symbols| => ToLower(symbols[i]) + "@ticker"), "/")
  }

  /** The record `_update_price` stores: exactly these four fields, whatever was there before. */
  function PriceEntry(price: real, change: real, assetType: string, now: Time): (r: Record)
    ensures r.Keys == {"price", "changePercent", "type", "lastUpdated"}
    ensures r["price"] == Num(price) && r["changePercent"] == Num(change)
    ensures r["type"] == Text(assetType) && r["lastUpdated"] == IsoTimestamp(now)
  {
    map["price" := Num(price), "changePercent" := Num(change),
        "type" := Text(assetType), "lastUpdated" := IsoTimestamp(now)]
  }

  /** How `_update_price` ends: normally, or with the `KeyError` of an unseeded symbol. */
  datatype UpdateOutcome = Updated | MissingHistory(symbol: string)

  class MarketService {
    var currentPrices: map<string, Record>
    var priceHistory: map<string, seq<real>>

    /** Histories exist for the seeded symbols only, each within the bound. */
    ghost predicate Valid()
      reads this
    {
      && (forall s :: s in priceHistory <==> s in SEEDED_SYMBOLS)
      && (forall s :: s in priceHistory ==> |priceHistory[s]| <= History.CAPACITY)
    }

    /** `__init__`: no prices yet, an empty history per seeded symbol. (The API key lookup is not modelled.) */
    constructor ()
      ensures Valid()
      ensures currentPrices == map[]
      ensures priceHistory == SeededHistory(SEEDED_SYMBOLS)
    {
      currentPrices := map[];
      priceHistory := SeededHistory(SEEDED_SYMBOLS);
    }

    /**
     * `_update_price`: overwrite the symbol's record, then append the price to
     * its history and drop the oldest beyond the bound. The record is written
     * even when the append then fails for a symbol without a history.
     */
    method UpdatePrice(symbol: string, price: real, change: real, assetType: string, now: Time)
      returns (outcome: UpdateOutcome)
      requires Valid()
      modifies this
      ensures Valid()
      ensures currentPrices == old(currentPrices)[symbol := PriceEntry(price, change, assetType, now)]
      ensures outcome == (if symbol in old(priceHistory) then Updated else MissingHistory(symbol))
      ensures outcome.Updated? ==> priceHistory == old(priceHistory)[symbol := History.Push(old(priceHistory)[symbol], price)]
      ensures outcome.MissingHistory? ==> priceHistory == old(priceHistory)
    {
      currentPrices := currentPrices[symbol := PriceEntry(price, change, assetType, now)];
      if symbol !in priceHistory {
        return MissingHistory(symbol);
      }
      priceHistory := priceHistory[symbol := History.Push(priceHistory[symbol], price)];
      outcome := Updated;
    }
  }

  // ---------------------------------------------------------------- signals

  /** A float as Python compares it: every comparison with `NaN` is false. */
  datatype Float = Finite(x: real) | NaN

  predicate Less(a: Float, b: Float)
  {
    a.Finite? && b.Finite? && a.x < b.x
  }

  /** The last RSI(14), SMA(5) and SMA(20) values of the price series, as the library computes them. */
  datatype Indicators = Indicators(rsi: Float, smaShort: Float, smaLong: Float)

  datatype Signal = Buy | Sell | Neutral

  /** The reason text; the RSI printed in the first two is kept as a number. */
  datatype Reason =
    | InsufficientData
    | Oversold(rsi: Float)
    | Overbought(rsi: Float)
    | BullishCrossover
    | BearishCrossover
    | MarketStable

  /** The returned dict; the short form for too few prices has no `rsi` and no `timestamp`. */
  datatype SignalReport = SignalReport(symbol: string, signal: Signal, reason: Reason, rsi: Option<Float>, timestamp: Option<Time>)

  const MIN_PRICES := 20
  const OVERSOLD := Finite(30.0)
  const OVERBOUGHT := Finite(70.0)

  /**
   * `generate_signals(symbol, prices)`: fewer than 20 prices is neutral for
   * lack of data; otherwise RSI below 30 buys, above 70 sells, and only then
   * the short average above (below) the long one buys (sells).
   */
  function GenerateSignals(symbol: string, prices: seq<real>, ind: Indicators, now: Time): (r: SignalReport)
    ensures r.symbol == symbol
    ensures r.reason == InsufficientData <==> |prices| < MIN_PRICES
    ensures |prices| < MIN_PRICES ==> r.signal == Neutral && r.rsi == None && r.timestamp == None
    ensures |prices| >= MIN_PRICES ==> r.rsi == Some(ind.rsi) && r.timestamp == Some(now)
    ensures r.signal == Buy <==>
      |prices| >= MIN_PRICES && (Less(ind.rsi, OVERSOLD) || (!Less(OVERBOUGHT, ind.rsi) && Less(ind.smaLong, ind.smaShort)))
    ensures r.signal == Sell <==>
      |prices| >= MIN_PRICES && !Less(ind.rsi, OVERSOLD)
      && (Less(OVERBOUGHT, ind.rsi) || (!Less(ind.smaLong, ind.smaShort) && Less(ind.smaShort, ind.smaLong)))
    ensures r.reason == Oversold(ind.rsi) <==> |prices| >= MIN_PRICES && Less(ind.rsi, OVERSOLD)
    ensures r.reason == Overbought(ind.rsi) <==>
      |prices| >= MIN_PRICES && !Less(ind.rsi, OVERSOLD) && Less(OVERBOUGHT, ind.rsi)
    ensures r.reason == BullishCrossover <==>
      |prices| >= MIN_PRICES && !Less(ind.rsi, OVERSOLD) && !Less(OVERBOUGHT, ind.rsi) && Less(ind.smaLong, ind.smaShort)
    ensures r.reason == BearishCrossover <==>
      |prices| >= MIN_PRICES && !Less(ind.rsi, OVERSOLD) && !Less(OVERBOUGHT, ind.rsi)
      && !Less(ind.smaLong, ind.smaShort) && Less(ind.smaShort, ind.smaLong)
    ensures r.reason == MarketStable <==>
      |prices| >= MIN_PRICES && !Less(ind.rsi, OVERSOLD) && !Less(OVERBOUGHT, ind.rsi)
      && !Less(ind.smaLong, ind.smaShort) && !Less(ind.smaShort, ind.smaLong)
  {
    if |prices| < MIN_PRICES then
      SignalReport(symbol, Neutral, InsufficientData, None, None)
    else
      var (signal, reason) :=
        if Less(ind.rsi, OVERSOLD) then (Buy, Oversold(ind.rsi))
        else if Less(OVERBOUGHT, ind.rsi) then (Sell, Overbought(ind.rsi))
        else if Less(ind.smaLong, ind.smaShort) then (Buy, BullishCrossover)
        else if Less(ind.smaShort, ind.smaLong) then (Sell, BearishCrossover)
        else (Neutral, MarketStable);
      SignalReport(symbol, signal, reason, Some(ind.rsi), Some(now))
  }
}
