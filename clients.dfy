/**
 * What callers of the two services can rely on, derived from the contracts
 * alone: a subscribe-then-update round, a disposed callback, a quote
 * response without its quote, an unseeded back-end symbol, and the two
 * versions' ticker streams.
 */
module Clients {
  import opened Wrappers
  import opened Strings
  import opened JsValues
  import opened PriceRecord
  import opened Subscribers
  import FrontendFeeds
  import FrontendStore
  import Backend

  /** The lower-case name a front-end caller passes normalises to the back end's symbol. */
  lemma BtcusdtNormalizes()
    ensures ToUpper("btcusdt") == "BTCUSDT"
  {
  }

  /**
   * A subscriber registered before an update to `symbol` is called exactly
   * once, with the upper-cased symbol and the merged record; with `btcusdt`
   * that symbol is `BTCUSDT` (BtcusdtNormalizes).
   */
  method SubscribeThenUpdate(callback: SubscriberId, now: Time, symbol: string) returns (log: seq<Notification>)
    ensures |log| == 1
    ensures log[0].subscriber == callback && log[0].symbol == ToUpper(symbol)
    ensures "price" in log[0].record && log[0].record["price"] == Num(50000.0)
    ensures LAST_UPDATED in log[0].record && log[0].record[LAST_UPDATED] == Date(now)
  {
    var update := map["price" := Num(50000.0), "changePercent" := Num(1.2), "type" := Text("crypto")];
    var service := new FrontendStore.MarketService();
    var _ := service.Subscribe(callback);
    assert service.subscribers == [callback];
    service.UpdatePrice(symbol, update, now);
    log := service.delivered;
    FanoutInOrder(service.subscribers, ToUpper(symbol), service.currentPrices[ToUpper(symbol)]);
  }

  /** A callback disposed of before any update is never called, though the update is stored. */
  method DisposeBeforeUpdate(callback: SubscriberId, now: Time, symbol: string) returns (deleted: bool, log: seq<Notification>, stored: bool)
    ensures deleted
    ensures log == []
    ensures stored
  {
    var service := new FrontendStore.MarketService();
    var dispose := service.Subscribe(callback);
    deleted := service.Dispose(dispose);
    assert service.subscribers == [];
    service.UpdatePrice(symbol, map["price" := Num(3000.0)], now);
    log := service.delivered;
    stored := ToUpper(symbol) in service.currentPrices;
  }

  /**
   * With `x` the only subscriber, a pass over funds with distinct symbols
   * calls `x` once per row of the pass's result.
   */
  lemma OneCallPerResult(etfs: seq<(string, string)>, st: FrontendStore.Snapshot, x: SubscriberId,
                         quote: string -> Option<Record>, now: Time)
    requires FrontendStore.DistinctKeys(etfs)
    ensures CallsTo(FrontendStore.IndexStore(etfs, st, [x], quote, now).delivered, x)
      == CallsTo(st.delivered, x) + |FrontendStore.IndexPass(etfs, st.prices, quote, now).1|
  {
    FrontendStore.IndexPassKeepsQuoted(etfs, st.prices, quote, now);
    FrontendStore.IndexStoreNotifies(etfs, st, [x], quote, now, x);
  }

  /**
   * A subscriber registered before an index round is called once per fund
   * whose quote arrived, that is once per row of the round's result.
   */
  method SubscribeThenIndices(callback: SubscriberId, responses: map<string, JsValue>, now: Time)
    returns (results: seq<(string, Record)>, calls: nat)
    ensures calls == |results|
    ensures |results| <= |FrontendStore.INDEX_ETFS|
  {
    var service := new FrontendStore.MarketService();
    var _ := service.Subscribe(callback);
    assert service.subscribers == [callback] && service.delivered == [];
    ghost var before := service.State();
    results := service.GetMarketIndices(responses, now);
    ghost var quote := FrontendStore.QuotesOf(responses);
    FrontendStore.IndexEtfsDistinct();
    OneCallPerResult(FrontendStore.INDEX_ETFS, before, callback, quote, now);
    FrontendStore.IndexPassKeepsQuoted(FrontendStore.INDEX_ETFS, before.prices, quote, now);
    calls := CallsTo(service.delivered, callback);
  }

  /** A rate-limit notice in place of the quote decodes to no update. */
  lemma RateLimitNoticeIsNull(notice: string)
    ensures FrontendFeeds.QuoteUpdate(Obj([("Information", Str(notice))])) == None
  {
    assert Lookup([("Information", Str(notice))], FrontendFeeds.GLOBAL_QUOTE) == Undefined;
  }

  /** A quote response without `Global Quote` gives `null` and leaves the store empty. */
  method QuoteWithoutGlobalQuote(symbol: string, notice: string, now: Time) returns (r: Option<Record>, size: nat)
    ensures r == None
    ensures size == 0
  {
    var service := new FrontendStore.MarketService();
    RateLimitNoticeIsNull(notice);
    r := service.GetStockPrice(symbol, Some(Obj([("Information", Str(notice))])), now);
    size := |service.currentPrices|;
  }

  /** The back end writes the record of an unseeded symbol and then fails at its history. */
  method UnseededBackendSymbol(price: real, change: real, now: Time) returns (outcome: Backend.UpdateOutcome, stored: bool)
    ensures outcome == Backend.MissingHistory("DOGEUSDT")
    ensures stored
  {
    var service := new Backend.MarketService();
    assert "DOGEUSDT" !in Backend.SEEDED_SYMBOLS;
    outcome := service.UpdatePrice("DOGEUSDT", price, change, "crypto", now);
    stored := "DOGEUSDT" in service.currentPrices;
  }

  /** Right after start-up a seeded symbol has too short a history for a signal. */
  method FreshBackendSignal(price: real, ind: Backend.Indicators, now: Time) returns (report: Backend.SignalReport)
    ensures report.signal == Backend.Neutral && report.reason == Backend.InsufficientData
  {
    var service := new Backend.MarketService();
    var _ := service.UpdatePrice("BTCUSDT", price, 0.0, "crypto", now);
    report := Backend.GenerateSignals("BTCUSDT", service.priceHistory["BTCUSDT"], ind, now);
  }

  /** The back end's stream path is the front end's over the lower-cased symbols. */
  lemma StreamPathsAgree(symbols: seq<string>)
    ensures Backend.StreamPath(symbols)
      == FrontendFeeds.StreamPath(seq(|symbols|, i requires 0 <= i < |symbols| => ToLower(symbols[i])))
  {
    var lowered := seq(|symbols|, i requires 0 <= i < |symbols| => ToLower(symbols[i]));
    assert FrontendFeeds.Topics(lowered)
      == seq(|symbols|, i requires 0 <= i < |symbols| => ToLower(symbols[i]) + "@ticker");
  }

  lemma LowerBtc() ensures ToLower("BTCUSDT") == "btcusdt" {}
  lemma LowerEth() ensures ToLower("ETHUSDT") == "ethusdt" {}
  lemma LowerBnb() ensures ToLower("BNBUSDT") == "bnbusdt" {}
  lemma LowerSol() ensures ToLower("SOLUSDT") == "solusdt" {}
  lemma LowerXrp() ensures ToLower("XRPUSDT") == "xrpusdt" {}

  /** The back end's symbols, lower-cased, are the front end's. */
  lemma DefaultSymbolsAgree(i: nat)
    requires i < |Backend.CRYPTO_SYMBOLS|
    ensures i < |FrontendFeeds.CRYPTO_SYMBOLS|
    ensures ToLower(Backend.CRYPTO_SYMBOLS[i]) == FrontendFeeds.CRYPTO_SYMBOLS[i]
  {
    if i == 0 {
      LowerBtc();
    } else if i == 1 {
      LowerEth();
    } else if i == 2 {
      LowerBnb();
    } else if i == 3 {
      LowerSol();
    } else {
      LowerXrp();
    }
  }

  /** Both versions subscribe to the same five ticker topics. */
  lemma DefaultStreamsAgree()
    ensures Backend.StreamPath(Backend.CRYPTO_SYMBOLS) == FrontendFeeds.StreamPath(FrontendFeeds.CRYPTO_SYMBOLS)
  {
    var symbols := Backend.CRYPTO_SYMBOLS;
    StreamPathsAgree(symbols);
    var lowered := seq(|symbols|, i requires 0 <= i < |symbols| => ToLower(symbols[i]));
    forall i | 0 <= i < |symbols|
      ensures lowered[i] == FrontendFeeds.CRYPTO_SYMBOLS[i]
    {
      DefaultSymbolsAgree(i);
    }
    assert lowered == FrontendFeeds.CRYPTO_SYMBOLS;
  }
}
