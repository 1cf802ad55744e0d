/**
 * The pure shaping in the front-end `MarketService` (market-service.js): the
 * ticker stream path, the partial updates built from a ticker message and
 * from a quote response, and the historical series built from a decoded
 * series response. Requests, sockets and timers are not modelled: each
 * function receives the decoded message or response.
 */
module FrontendFeeds {
  import opened Wrappers
  import opened Seqs
  import opened Strings
  import opened JsValues
  import opened PriceRecord

  const BINANCE_WS_URL := "wss://stream.binance.com:9443/ws"
  const TICKER_SUFFIX := "@ticker"
  const QUOTE_CURRENCY := "USDT"

  /** The crypto pairs the service streams by default. */
  const CRYPTO_SYMBOLS: seq<string> := ["btcusdt", "ethusdt", "bnbusdt", "solusdt", "xrpusdt"]

  /** The equities it lists by default; the service itself never reads this list. */
  const STOCK_SYMBOLS: seq<string> := ["AAPL", "MSFT", "GOOGL", "AMZN", "TSLA", "NVDA", "META", "JPM"]

  const GLOBAL_QUOTE := "Global Quote"
  const QUOTE_PRICE := "05. price"
  const QUOTE_VOLUME := "06. volume"
  const QUOTE_CHANGE_PERCENT := "10. change percent"
  const SERIES_CLOSE := "4. close"

  // ---------------------------------------------------------------- streams

  /** `symbols.map(s => `${s}@ticker`)`. */
  function Topics(symbols: seq<string>): seq<string>
  {
    seq(|symbols|, i requires 0 <= i < |symbols| => symbols[i] + TICKER_SUFFIX)
  }

  /** The path of the multiplexed ticker stream: the topics joined by `/`. */
  function StreamPath(symbols: seq<string>): string
  {
    Join(Topics(symbols), "/")
  }

  /** The stream URL the socket is opened on. */
  function StreamUrl(symbols: seq<string>): (r: string)
    ensures BINANCE_WS_URL + "/" <= r
    ensures r[|BINANCE_WS_URL| + 1..] == StreamPath(symbols)
  {
    BINANCE_WS_URL + "/" + StreamPath(symbols)
  }

  /**
   * The stream path names every symbol's ticker topic once, in order: split
   * at `/` it gives back exactly the topics.
   */
  lemma StreamPathLists(symbols: seq<string>)
    requires |symbols| >= 1
    requires forall i :: 0 <= i < |symbols| ==> '/' !in symbols[i]
    ensures Split(StreamPath(symbols), '/') == Topics(symbols)
    ensures forall i :: 0 <= i < |symbols| ==> Topics(symbols)[i] == symbols[i] + "@ticker"
  {
    var topics := Topics(symbols);
    forall i | 0 <= i < |topics|
      ensures '/' !in topics[i]
    {
      assert topics[i] == symbols[i] + TICKER_SUFFIX;
      assert '/' !in TICKER_SUFFIX;
    }
    SplitJoin(topics, '/');
  }

  // ---------------------------------------------------------------- ticker messages

  /** `symbol.replace('USDT', '')`: the short display name of a pair. */
  function CryptoName(symbol: string): string
  {
    ReplaceFirst(symbol, QUOTE_CURRENCY, "")
  }

  /**
   * The name drops the first `USDT`: a pair that ends in its only `USDT`
   * loses exactly that suffix, and a symbol without one keeps its spelling.
   */
  lemma CryptoNameDropsQuote(base: string, other: string)
    requires forall j :: 0 <= j < |base| ==> !OccursAt(base + QUOTE_CURRENCY, QUOTE_CURRENCY, j)
    requires forall j :: !OccursAt(other, QUOTE_CURRENCY, j)
    ensures CryptoName(base + QUOTE_CURRENCY) == base
    ensures CryptoName(other) == other
  {
    var s := base + QUOTE_CURRENCY;
    assert s[|base|..|base| + |QUOTE_CURRENCY|] == QUOTE_CURRENCY;
    ReplaceFirstAt(s, QUOTE_CURRENCY, "", |base|);
    assert s[..|base|] == base;
    assert s[|base| + |QUOTE_CURRENCY|..] == "";
    ReplaceFirstAbsent(other, QUOTE_CURRENCY, "");
  }

  /**
   * The partial update one decoded ticker message yields, with the symbol it
   * is for. `None` when building it throws: the message is `null`, or its
   * symbol `s` is not a string (`replace` is then missing), so no update is made.
   */
  function TickerUpdate(msg: JsValue): (r: Option<(string, Record)>)
    ensures r.Some? <==> !IsNullish(msg) && Property(msg, "s").Str?
    ensures r.Some? ==> r.value.0 == Property(msg, "s").s
    ensures r.Some? ==> r.value.1.Keys == {"price", "changePercent", "type", "name"}
    ensures r.Some? ==> r.value.1["price"] == ParsedFloat(Property(msg, "c"))
    ensures r.Some? ==> r.value.1["changePercent"] == ParsedFloat(Property(msg, "P"))
    ensures r.Some? ==> r.value.1["type"] == Text("crypto")
    ensures r.Some? ==> r.value.1["name"] == Text(CryptoName(r.value.0))
  {
    match Get(msg, "s")
    case None => None
    case Some(symbol) =>
      if !symbol.Str? then None
      else
        Some((symbol.s, map[
          "price" := ParsedFloat(Property(msg, "c")),
          "changePercent" := ParsedFloat(Property(msg, "P")),
          "type" := Text("crypto"),
          "name" := Text(CryptoName(symbol.s))]))
  }

  // ---------------------------------------------------------------- quotes

  /** `s.replace('%', '')`: the first percent sign removed. */
  function StripPercent(s: string): string
  {
    ReplaceFirst(s, "%", "")
  }

  /** A change percent written as a number followed by `%` loses just the sign; one without `%` is kept. */
  lemma StripPercentDropsSign(num: string, plain: string)
    requires '%' !in num && '%' !in plain
    ensures StripPercent(num + "%") == num
    ensures StripPercent(plain) == plain
  {
    var s := num + "%";
    forall j | 0 <= j < |num|
      ensures !OccursAt(s, "%", j)
    {
      assert s[j..j + 1] == [num[j]];
    }
    assert s[|num|..|num| + 1] == "%";
    ReplaceFirstAt(s, "%", "", |num|);
    assert s[..|num|] == num;
    assert s[|num| + 1..] == "";
    forall j
      ensures !OccursAt(plain, "%", j)
    {
      if 0 <= j < |plain| {
        assert plain[j..j + 1] == [plain[j]];
      }
    }
    ReplaceFirstAbsent(plain, "%", "");
  }

  /**
   * The partial update `getStockPrice` builds from a decoded quote response.
   * `None` when it returns `null` without touching the store: the response is
   * `null` (reading `Global Quote` throws), the quote is missing or falsy, or
   * its change percent is not a string (`replace` throws).
   */
  function QuoteUpdate(data: JsValue): (r: Option<Record>)
    ensures r.Some? <==>
      && !IsNullish(data)
      && Truthy(Property(data, GLOBAL_QUOTE))
      && Property(Property(data, GLOBAL_QUOTE), QUOTE_CHANGE_PERCENT).Str?
    ensures r.Some? ==>
      var quote := Property(data, GLOBAL_QUOTE);
      && r.value.Keys == {"price", "changePercent", "type", "volume", "marketCap"}
      && r.value["price"] == ParsedFloat(Property(quote, QUOTE_PRICE))
      && r.value["changePercent"] == ParsedFloat(Str(StripPercent(Property(quote, QUOTE_CHANGE_PERCENT).s)))
      && r.value["volume"] == Raw(Property(quote, QUOTE_VOLUME))
      && r.value["type"] == Text("stock")
      && r.value["marketCap"] == Text("N/A")
  {
    match Get(data, GLOBAL_QUOTE)
    case None => None
    case Some(quote) =>
      if !Truthy(quote) then None
      else
        var change := Property(quote, QUOTE_CHANGE_PERCENT);
        if !change.Str? then None
        else
          Some(map[
            "price" := ParsedFloat(Property(quote, QUOTE_PRICE)),
            "changePercent" := ParsedFloat(Str(StripPercent(change.s))),
            "type" := Text("stock"),
            "volume" := Raw(Property(quote, QUOTE_VOLUME)),
            "marketCap" := Text("N/A")])
  }

  /** The update to apply for a quote request; `None` also when the request or its decoding failed. */
  function QuoteOf(response: Option<JsValue>): Option<Record>
  {
    match response
    case None => None
    case Some(data) => QuoteUpdate(data)
  }

  // ---------------------------------------------------------------- historical series

  /** One chart point `{time: new Date(dateArg), price: parseFloat(closeArg)}`, left unevaluated. */
  datatype Point = Point(dateArg: JsValue, closeArg: JsValue)

  /** How an equity series is requested and where the response holds it. */
  datatype SeriesQuery = SeriesQuery(func: string, intervalParam: string, key: string)

  /** The intraday granularity: `60min` for `1h`, `5min` for anything else. */
  function Granularity(interval: string): string
  {
    if interval == "1h" then "60min" else "5min"
  }

  /** The request function, interval parameter and response key chosen from `interval`. */
  function StockSeriesQuery(interval: string): (q: SeriesQuery)
    ensures q.func == "TIME_SERIES_DAILY" <==> interval == "1d"
    ensures interval == "1d" ==> q.intervalParam == "" && q.key == "Time Series (Daily)"
    ensures interval == "1h" ==> q.func == "TIME_SERIES_INTRADAY" && q.intervalParam == "&interval=60min" && q.key == "Time Series (60min)"
    ensures interval != "1d" && interval != "1h" ==>
      q.func == "TIME_SERIES_INTRADAY" && q.intervalParam == "&interval=5min" && q.key == "Time Series (5min)"
  {
    var func := if interval == "1d" then "TIME_SERIES_DAILY" else "TIME_SERIES_INTRADAY";
    var intervalParam := if interval == "1d" then "" else "&interval=" + Granularity(interval);
    var key := if interval == "1d" then "Time Series (Daily)" else "Time Series (" + Granularity(interval) + ")";
    SeriesQuery(func, intervalParam, key)
  }

  /**
   * `Object.entries(series).map(([time, values]) => ...)`: `None` for the
   * `TypeError` when some entry's values are `null` or `undefined`.
   */
  function ClosePoints(entries: seq<(string, JsValue)>): (r: Option<seq<Point>>)
    ensures r.Some? <==> forall i :: 0 <= i < |entries| ==> !IsNullish(entries[i].1)
    ensures r.Some? ==> |r.value| == |entries|
    ensures r.Some? ==> forall i :: 0 <= i < |entries| ==>
      r.value[i] == Point(Str(entries[i].0), Property(entries[i].1, SERIES_CLOSE))
  {
    if entries == [] then Some([])
    else
      match Get(entries[0].1, SERIES_CLOSE)
      case None => None
      case Some(close) =>
        match ClosePoints(entries[1..])
        case None => None
        case Some(rest) => Some([Point(Str(entries[0].0), close)] + rest)
  }

  /**
   * What `getHistoricalData` returns for an equity: `[]` when the request or
   * its decoding failed, when the response has no (truthy) series under the
   * chosen key, or when mapping an entry throws; otherwise one point per
   * entry, in reverse entry order.
   */
  function StockSeries(response: Option<JsValue>, interval: string): seq<Point>
  {
    SeriesUnder(response, StockSeriesQuery(interval).key)
  }

  /** The points of the series stored under `key`, newest entry first. */
  function SeriesUnder(response: Option<JsValue>, key: string): seq<Point>
  {
    match response
    case None => []
    case Some(data) =>
      match Get(data, key)
      case None => []
      case Some(series) =>
        if !Truthy(series) then []
        else
          match Entries(series)
          case None => []
          case Some(entries) =>
            match ClosePoints(entries)
            case None => []
            case Some(points) => Reverse(points)
  }

  /** A series response is returned newest entry last: the i-th point comes from the i-th entry from the end. */
  lemma StockSeriesIsReversed(data: JsValue, interval: string)
    requires !IsNullish(data)
    requires Property(data, StockSeriesQuery(interval).key).Obj?
    requires var entries := Property(data, StockSeriesQuery(interval).key).props;
      forall i :: 0 <= i < |entries| ==> !IsNullish(entries[i].1)
    ensures var entries := Property(data, StockSeriesQuery(interval).key).props;
      var r := StockSeries(Some(data), interval);
      && |r| == |entries|
      && forall i :: 0 <= i < |r| ==>
        r[i] == Point(Str(entries[|entries| - 1 - i].0), Property(entries[|entries| - 1 - i].1, SERIES_CLOSE))
  {
    SeriesUnderIsReversed(data, StockSeriesQuery(interval).key);
  }

  /** `StockSeriesIsReversed` for any series key. */
  lemma SeriesUnderIsReversed(data: JsValue, key: string)
    requires !IsNullish(data)
    requires Property(data, key).Obj?
    requires forall i :: 0 <= i < |Property(data, key).props| ==> !IsNullish(Property(data, key).props[i].1)
    ensures var entries := Property(data, key).props;
      var r := SeriesUnder(Some(data), key);
      && |r| == |entries|
      && forall i :: 0 <= i < |r| ==>
        r[i] == Point(Str(entries[|entries| - 1 - i].0), Property(entries[|entries| - 1 - i].1, SERIES_CLOSE))
  {
    var series := Property(data, key);
    var entries := series.props;
    assert Get(data, key) == Some(series);
    assert Truthy(series) && Entries(series) == Some(entries);
    var points := ClosePoints(entries).value;
    var r := Reverse(points);
    assert SeriesUnder(Some(data), key) == r;
    forall i | 0 <= i < |r|
      ensures r[i] == Point(Str(entries[|entries| - 1 - i].0), Property(entries[|entries| - 1 - i].1, SERIES_CLOSE))
    {
      var j := |entries| - 1 - i;
      assert r[i] == points[j];
      assert points[j] == Point(Str(entries[j].0), Property(entries[j].1, SERIES_CLOSE));
    }
  }

  /** A response without the expected series key yields no points. */
  lemma StockSeriesMissingKey(data: JsValue, interval: string)
    requires data.Obj?
    requires forall i :: 0 <= i < |data.props| ==> data.props[i].0 != StockSeriesQuery(interval).key
    ensures StockSeries(Some(data), interval) == []
  {
    assert Lookup(data.props, StockSeriesQuery(interval).key) == Undefined;
  }

  /** `data.map(d => ...)` over candles: `None` for the `TypeError` on a `null` candle. */
  function CandlePoints(candles: seq<JsValue>): (r: Option<seq<Point>>)
    ensures r.Some? <==> forall i :: 0 <= i < |candles| ==> !IsNullish(candles[i])
    ensures r.Some? ==> |r.value| == |candles|
    ensures r.Some? ==> forall i :: 0 <= i < |candles| ==>
      r.value[i] == Point(Index(candles[i], 0).value, Index(candles[i], 4).value)
  {
    if candles == [] then Some([])
    else
      match (Index(candles[0], 0), Index(candles[0], 4))
      case (Some(openTime), Some(close)) =>
        (match CandlePoints(candles[1..])
         case None => None
         case Some(rest) => Some([Point(openTime, close)] + rest))
      case _ => None
  }

  /**
   * What `getHistoricalData` returns for a crypto pair: the candles' open
   * times and close prices in the order received, or `[]` when the request
   * failed, the response is not an array (`map` is missing), or a candle is `null`.
   */
  function CryptoSeries(response: Option<JsValue>): (r: seq<Point>)
    ensures !(response.Some? && response.value.Arr?) ==> r == []
    ensures response.Some? && response.value.Arr? ==>
      var candles := response.value.items;
      if forall i :: 0 <= i < |candles| ==> !IsNullish(candles[i]) then
        && |r| == |candles|
        && forall i :: 0 <= i < |candles| ==> r[i] == Point(Index(candles[i], 0).value, Index(candles[i], 4).value)
      else r == []
  {
    match response
    case Some(Arr(candles)) =>
      (match CandlePoints(candles)
       case None => []
       case Some(points) => points)
    case _ => []
  }

  /** The type and interval `getHistoricalData` uses for an omitted argument. */
  const DEFAULT_TYPE := "stock"
  const DEFAULT_INTERVAL := "1h"

  /**
   * `getHistoricalData(symbol, type, interval)` given the decoded response
   * of the request it made; `None` is an omitted (or `undefined`) argument.
   * Only the exact type `crypto` reads klines; every other type reads an
   * equity series at the given or default interval.
   */
  function HistoricalData(assetType: Option<string>, interval: Option<string>, response: Option<JsValue>): (r: seq<Point>)
    ensures assetType == Some("crypto") ==> r == CryptoSeries(response)
    ensures assetType != Some("crypto") ==> r == StockSeries(response, Or(interval, DEFAULT_INTERVAL))
  {
    var t := Or(assetType, DEFAULT_TYPE);
    if t == "crypto" then CryptoSeries(response) else StockSeries(response, Or(interval, DEFAULT_INTERVAL))
  }

  /** An argument, or its default when it was omitted. */
  function Or(arg: Option<string>, default: string): string
  {
    match arg
    case None => default
    case Some(v) => v
  }

  /**
   * A call with neither type nor interval asks for the hourly intraday
   * series of an equity and reads the `Time Series (60min)` key.
   */
  lemma OmittedArgumentsReadHourlyStock(response: Option<JsValue>)
    ensures HistoricalData(None, None, response) == SeriesUnder(response, "Time Series (60min)")
    ensures StockSeriesQuery(Or(None, DEFAULT_INTERVAL)).func == "TIME_SERIES_INTRADAY"
    ensures StockSeriesQuery(Or(None, DEFAULT_INTERVAL)).intervalParam == "&interval=60min"
  {
    assert DEFAULT_TYPE != "crypto";
  }
}
