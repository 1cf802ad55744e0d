# TradeMind market store, in Dafny

This project models the market-data store of TradeMind AI in two versions and
proves what each promises.

- **The browser `MarketService`** (`market-service.js`) keeps several pieces of state:
  - the current record per symbol;
  - a bounded history of `{time, price}` samples per symbol;
  - a `Set` of subscriber callbacks.

  `updatePrice` is its single write path. It upper-cases the symbol, then shallow-merges the partial update into the stored record and stamps `lastUpdated`. It appends a sample, dropping the oldest beyond 100, and finally calls every subscriber once.

  Pure shaping functions feed that path:
  - the update built from a ticker message;
  - the update built from a quote response (the `Global Quote` guard and the `%` strip);
  - the equity series query and its reversed points;
  - the crypto candles;
  - the index filter of `getMarketIndices`;
  - the overview rows.
- **The Python back end** (`backend/services.py`):
  - `MarketService.__init__` seeds an empty history for 13 fixed symbols.
  - `_update_price` overwrites the record with exactly four fields, keeps a bounded FIFO of raw prices, and fails with a missing key for a symbol that was never seeded.
  - The ticker stream path lower-cases each symbol.
  - `SignalService.generate_signals` is a decision ladder over already computed RSI and moving averages.

Modules follow that structure:

| module | what it holds |
|---|---|
| `Wrappers`, `Seqs` | `Option`; distinct sequences; sequence reversal |
| `Strings` | ASCII case conversion; first-occurrence `replace`; `join` and `split` |
| `JsValues` | decoded JSON values, property access that throws on `null`/`undefined` (modelled as `None`), truthiness, `Object.entries` |
| `PriceRecord` | records as maps from field names to fields; the merge law of `updatePrice` |
| `History` | the bounded FIFO shared by both versions |
| `Subscribers` | the callback `Set` by insertion order; the log of invocations |
| `FrontendFeeds` | the pure shaping of ticker messages, quotes and series |
| `FrontendStore` | the browser store as a class, with its transition functions and their lemmas |
| `Backend` | the Python store as a class; the signal ladder |
| `Clients` | scenarios a caller can rely on, proved from the contracts alone |

Callbacks are opaque ids. A callback invocation is an entry appended to the `delivered` log. The clock (`new Date()`, `datetime.now()`) is a `now` parameter. In the front end, `parseFloat` and `new Date(arg)` are kept symbolic as fields that record their argument. The back end takes its prices as real numbers. Requests and sockets are not modelled: each operation receives the decoded message or response, and `None` stands for a request whose `fetch` or `json()` rejected. IEEE comparisons are modelled by `Backend.Float`: every comparison with `NaN` is false.

## Model

| member | source | states |
|---|---|---|
| Strings.ToUpper | market-service.js:85 | the key keeps its length and each letter is upper-cased, nothing else touched |
| Strings.ToUpperNormalizes | market-service.js:85-86 | the normalised key is upper case and idempotent, and spellings differing only in letter case give the same key |
| Strings.ToLower | backend/services.py:20 | each letter lower-cased, length kept |
| Strings.IndexOfFrom | market-service.js:41 | the result is the first occurrence at or after the start, and `None` means there is none |
| Strings.ReplaceFirstAt | market-service.js:64 | `replace` with a string pattern rewrites only the first occurrence: prefix, replacement, then the rest |
| Strings.ReplaceFirstAbsent | market-service.js:64 | a string without the pattern is returned unchanged |
| Strings.SplitJoin | market-service.js:26 | joining parts that do not contain the separator is undone by splitting at it |
| Seqs.Reverse | market-service.js:131 | the i-th element of the result is the i-th from the end of the input |
| PriceRecord.Merge | market-service.js:86-90 | merge law: keys are old ∪ update ∪ `lastUpdated`; update fields win; absent fields keep their old value; `lastUpdated` is always the new time |
| PriceRecord.MergeAllKeepsLatest | market-service.js:86-90 | after any run of updates a field is present iff it was ever supplied, and holds its most recently supplied value |
| PriceRecord.MergeAllStampsLatest | market-service.js:89 | after a run of updates `lastUpdated` is the time of the last one |
| History.Push | market-service.js:93-98 | from a history within the bound, one push leaves the last 100 of old history plus the new entry; the new entry is last |
| History.ReplayKeepsWindow | market-service.js:93-98 | any run of pushes onto a bounded history leaves the last 100 of old history followed by the pushed entries, in order |
| History.ReplayFromEmpty | backend/services.py:41-43 | after n appends to a fresh list it holds the last min(n, 100) of them in FIFO order, and at most 100 |
| Subscribers.Add | market-service.js:162 | `Set.add`: members are the old ones plus the callback; a present callback changes nothing; a new one goes last, after the others in their old order; no duplicates arise |
| Subscribers.Remove | market-service.js:163 | `Set.delete`: members are the old ones minus the callback; an absent callback changes nothing; no duplicates arise |
| Subscribers.RemoveKeepsOrder | market-service.js:163 | deleting the callback at position k leaves the members before it and after it, in their old order |
| Subscribers.FanoutInOrder | market-service.js:166-168 | `forEach` calls the subscribers in insertion order, each with the same symbol and record |
| Subscribers.FanoutCallsEachOnce | market-service.js:166-168 | each registered callback is invoked exactly once per notification, and an unregistered one never |
| Subscribers.RemovedIsNotCalled | market-service.js:161-164 | after the disposer runs a callback is never invoked, even if it was added twice; one added twice is invoked once |
| FrontendFeeds.StreamUrl | market-service.js:26-27 | the URL is the Binance socket base, a `/`, and then the stream path |
| FrontendFeeds.StreamPathLists | market-service.js:26 | split at `/`, the stream path gives back each symbol with `@ticker` appended, once each and in order |
| FrontendFeeds.CryptoNameDropsQuote | market-service.js:41 | the display name of `XUSDT` is `X` when that is its only `USDT`; a symbol without `USDT` keeps its spelling |
| FrontendFeeds.TickerUpdate | market-service.js:31-42 | a message gives an update iff it is an object whose `s` is a string; the update has exactly price, changePercent, type and name, read from `c`, `P` and `s`, with type `crypto` |
| FrontendFeeds.StripPercentDropsSign | market-service.js:64 | `"1.5%"` loses just the sign, and a value without `%` is unchanged |
| FrontendFeeds.QuoteUpdate | market-service.js:61-75 | an update exists iff the response is an object with a truthy `Global Quote` whose change percent is a string; it then has exactly price, changePercent, type, volume and marketCap, with the change percent stripped of its `%`, type `stock` and marketCap `N/A` |
| FrontendFeeds.StockSeriesQuery | market-service.js:120-125 | `1d` gives the daily function, no interval and `Time Series (Daily)`; `1h` gives intraday at `60min`; anything else gives intraday at `5min` |
| FrontendFeeds.ClosePoints | market-service.js:128-130 | one point per series entry, in entry order, from its timestamp and `4. close`; throws iff some entry's values are null |
| FrontendFeeds.StockSeriesIsReversed | market-service.js:126-131 | for a present series, the i-th point comes from the i-th entry from the end |
| FrontendFeeds.StockSeriesMissingKey | market-service.js:126-133 | a response without the chosen series key yields `[]` |
| FrontendFeeds.CandlePoints | market-service.js:110-113 | one point per candle, in the order received, from its open time and close; throws iff some candle is null |
| FrontendFeeds.HistoricalData | market-service.js:104-105 | only the exact type `crypto` reads the klines response; any other or omitted type reads the equity series, at the given interval or `1h` when it is omitted |
| FrontendFeeds.OmittedArgumentsReadHourlyStock | market-service.js:104-125 | with type and interval omitted the request is the intraday function at `60min` and the series is read under `Time Series (60min)` |
| FrontendFeeds.CryptoSeries | market-service.js:104-117 | a failed request or a non-array response gives `[]`; an array gives one point per candle, in order, from its open time and close, unless some candle is null, which gives `[]` |
| FrontendStore.PricesAfter | market-service.js:85-90 | only the upper-cased key is written, with the merged record; every other record is untouched |
| FrontendStore.HistoryAfter | market-service.js:93-98 | only the upper-cased key's history changes; from within the bound it becomes the last 100 of old samples plus the new sample |
| FrontendStore.CaseVariantsShareKey | market-service.js:85-86 | `btcusdt` and `BTCUSDT` (any case variants) update the same record and the same history |
| FrontendStore.StoreFollowsMergeLaw | market-service.js:86-90 | after a run of updates to one symbol its stored record is the fold of the merge law over them |
| FrontendStore.HistoryFollowsReplay | market-service.js:93-98 | after a run of updates to one symbol its history is the bounded FIFO replay of their samples |
| FrontendStore.HistoryKeepsLastSamples | market-service.js:93-98 | after a run of updates the symbol's history is the last 100 of old samples followed by the new ones, in order |
| FrontendStore.LowerCaseQuoteIsLost | market-service.js:73 | the lookup as written returns nothing for `aapl` although its record was just stored under `AAPL` |
| FrontendStore.StoredRecordAfterUpdate | market-service.js:73 | the corrected lookup returns exactly the record just merged, for any spelling |
| FrontendStore.UpperCaseLookupsAgree | market-service.js:73 | for an upper-case symbol the lookup as written and the corrected lookup agree |
| FrontendStore.Kept | market-service.js:151-156 | the kept indices are exactly the queried ones whose quote yielded an update, and there are no more of them than queried |
| FrontendStore.IndexPassFrame | market-service.js:151-156 | the index pass leaves every record whose key is not one of the indices untouched |
| FrontendStore.IndexPassKeepsQuoted | market-service.js:151-156 | the results name exactly the indices whose quote yielded an update, in order, each under its display name with its freshly merged record |
| FrontendStore.IndexStorePrices | market-service.js:151-156 | the records left by the index round are those of the index pass |
| FrontendStore.IndexStoreExtendsLog | market-service.js:151-156 | the index round only appends to the notification log |
| FrontendStore.IndexStoreNotifies | market-service.js:151-156 | in an index round each registered callback is called once per fund whose quote arrived, and an unregistered one never |
| FrontendStore.IndexStoreHistory | market-service.js:93-98 | in an index round over distinct symbols each fund's history gets its new sample pushed iff its quote arrived, and is otherwise unchanged |
| FrontendStore.IndexStoreHistoryFrame | market-service.js:93-98 | the index round leaves the history of every symbol that is not one of the funds unchanged |
| FrontendStore.IndexEtfsDistinct | market-service.js:143-148 | SPY, DIA, QQQ and IWM have distinct upper-cased keys |
| FrontendStore.UpdateKeepsConsistent | market-service.js:83-101 | an update keeps the store invariant: keys listed once in `Object.entries` order, all upper case, records and histories sharing keys, every history within 100 |
| FrontendStore.Overview | market-service.js:171-176 | one row per stored symbol in key order, with the record's fields plus `symbol`; the record's own fields win on a clash |
| FrontendStore.MarketService.constructor | market-service.js:8-22 | the store starts with no records, no histories and no subscribers |
| FrontendStore.MarketService.UpdatePrice | market-service.js:83-101 | the new state is the merged record, the pushed history and the key order, and every current subscriber is notified once with the normalised symbol and stored record; the invariant is kept |
| FrontendStore.MarketService.NotifySubscribers | market-service.js:166-168 | the log grows by one invocation per subscriber, in `Set` order |
| FrontendStore.MarketService.Subscribe | market-service.js:161-164 | the callback is added with `Set` semantics and its disposer is returned |
| FrontendStore.MarketService.Dispose | market-service.js:163 | the callback is deleted, and the result says whether it was registered |
| FrontendStore.MarketService.OnTickerMessage | market-service.js:31-43 | a malformed message changes nothing; a well-formed one applies its ticker update |
| FrontendStore.MarketService.GetStockPrice | market-service.js:56-80 | no quote gives `null` and leaves the store unchanged; a quote is applied and its stored record is returned |
| FrontendStore.MarketService.GetMarketIndices | market-service.js:142-158 | the new records, key order, histories and notification log are those of one `updatePrice` per fund whose quote arrived, over SPY, DIA, QQQ and IWM in order; the results are those of the index pass; subscribers are unchanged |
| FrontendStore.MarketService.GetMarketOverview | market-service.js:171-176 | one row per stored symbol in key order, holding that record's keys plus `symbol`, with the record's values; `symbol` holds the key unless the record has its own |
| Backend.SeededHistory | backend/services.py:15 | a history exists exactly for the listed symbols, each empty |
| Backend.SeededCount | backend/services.py:15 | distinct symbols give one history each |
| Backend.SeededSymbolCount | backend/services.py:11-15 | thirteen symbols are seeded |
| Backend.PriceEntry | backend/services.py:34-39 | the stored record has exactly price, changePercent, type and lastUpdated, with the given asset type and the ISO time of the update; nothing earlier survives |
| Backend.MarketService.constructor | backend/services.py:10-16 | no prices yet, and an empty history for each seeded symbol |
| Backend.MarketService.UpdatePrice | backend/services.py:33-43 | the record is overwritten; a seeded symbol's history gets the price pushed within the bound; an unseeded one fails after the record write and leaves the histories unchanged |
| Backend.GenerateSignals | backend/services.py:47-83 | fewer than 20 prices is NEUTRAL for lack of data; otherwise BUY iff RSI < 30, or RSI is not > 70 and the short SMA is above the long; SELL and `Market stable` are characterised the same way, with NaN comparing false; each branch's reason (oversold, overbought, bullish or bearish crossover) is given exactly when that branch is taken |
| Clients.BtcusdtNormalizes | market-service.js:85 | `btcusdt` normalises to `BTCUSDT` |
| Clients.SubscribeThenUpdate | market-service.js:83-101 | a subscriber registered first is called exactly once, with the normalised symbol and the merged record |
| Clients.DisposeBeforeUpdate | market-service.js:161-164 | a disposed callback is not called, though the update is stored |
| Clients.OneCallPerResult | market-service.js:151-156 | with one subscriber, an index round over distinct symbols calls it once per result row |
| Clients.SubscribeThenIndices | market-service.js:142-168 | a subscriber registered before `getMarketIndices` is called once per returned index, and there are at most four |
| Clients.RateLimitNoticeIsNull | market-service.js:61-75 | a rate-limit notice in place of the quote yields no update |
| Clients.QuoteWithoutGlobalQuote | market-service.js:61-75 | such a response returns `null` and leaves the store empty |
| Clients.UnseededBackendSymbol | backend/services.py:34-41 | an unseeded symbol's record is written and then its history append fails |
| Clients.FreshBackendSignal | backend/services.py:49-50 | right after start-up a seeded symbol has too little history for a signal |
| Clients.StreamPathsAgree | backend/services.py:20 | the back end's stream path is the front end's over the lower-cased symbols |
| Clients.DefaultSymbolsAgree | backend/services.py:11 | the back end's default pairs, lower-cased, are the front end's |
| Clients.DefaultStreamsAgree | backend/services.py:20 | both versions open the same ticker stream path |

## Left out

- WebSocket connection, `onclose` reconnect after 5 s and `onerror` logging (market-service.js:29-52; backend/services.py:23-31): these are asynchronous I/O with timers. `OnTickerMessage` takes one decoded message instead.
- `fetch`, `await` and the request URLs, including the klines URL with its `limit=24` (market-service.js:58, 108, 122): these are network I/O. Each operation receives the decoded response, or `None` when the request or decoding failed.
- `localStorage` and `os.getenv` API-key lookups and the `window.marketService` global (market-service.js:11, 180; backend/services.py:16): these are environment configuration.
- `parseFloat`, `new Date(arg)` and `isoformat()`: these are floating-point parsing and date formatting. Each is kept as a symbolic field holding its argument or the clock value.
- Backend.MarketService.UpdatePrice: takes the price as a real number, so a Python `float` that is `nan` or `inf` cannot be passed in; the signal ladder's NaN comparisons are modelled separately by `Backend.Float`.
- FrontendStore.MarketService.GetMarketIndices: runs the round uninterrupted. In the source each `await this.getStockPrice(symbol)` yields to the event loop, so ticker messages, `subscribe` calls and disposers may run between the four quotes; the promises that subscribers are unchanged and that the log holds only the round's notifications hold only when nothing else runs.
- FrontendStore.MarketService.GetMarketIndices: reads the clock once for the whole round, whereas the source reads `new Date()` again after each awaited quote, so the four updates may carry different times.
- FrontendStore.MarketService.UpdatePrice: reads the clock once per update, whereas the source calls `new Date()` twice, once for `lastUpdated` and once for the sample.
- Strings.ToUpper: covers ASCII letters only; JavaScript's full Unicode case mapping is not modelled.
- Strings.ToLower: covers ASCII letters only, like `ToUpper`.
- FrontendStore.Overview: lists keys in insertion order. `Object.entries` puts integer-like keys first, which no upper-cased ticker symbol is, but the model does not capture it.
- `undefined` and `null` thrown on alike: a `TypeError` is modelled as `None` without saying which value caused it.
- A callback that throws or re-enters the store during `forEach`: callbacks are opaque ids, and `forEach` does not isolate failures.
- Computing RSI and SMAs (backend/services.py:52-59): these are library numerics. The values are inputs to the ladder.
- Backend.GenerateSignals: keeps the RSI of the reason text as a number instead of formatting it with two decimals.
- `AIService.get_market_sentiment` (backend/services.py:85-104): its output is a random choice among formatted strings.
- backend/main.py is not part of this model: it is HTTP routing and a push loop over the services above.
- FrontendFeeds.HistoricalData: takes the type and interval as optional strings, so a non-string argument (which `type === 'crypto'` would also reject) cannot be passed.
- JSON objects with duplicate keys: an object's properties are a list in which the first match is read.
- Relay feeds and failover: neither appears in the source, so none is modelled.

## Findings

| source | as written | input that shows it | evidently intended | confidence | as-written member | corrected member |
|---|---|---|---|---|---|---|
| market-service.js:73 | `getStockPrice` returns `this.currentPrices[symbol]` with the symbol as passed, but `updatePrice` stored the record under `symbol.toUpperCase()` | `getStockPrice('aapl')` with a valid quote: the record is stored under `AAPL` and the call returns `undefined` | return the record under the upper-cased key | medium, not executed | FrontendStore.LowerCaseQuoteIsLost | FrontendStore.StoredRecordAfterUpdate |

`FrontendStore.StoredAsWritten` is the lookup as written and `FrontendStore.StoredRecord` is the corrected one. `FrontendStore.MarketService.GetStockPrice`, and through it `GetMarketIndices`, use the corrected lookup. For the upper-case symbols that `getMarketIndices` queries the two agree (`FrontendStore.UpperCaseLookupsAgree`).
