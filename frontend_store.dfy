/**
 * The front-end `MarketService` store (market-service.js): the current
 * record per symbol, each symbol's bounded history, the subscribers, and
 * the log of every callback invocation. `UpdatePrice` is the only write path.
 */
module FrontendStore {
  import opened Wrappers
  import opened Seqs
  import opened Strings
  import opened JsValues
  import opened PriceRecord
  import History
  import opened Subscribers
  import opened FrontendFeeds

  /** The ETFs that stand in for the market indices, with their display names. */
  const INDEX_ETFS: seq<(string, string)> :=
    [("SPY", "S&P 500"), ("DIA", "Dow Jones"), ("QQQ", "NASDAQ"), ("IWM", "Russell 2000")]

  /** One history entry `{time: new Date(), price: data.price}`; `None` is an absent `price`. */
  datatype Sample = Sample(time: Time, price: Option<Field>)

  /** The function `subscribe` returns; calling it deletes `callback`. */
  datatype Disposer = Disposer(callback: SubscriberId)

  /** `data.price`. */
  function PriceOf(update: Record): Option<Field>
  {
    if "price" in update then Some(update["price"]) else None
  }

  /** `prices[key]`, with `undefined` spreading as the empty record. */
  function PreviousRecord(prices: map<string, Record>, key: string): Record
  {
    if key in prices then prices[key] else map[]
  }

  /** `history[key]`, or the fresh empty list. */
  function PreviousHistory(history: map<string, seq<Sample>>, key: string): seq<Sample>
  {
    if key in history then history[key] else []
  }

  /**
   * The records after `updatePrice(symbol, update)` at time `now`: only the
   * upper-cased key is written, with the old record merged with the update.
   */
  function PricesAfter(prices: map<string, Record>, symbol: string, update: Record, now: Time): (r: map<string, Record>)
    ensures r.Keys == prices.Keys + {ToUpper(symbol)}
    ensures r[ToUpper(symbol)] == Merge(PreviousRecord(prices, ToUpper(symbol)), update, now)
    ensures forall k :: k in prices && k != ToUpper(symbol) ==> r[k] == prices[k]
  {
    var key := ToUpper(symbol);
    prices[key := Merge(PreviousRecord(prices, key), update, now)]
  }

  /** The histories after the same call: only the upper-cased key's list grows (and is kept bounded). */
  function HistoryAfter(history: map<string, seq<Sample>>, symbol: string, update: Record, now: Time): (r: map<string, seq<Sample>>)
    ensures r.Keys == history.Keys + {ToUpper(symbol)}
    ensures forall k :: k in history && k != ToUpper(symbol) ==> r[k] == history[k]
    ensures |PreviousHistory(history, ToUpper(symbol))| <= History.CAPACITY ==>
      r[ToUpper(symbol)] == History.Window(PreviousHistory(history, ToUpper(symbol)) + [Sample(now, PriceOf(update))])
  {
    var key := ToUpper(symbol);
    var previous := PreviousHistory(history, key);
    var pushed := History.Push(previous, Sample(now, PriceOf(update)));
    assert |previous| <= History.CAPACITY ==> pushed == History.Window(previous + [Sample(now, PriceOf(update))]);
    history[key := pushed]
  }

  /** Spellings that differ only in letter case update the same record and the same history. */
  lemma CaseVariantsShareKey(prices: map<string, Record>, history: map<string, seq<Sample>>, a: string, b: string, update: Record, now: Time)
    requires |a| == |b|
    requires forall i :: 0 <= i < |a| ==> UpperChar(a[i]) == UpperChar(b[i])
    ensures PricesAfter(prices, a, update, now) == PricesAfter(prices, b, update, now)
    ensures HistoryAfter(history, a, update, now) == HistoryAfter(history, b, update, now)
  {
    ToUpperNormalizes(a, b);
  }

  /** The records after a run of updates to one symbol, oldest first. */
  function PricesAfterAll(prices: map<string, Record>, symbol: string, updates: seq<(Record, Time)>): map<string, Record>
  {
    if updates == [] then prices
    else
      var last := updates[|updates| - 1];
      PricesAfter(PricesAfterAll(prices, symbol, updates[..|updates| - 1]), symbol, last.0, last.1)
  }

  /** The histories after the same run. */
  function HistoryAfterAll(history: map<string, seq<Sample>>, symbol: string, updates: seq<(Record, Time)>): map<string, seq<Sample>>
  {
    if updates == [] then history
    else
      var last := updates[|updates| - 1];
      HistoryAfter(HistoryAfterAll(history, symbol, updates[..|updates| - 1]), symbol, last.0, last.1)
  }

  /** The samples a run of updates appends, in order. */
  function SamplesOf(updates: seq<(Record, Time)>): seq<Sample>
  {
    seq(|updates|, i requires 0 <= i < |updates| => Sample(updates[i].1, PriceOf(updates[i].0)))
  }

  /** The store obeys the merge law: after a run of updates its record is the `MergeAll` of them. */
  lemma {:induction false} StoreFollowsMergeLaw(prices: map<string, Record>, symbol: string, updates: seq<(Record, Time)>)
    ensures PreviousRecord(PricesAfterAll(prices, symbol, updates), ToUpper(symbol))
      == MergeAll(PreviousRecord(prices, ToUpper(symbol)), updates)
  {
    if updates != [] {
      StoreFollowsMergeLaw(prices, symbol, updates[..|updates| - 1]);
    }
  }

  lemma {:induction false} HistoryFollowsReplay(history: map<string, seq<Sample>>, symbol: string, updates: seq<(Record, Time)>)
    ensures PreviousHistory(HistoryAfterAll(history, symbol, updates), ToUpper(symbol))
      == History.Replay(PreviousHistory(history, ToUpper(symbol)), SamplesOf(updates))
  {
    if updates != [] {
      var init := updates[..|updates| - 1];
      HistoryFollowsReplay(history, symbol, init);
      assert SamplesOf(updates)[..|updates| - 1] == SamplesOf(init);
    }
  }

  /**
   * The history bound: after any run of updates to a symbol whose history was
   * within the bound, that history holds the last `CAPACITY` of the old
   * entries followed by the new samples, in insertion order.
   */
  lemma HistoryKeepsLastSamples(history: map<string, seq<Sample>>, symbol: string, updates: seq<(Record, Time)>)
    requires |PreviousHistory(history, ToUpper(symbol))| <= History.CAPACITY
    ensures PreviousHistory(HistoryAfterAll(history, symbol, updates), ToUpper(symbol))
      == History.Window(PreviousHistory(history, ToUpper(symbol)) + SamplesOf(updates))
  {
    HistoryFollowsReplay(history, symbol, updates);
    History.ReplayKeepsWindow(PreviousHistory(history, ToUpper(symbol)), SamplesOf(updates));
  }

  /** What `getStockPrice` returns after its update, AS WRITTEN: `this.currentPrices[symbol]`, under the symbol as passed. */
  function StoredAsWritten(prices: map<string, Record>, symbol: string): Option<Record>
  {
    if symbol in prices then Some(prices[symbol]) else None
  }

  /** Corrected: the record under the upper-cased key that `updatePrice` writes. */
  function StoredRecord(prices: map<string, Record>, symbol: string): Option<Record>
  {
    var key := ToUpper(symbol);
    if key in prices then Some(prices[key]) else None
  }

  /** A lower-case equity symbol is stored, yet `getStockPrice` as written returns `undefined` for it. */
  lemma LowerCaseQuoteIsLost(update: Record, now: Time)
    ensures var prices := PricesAfter(map[], "aapl", update, now);
      && "AAPL" in prices
      && StoredAsWritten(prices, "aapl") == None
  {
    assert ToUpper("aapl") == "AAPL";
  }

  /** After the update, the corrected lookup returns exactly the record just stored, for any spelling. */
  lemma StoredRecordAfterUpdate(prices: map<string, Record>, symbol: string, update: Record, now: Time)
    ensures StoredRecord(PricesAfter(prices, symbol, update, now), symbol)
      == Some(Merge(PreviousRecord(prices, ToUpper(symbol)), update, now))
  {
  }

  /** For a symbol already in upper case the source's lookup and the corrected one agree. */
  lemma UpperCaseLookupsAgree(prices: map<string, Record>, symbol: string)
    requires IsUpperCase(symbol)
    ensures StoredAsWritten(prices, symbol) == StoredRecord(prices, symbol)
  {
    UpperCaseIsFixed(symbol);
  }

  /** The response the service receives for `symbol`; a missing symbol is a failed request. */
  function ResponseFor(responses: map<string, JsValue>, symbol: string): Option<JsValue>
  {
    if symbol in responses then Some(responses[symbol]) else None
  }

  /** The update each symbol's quote request yields, if any. */
  function QuotesOf(responses: map<string, JsValue>): string -> Option<Record>
  {
    symbol => QuoteOf(ResponseFor(responses, symbol))
  }

  /**
   * The store and collected results of `getMarketIndices` after querying
   * `etfs` in order, where `quote` gives the update each request yields:
   * an index whose quote yields no update is skipped.
   */
  function IndexPass(etfs: seq<(string, string)>, prices: map<string, Record>, quote: string -> Option<Record>, now: Time)
    : (map<string, Record>, seq<(string, Record)>)
  {
    if etfs == [] then (prices, [])
    else
      var (p, results) := IndexPass(etfs[..|etfs| - 1], prices, quote, now);
      var (symbol, name) := etfs[|etfs| - 1];
      match quote(symbol)
      case None => (p, results)
      case Some(update) =>
        var p' := PricesAfter(p, symbol, update, now);
        (p', results + [(name, p'[ToUpper(symbol)])])
  }

  /** The indices whose quotes yield an update, in order. */
  function Kept(etfs: seq<(string, string)>, quote: string -> Option<Record>): (r: seq<(string, string)>)
    ensures forall e :: e in r ==> e in etfs && quote(e.0).Some?
    ensures forall e :: e in etfs && quote(e.0).Some? ==> e in r
    ensures |r| <= |etfs|
  {
    if etfs == [] then []
    else
      var last := etfs[|etfs| - 1];
      Kept(etfs[..|etfs| - 1], quote) + (if quote(last.0).Some? then [last] else [])
  }

  /** No two index symbols share a store key. */
  ghost predicate DistinctKeys(etfs: seq<(string, string)>)
  {
    forall i, j :: 0 <= i < j < |etfs| ==> ToUpper(etfs[i].0) != ToUpper(etfs[j].0)
  }

  lemma {:induction false} IndexPassFrame(etfs: seq<(string, string)>, prices: map<string, Record>, quote: string -> Option<Record>, now: Time, key: string)
    requires forall i :: 0 <= i < |etfs| ==> ToUpper(etfs[i].0) != key
    ensures PreviousRecord(IndexPass(etfs, prices, quote, now).0, key) == PreviousRecord(prices, key)
  {
    if etfs != [] {
      IndexPassFrame(etfs[..|etfs| - 1], prices, quote, now, key);
    }
  }

  /**
   * The index filter: the results name exactly the indices whose quote
   * yielded an update, in order, each with its stored record freshly merged
   * with that update.
   */
  lemma {:induction false} IndexPassKeepsQuoted(etfs: seq<(string, string)>, prices: map<string, Record>, quote: string -> Option<Record>, now: Time)
    requires DistinctKeys(etfs)
    ensures var results := IndexPass(etfs, prices, quote, now).1;
      var kept := Kept(etfs, quote);
      && |results| == |kept|
      && forall i :: 0 <= i < |kept| ==>
        && results[i].0 == kept[i].1
        && results[i].1 == Merge(PreviousRecord(prices, ToUpper(kept[i].0)), quote(kept[i].0).value, now)
  {
    if etfs != [] {
      var init := etfs[..|etfs| - 1];
      assert DistinctKeys(init);
      IndexPassKeepsQuoted(init, prices, quote, now);
      var last := etfs[|etfs| - 1];
      if quote(last.0).Some? {
        IndexPassFrame(init, prices, quote, now, ToUpper(last.0));
        var results, kept := IndexPass(etfs, prices, quote, now).1, Kept(etfs, quote);
        var results0, kept0 := IndexPass(init, prices, quote, now).1, Kept(init, quote);
        assert kept == kept0 + [last];
        forall i | 0 <= i < |kept|
          ensures results[i].0 == kept[i].1
          ensures results[i].1 == Merge(PreviousRecord(prices, ToUpper(kept[i].0)), quote(kept[i].0).value, now)
        {
          if i < |kept0| {
            assert results[i] == results0[i] && kept[i] == kept0[i];
          } else {
            var p := IndexPass(init, prices, quote, now).0;
            var key := ToUpper(last.0);
            assert kept[i] == last;
            assert results[i] == (last.1, PricesAfter(p, last.0, quote(last.0).value, now)[key]);
            assert PreviousRecord(p, key) == PreviousRecord(prices, key);
          }
        }
      } else {
        assert Kept(etfs, quote) == Kept(init, quote) + [];
      }
    }
  }

  /**
   * The store's invariant: the key order lists each stored symbol once, every
   * key is in upper case, records and histories share their keys, and every
   * history is within the bound.
   */
  ghost predicate ConsistentStore(order: seq<string>, prices: map<string, Record>, history: map<string, seq<Sample>>)
  {
    && Distinct(order)
    && (forall k :: k in prices <==> k in order)
    && history.Keys == prices.Keys
    && (forall k :: k in prices ==> IsUpperCase(k))
    && (forall k :: k in history ==> |history[k]| <= History.CAPACITY)
  }

  /** The key order after writing `symbol`: a new key goes last. */
  function OrderAfter(order: seq<string>, prices: map<string, Record>, symbol: string): seq<string>
  {
    if ToUpper(symbol) in prices then order else order + [ToUpper(symbol)]
  }

  /** `updatePrice` keeps the store's invariant. */
  lemma UpdateKeepsConsistent(order: seq<string>, prices: map<string, Record>, history: map<string, seq<Sample>>,
                              symbol: string, update: Record, now: Time)
    requires ConsistentStore(order, prices, history)
    ensures ConsistentStore(OrderAfter(order, prices, symbol), PricesAfter(prices, symbol, update, now),
                            HistoryAfter(history, symbol, update, now))
  {
    var key := ToUpper(symbol);
    ToUpperNormalizes(symbol, symbol);
    if key !in prices {
      DistinctSnoc(order, key);
    }
  }

  /** The store's state: key order, records, histories and the invocation log. */
  datatype Snapshot = Snapshot(order: seq<string>, prices: map<string, Record>,
                               history: map<string, seq<Sample>>, delivered: seq<Notification>)

  /** The state after one `updatePrice(symbol, update)` at `now`, with `subs` notified. */
  function StoreAfter(st: Snapshot, subs: seq<SubscriberId>, symbol: string, update: Record, now: Time): Snapshot
  {
    var prices := PricesAfter(st.prices, symbol, update, now);
    Snapshot(OrderAfter(st.order, st.prices, symbol), prices, HistoryAfter(st.history, symbol, update, now),
             st.delivered + Fanout(subs, ToUpper(symbol), prices[ToUpper(symbol)]))
  }

  /**
   * The state after `getMarketIndices` queries `etfs` in order: one
   * `updatePrice` per index whose quote yields an update.
   */
  function IndexStore(etfs: seq<(string, string)>, st: Snapshot, subs: seq<SubscriberId>,
                      quote: string -> Option<Record>, now: Time): Snapshot
  {
    if etfs == [] then st
    else
      var prev := IndexStore(etfs[..|etfs| - 1], st, subs, quote, now);
      var symbol := etfs[|etfs| - 1].0;
      match quote(symbol)
      case None => prev
      case Some(update) => StoreAfter(prev, subs, symbol, update, now)
  }

  /** One more index fund: both folds take one step on its quote. */
  lemma IndexStep(etfs: seq<(string, string)>, e: (string, string), st: Snapshot, subs: seq<SubscriberId>,
                  prices: map<string, Record>, quote: string -> Option<Record>, now: Time)
    ensures IndexStore(etfs + [e], st, subs, quote, now) ==
      match quote(e.0)
      case None => IndexStore(etfs, st, subs, quote, now)
      case Some(update) => StoreAfter(IndexStore(etfs, st, subs, quote, now), subs, e.0, update, now)
    ensures IndexPass(etfs + [e], prices, quote, now) ==
      var (p, results) := IndexPass(etfs, prices, quote, now);
      match quote(e.0)
      case None => (p, results)
      case Some(update) =>
        var p' := PricesAfter(p, e.0, update, now);
        (p', results + [(e.1, p'[ToUpper(e.0)])])
  {
    assert (etfs + [e])[..|etfs|] == etfs;
  }

  /** The records the index round leaves are those of the index pass. */
  lemma {:induction false} IndexStorePrices(etfs: seq<(string, string)>, st: Snapshot, subs: seq<SubscriberId>,
                                            quote: string -> Option<Record>, now: Time)
    ensures IndexStore(etfs, st, subs, quote, now).prices == IndexPass(etfs, st.prices, quote, now).0
  {
    if etfs != [] {
      IndexStorePrices(etfs[..|etfs| - 1], st, subs, quote, now);
    }
  }

  /** The index pass only appends to the invocation log. */
  lemma {:induction false} IndexStoreExtendsLog(etfs: seq<(string, string)>, st: Snapshot, subs: seq<SubscriberId>,
                                                quote: string -> Option<Record>, now: Time)
    ensures st.delivered <= IndexStore(etfs, st, subs, quote, now).delivered
  {
    if etfs != [] {
      IndexStoreExtendsLog(etfs[..|etfs| - 1], st, subs, quote, now);
    }
  }

  /**
   * Every index kept notifies every subscriber once: each registered
   * callback gets one more call per kept index, and any other none.
   */
  lemma {:induction false} IndexStoreNotifies(etfs: seq<(string, string)>, st: Snapshot, subs: seq<SubscriberId>,
                                              quote: string -> Option<Record>, now: Time, x: SubscriberId)
    requires Distinct(subs)
    ensures CallsTo(IndexStore(etfs, st, subs, quote, now).delivered, x)
      == CallsTo(st.delivered, x) + (if x in subs then |Kept(etfs, quote)| else 0)
  {
    if etfs != [] {
      var init := etfs[..|etfs| - 1];
      IndexStoreNotifies(init, st, subs, quote, now, x);
      var prev := IndexStore(init, st, subs, quote, now);
      var last := etfs[|etfs| - 1];
      match quote(last.0)
      case None =>
        assert Kept(etfs, quote) == Kept(init, quote) + [];
      case Some(update) =>
        var after := StoreAfter(prev, subs, last.0, update, now);
        var pass := Fanout(subs, ToUpper(last.0), after.prices[ToUpper(last.0)]);
        CallsToAppend(prev.delivered, pass, x);
        FanoutCallsEachOnce(subs, ToUpper(last.0), after.prices[ToUpper(last.0)], x);
        assert Kept(etfs, quote) == Kept(init, quote) + [last];
    }
  }

  /**
   * With distinct keys, the index pass appends exactly one sample, built from
   * its quote, to the history of every index kept, and leaves the history of
   * an index not kept as it was.
   */
  lemma {:induction false} IndexStoreHistory(etfs: seq<(string, string)>, st: Snapshot, subs: seq<SubscriberId>,
                                             quote: string -> Option<Record>, now: Time, i: nat)
    requires DistinctKeys(etfs)
    requires i < |etfs|
    ensures var key := ToUpper(etfs[i].0);
      var before := PreviousHistory(st.history, key);
      PreviousHistory(IndexStore(etfs, st, subs, quote, now).history, key)
        == match quote(etfs[i].0)
           case None => before
           case Some(update) => History.Push(before, Sample(now, PriceOf(update)))
  {
    var key := ToUpper(etfs[i].0);
    var init := etfs[..|etfs| - 1];
    var last := etfs[|etfs| - 1];
    assert DistinctKeys(init);
    if i == |etfs| - 1 {
      IndexStoreHistoryFrame(init, st, subs, quote, now, key);
    } else {
      assert init[i] == etfs[i];
      IndexStoreHistory(init, st, subs, quote, now, i);
      assert ToUpper(last.0) != key;
    }
  }

  /** The index pass leaves the history of every key outside the indices untouched. */
  lemma {:induction false} IndexStoreHistoryFrame(etfs: seq<(string, string)>, st: Snapshot, subs: seq<SubscriberId>,
                                                  quote: string -> Option<Record>, now: Time, key: string)
    requires forall i :: 0 <= i < |etfs| ==> ToUpper(etfs[i].0) != key
    ensures PreviousHistory(IndexStore(etfs, st, subs, quote, now).history, key) == PreviousHistory(st.history, key)
  {
    if etfs != [] {
      IndexStoreHistoryFrame(etfs[..|etfs| - 1], st, subs, quote, now, key);
    }
  }

  /** The four index symbols are stored under four different keys. */
  lemma IndexEtfsDistinct()
    ensures DistinctKeys(INDEX_ETFS)
  {
    assert ToUpper("SPY")[0] == 'S';
    assert ToUpper("DIA")[0] == 'D';
    assert ToUpper("QQQ")[0] == 'Q';
    assert ToUpper("IWM")[0] == 'I';
  }

  /**
   * `getMarketOverview()` over a store whose key order is `order`: one row
   * per stored symbol, in key order, holding `symbol` and then the record's
   * fields (which win on a clash).
   */
  function Overview(order: seq<string>, prices: map<string, Record>): (rows: seq<Record>)
    requires forall k :: k in order ==> k in prices
    ensures |rows| == |order|
    ensures forall i :: 0 <= i < |rows| ==> rows[i].Keys == prices[order[i]].Keys + {"symbol"}
    ensures forall i, k :: 0 <= i < |rows| && k in prices[order[i]] ==> rows[i][k] == prices[order[i]][k]
    ensures forall i :: 0 <= i < |rows| && "symbol" !in prices[order[i]] ==> rows[i]["symbol"] == Text(order[i])
  {
    seq(|order|, i requires 0 <= i < |order| => map["symbol" := Text(order[i])] + prices[order[i]])
  }

  class MarketService {
    var currentPrices: map<string, Record>
    /** The keys of `currentPrices` in the order `Object.entries` lists them. */
    var symbolOrder: seq<string>
    var priceHistory: map<string, seq<Sample>>
    /** The subscriber `Set`, in insertion order. */
    var subscribers: seq<SubscriberId>
    /** Every callback invocation so far, oldest first. */
    var delivered: seq<Notification>

    ghost predicate Valid()
      reads this
    {
      ConsistentStore(symbolOrder, currentPrices, priceHistory) && Distinct(subscribers)
    }

    /** The current state of the store. */
    function State(): Snapshot
      reads this
    {
      Snapshot(symbolOrder, currentPrices, priceHistory, delivered)
    }

    /** The store left by one `updatePrice(symbol, update)` at time `now`. */
    twostate predicate AppliedUpdate(symbol: string, update: Record, now: Time)
      reads this
    {
      && State() == StoreAfter(old(State()), old(subscribers), symbol, update, now)
      && subscribers == old(subscribers)
    }

    /** The store, as it starts: empty, with no subscribers. (Opening the ticker stream is not modelled.) */
    constructor ()
      ensures Valid()
      ensures currentPrices == map[] && symbolOrder == [] && priceHistory == map[]
      ensures subscribers == [] && delivered == []
    {
      currentPrices, symbolOrder, priceHistory := map[], [], map[];
      subscribers, delivered := [], [];
    }

    /** `updatePrice(symbol, data)`: merge, stamp, append to the history, notify. */
    method UpdatePrice(symbol: string, update: Record, now: Time)
      requires Valid()
      modifies this
      ensures Valid()
      ensures AppliedUpdate(symbol, update, now)
    {
      UpdateKeepsConsistent(symbolOrder, currentPrices, priceHistory, symbol, update, now);
      var key := ToUpper(symbol);
      var order, prices, history := OrderAfter(symbolOrder, currentPrices, symbol),
        PricesAfter(currentPrices, symbol, update, now), HistoryAfter(priceHistory, symbol, update, now);
      symbolOrder, currentPrices, priceHistory := order, prices, history;
      assert ConsistentStore(symbolOrder, currentPrices, priceHistory);
      NotifySubscribers(key, prices[key]);
      assert symbolOrder == order && currentPrices == prices && priceHistory == history;
    }

    /** `notifySubscribers(symbol, data)`: one call per subscriber, in `Set` order. */
    method NotifySubscribers(symbol: string, record: Record)
      modifies this`delivered
      ensures delivered == old(delivered) + Fanout(subscribers, symbol, record)
    {
      var i := 0;
      while i < |subscribers|
        invariant 0 <= i <= |subscribers|
        invariant delivered == old(delivered) + Fanout(subscribers[..i], symbol, record)
      {
        assert subscribers[..i + 1] == subscribers[..i] + [subscribers[i]];
        FanoutAppend(subscribers[..i], [subscribers[i]], symbol, record);
        delivered := delivered + [Notification(subscribers[i], symbol, record)];
        i := i + 1;
      }
      assert subscribers[..i] == subscribers;
    }

    /** `subscribe(callback)`: add to the `Set` and hand back the disposer. */
    method Subscribe(callback: SubscriberId) returns (dispose: Disposer)
      requires Valid()
      modifies this`subscribers
      ensures Valid()
      ensures subscribers == Add(old(subscribers), callback)
      ensures dispose == Disposer(callback)
    {
      subscribers := Add(subscribers, callback);
      dispose := Disposer(callback);
    }

    /** Calling the disposer: `subscribers.delete(callback)`, which reports whether it was there. */
    method Dispose(dispose: Disposer) returns (deleted: bool)
      requires Valid()
      modifies this`subscribers
      ensures Valid()
      ensures deleted <==> dispose.callback in old(subscribers)
      ensures subscribers == Remove(old(subscribers), dispose.callback)
    {
      deleted := dispose.callback in subscribers;
      subscribers := Remove(subscribers, dispose.callback);
    }

    /** The `onmessage` handler for one decoded ticker message. */
    method OnTickerMessage(msg: JsValue, now: Time)
      requires Valid()
      modifies this
      ensures Valid()
      ensures TickerUpdate(msg).None? ==> unchanged(this)
      ensures TickerUpdate(msg).Some? ==> AppliedUpdate(TickerUpdate(msg).value.0, TickerUpdate(msg).value.1, now)
    {
      match TickerUpdate(msg)
      case None =>
      case Some((symbol, update)) => UpdatePrice(symbol, update, now);
    }

    /**
     * `getStockPrice(symbol)` given the outcome of its request (`None` when
     * `fetch` or `json()` rejected). Returns the stored record, looked up
     * under the normalised key (see `StoredAsWritten` for the source's lookup).
     */
    method GetStockPrice(symbol: string, response: Option<JsValue>, now: Time) returns (r: Option<Record>)
      requires Valid()
      modifies this
      ensures Valid()
      ensures QuoteOf(response).None? ==> r.None? && unchanged(this)
      ensures QuoteOf(response).Some? ==>
        && AppliedUpdate(symbol, QuoteOf(response).value, now)
        && r == StoredRecord(currentPrices, symbol)
    {
      match QuoteOf(response)
      case None =>
        r := None;
      case Some(update) =>
        UpdatePrice(symbol, update, now);
        r := StoredRecord(currentPrices, symbol);
    }

    /**
     * `getMarketIndices()` given each ETF's response: quote the four ETFs in
     * order and keep the ones that came back, under their index names.
     */
    method GetMarketIndices(responses: map<string, JsValue>, now: Time) returns (results: seq<(string, Record)>)
      requires Valid()
      modifies this
      ensures Valid()
      ensures State() == IndexStore(INDEX_ETFS, old(State()), old(subscribers), QuotesOf(responses), now)
      ensures results == IndexPass(INDEX_ETFS, old(currentPrices), QuotesOf(responses), now).1
      ensures subscribers == old(subscribers)
    {
      results := [];
      var i := 0;
      while i < |INDEX_ETFS|
        invariant 0 <= i <= |INDEX_ETFS|
        invariant Valid()
        invariant State() == IndexStore(INDEX_ETFS[..i], old(State()), old(subscribers), QuotesOf(responses), now)
        invariant (currentPrices, results) == IndexPass(INDEX_ETFS[..i], old(currentPrices), QuotesOf(responses), now)
        invariant subscribers == old(subscribers)
      {
        var (symbol, name) := INDEX_ETFS[i];
        assert INDEX_ETFS[..i + 1] == INDEX_ETFS[..i] + [INDEX_ETFS[i]];
        IndexStep(INDEX_ETFS[..i], INDEX_ETFS[i], old(State()), old(subscribers), old(currentPrices), QuotesOf(responses), now);
        var data := GetStockPrice(symbol, ResponseFor(responses, symbol), now);
        if data.Some? {
          results := results + [(name, data.value)];
        }
        i := i + 1;
      }
      assert INDEX_ETFS[..i] == INDEX_ETFS;
    }

    /** `getMarketOverview()`; see `Overview`. */
    function GetMarketOverview(): (rows: seq<Record>)
      reads this
      requires Valid()
      ensures |rows| == |symbolOrder|
      ensures forall i :: 0 <= i < |rows| ==> rows[i].Keys == currentPrices[symbolOrder[i]].Keys + {"symbol"}
      ensures forall i, k :: 0 <= i < |rows| && k in currentPrices[symbolOrder[i]] ==> rows[i][k] == currentPrices[symbolOrder[i]][k]
      ensures forall i :: 0 <= i < |rows| && "symbol" !in currentPrices[symbolOrder[i]] ==> rows[i]["symbol"] == Text(symbolOrder[i])
    {
      Overview(symbolOrder, currentPrices)
    }
  }
}
