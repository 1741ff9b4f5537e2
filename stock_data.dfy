/**
 * The quote cache of `StockDataFetcher`: exchange suffixes and cache keys,
 * the time-to-live check with its `timedelta.seconds` reading, the
 * cache-hit and cache-fill paths of the price and history lookups, and the
 * lookup of several companies at once.  The price feed is the parameter
 * `history` and the clock is a single reading `now`, in microseconds.
 */
module StockData {
  import opened Common
  import opened Dicts

  /** One row of a price history, as the feed returns it. */
  datatype Bar = Bar(date: string, close: real, high: real, low: real, volume: real)

  /** The price feed: full ticker and period in, the rows or an exception out. */
  type History = (string, string) -> Outcome<seq<Bar>>

  datatype Quote = Quote(
    ticker: string, currentPrice: real, previousClose: real, change: real,
    changePercent: real, volume: real, dayHigh: real, dayLow: real)

  /** What the cache holds: a quote from `get_stock_price` or a table from `get_historical_data`. */
  datatype Cached = QuoteData(quote: Quote) | HistoryData(rows: seq<Bar>)

  datatype CacheEntry = CacheEntry(data: Cached, timestamp: int)

  const NseSuffix := ".NS"
  const BseSuffix := ".BO"
  const SecondMicros := 1000000
  const DayMicros := 86400 * SecondMicros

  /** The exchange suffix: ".NS" for "NSE" and ".BO" for every other exchange value. */
  function Suffix(exchange: string): (s: string)
    ensures s == NseSuffix <==> exchange == "NSE"
    ensures s == NseSuffix || s == BseSuffix
    ensures |s| == 3
  {
    if exchange == "NSE" then NseSuffix else BseSuffix
  }

  function FullTicker(ticker: string, exchange: string): string
  {
    ticker + Suffix(exchange)
  }

  /** `f"{full_ticker}_price"` */
  function PriceKey(fullTicker: string): string
  {
    fullTicker + "_price"
  }

  /** `f"{full_ticker}_hist_{period}"` */
  function HistoryKey(fullTicker: string, period: string): string
  {
    fullTicker + "_hist_" + period
  }

  /** The ticker a price key was made from, for one exchange. */
  function TickerOfPriceKey(key: string): string
  {
    if |key| >= 9 then key[..|key| - 9] else key
  }

  /** On one exchange, distinct tickers have distinct price keys, and the ticker can be read back from its key. */
  lemma PriceKeyInjective(ticker: string, exchange: string)
    ensures TickerOfPriceKey(PriceKey(FullTicker(ticker, exchange))) == ticker
  {
    var key := PriceKey(FullTicker(ticker, exchange));
    assert key == ticker + (Suffix(exchange) + "_price");
    assert key[..|key| - 9] == ticker;
  }

  /** `timedelta.seconds` of a difference of `delta` microseconds: the seconds within the last, possibly negative, whole day. */
  function TimedeltaSeconds(delta: int): (s: int)
    ensures 0 <= s < 86400
  {
    (delta % DayMicros) / SecondMicros
  }

  /** Whole days of age are invisible to `timedelta.seconds`. */
  lemma {:induction false} WholeDaysIgnored(delta: int, days: int)
    ensures TimedeltaSeconds(delta + days * DayMicros) == TimedeltaSeconds(delta)
  {
    var r := delta % DayMicros;
    var q := delta / DayMicros;
    assert delta + days * DayMicros == (q + days) * DayMicros + r;
  }

  /** An entry one day and ten seconds old reads as ten seconds old. */
  lemma DayOldEntryReadsAsTenSeconds()
    ensures TimedeltaSeconds(DayMicros + 10 * SecondMicros) == 10
  {
    WholeDaysIgnored(10 * SecondMicros, 1);
  }

  /** The quote `get_stock_price` builds from a non-empty two-day history. */
  function QuoteOf(ticker: string, rows: seq<Bar>): (q: Quote)
    requires rows != []
    ensures q.ticker == ticker && q.currentPrice == rows[|rows| - 1].close
    ensures q.previousClose == if |rows| > 1 then rows[|rows| - 2].close else q.currentPrice
    ensures q.currentPrice == q.previousClose + q.change
    ensures q.previousClose == 0.0 ==> q.changePercent == 0.0
    ensures q.previousClose > 0.0 ==> (q.changePercent > 0.0 <==> q.change > 0.0) && (q.changePercent < 0.0 <==> q.change < 0.0)
    ensures |rows| == 1 ==> q.change == 0.0 && q.changePercent == 0.0
  {
    var last := rows[|rows| - 1];
    var current := last.close;
    var previous := if |rows| > 1 then rows[|rows| - 2].close else current;
    var change := current - previous;
    var changePercent := if previous != 0.0 then (change / previous) * 100.0 else 0.0;
    if previous > 0.0 then
      QuotientSign(change, previous);
      Quote(ticker, current, previous, change, changePercent, last.volume, last.high, last.low)
    else
      Quote(ticker, current, previous, change, changePercent, last.volume, last.high, last.low)
  }

  /** Dividing by a positive number and scaling by 100 keeps the sign. */
  lemma QuotientSign(x: real, y: real)
    requires y > 0.0
    ensures (x / y) * 100.0 > 0.0 <==> x > 0.0
    ensures (x / y) * 100.0 < 0.0 <==> x < 0.0
  {
    if x > 0.0 {
      assert x / y > 0.0;
    } else if x < 0.0 {
      assert x / y < 0.0;
    } else {
      assert x / y == 0.0;
    }
  }

  /** The entry at `key` exists and, by `timedelta.seconds`, is younger than `duration` seconds. */
  predicate FreshIn(cache: map<string, CacheEntry>, duration: int, key: string, now: int)
  {
    key in cache && TimedeltaSeconds(now - cache[key].timestamp) < duration
  }

  /**
   * One lookup through the cache: a fresh entry is returned as it is and the
   * cache is left alone; otherwise the fetched data, when there is any, is
   * returned and stored under `key` stamped `now`.
   */
  function Lookup(cache: map<string, CacheEntry>, duration: int, key: string, now: int, fetched: Option<Cached>)
    : (r: (Option<Cached>, map<string, CacheEntry>))
  {
    if FreshIn(cache, duration, key, now) then (Some(cache[key].data), cache)
    else match fetched
      case None => (None, cache)
      case Some(data) => (Some(data), cache[key := CacheEntry(data, now)])
  }

  /** A lookup returns the stored data on a fresh hit; otherwise it returns and caches the fetched data, and caches nothing when the fetch failed. */
  lemma LookupPaths(cache: map<string, CacheEntry>, duration: int, key: string, now: int, fetched: Option<Cached>)
    ensures var (r, cache') := Lookup(cache, duration, key, now, fetched);
      && (FreshIn(cache, duration, key, now) ==> r == Some(cache[key].data) && cache' == cache)
      && (!FreshIn(cache, duration, key, now) && fetched.None? ==> r == None && cache' == cache)
      && (!FreshIn(cache, duration, key, now) && fetched.Some? ==> r == fetched && cache' == cache[key := CacheEntry(fetched.value, now)])
      && (forall k :: k != key ==> (k in cache' <==> k in cache) && (k in cache ==> cache'[k] == cache[k]))
      && (r.Some? <==> FreshIn(cache, duration, key, now) || fetched.Some?)
  {
  }

  /** What a price miss fetches: the quote built from a non-empty two-day history, or nothing. */
  function PriceFetch(ticker: string, exchange: string, history: History): Option<Cached>
  {
    match history(FullTicker(ticker, exchange), "2d")
    case Raised => None
    case Answered(rows) => if rows == [] then None else Some(QuoteData(QuoteOf(ticker, rows)))
  }

  /** What a history miss fetches: the non-empty history for the period, or nothing. */
  function HistoryFetch(ticker: string, period: string, exchange: string, history: History): Option<Cached>
  {
    match history(FullTicker(ticker, exchange), period)
    case Raised => None
    case Answered(rows) => if rows == [] then None else Some(HistoryData(rows))
  }

  /** `get_multiple_stocks` over the first `n` companies: the results so far and the cache after them. */
  function MultipleLookup(cache: map<string, CacheEntry>, duration: int, tickers: Dict<string, string>,
                          exchange: string, now: int, history: History, n: nat)
    : (r: (Dict<string, Cached>, map<string, CacheEntry>))
    requires n <= |tickers|
    ensures DistinctKeys(r.0)
  {
    if n == 0 then ([], cache)
    else
      var (results, cache') := MultipleLookup(cache, duration, tickers, exchange, now, history, n - 1);
      var (company, ticker) := tickers[n - 1];
      var (data, cache'') := Lookup(cache', duration, PriceKey(FullTicker(ticker, exchange)), now, PriceFetch(ticker, exchange, history));
      (if data.Some? then Put(results, company, data.value) else results, cache'')
  }

  class StockDataFetcher {
    var cache: map<string, CacheEntry>
    const cacheDuration: int

    constructor()
      ensures cache == map[] && cacheDuration == 300
    {
      cache := map[];
      cacheDuration := 300;
    }

    /** `_is_cached` */
    predicate IsCached(key: string, now: int)
      reads this
    {
      FreshIn(cache, cacheDuration, key, now)
    }

    /** `_cache_data`: only `key` changes, to the data stamped `now`. */
    method CacheData(key: string, data: Cached, now: int)
      modifies this
      ensures cache == old(cache)[key := CacheEntry(data, now)]
    {
      cache := cache[key := CacheEntry(data, now)];
    }

    /** `get_stock_price` */
    method GetStockPrice(ticker: string, exchange: string, now: int, history: History) returns (r: Option<Cached>)
      modifies this
      ensures (r, cache) == Lookup(old(cache), cacheDuration, PriceKey(FullTicker(ticker, exchange)), now,
                                   PriceFetch(ticker, exchange, history))
    {
      var fullTicker := FullTicker(ticker, exchange);
      var key := PriceKey(fullTicker);
      if IsCached(key, now) {
        return Some(cache[key].data);
      }
      var reply := history(fullTicker, "2d");
      if reply.Raised? || reply.value == [] {
        return None;
      }
      var data := QuoteData(QuoteOf(ticker, reply.value));
      CacheData(key, data, now);
      return Some(data);
    }

    /** `get_historical_data` */
    method GetHistoricalData(ticker: string, period: string, exchange: string, now: int, history: History)
      returns (r: Option<Cached>)
      modifies this
      ensures (r, cache) == Lookup(old(cache), cacheDuration, HistoryKey(FullTicker(ticker, exchange), period), now,
                                   HistoryFetch(ticker, period, exchange, history))
    {
      var fullTicker := FullTicker(ticker, exchange);
      var key := HistoryKey(fullTicker, period);
      if IsCached(key, now) {
        return Some(cache[key].data);
      }
      var reply := history(fullTicker, period);
      if reply.Raised? || reply.value == [] {
        return None;
      }
      var data := HistoryData(reply.value);
      CacheData(key, data, now);
      return Some(data);
    }

    /** `get_multiple_stocks`, with every lookup reading the same clock value `now`. */
    method GetMultipleStocks(tickers: Dict<string, string>, exchange: string, now: int, history: History)
      returns (results: Dict<string, Cached>)
      modifies this
      ensures (results, cache) == MultipleLookup(old(cache), cacheDuration, tickers, exchange, now, history, |tickers|)
    {
      results := [];
      for i := 0 to |tickers|
        invariant (results, cache) == MultipleLookup(old(cache), cacheDuration, tickers, exchange, now, history, i)
      {
        var (company, ticker) := tickers[i];
        var data := GetStockPrice(ticker, exchange, now, history);
        if data.Some? {
          results := Put(results, company, data.value);
        }
      }
    }
  }

  /** The company's price can be served: its entry is fresh in the starting cache, or the feed yields a quote. */
  predicate Available(cache: map<string, CacheEntry>, duration: int, ticker: string, exchange: string, now: int, history: History)
  {
    FreshIn(cache, duration, PriceKey(FullTicker(ticker, exchange)), now) || PriceFetch(ticker, exchange, history).Some?
  }

  /**
   * What the lookups of the first `n` companies leave in the cache: every
   * starting entry is still there, and an entry that changed was stamped
   * `now` with a quote the feed yields for the ticker of its key.
   */
  predicate CacheGrown(cache: map<string, CacheEntry>, cache': map<string, CacheEntry>, exchange: string, now: int, history: History)
  {
    && (forall k :: k in cache ==> k in cache')
    && (forall k :: k in cache' && !(k in cache && cache'[k] == cache[k]) ==>
          cache'[k].timestamp == now
          && k == PriceKey(FullTicker(TickerOfPriceKey(k), exchange))
          && PriceFetch(TickerOfPriceKey(k), exchange, history).Some?)
  }

  lemma {:induction false} MultipleLookupCache(cache: map<string, CacheEntry>, duration: int, tickers: Dict<string, string>,
                                               exchange: string, now: int, history: History, n: nat)
    requires n <= |tickers|
    ensures CacheGrown(cache, MultipleLookup(cache, duration, tickers, exchange, now, history, n).1, exchange, now, history)
  {
    if n > 0 {
      MultipleLookupCache(cache, duration, tickers, exchange, now, history, n - 1);
      var c := MultipleLookup(cache, duration, tickers, exchange, now, history, n - 1).1;
      var ticker := tickers[n - 1].1;
      var key := PriceKey(FullTicker(ticker, exchange));
      LookupPaths(c, duration, key, now, PriceFetch(ticker, exchange, history));
      PriceKeyInjective(ticker, exchange);
    }
  }

  /** Over a grown cache, a company's lookup succeeds exactly when it was available at the start. */
  lemma LookupOnGrownCache(cache: map<string, CacheEntry>, cache': map<string, CacheEntry>, duration: int,
                           ticker: string, exchange: string, now: int, history: History)
    requires duration > 0
    requires CacheGrown(cache, cache', exchange, now, history)
    ensures FreshIn(cache', duration, PriceKey(FullTicker(ticker, exchange)), now) || PriceFetch(ticker, exchange, history).Some?
            <==> Available(cache, duration, ticker, exchange, now, history)
  {
    var key := PriceKey(FullTicker(ticker, exchange));
    PriceKeyInjective(ticker, exchange);
    if key in cache' && !(key in cache && cache'[key] == cache[key]) {
      assert TimedeltaSeconds(now - cache'[key].timestamp) == 0;
    }
    if FreshIn(cache, duration, key, now) {
      assert key in cache';
    }
  }

  /**
   * The companies in the result of `get_multiple_stocks` are exactly the
   * input companies whose price was available: fresh in the cache it
   * started from, or fetchable.
   */
  lemma MultipleStocksKeys(cache: map<string, CacheEntry>, duration: int, tickers: Dict<string, string>,
                            exchange: string, now: int, history: History, n: nat)
    requires n <= |tickers| && duration > 0
    ensures forall company :: company in Keys(MultipleLookup(cache, duration, tickers, exchange, now, history, n).0) <==>
      exists i :: AvailableAt(cache, duration, tickers, exchange, now, history, i, n, company)
  {
    MultipleStocksNames(cache, duration, tickers, exchange, now, history, n);
    AvailableNamesExactly(cache, duration, tickers, exchange, now, history, n);
  }

  /** The names of the first `n` companies whose price was available. */
  function AvailableNames(cache: map<string, CacheEntry>, duration: int, tickers: Dict<string, string>,
                          exchange: string, now: int, history: History, n: nat): set<string>
    requires n <= |tickers|
  {
    if n == 0 then {}
    else
      var before := AvailableNames(cache, duration, tickers, exchange, now, history, n - 1);
      if Available(cache, duration, tickers[n - 1].1, exchange, now, history) then before + {tickers[n - 1].0} else before
  }

  lemma {:induction false} MultipleStocksNames(cache: map<string, CacheEntry>, duration: int, tickers: Dict<string, string>,
                                               exchange: string, now: int, history: History, n: nat)
    requires n <= |tickers| && duration > 0
    ensures Keys(MultipleLookup(cache, duration, tickers, exchange, now, history, n).0)
      == AvailableNames(cache, duration, tickers, exchange, now, history, n)
  {
    if n > 0 {
      MultipleStocksNames(cache, duration, tickers, exchange, now, history, n - 1);
      MultipleStocksStep(cache, duration, tickers, exchange, now, history, n - 1);
    }
  }

  lemma {:induction false} AvailableNamesExactly(cache: map<string, CacheEntry>, duration: int, tickers: Dict<string, string>,
                                                 exchange: string, now: int, history: History, n: nat)
    requires n <= |tickers|
    ensures forall company :: company in AvailableNames(cache, duration, tickers, exchange, now, history, n) <==>
      exists i :: AvailableAt(cache, duration, tickers, exchange, now, history, i, n, company)
  {
    if n > 0 {
      AvailableNamesExactly(cache, duration, tickers, exchange, now, history, n - 1);
      forall company | company in AvailableNames(cache, duration, tickers, exchange, now, history, n)
        ensures exists i :: AvailableAt(cache, duration, tickers, exchange, now, history, i, n, company)
      {
        if company in AvailableNames(cache, duration, tickers, exchange, now, history, n - 1) {
          var i :| AvailableAt(cache, duration, tickers, exchange, now, history, i, n - 1, company);
          assert AvailableAt(cache, duration, tickers, exchange, now, history, i, n, company);
        } else {
          assert AvailableAt(cache, duration, tickers, exchange, now, history, n - 1, n, company);
        }
      }
      forall company | exists i :: AvailableAt(cache, duration, tickers, exchange, now, history, i, n, company)
        ensures company in AvailableNames(cache, duration, tickers, exchange, now, history, n)
      {
        var i :| AvailableAt(cache, duration, tickers, exchange, now, history, i, n, company);
        if i < n - 1 {
          assert AvailableAt(cache, duration, tickers, exchange, now, history, i, n - 1, company);
        }
      }
    }
  }

  /** Company `i`, among the first `n`, is `company` and its price was available. */
  predicate AvailableAt(cache: map<string, CacheEntry>, duration: int, tickers: Dict<string, string>,
                        exchange: string, now: int, history: History, i: int, n: nat, company: string)
  {
    0 <= i < n <= |tickers| && tickers[i].0 == company && Available(cache, duration, tickers[i].1, exchange, now, history)
  }

  /** Looking up company `n` adds its name to the result's keys exactly when its price was available. */
  lemma MultipleStocksStep(cache: map<string, CacheEntry>, duration: int, tickers: Dict<string, string>,
                           exchange: string, now: int, history: History, n: nat)
    requires n < |tickers| && duration > 0
    ensures Keys(MultipleLookup(cache, duration, tickers, exchange, now, history, n + 1).0) ==
      Keys(MultipleLookup(cache, duration, tickers, exchange, now, history, n).0)
      + (if Available(cache, duration, tickers[n].1, exchange, now, history) then {tickers[n].0} else {})
  {
    MultipleLookupCache(cache, duration, tickers, exchange, now, history, n);
    var (results, c) := MultipleLookup(cache, duration, tickers, exchange, now, history, n);
    var (company, ticker) := tickers[n];
    var key := PriceKey(FullTicker(ticker, exchange));
    LookupPaths(c, duration, key, now, PriceFetch(ticker, exchange, history));
    LookupOnGrownCache(cache, c, duration, ticker, exchange, now, history);
    var data := Lookup(c, duration, key, now, PriceFetch(ticker, exchange, history)).0;
    assert data.Some? <==> Available(cache, duration, ticker, exchange, now, history);
    assert MultipleLookup(cache, duration, tickers, exchange, now, history, n + 1).0 ==
      if data.Some? then Put(results, company, data.value) else results;
    if data.Some? {
      PutKeys(results, company, data.value);
    }
  }
}
