/**
 * The hybrid quote merge and refresh service (services/realTimeStockService.ts):
 * static holdings merged with live quotes, a subscriber registry, a single
 * refresh timer and the summary over the merged list.
 */
module RealTime {
  import opened Js
  import opened Text
  import opened Portfolio
  import Seqs

  /** What the service's fetchers resolve to when they produce a quote. */
  datatype LiveQuote = LiveQuote(
    symbol: string,
    currentPrice: real,
    previousClose: real,
    change: real,
    changePercent: Num,
    volume: real,
    marketCap: real,
    peRatio: real,
    earningsPerShare: real,
    dividendYield: real)

  /** The `calculated` block of a merged record. */
  datatype Metrics = Metrics(
    currentCMP: real,
    presentValue: real,
    gainLoss: real,
    gainLossPercent: real,
    portfolioPercentage: real)

  /** A holding row merged with its optional live quote and derived metrics. */
  datatype HybridStock = HybridStock(baseData: StockRecord, liveData: Option<LiveQuote>, calculated: Metrics)

  /** Tickers whose provider symbol is listed explicitly. */
  const SymbolTable: map<string, string> := map[
    "HDFCBANK" := "HDFCBANK.NS",
    "BAJFINANCE" := "BAJFINANCE.NS",
    "ICICIBANK" := "ICICIBANK.NS",
    "DMART" := "DMART.NS",
    "TATACONSUM" := "TATACONSUM.NS",
    "TATAPOWER" := "TATAPOWER.NS",
    "AFFLE" := "AFFLE.NS",
    "LTIM" := "LTIM.NS",
    "KPITTECH" := "KPITTECH.NS",
    "TATATECH" := "TATATECH.NS",
    "TCS" := "TCS.NS",
    "INFY" := "INFY.NS",
    "NESTLEIND" := "NESTLEIND.NS",
    "ASTRAL" := "ASTRAL.NS",
    "POLYCAB" := "POLYCAB.NS",
    "CLEAN" := "CLEAN.NS",
    "SBLIFE" := "SBILIFE.NS"]

  /**
   * The provider ticker for a listing code: the table's entry when there is
   * one, otherwise the code with the NSE suffix. Every ticker names an NSE
   * listing, and only `SBLIFE` is renamed.
   */
  function GetSymbolMapping(code: ListingCode): (r: string)
    ensures EndsWith(r, ".NS")
    ensures r == CodeText(code) + ".NS" <==> CodeText(code) != "SBLIFE"
    ensures CodeText(code) == "SBLIFE" ==> r == "SBILIFE.NS"
  {
    var symbol := CodeText(code);
    SblifeIsTheOnlyRenamedEntry();
    assert (symbol + ".NS")[|symbol|..] == ".NS";
    if symbol in SymbolTable then SymbolTable[symbol] else symbol + ".NS"
  }

  /** Every table entry is its key plus `.NS`, except `SBLIFE`, which maps to `SBILIFE.NS`. */
  lemma SblifeIsTheOnlyRenamedEntry()
    ensures forall k :: k in SymbolTable ==> (SymbolTable[k] == k + ".NS" <==> k != "SBLIFE")
    ensures SymbolTable["SBLIFE"] == "SBILIFE.NS"
  {
  }

  /**
   * The metrics agree with the price they were computed from: present value
   * is price times quantity, gain is present value less investment, and the
   * percentage is the gain relative to a positive investment (0 for none).
   */
  ghost predicate Consistent(m: Metrics, base: StockRecord)
  {
    var investment := OrZero(base.investment);
    && m.presentValue == m.currentCMP * OrZero(base.qty)
    && m.gainLoss == m.presentValue - investment
    && (investment > 0.0 ==> m.gainLossPercent * investment == m.gainLoss * 100.0)
    && (investment == 0.0 ==> m.gainLossPercent == 0.0)
  }

  /**
   * The merged record before any quote: the spreadsheet's `CMP` (0 when
   * absent, with no fallback to the purchase price) is the price, and the
   * percentage is guarded by the truthiness of `Investment`.
   */
  function CreateHybridData(base: StockRecord): (r: HybridStock)
    ensures r.baseData == base && r.liveData == None
    ensures r.calculated.currentCMP == OrZero(base.cmp)
    ensures r.calculated.portfolioPercentage == OrZero(base.portfolioPercent)
    ensures Consistent(r.calculated, base)
    ensures Truthy(base.investment) ==>
              r.calculated.gainLossPercent * base.investment.value == r.calculated.gainLoss * 100.0
    ensures !Truthy(base.investment) ==> r.calculated.gainLossPercent == 0.0
  {
    var cmp := OrZero(base.cmp);
    var presentValue := cmp * OrZero(base.qty);
    var gainLoss := presentValue - OrZero(base.investment);
    HybridStock(base, None, Metrics(
      cmp,
      presentValue,
      gainLoss,
      if Truthy(base.investment) then (presentValue - base.investment.value) / base.investment.value * 100.0 else 0.0,
      OrZero(base.portfolioPercent)))
  }

  /**
   * The merged record after a live quote: the quote's price replaces the
   * current price, the percentage is guarded by `investment > 0`, and the
   * row and its portfolio weight are kept.
   */
  function UpdateHybridData(h: HybridStock, quote: LiveQuote): (r: HybridStock)
    ensures r.baseData == h.baseData && r.liveData == Some(quote)
    ensures r.calculated.currentCMP == quote.currentPrice
    ensures r.calculated.portfolioPercentage == h.calculated.portfolioPercentage
    ensures Consistent(r.calculated, r.baseData)
    ensures OrZero(h.baseData.investment) <= 0.0 ==> r.calculated.gainLossPercent == 0.0
  {
    var currentCMP := quote.currentPrice;
    var qty := OrZero(h.baseData.qty);
    var investment := OrZero(h.baseData.investment);
    h.(liveData := Some(quote),
       calculated := Metrics(
         currentCMP,
         currentCMP * qty,
         currentCMP * qty - investment,
         if investment > 0.0 then (currentCMP * qty - investment) / investment * 100.0 else 0.0,
         h.calculated.portfolioPercentage))
  }

  /** Only the latest quote matters. */
  lemma LatestQuoteWins(h: HybridStock, q1: LiveQuote, q2: LiveQuote)
    ensures UpdateHybridData(UpdateHybridData(h, q1), q2) == UpdateHybridData(h, q2)
  {
  }

  /**
   * A quote at the spreadsheet's own price leaves the metrics as they were,
   * provided the investment is not negative.
   */
  lemma QuoteAtStaticPriceKeepsMetrics(base: StockRecord, quote: LiveQuote)
    requires quote.currentPrice == OrZero(base.cmp)
    requires OrZero(base.investment) >= 0.0
    ensures UpdateHybridData(CreateHybridData(base), quote).calculated == CreateHybridData(base).calculated
  {
  }

  /**
   * With a negative investment the two percentage guards part: the static
   * record divides by it, the live update reports 0, even at the same price.
   */
  lemma NegativeInvestmentGuardsDiffer(base: StockRecord, quote: LiveQuote)
    requires quote.currentPrice == OrZero(base.cmp)
    requires OrZero(base.investment) < 0.0
    requires OrZero(base.cmp) * OrZero(base.qty) != OrZero(base.investment)
    ensures CreateHybridData(base).calculated.gainLossPercent != 0.0
    ensures UpdateHybridData(CreateHybridData(base), quote).calculated.gainLossPercent == 0.0
  {
    var h := CreateHybridData(base);
    var inv := base.investment.value;
    assert h.calculated.gainLoss != 0.0;
    assert h.calculated.gainLossPercent * inv == h.calculated.gainLoss * 100.0;
  }

  /** A holding of 10 shares bought for 10000, quoted at 1100. */
  lemma WorkedExample(base: StockRecord, quote: LiveQuote)
    requires base.qty == Some(10.0) && base.investment == Some(10000.0) && quote.currentPrice == 1100.0
    ensures var m := UpdateHybridData(CreateHybridData(base), quote).calculated;
            m.presentValue == 11000.0 && m.gainLoss == 1000.0 && m.gainLossPercent == 10.0
  {
  }

  /** Without a `CMP` the static price is 0: the whole investment shows as lost. */
  lemma MissingCmpMeansZeroPrice(base: StockRecord)
    requires OrZero(base.cmp) == 0.0 && Truthy(base.investment)
    ensures CreateHybridData(base).calculated.currentCMP == 0.0
    ensures CreateHybridData(base).calculated.gainLoss == -base.investment.value
    ensures CreateHybridData(base).calculated.gainLossPercent == -100.0
  {
    var m := CreateHybridData(base).calculated;
    assert m.gainLossPercent * base.investment.value == -base.investment.value * 100.0;
  }

  /**
   * What one tick's fetches for a stock resolve to: the Yahoo fetch, and the
   * "alternate" fetch, which is a second Yahoo fetch when no Alpha Vantage key
   * is configured and an Alpha Vantage fetch when one is.
   */
  datatype Fetched = Fetched(yahoo: Option<LiveQuote>, yahooAgain: Option<LiveQuote>, alphaVantage: Option<LiveQuote>)

  datatype Provider = YahooChart | AlphaVantage

  datatype Request = Request(provider: Provider, ticker: string)

  /** The requests one tick issues for a stock, in order. */
  function RefreshRequests(stock: HybridStock, hasAlphaKey: bool, f: Fetched): (r: seq<Request>)
    ensures !HasListing(stock.baseData.listing) ==> r == []
    ensures HasListing(stock.baseData.listing) ==>
              var ticker := GetSymbolMapping(stock.baseData.listing.value);
              1 <= |r| <= 2 && r[0] == Request(YahooChart, ticker) &&
              forall i :: 0 <= i < |r| ==> r[i].ticker == ticker
    ensures |r| == 2 <==> HasListing(stock.baseData.listing) && f.yahoo.None?
    ensures (exists i :: 0 <= i < |r| && r[i].provider == AlphaVantage) <==>
              HasListing(stock.baseData.listing) && f.yahoo.None? && hasAlphaKey
  {
    if !HasListing(stock.baseData.listing) then []
    else
      var ticker := GetSymbolMapping(stock.baseData.listing.value);
      if f.yahoo.Some? then [Request(YahooChart, ticker)]
      else
        var r := [Request(YahooChart, ticker), Request(if hasAlphaKey then AlphaVantage else YahooChart, ticker)];
        assert r[1].provider == AlphaVantage <==> hasAlphaKey;
        r
  }

  /**
   * The quote a tick applies to a stock: none without a listing code, the
   * Yahoo quote when there is one, otherwise the alternate fetch's.
   */
  function TickQuote(stock: HybridStock, hasAlphaKey: bool, f: Fetched): (r: Option<LiveQuote>)
    ensures !HasListing(stock.baseData.listing) ==> r.None?
    ensures HasListing(stock.baseData.listing) && f.yahoo.Some? ==> r == f.yahoo
    ensures r.Some? ==> r == f.yahoo || r == (if hasAlphaKey then f.alphaVantage else f.yahooAgain)
    ensures r.None? ==> !HasListing(stock.baseData.listing) || (f.yahoo.None? && (if hasAlphaKey then f.alphaVantage else f.yahooAgain).None?)
  {
    if !HasListing(stock.baseData.listing) then None
    else if f.yahoo.Some? then f.yahoo
    else if hasAlphaKey then f.alphaVantage
    else f.yahooAgain
  }

  /**
   * One stock after a tick: unchanged without a quote, otherwise updated
   * with it; the row and portfolio weight always survive and consistent
   * metrics stay consistent.
   */
  function RefreshStock(stock: HybridStock, hasAlphaKey: bool, f: Fetched): (r: HybridStock)
    ensures r.baseData == stock.baseData
    ensures r.calculated.portfolioPercentage == stock.calculated.portfolioPercentage
    ensures TickQuote(stock, hasAlphaKey, f).None? ==> r == stock
    ensures TickQuote(stock, hasAlphaKey, f).Some? ==> r == UpdateHybridData(stock, TickQuote(stock, hasAlphaKey, f).value)
    ensures Consistent(stock.calculated, stock.baseData) ==> Consistent(r.calculated, r.baseData)
  {
    var quote := TickQuote(stock, hasAlphaKey, f);
    if quote.Some? then UpdateHybridData(stock, quote.value) else stock
  }

  /**
   * One tick over the list captured when the timer was installed: the same
   * stocks in the same order, each refreshed from its own fetches.
   */
  function RefreshTick(captured: seq<HybridStock>, hasAlphaKey: bool, fetched: seq<Fetched>): (r: seq<HybridStock>)
    requires |fetched| == |captured|
    ensures |r| == |captured|
    ensures forall i :: 0 <= i < |r| ==> r[i] == RefreshStock(captured[i], hasAlphaKey, fetched[i])
    ensures forall i :: 0 <= i < |r| ==> r[i].baseData == captured[i].baseData
  {
    seq(|captured|, i requires 0 <= i < |captured| => RefreshStock(captured[i], hasAlphaKey, fetched[i]))
  }

  ghost predicate AllConsistent(stocks: seq<HybridStock>)
  {
    forall i :: 0 <= i < |stocks| ==> Consistent(stocks[i].calculated, stocks[i].baseData)
  }

  /** A tick keeps every stock's metrics consistent. */
  lemma TickKeepsConsistency(captured: seq<HybridStock>, hasAlphaKey: bool, fetched: seq<Fetched>)
    requires |fetched| == |captured| && AllConsistent(captured)
    ensures AllConsistent(RefreshTick(captured, hasAlphaKey, fetched))
  {
    var r := RefreshTick(captured, hasAlphaKey, fetched);
    forall i | 0 <= i < |r| ensures Consistent(r[i].calculated, r[i].baseData) {
      assert Consistent(captured[i].calculated, captured[i].baseData);
    }
  }

  /** A tick in which no fetch produced a quote publishes the captured list unchanged. */
  lemma TickWithoutQuotesChangesNothing(captured: seq<HybridStock>, hasAlphaKey: bool, fetched: seq<Fetched>)
    requires |fetched| == |captured|
    requires forall i :: 0 <= i < |fetched| ==>
               fetched[i].yahoo.None? && fetched[i].yahooAgain.None? && fetched[i].alphaVantage.None?
    ensures RefreshTick(captured, hasAlphaKey, fetched) == captured
  {
    var r := RefreshTick(captured, hasAlphaKey, fetched);
    assert forall i :: 0 <= i < |r| ==> r[i] == captured[i];
  }

  function HybridInvestment(h: HybridStock): real { OrZero(h.baseData.investment) }

  function HybridPresentValue(h: HybridStock): real { h.calculated.presentValue }

  /** Totals over the merged list: investments from the rows, present values from the metrics. */
  function GetPortfolioSummary(stocks: seq<HybridStock>): (r: Summary)
    ensures r.totalStocks == |stocks|
    ensures r.totalInvestment == Seqs.Sum(stocks, HybridInvestment)
    ensures r.totalPresentValue == Seqs.Sum(stocks, HybridPresentValue)
  {
    SummaryOf(|stocks|, Seqs.Sum(stocks, HybridInvestment), Seqs.Sum(stocks, HybridPresentValue))
  }

  /** With consistent metrics the total gain is the sum of the stocks' gains. */
  lemma SummaryGainIsSumOfGains(stocks: seq<HybridStock>)
    requires AllConsistent(stocks)
    ensures GetPortfolioSummary(stocks).totalGainLoss == Seqs.Sum(stocks, (h: HybridStock) => h.calculated.gainLoss)
  {
    forall i | 0 <= i < |stocks|
      ensures stocks[i].calculated.gainLoss == HybridPresentValue(stocks[i]) - HybridInvestment(stocks[i])
    {
      assert Consistent(stocks[i].calculated, stocks[i].baseData);
    }
    Seqs.SumDifference(stocks, HybridPresentValue, HybridInvestment, (h: HybridStock) => h.calculated.gainLoss);
  }

  /** A tick does not move the total investment: only prices change. */
  lemma TickKeepsTotalInvestment(captured: seq<HybridStock>, hasAlphaKey: bool, fetched: seq<Fetched>)
    requires |fetched| == |captured|
    ensures GetPortfolioSummary(RefreshTick(captured, hasAlphaKey, fetched)).totalInvestment ==
            GetPortfolioSummary(captured).totalInvestment
  {
    var r := RefreshTick(captured, hasAlphaKey, fetched);
    Seqs.SumPointwise(r, HybridInvestment, captured, HybridInvestment);
  }

  /** A timer handle returned by `setInterval`. */
  type TimerHandle = nat

  /** A subscriber callback, compared by identity. */
  datatype Callback = Callback(id: nat)

  /** One invocation of a subscriber with a published list. */
  datatype Delivery = Delivery(callback: Callback, data: seq<HybridStock>)

  /** Removing a callback that was appended last, and not registered before, restores the list. */
  lemma {:induction false} UnsubscribeUndoesSubscribe(subscribers: seq<Callback>, callback: Callback)
    requires callback !in subscribers
    ensures Seqs.Filter(subscribers + [callback], c => c != callback) == subscribers
  {
    Seqs.FilterConcat(subscribers, [callback], c => c != callback);
    Seqs.FilterKeepsAll(subscribers, c => c != callback);
  }

  class RealTimeStockService {
    /** Registered callbacks, in registration order. */
    var subscribers: seq<Callback>
    /** The installed refresh interval, if any. */
    var updateInterval: Option<TimerHandle>
    /** The list the installed interval's closure captured. */
    var tickData: seq<HybridStock>
    /** The intervals the JavaScript runtime would still fire. */
    ghost var scheduled: set<TimerHandle>

    /** The runtime fires exactly the interval the service holds, so at most one. */
    ghost predicate Valid()
      reads this
      ensures Valid() ==> |scheduled| <= 1
    {
      scheduled == if updateInterval.Some? then {updateInterval.value} else {}
    }

    constructor ()
      ensures Valid()
      ensures subscribers == [] && updateInterval == None && tickData == []
    {
      subscribers := [];
      updateInterval := None;
      tickData := [];
      scheduled := {};
    }

    /** Appends `callback` to the registry. */
    method Subscribe(callback: Callback)
      modifies this`subscribers
      ensures subscribers == old(subscribers) + [callback]
    {
      subscribers := subscribers + [callback];
    }

    /**
     * The function `subscribe` returns: removes every registration of
     * `callback` and keeps the others in their order.
     */
    method Unsubscribe(callback: Callback)
      modifies this`subscribers
      ensures subscribers == Seqs.Filter(old(subscribers), c => c != callback)
      ensures callback !in subscribers
      ensures forall c :: c != callback ==> (c in subscribers <==> c in old(subscribers))
    {
      subscribers := Seqs.Filter(subscribers, c => c != callback);
    }

    /** Calls every registered callback once, in registration order, with `data`. */
    method NotifySubscribers(data: seq<HybridStock>) returns (deliveries: seq<Delivery>)
      ensures |deliveries| == |subscribers|
      ensures forall i :: 0 <= i < |subscribers| ==> deliveries[i] == Delivery(subscribers[i], data)
    {
      deliveries := [];
      var i := 0;
      while i < |subscribers|
        invariant 0 <= i <= |subscribers|
        invariant |deliveries| == i
        invariant forall k :: 0 <= k < i ==> deliveries[k] == Delivery(subscribers[k], data)
      {
        deliveries := deliveries + [Delivery(subscribers[i], data)];
        i := i + 1;
      }
    }

    /**
     * Clears the interval already installed, if any (`cleared`), then
     * installs `handle`, fresh from `setInterval`, ticking over `hybridData`.
     */
    method StartRealTimeUpdates(hybridData: seq<HybridStock>, handle: TimerHandle) returns (cleared: Option<TimerHandle>)
      requires Valid() && handle !in scheduled
      modifies this`updateInterval, this`tickData, this`scheduled
      ensures Valid()
      ensures cleared == old(updateInterval)
      ensures updateInterval == Some(handle) && scheduled == {handle}
      ensures tickData == hybridData
    {
      cleared := updateInterval;
      if updateInterval.Some? {
        scheduled := scheduled - {updateInterval.value};
      }
      scheduled := scheduled + {handle};
      updateInterval := Some(handle);
      tickData := hybridData;
    }

    /** Clears the installed interval, if any (`cleared`); nothing is scheduled afterwards. */
    method StopRealTimeUpdates() returns (cleared: Option<TimerHandle>)
      requires Valid()
      modifies this`updateInterval, this`scheduled
      ensures Valid()
      ensures cleared == old(updateInterval)
      ensures updateInterval == None && scheduled == {}
    {
      cleared := updateInterval;
      if updateInterval.Some? {
        scheduled := scheduled - {updateInterval.value};
        updateInterval := None;
      }
    }

    /**
     * One firing of the installed interval: refreshes the captured list from
     * this tick's fetches and publishes it to the current subscribers.
     */
    method Tick(hasAlphaKey: bool, fetched: seq<Fetched>) returns (published: seq<HybridStock>, deliveries: seq<Delivery>)
      requires updateInterval.Some? && |fetched| == |tickData|
      ensures published == RefreshTick(tickData, hasAlphaKey, fetched)
      ensures |deliveries| == |subscribers|
      ensures forall i :: 0 <= i < |subscribers| ==> deliveries[i] == Delivery(subscribers[i], published)
    {
      published := RefreshTick(tickData, hasAlphaKey, fetched);
      deliveries := NotifySubscribers(published);
    }
  }
}
