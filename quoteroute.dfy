/**
 * The real-time quote route (app/api/yahoo-finance/route.ts): the Yahoo
 * chart API, then Alpha Vantage (only with a key), then the Yahoo quote API;
 * the first source that answers decides the response.
 *
 * Each upstream call is an input: the exception it raised, or its `ok` flag
 * and the decoded JSON payload.
 */
module QuoteRoute {
  import opened Js
  import opened Text
  import opened Problems

  datatype Fetch<P> = Threw(message: string) | Responded(ok: bool, payload: P)

  /** The fields of `chart.result[0].meta` the route reads. */
  datatype ChartMeta = ChartMeta(
    regularMarketPrice: real,
    previousClose: real,
    marketCap: Option<real>,
    trailingPE: Option<real>,
    trailingEps: Option<real>,
    dividendYield: Option<real>)

  /** One `chart.result` entry: its meta block and `indicators.quote[0].volume`. */
  datatype ChartResult = ChartResult(meta: ChartMeta, volume: seq<Option<real>>)

  /** `chart.result`, absent when the chart block or its result is missing. */
  datatype ChartPayload = ChartPayload(result: Option<seq<ChartResult>>)

  /** The text fields of Alpha Vantage's `Global Quote`. */
  datatype GlobalQuote = GlobalQuote(
    price: Option<string>,
    previousClose: string,
    change: string,
    changePercent: string,
    volume: string)

  datatype AlphaPayload = AlphaPayload(globalQuote: Option<GlobalQuote>)

  /** One `quoteResponse.result` entry of the Yahoo quote API. */
  datatype QuoteResult = QuoteResult(
    regularMarketPrice: real,
    regularMarketPreviousClose: real,
    regularMarketVolume: Option<real>,
    marketCap: Option<real>,
    trailingPE: Option<real>,
    trailingEps: Option<real>,
    dividendYield: Option<real>)

  datatype QuotePayload = QuotePayload(result: Option<seq<QuoteResult>>)

  datatype Source = ChartApi | AlphaVantageApi | QuoteApi

  /** The JSON quote the route answers with (timestamps left out). */
  datatype Quote = Quote(
    symbol: string,
    currentPrice: Num,
    previousClose: Num,
    change: Num,
    changePercent: Num,
    volume: Num,
    marketCap: real,
    peRatio: real,
    earningsPerShare: real,
    dividendYield: real,
    source: string)

  /**
   * A quote with status 200, or an error body: the problem determines its
   * status, `error` and `message` fields, and `symbol` echoes the request.
   */
  datatype Response =
    | Success(quote: Quote)
    | Failure(problem: Problem, symbol: Option<string>)

  /** The response and the upstream sources contacted, in order. */
  datatype Handled = Handled(response: Response, contacted: seq<Source>)

  /** What one source contributes: a quote, nothing (try the next), or an exception. */
  datatype Stage = Answered(quote: Quote) | FellThrough | Aborted(message: string)

  const MissingSymbol := Failure(SymbolRequired, None)

  function AllSourcesFailed(symbol: string): Response
  {
    Failure(NoSourceAnswered, Some(symbol))
  }

  function InternalError(symbol: string, message: string): Response
  {
    Failure(Exception(message), Some(symbol))
  }

  function SourceLabel(src: Source): string
  {
    match src
    case ChartApi => "Yahoo Finance"
    case AlphaVantageApi => "Alpha Vantage"
    case QuoteApi => "Yahoo Finance Quote"
  }

  /** The three success labels are distinct, so a quote names the source that answered. */
  lemma SourceLabelsDistinct(a: Source, b: Source)
    ensures SourceLabel(a) == SourceLabel(b) <==> a == b
  {
    if a != b {
      assert SourceLabel(a)[0] != SourceLabel(b)[0] || |SourceLabel(a)| != |SourceLabel(b)|;
    }
  }

  /**
   * The chart normalisation: price and previous close as given, the change
   * between them, the change as a percentage of the previous close, the last
   * volume entry (or 0) and the optional ratios defaulting to 0.
   */
  function ChartQuote(symbol: string, entry: ChartResult): (q: Quote)
    ensures q.symbol == symbol && q.source == SourceLabel(ChartApi)
    ensures q.currentPrice == Finite(entry.meta.regularMarketPrice)
    ensures q.previousClose == Finite(entry.meta.previousClose)
    ensures q.change.Finite? && q.previousClose.value + q.change.value == q.currentPrice.value
    ensures q.changePercent.Finite? <==> entry.meta.previousClose != 0.0
    ensures q.changePercent.Finite? ==>
              q.changePercent.value * entry.meta.previousClose == q.change.value * 100.0
    ensures entry.volume == [] ==> q.volume == Finite(0.0)
    ensures entry.volume != [] ==> q.volume == Finite(OrZero(entry.volume[|entry.volume| - 1]))
    ensures q.marketCap == OrZero(entry.meta.marketCap) && q.peRatio == OrZero(entry.meta.trailingPE)
    ensures q.earningsPerShare == OrZero(entry.meta.trailingEps) && q.dividendYield == OrZero(entry.meta.dividendYield)
  {
    var meta := entry.meta;
    var v := entry.volume;
    Quote(
      symbol,
      Finite(meta.regularMarketPrice),
      Finite(meta.previousClose),
      Finite(meta.regularMarketPrice - meta.previousClose),
      Percent(meta.regularMarketPrice - meta.previousClose, meta.previousClose),
      Finite(if |v| > 0 then OrZero(v[|v| - 1]) else 0.0),
      OrZero(meta.marketCap),
      OrZero(meta.trailingPE),
      OrZero(meta.trailingEps),
      OrZero(meta.dividendYield),
      "Yahoo Finance")
  }

  /** The chart quote's percentage applied to the previous close gives back the price. */
  lemma ChartPercentReconstructsPrice(symbol: string, entry: ChartResult)
    requires entry.meta.previousClose != 0.0
    ensures var q := ChartQuote(symbol, entry);
            entry.meta.previousClose * (1.0 + q.changePercent.value / 100.0) == entry.meta.regularMarketPrice
  {
    var q := ChartQuote(symbol, entry);
    var prev := entry.meta.previousClose;
    calc {
      prev * (1.0 + q.changePercent.value / 100.0);
      prev + q.changePercent.value * prev / 100.0;
      prev + q.change.value;
      entry.meta.regularMarketPrice;
    }
  }

  /** The Alpha Vantage normalisation: every field parsed from its text, the `%` sign dropped first. */
  function AlphaQuote(symbol: string, g: GlobalQuote): (q: Quote)
    requires g.price.Some?
    ensures q.symbol == symbol && q.source == SourceLabel(AlphaVantageApi)
    ensures q.currentPrice == FromParse(ParseFloat(g.price.value))
    ensures q.previousClose == FromParse(ParseFloat(g.previousClose))
    ensures q.change == FromParse(ParseFloat(g.change))
    ensures q.changePercent == FromParse(ParseFloat(RemoveFirst(g.changePercent, "%")))
    ensures q.volume.Finite? <==> ParseInt(g.volume).Some?
    ensures q.volume.Finite? ==> q.volume.value == ParseInt(g.volume).value as real
    ensures q.marketCap == 0.0 && q.peRatio == 0.0 && q.earningsPerShare == 0.0 && q.dividendYield == 0.0
  {
    var volume := ParseInt(g.volume);
    Quote(
      symbol,
      FromParse(ParseFloat(g.price.value)),
      FromParse(ParseFloat(g.previousClose)),
      FromParse(ParseFloat(g.change)),
      FromParse(ParseFloat(RemoveFirst(g.changePercent, "%"))),
      if volume.Some? then Finite(volume.value as real) else NonFinite,
      0.0, 0.0, 0.0, 0.0,
      "Alpha Vantage")
  }

  /** A percentage written as an integer followed by `%` reads back as that integer. */
  lemma AlphaPercentTextRoundTrip(n: int)
    ensures ParseFloat(RemoveFirst(IntToText(n) + "%", "%")) == Some(n as real)
  {
    var d := IntToText(n);
    assert '%' !in d by {
      if n < 0 {
        assert forall i :: 1 <= i < |d| ==> d[i] == NatToText(-n)[i - 1];
      }
    }
    var s := d + "%";
    assert s == d + "%" + [];
    IndexOfAfterFreePrefix(d, "%", []);
    var r := RemoveFirst(s, "%");
    assert s == r[..|d|] + "%" + r[|d|..];
    assert r == d by {
      assert |r| == |d|;
      assert r[..|d|] == s[..|d|] == d;
    }
    IntTextRoundTrip(n);
  }

  /** The quote API normalisation, which mirrors the chart one with its own field names. */
  function QuoteApiQuote(symbol: string, entry: QuoteResult): (q: Quote)
    ensures q.symbol == symbol && q.source == SourceLabel(QuoteApi)
    ensures q.currentPrice == Finite(entry.regularMarketPrice)
    ensures q.previousClose == Finite(entry.regularMarketPreviousClose)
    ensures q.change.Finite? && q.previousClose.value + q.change.value == q.currentPrice.value
    ensures q.changePercent.Finite? <==> entry.regularMarketPreviousClose != 0.0
    ensures q.changePercent.Finite? ==>
              q.changePercent.value * entry.regularMarketPreviousClose == q.change.value * 100.0
    ensures q.volume == Finite(OrZero(entry.regularMarketVolume))
    ensures q.marketCap == OrZero(entry.marketCap) && q.peRatio == OrZero(entry.trailingPE)
    ensures q.earningsPerShare == OrZero(entry.trailingEps) && q.dividendYield == OrZero(entry.dividendYield)
  {
    Quote(
      symbol,
      Finite(entry.regularMarketPrice),
      Finite(entry.regularMarketPreviousClose),
      Finite(entry.regularMarketPrice - entry.regularMarketPreviousClose),
      Percent(entry.regularMarketPrice - entry.regularMarketPreviousClose, entry.regularMarketPreviousClose),
      Finite(OrZero(entry.regularMarketVolume)),
      OrZero(entry.marketCap),
      OrZero(entry.trailingPE),
      OrZero(entry.trailingEps),
      OrZero(entry.dividendYield),
      "Yahoo Finance Quote")
  }

  /** The chart API answers when the response is ok and `chart.result` is non-empty. */
  function ChartStage(symbol: string, f: Fetch<ChartPayload>): (st: Stage)
    ensures st.Answered? <==> f.Responded? && f.ok && f.payload.result.Some? && f.payload.result.value != []
    ensures st.Answered? ==> st.quote == ChartQuote(symbol, f.payload.result.value[0])
    ensures st.Aborted? <==> f.Threw?
    ensures st.Aborted? ==> st.message == f.message
  {
    match f
    case Threw(m) => Aborted(m)
    case Responded(ok, p) =>
      if ok && p.result.Some? && |p.result.value| > 0 then Answered(ChartQuote(symbol, p.result.value[0]))
      else FellThrough
  }

  /** Alpha Vantage answers when the response is ok and the quote has a non-empty price. */
  function AlphaStage(symbol: string, f: Fetch<AlphaPayload>): (st: Stage)
    ensures st.Answered? <==>
              f.Responded? && f.ok && f.payload.globalQuote.Some? &&
              f.payload.globalQuote.value.price.Some? && f.payload.globalQuote.value.price.value != ""
    ensures st.Answered? ==> st.quote == AlphaQuote(symbol, f.payload.globalQuote.value)
    ensures st.Aborted? <==> f.Threw?
    ensures st.Aborted? ==> st.message == f.message
  {
    match f
    case Threw(m) => Aborted(m)
    case Responded(ok, p) =>
      if ok && p.globalQuote.Some? && p.globalQuote.value.price.Some? && p.globalQuote.value.price.value != "" then
        Answered(AlphaQuote(symbol, p.globalQuote.value))
      else FellThrough
  }

  /** The quote API answers when the response is ok and `quoteResponse.result` is non-empty. */
  function QuoteApiStage(symbol: string, f: Fetch<QuotePayload>): (st: Stage)
    ensures st.Answered? <==> f.Responded? && f.ok && f.payload.result.Some? && f.payload.result.value != []
    ensures st.Answered? ==> st.quote == QuoteApiQuote(symbol, f.payload.result.value[0])
    ensures st.Aborted? <==> f.Threw?
    ensures st.Aborted? ==> st.message == f.message
  {
    match f
    case Threw(m) => Aborted(m)
    case Responded(ok, p) =>
      if ok && p.result.Some? && |p.result.value| > 0 then Answered(QuoteApiQuote(symbol, p.result.value[0]))
      else FellThrough
  }

  /** The sources in the order the route may try them: Alpha Vantage only with a key. */
  function Attempts(hasAlphaKey: bool): (order: seq<Source>)
    ensures |order| >= 2 && order[0] == ChartApi && order[|order| - 1] == QuoteApi
    ensures AlphaVantageApi in order <==> hasAlphaKey
  {
    if hasAlphaKey then [ChartApi, AlphaVantageApi, QuoteApi] else [ChartApi, QuoteApi]
  }

  /** The contribution of a source, given what each of the three contributes. */
  function Pick(src: Source, c: Stage, a: Stage, q: Stage): Stage
  {
    match src
    case ChartApi => c
    case AlphaVantageApi => a
    case QuoteApi => q
  }

  /** What a source would contribute for this request. */
  function StageOf(src: Source, symbol: string, chart: Fetch<ChartPayload>, alpha: Fetch<AlphaPayload>,
                   quotes: Fetch<QuotePayload>): Stage
  {
    Pick(src, ChartStage(symbol, chart), AlphaStage(symbol, alpha), QuoteApiStage(symbol, quotes))
  }

  /** How a decisive stage becomes the response. */
  function Settle(symbol: string, st: Stage, contacted: seq<Source>): Handled
    requires !st.FellThrough?
  {
    Handled(if st.Answered? then Success(st.quote) else InternalError(symbol, st.message), contacted)
  }

  predicate IsMissing(symbol: Option<string>) { symbol.None? || symbol.value == "" }

  /**
   * The route's control flow for a given symbol, over what the chart API,
   * Alpha Vantage and the quote API contribute: the first of them that does
   * not fall through settles the response; Alpha Vantage only with a key.
   */
  function Decide(symbol: string, hasAlphaKey: bool, c: Stage, a: Stage, q: Stage): Handled
  {
    if !c.FellThrough? then Settle(symbol, c, [ChartApi])
    else
      var a' := if hasAlphaKey then a else FellThrough;
      var tried := if hasAlphaKey then [ChartApi, AlphaVantageApi] else [ChartApi];
      if !a'.FellThrough? then Settle(symbol, a', tried)
      else if !q.FellThrough? then Settle(symbol, q, tried + [QuoteApi])
      else Handled(AllSourcesFailed(symbol), tried + [QuoteApi])
  }

  /**
   * `GET /api/yahoo-finance?symbol=…`. A missing symbol is rejected before any
   * source is contacted; every success carries the contacted symbol and the
   * label of the last source contacted.
   */
  function Get(symbol: Option<string>, hasAlphaKey: bool, chart: Fetch<ChartPayload>, alpha: Fetch<AlphaPayload>,
               quotes: Fetch<QuotePayload>): (r: Handled)
    ensures IsMissing(symbol) <==> r.contacted == []
    ensures IsMissing(symbol) ==> r.response == MissingSymbol
    ensures r.response.Success? ==>
              r.contacted != [] && r.response.quote.symbol == symbol.value &&
              r.response.quote.source == SourceLabel(r.contacted[|r.contacted| - 1])
  {
    if IsMissing(symbol) then Handled(MissingSymbol, [])
    else
      var s := symbol.value;
      Decide(s, hasAlphaKey, ChartStage(s, chart), AlphaStage(s, alpha), QuoteApiStage(s, quotes))
  }

  /** Over any stages: the sources contacted are a non-empty prefix of the order, all but the last fell through. */
  lemma DecideContactsPrefix(symbol: string, hasAlphaKey: bool, c: Stage, a: Stage, q: Stage)
    ensures var r := Decide(symbol, hasAlphaKey, c, a, q);
            var order := Attempts(hasAlphaKey);
            && 0 < |r.contacted| <= |order| && r.contacted == order[..|r.contacted|]
            && forall i :: 0 <= i < |r.contacted| - 1 ==> Pick(order[i], c, a, q).FellThrough?
  {
    var order := Attempts(hasAlphaKey);
    if !c.FellThrough? {
      assert order[..1] == [ChartApi];
    } else if hasAlphaKey && !a.FellThrough? {
      assert order[..2] == [ChartApi, AlphaVantageApi];
    } else {
      assert order[..|order|] == order;
    }
  }

  /** Over any stages: the last source contacted settles the response. */
  lemma DecideLastSettles(symbol: string, hasAlphaKey: bool, c: Stage, a: Stage, q: Stage)
    ensures var r := Decide(symbol, hasAlphaKey, c, a, q);
            && r.contacted != []
            && var last := Pick(r.contacted[|r.contacted| - 1], c, a, q);
            && (last.Answered? ==> r.response == Success(last.quote))
            && (last.Aborted? ==> r.response == InternalError(symbol, last.message))
            && (last.FellThrough? ==> r.contacted == Attempts(hasAlphaKey) && r.response == AllSourcesFailed(symbol))
  {
    if !c.FellThrough? {
      assert Decide(symbol, hasAlphaKey, c, a, q) == Settle(symbol, c, [ChartApi]);
    } else if hasAlphaKey && !a.FellThrough? {
      assert Decide(symbol, hasAlphaKey, c, a, q) == Settle(symbol, a, [ChartApi, AlphaVantageApi]);
    }
  }

  /** The sources contacted are a non-empty prefix of the fixed order. */
  lemma ContactedIsPrefix(symbol: string, hasAlphaKey: bool, chart: Fetch<ChartPayload>,
                          alpha: Fetch<AlphaPayload>, quotes: Fetch<QuotePayload>)
    requires symbol != ""
    ensures var r := Get(Some(symbol), hasAlphaKey, chart, alpha, quotes);
            var order := Attempts(hasAlphaKey);
            0 < |r.contacted| <= |order| && r.contacted == order[..|r.contacted|]
  {
    DecideContactsPrefix(symbol, hasAlphaKey, ChartStage(symbol, chart), AlphaStage(symbol, alpha),
                         QuoteApiStage(symbol, quotes));
  }

  /** Every source contacted before the last one fell through. */
  lemma EarlierSourcesFellThrough(symbol: string, hasAlphaKey: bool, chart: Fetch<ChartPayload>,
                                  alpha: Fetch<AlphaPayload>, quotes: Fetch<QuotePayload>)
    requires symbol != ""
    ensures var r := Get(Some(symbol), hasAlphaKey, chart, alpha, quotes);
            forall i :: 0 <= i < |r.contacted| - 1 ==> StageOf(r.contacted[i], symbol, chart, alpha, quotes).FellThrough?
  {
    DecideContactsPrefix(symbol, hasAlphaKey, ChartStage(symbol, chart), AlphaStage(symbol, alpha),
                         QuoteApiStage(symbol, quotes));
  }

  /**
   * The last source contacted decides the response: its quote, or an
   * internal error with its exception's message; when even it fell through,
   * every source was contacted and the response is the all-sources error.
   */
  lemma LastContactedDecides(symbol: string, hasAlphaKey: bool, chart: Fetch<ChartPayload>,
                             alpha: Fetch<AlphaPayload>, quotes: Fetch<QuotePayload>)
    requires symbol != ""
    ensures var r := Get(Some(symbol), hasAlphaKey, chart, alpha, quotes);
            && r.contacted != []
            && var last := StageOf(r.contacted[|r.contacted| - 1], symbol, chart, alpha, quotes);
            && (last.Answered? ==> r.response == Success(last.quote))
            && (last.Aborted? ==> r.response == InternalError(symbol, last.message))
            && (last.FellThrough? ==> r.contacted == Attempts(hasAlphaKey) && r.response == AllSourcesFailed(symbol))
  {
    DecideLastSettles(symbol, hasAlphaKey, ChartStage(symbol, chart), AlphaStage(symbol, alpha),
                      QuoteApiStage(symbol, quotes));
  }

  /**
   * The first source (in the fixed order) that does not fall through decides
   * the response: its quote, or an internal error with its exception's
   * message; the sources before it fell through and none after it is
   * contacted. When every source falls through, all were contacted and the
   * response is the all-sources error.
   */
  lemma FirstDecisiveSourceDecides(symbol: string, hasAlphaKey: bool, chart: Fetch<ChartPayload>,
                                   alpha: Fetch<AlphaPayload>, quotes: Fetch<QuotePayload>)
    requires symbol != ""
    ensures var r := Get(Some(symbol), hasAlphaKey, chart, alpha, quotes);
            var order := Attempts(hasAlphaKey);
            var n := |r.contacted|;
            && 0 < n <= |order| && r.contacted == order[..n]
            && (forall i :: 0 <= i < n - 1 ==> StageOf(order[i], symbol, chart, alpha, quotes).FellThrough?)
            && var last := StageOf(order[n - 1], symbol, chart, alpha, quotes);
            && (last.Answered? ==> r.response == Success(last.quote))
            && (last.Aborted? ==> r.response == InternalError(symbol, last.message))
            && (last.FellThrough? ==> n == |order| && r.response == AllSourcesFailed(symbol))
  {
    var r := Get(Some(symbol), hasAlphaKey, chart, alpha, quotes);
    var order := Attempts(hasAlphaKey);
    var n := |r.contacted|;
    ContactedIsPrefix(symbol, hasAlphaKey, chart, alpha, quotes);
    EarlierSourcesFellThrough(symbol, hasAlphaKey, chart, alpha, quotes);
    LastContactedDecides(symbol, hasAlphaKey, chart, alpha, quotes);
    assert r.contacted[n - 1] == order[n - 1];
    assert forall i :: 0 <= i < n - 1 ==> r.contacted[i] == order[i];
  }

  /**
   * A successful quote's label names exactly one source, the last one
   * contacted: the label tells which upstream answered.
   */
  lemma QuoteLabelNamesAnsweringSource(symbol: string, hasAlphaKey: bool, chart: Fetch<ChartPayload>,
                                       alpha: Fetch<AlphaPayload>, quotes: Fetch<QuotePayload>, src: Source)
    requires Get(Some(symbol), hasAlphaKey, chart, alpha, quotes).response.Success?
    ensures var r := Get(Some(symbol), hasAlphaKey, chart, alpha, quotes);
            r.response.quote.source == SourceLabel(src) <==> src == r.contacted[|r.contacted| - 1]
  {
    var r := Get(Some(symbol), hasAlphaKey, chart, alpha, quotes);
    SourceLabelsDistinct(src, r.contacted[|r.contacted| - 1]);
  }

  /** Without a key Alpha Vantage is never contacted. */
  lemma NoKeyNoAlphaVantage(symbol: Option<string>, chart: Fetch<ChartPayload>, alpha: Fetch<AlphaPayload>,
                            quotes: Fetch<QuotePayload>)
    ensures AlphaVantageApi !in Get(symbol, false, chart, alpha, quotes).contacted
  {
  }

  /** The route answers 200 exactly when some source in the order answers before any throws. */
  lemma SuccessIffSomeSourceAnswers(symbol: string, hasAlphaKey: bool, chart: Fetch<ChartPayload>,
                                    alpha: Fetch<AlphaPayload>, quotes: Fetch<QuotePayload>)
    requires symbol != ""
    ensures var order := Attempts(hasAlphaKey);
            Get(Some(symbol), hasAlphaKey, chart, alpha, quotes).response.Success? <==>
            exists k :: 0 <= k < |order| && StageOf(order[k], symbol, chart, alpha, quotes).Answered? &&
                        forall i :: 0 <= i < k ==> StageOf(order[i], symbol, chart, alpha, quotes).FellThrough?
  {
    var order := Attempts(hasAlphaKey);
    var r := Get(Some(symbol), hasAlphaKey, chart, alpha, quotes);
    FirstDecisiveSourceDecides(symbol, hasAlphaKey, chart, alpha, quotes);
    var n := |r.contacted|;
    if r.response.Success? {
      assert StageOf(order[n - 1], symbol, chart, alpha, quotes).Answered?;
    }
    if exists k :: 0 <= k < |order| && StageOf(order[k], symbol, chart, alpha, quotes).Answered? &&
                   forall i :: 0 <= i < k ==> StageOf(order[i], symbol, chart, alpha, quotes).FellThrough? {
      var k :| 0 <= k < |order| && StageOf(order[k], symbol, chart, alpha, quotes).Answered? &&
               forall i :: 0 <= i < k ==> StageOf(order[i], symbol, chart, alpha, quotes).FellThrough?;
      assert n - 1 == k;
    }
  }
}
