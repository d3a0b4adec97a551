/**
 * The scraping fallback route (app/api/scrape-fallback/route.ts): a quote
 * derived from the price and change shown on the stock's Screener.in page.
 *
 * The page request and the two regular expressions are outside the model:
 * the page is given as its `ok` flag and the text captured inside the price
 * and the change spans, or as absent when the request failed.
 */
module ScrapeRoute {
  import opened Js
  import opened Text
  import Portfolio
  import RealTime
  import QuoteRoute
  import Problems

  /** The Screener.in response: its `ok` flag and the captured price and change texts. */
  datatype ScreenerPage = ScreenerPage(ok: bool, priceToken: Option<string>, changeToken: Option<string>)

  /** The route's response and the Screener.in symbol requested, if any. */
  datatype ScrapeHandled = ScrapeHandled(response: QuoteRoute.Response, requested: Option<string>)

  const ScrapedLabel := "Screener.in (Scraped)"

  function ScrapeFailed(symbol: string): QuoteRoute.Response
  {
    QuoteRoute.Failure(Problems.NothingScraped, Some(symbol))
  }

  /** `symbol.replace('.NS', '').replace('.BO', '')`: the first of each suffix is removed, nothing else changes. */
  function ScreenerSymbol(symbol: string): (r: string)
    ensures |r| == |symbol| - (if Contains(symbol, ".NS") then 3 else 0)
                            - (if Contains(RemoveFirst(symbol, ".NS"), ".BO") then 3 else 0)
    ensures !Contains(symbol, ".NS") && !Contains(symbol, ".BO") ==> r == symbol
  {
    RemoveFirst(RemoveFirst(symbol, ".NS"), ".BO")
  }

  /** A code without dots loses exactly its `.NS` or `.BO` suffix, and a bare code is kept. */
  lemma ScreenerSymbolStripsSuffix(code: string)
    requires '.' !in code
    ensures ScreenerSymbol(code + ".NS") == code
    ensures ScreenerSymbol(code + ".BO") == code
    ensures ScreenerSymbol(code) == code
  {
    assert code + ".NS" == code + ".NS" + [];
    assert code + ".BO" == code + ".BO" + [];
    IndexOfAfterFreePrefix(code, ".NS", []);
    IndexOfAfterFreePrefix(code, ".BO", []);
    var ns := code + ".NS";
    var r := RemoveFirst(ns, ".NS");
    assert ns == r[..|code|] + ".NS" + r[|code|..];
    assert r == code by {
      assert r[..|code|] == ns[..|code|] == code;
    }
    var bo := code + ".BO";
    var r2 := RemoveFirst(bo, ".NS");
    assert r2 == bo;
    var r3 := RemoveFirst(bo, ".BO");
    assert bo == r3[..|code|] + ".BO" + r3[|code|..];
    assert r3 == code by {
      assert r3[..|code|] == bo[..|code|] == code;
    }
  }

  /**
   * The Screener symbol undoes the real-time service's ticker mapping for
   * every listing code without a dot, except `SBLIFE`, whose ticker the
   * mapping renames.
   */
  lemma ScreenerSymbolUndoesMapping(code: Portfolio.ListingCode)
    requires '.' !in Portfolio.CodeText(code) && Portfolio.CodeText(code) != "SBLIFE"
    ensures ScreenerSymbol(RealTime.GetSymbolMapping(code)) == Portfolio.CodeText(code)
  {
    ScreenerSymbolStripsSuffix(Portfolio.CodeText(code));
  }

  /** The number a captured text reads as, after keeping only digits, dots and minus signs. */
  function TokenValue(token: string): Option<real>
  {
    ParseFloat(Clean(token))
  }

  /**
   * The quote derived from a price and a change: the previous close as their
   * difference and the percentage over the previous close only for a rise;
   * the other figures are 0.
   */
  function DerivedQuote(symbol: string, currentPrice: real, change: Num): (q: QuoteRoute.Quote)
    ensures q.symbol == symbol && q.currentPrice == Finite(currentPrice) && q.change == change
    ensures q.change.Finite? <==> q.previousClose.Finite?
    ensures q.change.Finite? ==> q.previousClose.value + q.change.value == currentPrice
    ensures !(change.Finite? && change.value > 0.0) ==> q.changePercent == Finite(0.0)
    ensures change.Finite? && change.value > 0.0 ==>
              (q.changePercent.Finite? <==> q.previousClose.value != 0.0) &&
              (q.changePercent.Finite? ==> q.changePercent.value * q.previousClose.value == change.value * 100.0)
    ensures q.volume == Finite(0.0)
    ensures q.marketCap == 0.0 && q.peRatio == 0.0 && q.earningsPerShare == 0.0 && q.dividendYield == 0.0
  {
    QuoteRoute.Quote(
      symbol,
      Finite(currentPrice),
      if change.Finite? then Finite(currentPrice - change.value) else NonFinite,
      change,
      if change.Finite? && change.value > 0.0 then Percent(change.value, currentPrice - change.value)
      else Finite(0.0),
      Finite(0.0),
      0.0, 0.0, 0.0, 0.0,
      "")
  }

  /** The change as read from its span, 0 when the page shows none (`NaN` when unreadable). */
  function ChangeOf(changeToken: Option<string>): (c: Num)
    ensures changeToken.None? ==> c == Finite(0.0)
    ensures changeToken.Some? ==> (c.Finite? <==> TokenValue(changeToken.value).Some?)
    ensures changeToken.Some? && c.Finite? ==> c.value == TokenValue(changeToken.value).value
  {
    if changeToken.Some? then FromParse(TokenValue(changeToken.value)) else Finite(0.0)
  }

  /**
   * `scrapeScreenerIn`: no quote when the request failed, the page is not ok,
   * there is no price span or its text is not a number; otherwise the quote
   * derived from the price and change read from the page.
   */
  function ScrapeScreenerIn(symbol: string, page: Option<ScreenerPage>): (r: Option<QuoteRoute.Quote>)
    ensures r.Some? <==>
              page.Some? && page.value.ok && page.value.priceToken.Some? && TokenValue(page.value.priceToken.value).Some?
    ensures r.Some? ==>
              r.value == DerivedQuote(symbol, TokenValue(page.value.priceToken.value).value, ChangeOf(page.value.changeToken))
  {
    if page.None? || !page.value.ok || page.value.priceToken.None? then None
    else
      var price := TokenValue(page.value.priceToken.value);
      if price.None? then None
      else Some(DerivedQuote(symbol, price.value, ChangeOf(page.value.changeToken)))
  }

  /**
   * `GET /api/scrape-fallback?symbol=…`: a missing symbol is rejected before
   * any request; otherwise the Screener symbol is requested and the scraped
   * quote, labelled, is the answer, or the scrape error when there is none.
   */
  function Get(symbol: Option<string>, page: Option<ScreenerPage>): (r: ScrapeHandled)
    ensures QuoteRoute.IsMissing(symbol) <==> r.requested.None?
    ensures QuoteRoute.IsMissing(symbol) ==> r.response == QuoteRoute.MissingSymbol
    ensures r.requested.Some? ==> r.requested.value == ScreenerSymbol(symbol.value)
  {
    if QuoteRoute.IsMissing(symbol) then ScrapeHandled(QuoteRoute.MissingSymbol, None)
    else
      var s := symbol.value;
      var scraped := ScrapeScreenerIn(s, page);
      ScrapeHandled(
        if scraped.Some? then QuoteRoute.Success(scraped.value.(source := ScrapedLabel)) else ScrapeFailed(s),
        Some(ScreenerSymbol(s)))
  }

  /**
   * For a given symbol the route answers 200 exactly when the scrape yields a
   * quote, and then with that quote under the Screener.in label; otherwise
   * with the scrape error.
   */
  lemma ScrapeDecidesResponse(symbol: string, page: Option<ScreenerPage>)
    requires symbol != ""
    ensures var r := Get(Some(symbol), page).response;
            var scraped := ScrapeScreenerIn(symbol, page);
            && (r.Success? <==> scraped.Some?)
            && (r.Success? ==> r.quote == scraped.value.(source := ScrapedLabel) && r.quote.symbol == symbol)
            && (!r.Success? ==> r == ScrapeFailed(symbol))
  {
  }

  /**
   * A fall reports a 0 % change although the previous close is above the
   * price: the percentage is computed for rises only.
   */
  lemma FallReportsZeroPercent(symbol: string, page: Option<ScreenerPage>)
    requires ScrapeScreenerIn(symbol, page).Some?
    requires ScrapeScreenerIn(symbol, page).value.change.Finite?
    requires ScrapeScreenerIn(symbol, page).value.change.value < 0.0
    ensures var q := ScrapeScreenerIn(symbol, page).value;
            q.changePercent == Finite(0.0) && q.previousClose.value > q.currentPrice.value
  {
  }
}
