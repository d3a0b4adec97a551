/**
 * The financial-ratios route (app/api/google-finance/route.ts): P/E and
 * earnings read from the Google Finance page, then, only when both are
 * still 0, from the Yahoo Finance page; rounded to two decimals.
 *
 * The HTML selectors are outside the model: each page is given as the two
 * texts its selectors produced, or as absent when the request failed.
 */
module FinancialsRoute {
  import opened Js
  import opened Text
  import opened Problems

  /** The P/E text and the earnings text one page's selectors produced ("" when none matched). */
  datatype PageTokens = PageTokens(peText: string, epsText: string)

  datatype Page = GooglePage | YahooPage

  datatype Financials = Financials(symbol: string, peRatio: real, earnings: real, source: string)

  /** The ratios with status 200, or an error body whose problem determines its other fields. */
  datatype FinancialsResponse =
    | Found(data: Financials)
    | NotFound(problem: Problem, symbol: Option<string>)

  /** The response and the pages requested, in order. */
  datatype FinancialsHandled = FinancialsHandled(response: FinancialsResponse, contacted: seq<Page>)

  const MissingSymbol := NotFound(SymbolRequired, None)

  function NoData(stockSymbol: string): FinancialsResponse
  {
    NotFound(NoFinancialData, Some(stockSymbol))
  }

  /**
   * `symbol.split(':')[1] || symbol`: the piece after the first colon, up to
   * the next one, when that piece is non-empty; otherwise the whole symbol.
   */
  function StockSymbol(symbol: string): (r: string)
    ensures IndexOf(symbol, ":").None? ==> r == symbol
    ensures r == symbol || (r != "" && ':' !in r)
    ensures IndexOf(symbol, ":").Some? && r != symbol ==>
              var start := IndexOf(symbol, ":").value + 1;
              start + |r| <= |symbol| && r == symbol[start..start + |r|] &&
              (start + |r| == |symbol| || symbol[start + |r|] == ':')
  {
    match IndexOf(symbol, ":")
    case None => symbol
    case Some(i) =>
      var rest := symbol[i + 1..];
      CharIndexOf(rest, ':');
      var piece :=
        match IndexOf(rest, ":")
        case None => rest
        case Some(j) => rest[..j];
      if piece == "" then symbol else piece
  }

  /**
   * An exchange-qualified symbol such as `NSE:BHARTIARTL` yields its code:
   * the piece between the first colon and the next one (or the end); when
   * that piece is empty the whole symbol is kept.
   */
  lemma QualifiedSymbolYieldsCode(exchange: string, code: string, tail: string)
    requires ':' !in exchange && ':' !in code
    requires tail == "" || tail[0] == ':'
    ensures StockSymbol(exchange + ":" + code + tail) ==
              if code == "" then exchange + ":" + code + tail else code
  {
    QualifiedLayout(exchange, code, tail);
    IndexOfAfterFreePrefix(exchange, ":", code + tail);
    if tail == "" {
      IndexOfAfterFreePrefix(code, ":", []);
    } else {
      IndexOfAfterFreePrefix(code, ":", tail[1..]);
    }
  }

  /** How `exchange:code` followed by the rest splits around its colons. */
  lemma QualifiedLayout(exchange: string, code: string, tail: string)
    requires tail == "" || tail[0] == ':'
    ensures exchange + ":" + code + tail == exchange + ":" + (code + tail)
    ensures (exchange + ":" + (code + tail))[|exchange| + 1..] == code + tail
    ensures tail == "" ==> code + tail == code + "" + []
    ensures tail != "" ==> code + tail == code + ":" + tail[1..] && (code + tail)[..|code|] == code
  {
    if tail != "" {
      assert tail == ":" + tail[1..];
    }
  }

  /** A symbol without a colon is used as it is. */
  lemma PlainSymbolIsKept(symbol: string)
    requires ':' !in symbol
    ensures StockSymbol(symbol) == symbol
  {
    assert symbol == symbol + [] + [];
  }

  /**
   * `parseFloat(text.replace(/[^\d.-]/g, '')) || 0`: the number read from
   * the text's digits, dots and minus signs, 0 when there is none.
   */
  function ParsedOrZero(text: string): (r: real)
    ensures ParseFloat(Clean(text)).None? ==> r == 0.0
    ensures ParseFloat(Clean(text)).Some? ==> r == ParseFloat(Clean(text)).value
  {
    OrZero(ParseFloat(Clean(text)))
  }

  /** Empty text reads as 0, so skipping a missing text and parsing it agree. */
  lemma EmptyTextIsZero()
    ensures ParsedOrZero("") == 0.0
  {
    assert Clean("") == "";
  }

  /** Separators between digit groups (`1,234`) are dropped before parsing. */
  lemma GroupedDigitsParse(a: string, sep: string, b: string)
    requires a != [] && forall i :: 0 <= i < |a| ==> IsDigit(a[i])
    requires forall i :: 0 <= i < |b| ==> IsDigit(b[i])
    requires forall i :: 0 <= i < |sep| ==> !IsNumericChar(sep[i])
    ensures ParsedOrZero(a + sep + b) == DigitsValue(a + b) as real
  {
    forall i | 0 <= i < |a| ensures IsNumericChar(a[i]) { }
    forall i | 0 <= i < |b| ensures IsNumericChar(b[i]) { }
    CleanJoinsGroups(a, sep, b);
    ParseDigits(a + b);
  }

  /** `Math.round(x * 100) / 100`, with `Math.round` rounding halves upwards. */
  function Round2(x: real): (r: real)
    ensures x - 0.005 < r <= x + 0.005
    ensures (r * 100.0).Floor as real == r * 100.0
  {
    ((x * 100.0 + 0.5).Floor as real) / 100.0
  }

  /** Rounding an already rounded value changes nothing. */
  lemma Round2Idempotent(x: real)
    ensures Round2(Round2(x)) == Round2(x)
  {
    var k := (x * 100.0 + 0.5).Floor;
    var y := Round2(x);
    assert y * 100.0 == k as real;
    assert (y * 100.0 + 0.5).Floor == k;
  }

  /** The P/E and earnings values one page contributes; a failed request contributes zeros. */
  function StageValues(page: Option<PageTokens>): (v: (real, real))
    ensures page.None? ==> v == (0.0, 0.0)
  {
    if page.None? then (0.0, 0.0)
    else (ParsedOrZero(page.value.peText), ParsedOrZero(page.value.epsText))
  }

  predicate HasData(v: (real, real)) { v.0 != 0.0 || v.1 != 0.0 }

  predicate HasPositive(v: (real, real)) { v.0 > 0.0 || v.1 > 0.0 }

  function Answer(stockSymbol: string, v: (real, real), name: string): FinancialsResponse
  {
    Found(Financials(stockSymbol, Round2(v.0), Round2(v.1), if HasPositive(v) then name else ""))
  }

  /**
   * What the route answers: the Google page's values when either is non-zero,
   * else the Yahoo page's values when either is non-zero, else the no-data
   * error; the label names the page that answered when one of its values is
   * positive.
   */
  function FinancialsOf(symbol: Option<string>, google: Option<PageTokens>, yahoo: Option<PageTokens>): (r: FinancialsHandled)
    ensures symbol.None? || symbol.value == "" <==> r.contacted == []
    ensures r.contacted != [] ==> r.contacted[0] == GooglePage
  {
    if symbol.None? || symbol.value == "" then FinancialsHandled(MissingSymbol, [])
    else
      var stockSymbol := StockSymbol(symbol.value);
      var g := StageValues(google);
      if HasData(g) then FinancialsHandled(Answer(stockSymbol, g, "Google Finance"), [GooglePage])
      else
        var y := StageValues(yahoo);
        if HasData(y) then FinancialsHandled(Answer(stockSymbol, y, "Yahoo Finance"), [GooglePage, YahooPage])
        else FinancialsHandled(NoData(stockSymbol), [GooglePage, YahooPage])
  }

  /** For a given symbol: the answering page is Google's when it has data, else Yahoo's. */
  lemma FinancialsOfPresent(symbol: string, google: Option<PageTokens>, yahoo: Option<PageTokens>)
    requires symbol != ""
    ensures var g := StageValues(google);
            var v := if HasData(g) then g else StageValues(yahoo);
            var r := FinancialsOf(Some(symbol), google, yahoo);
            && r.contacted == (if HasData(g) then [GooglePage] else [GooglePage, YahooPage])
            && r.response == if HasData(v) then Answer(StockSymbol(symbol), v, if HasData(g) then "Google Finance" else "Yahoo Finance")
                             else NoData(StockSymbol(symbol))
  {
  }

  /**
   * The Google Finance stage: each value is parsed from its text when there
   * is one, and the page is named when a value is positive.
   */
  method GoogleStage(page: Option<PageTokens>) returns (peRatio: real, earnings: real, source: string)
    ensures (peRatio, earnings) == StageValues(page)
    ensures source == if HasPositive(StageValues(page)) then "Google Finance" else ""
  {
    peRatio, earnings, source := 0.0, 0.0, "";
    EmptyTextIsZero();
    if page.Some? {
      if page.value.peText != "" {
        peRatio := ParsedOrZero(page.value.peText);
      }
      if page.value.epsText != "" {
        earnings := ParsedOrZero(page.value.epsText);
      }
      if peRatio > 0.0 || earnings > 0.0 {
        source := "Google Finance";
      }
    }
  }

  /**
   * The Yahoo Finance stage, entered with both values still 0 and no label:
   * each value still 0 is parsed from its text when there is one, and the
   * label gains the Yahoo page when a value is positive.
   */
  method YahooStage(page: Option<PageTokens>, peRatio0: real, earnings0: real, source0: string)
    returns (peRatio: real, earnings: real, source: string)
    requires peRatio0 == 0.0 && earnings0 == 0.0 && source0 == ""
    ensures (peRatio, earnings) == StageValues(page)
    ensures source == if HasPositive(StageValues(page)) then "Yahoo Finance" else ""
  {
    peRatio, earnings, source := peRatio0, earnings0, source0;
    EmptyTextIsZero();
    if page.Some? {
      if page.value.peText != "" && peRatio == 0.0 {
        peRatio := ParsedOrZero(page.value.peText);
      }
      if page.value.epsText != "" && earnings == 0.0 {
        earnings := ParsedOrZero(page.value.epsText);
      }
      if peRatio > 0.0 || earnings > 0.0 {
        source := if source != "" then source + " + Yahoo Finance" else "Yahoo Finance";
      }
    }
  }

  /**
   * `GET /api/google-finance?symbol=…`, step by step on the route's local
   * `peRatio`, `earnings` and `source`.
   */
  method GetFinancials(symbol: Option<string>, google: Option<PageTokens>, yahoo: Option<PageTokens>)
    returns (response: FinancialsResponse, contacted: seq<Page>)
    ensures FinancialsHandled(response, contacted) == FinancialsOf(symbol, google, yahoo)
  {
    if symbol.None? || symbol.value == "" {
      return MissingSymbol, [];
    }
    var stockSymbol := StockSymbol(symbol.value);

    contacted := [GooglePage];
    var peRatio, earnings, source := GoogleStage(google);
    ghost var g := StageValues(google);

    if peRatio == 0.0 && earnings == 0.0 {
      contacted := [GooglePage, YahooPage];
      peRatio, earnings, source := YahooStage(yahoo, peRatio, earnings, source);
    }
    ghost var v := if HasData(g) then g else StageValues(yahoo);
    ghost var name := if HasData(g) then "Google Finance" else "Yahoo Finance";
    assert (peRatio, earnings) == v;
    assert source == if HasPositive(v) then name else "";

    if peRatio == 0.0 && earnings == 0.0 {
      response := NoData(stockSymbol);
    } else {
      response := Found(Financials(stockSymbol, Round2(peRatio), Round2(earnings), source));
    }
    assert response == if HasData(v) then Answer(stockSymbol, v, name) else NoData(stockSymbol);
    FinancialsOfPresent(symbol.value, google, yahoo);
  }

  /** The route fails (for a given symbol) exactly when neither page yields a non-zero value: no value is invented. */
  lemma NoDataOnlyWhenBothPagesEmpty(symbol: string, google: Option<PageTokens>, yahoo: Option<PageTokens>)
    requires symbol != ""
    ensures FinancialsOf(Some(symbol), google, yahoo).response.NotFound? <==>
              !HasData(StageValues(google)) && !HasData(StageValues(yahoo))
    ensures FinancialsOf(Some(symbol), google, yahoo).response.NotFound? ==>
              FinancialsOf(Some(symbol), google, yahoo).response == NoData(StockSymbol(symbol))
  {
  }

  /** The Yahoo page is requested exactly when the Google page yielded only zeros. */
  lemma YahooOnlyAfterEmptyGoogle(symbol: string, google: Option<PageTokens>, yahoo: Option<PageTokens>)
    requires symbol != ""
    ensures YahooPage in FinancialsOf(Some(symbol), google, yahoo).contacted <==> !HasData(StageValues(google))
  {
  }

  /**
   * The label is "Google Finance" exactly when the Google page gave a positive
   * value, "Yahoo Finance" exactly when only the Yahoo page gave one, and
   * empty when the answering page's values are non-zero but none positive;
   * the combined label is never produced.
   */
  lemma SourceLabelNamesAnsweringPage(symbol: string, google: Option<PageTokens>, yahoo: Option<PageTokens>)
    requires symbol != ""
    requires FinancialsOf(Some(symbol), google, yahoo).response.Found?
    ensures var d := FinancialsOf(Some(symbol), google, yahoo).response.data;
            var g := StageValues(google);
            var y := StageValues(yahoo);
            && (d.source == "Google Finance" <==> HasPositive(g))
            && (d.source == "Yahoo Finance" <==> !HasData(g) && HasPositive(y))
            && (d.source == "" <==> (HasData(g) && !HasPositive(g)) || (!HasData(g) && !HasPositive(y)))
            && d.source != "Google Finance + Yahoo Finance"
  {
    var d := FinancialsOf(Some(symbol), google, yahoo).response.data;
    assert "Google Finance"[0] != "Yahoo Finance"[0];
    assert |"Google Finance + Yahoo Finance"| != |"Google Finance"|;
    assert |"Google Finance + Yahoo Finance"| != |"Yahoo Finance"|;
  }

  /** The values answered are the answering page's values rounded to two decimals. */
  lemma ValuesComeFromAnsweringPage(symbol: string, google: Option<PageTokens>, yahoo: Option<PageTokens>)
    requires symbol != ""
    requires FinancialsOf(Some(symbol), google, yahoo).response.Found?
    ensures var d := FinancialsOf(Some(symbol), google, yahoo).response.data;
            var v := if HasData(StageValues(google)) then StageValues(google) else StageValues(yahoo);
            d.symbol == StockSymbol(symbol) && d.peRatio == Round2(v.0) && d.earnings == Round2(v.1) &&
            v.0 - 0.005 < d.peRatio <= v.0 + 0.005
  {
  }
}
