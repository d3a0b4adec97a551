/**
 * The static holdings snapshot and the service that caches it and answers
 * queries over its individual-stock rows (services/portfolioService.ts).
 */
module Portfolio {
  import opened Js
  import opened Text
  import Seqs

  /** The `NSE/BSE` column: an NSE ticker, or a numeric BSE scrip code. */
  datatype ListingCode = Ticker(text: string) | ScripCode(number: int)

  /** `code.toString()`. */
  function CodeText(c: ListingCode): string
  {
    match c
    case Ticker(t) => t
    case ScripCode(n) => IntToText(n)
  }

  /** JavaScript truthiness of the `NSE/BSE` cell: null, `''` and `0` are falsy. */
  predicate HasListing(code: Option<ListingCode>)
  {
    code.Some? &&
    match code.value
    case Ticker(t) => t != ""
    case ScripCode(n) => n != 0
  }

  /**
   * One spreadsheet row. Only the columns some operation reads are kept; the
   * valuation columns are carried through unchanged by every operation and
   * are left out. `call` is the analyst's-call column (`Abhishek`).
   */
  datatype StockRecord = StockRecord(
    no: Option<real>,
    particulars: Option<string>,
    purchasePrice: Option<real>,
    qty: Option<real>,
    investment: Option<real>,
    portfolioPercent: Option<real>,
    listing: Option<ListingCode>,
    cmp: Option<real>,
    presentValue: Option<real>,
    stage2: Option<string>,
    call: Option<string>)

  datatype Metadata = Metadata(sourceFile: string, totalRows: int, totalColumns: int, columns: seq<string>)

  datatype PortfolioData = PortfolioData(metadata: Metadata, data: seq<StockRecord>)

  /**
   * A row describing one holding: it has a serial number and a name, and is
   * neither the repeated header row nor a sector heading.
   */
  predicate IsIndividualStock(s: StockRecord)
  {
    && s.no.Some?
    && s.particulars.Some?
    && s.particulars.value != ""
    && s.particulars.value != "Particulars"
    && !Contains(s.particulars.value, "Sector")
  }

  /** The individual-stock rows of the snapshot, in snapshot order. */
  function IndividualRows(rows: seq<StockRecord>): (r: seq<StockRecord>)
    ensures forall i :: 0 <= i < |r| ==> IsIndividualStock(r[i])
    ensures forall i :: 0 <= i < |rows| && IsIndividualStock(rows[i]) ==> rows[i] in r
    ensures Seqs.IsSubsequence(r, rows)
    ensures forall x :: multiset(r)[x] == if IsIndividualStock(x) then multiset(rows)[x] else 0
  {
    Seqs.FilterMultiset(rows, IsIndividualStock);
    Seqs.Filter(rows, IsIndividualStock)
  }

  /** Keeping the individual-stock rows of its own output changes nothing. */
  lemma IndividualRowsIdempotent(rows: seq<StockRecord>)
    ensures IndividualRows(IndividualRows(rows)) == IndividualRows(rows)
  {
    Seqs.FilterIdempotent(rows, IsIndividualStock);
  }

  /** `stock['NSE/BSE']?.toString().toLowerCase() === symbol.toLowerCase()`. */
  predicate SymbolMatches(s: StockRecord, symbol: string)
  {
    s.listing.Some? && ToLower(CodeText(s.listing.value)) == ToLower(symbol)
  }

  /** `stock.Particulars?.toLowerCase().includes(name.toLowerCase())`. */
  predicate NameMatches(s: StockRecord, name: string)
  {
    s.particulars.Some? && Contains(ToLower(s.particulars.value), ToLower(name))
  }

  /** The first stock whose listing code equals `symbol` ignoring case. */
  function FindBySymbol(stocks: seq<StockRecord>, symbol: string): (r: Option<StockRecord>)
    ensures r.None? <==> forall i :: 0 <= i < |stocks| ==> !SymbolMatches(stocks[i], symbol)
    ensures r.Some? ==> exists i :: 0 <= i < |stocks| && stocks[i] == r.value && SymbolMatches(stocks[i], symbol) &&
                                    forall j :: 0 <= j < i ==> !SymbolMatches(stocks[j], symbol)
  {
    Seqs.FindFirst(stocks, s => SymbolMatches(s, symbol))
  }

  /** The first stock whose lower-cased name contains the lower-cased `name`. */
  function FindByName(stocks: seq<StockRecord>, name: string): (r: Option<StockRecord>)
    ensures r.None? <==> forall i :: 0 <= i < |stocks| ==> !NameMatches(stocks[i], name)
    ensures r.Some? ==> exists i :: 0 <= i < |stocks| && stocks[i] == r.value && NameMatches(stocks[i], name) &&
                                    forall j :: 0 <= j < i ==> !NameMatches(stocks[j], name)
  {
    Seqs.FindFirst(stocks, s => NameMatches(s, name))
  }

  /** An empty name is contained in every name, so it finds the first named stock. */
  lemma {:induction false} EmptyNameFindsFirst(stocks: seq<StockRecord>)
    requires stocks != [] && stocks[0].particulars.Some?
    ensures FindByName(stocks, "") == Some(stocks[0])
  {
    assert [] <= ToLower(stocks[0].particulars.value);
    assert NameMatches(stocks[0], "");
  }

  /** Totals over a list of holdings. */
  datatype Summary = Summary(
    totalStocks: nat,
    totalInvestment: real,
    totalPresentValue: real,
    totalGainLoss: real,
    totalGainLossPercent: real)

  /**
   * The summary of `count` holdings with the given totals: the gain is what
   * the holdings are worth beyond what went into them, and its percentage is
   * taken of the investment, or 0 when nothing positive was invested.
   */
  function SummaryOf(count: nat, investment: real, presentValue: real): (r: Summary)
    ensures r.totalStocks == count && r.totalInvestment == investment && r.totalPresentValue == presentValue
    ensures r.totalInvestment + r.totalGainLoss == r.totalPresentValue
    ensures investment > 0.0 ==> r.totalGainLossPercent * investment == r.totalGainLoss * 100.0
    ensures investment <= 0.0 ==> r.totalGainLossPercent == 0.0
  {
    var gainLoss := presentValue - investment;
    Summary(count, investment, presentValue, gainLoss,
            if investment > 0.0 then gainLoss / investment * 100.0 else 0.0)
  }

  function InvestmentOf(s: StockRecord): real { OrZero(s.investment) }

  function StaticPresentValueOf(s: StockRecord): real { OrZero(s.presentValue) }

  /** The summary of the snapshot's own `Investment` and `Present value` columns. */
  function StaticSummary(stocks: seq<StockRecord>): Summary
  {
    SummaryOf(|stocks|, Seqs.Sum(stocks, InvestmentOf), Seqs.Sum(stocks, StaticPresentValueOf))
  }

  /** The total gain is the sum of the per-row gains `Present value - Investment`. */
  lemma StaticGainIsSumOfGains(stocks: seq<StockRecord>)
    ensures StaticSummary(stocks).totalGainLoss == Seqs.Sum(stocks, s => StaticPresentValueOf(s) - InvestmentOf(s))
  {
    Seqs.SumDifference(stocks, StaticPresentValueOf, InvestmentOf, s => StaticPresentValueOf(s) - InvestmentOf(s));
  }

  /** What fetching the snapshot file yields. */
  datatype LoadResponse =
    | NetworkError(message: string)
    | Response(ok: bool, statusText: string, body: PortfolioData)

  /** The resolved or rejected promise of `loadPortfolioData`. */
  datatype LoadResult = Loaded(data: PortfolioData) | LoadFailed(message: string)

  class PortfolioService {
    /** The cached snapshot; `None` until a load succeeds. */
    var portfolioData: Option<PortfolioData>

    constructor ()
      ensures portfolioData == None
    {
      portfolioData := None;
    }

    /**
     * Returns the cached snapshot without fetching once one is loaded;
     * otherwise fetches it (`fetched`), caches it on success, and on failure
     * leaves the cache empty and rejects.
     */
    method LoadPortfolioData(response: LoadResponse) returns (r: LoadResult, fetched: bool)
      modifies this
      ensures old(portfolioData).Some? ==>
                !fetched && r == Loaded(old(portfolioData).value) && portfolioData == old(portfolioData)
      ensures old(portfolioData).None? ==> fetched
      ensures old(portfolioData).None? && response.Response? && response.ok ==>
                r == Loaded(response.body) && portfolioData == Some(response.body)
      ensures old(portfolioData).None? && response.Response? && !response.ok ==>
                r == LoadFailed("Failed to load portfolio data: " + response.statusText) && portfolioData == None
      ensures old(portfolioData).None? && response.NetworkError? ==>
                r == LoadFailed(response.message) && portfolioData == None
    {
      if portfolioData.Some? {
        return Loaded(portfolioData.value), false;
      }
      fetched := true;
      match response
      case NetworkError(message) =>
        r := LoadFailed(message);
      case Response(ok, statusText, body) =>
        if !ok {
          r := LoadFailed("Failed to load portfolio data: " + statusText);
        } else {
          portfolioData := Some(body);
          r := Loaded(body);
        }
    }

    /** The individual-stock rows, or none while nothing is loaded. */
    function GetIndividualStocks(): (r: seq<StockRecord>)
      reads this
      ensures portfolioData.None? ==> r == []
      ensures portfolioData.Some? ==> r == IndividualRows(portfolioData.value.data)
    {
      if portfolioData.None? then [] else IndividualRows(portfolioData.value.data)
    }

    /** The first individual stock listed under `symbol`, ignoring case. */
    function GetStockBySymbol(symbol: string): (r: Option<StockRecord>)
      reads this
      ensures r.Some? ==> IsIndividualStock(r.value) && SymbolMatches(r.value, symbol) && r.value in GetIndividualStocks()
      ensures r.None? <==> forall s :: s in GetIndividualStocks() ==> !SymbolMatches(s, symbol)
    {
      FindBySymbol(GetIndividualStocks(), symbol)
    }

    /** The first individual stock whose name contains `name`, ignoring case. */
    function GetStockByName(name: string): (r: Option<StockRecord>)
      reads this
      ensures r.Some? ==> IsIndividualStock(r.value) && NameMatches(r.value, name) && r.value in GetIndividualStocks()
      ensures r.None? <==> forall s :: s in GetIndividualStocks() ==> !NameMatches(s, name)
    {
      FindByName(GetIndividualStocks(), name)
    }

    /** The sector name is not consulted: every individual stock is returned. */
    function GetStocksBySector(sectorName: string): (r: seq<StockRecord>)
      reads this
      ensures r == GetIndividualStocks()
    {
      GetIndividualStocks()
    }

    /** Totals over the individual stocks' static columns; all zero while nothing is loaded. */
    function GetPortfolioSummary(): (r: Summary)
      reads this
      ensures r == StaticSummary(GetIndividualStocks())
      ensures portfolioData.None? ==> r == Summary(0, 0.0, 0.0, 0.0, 0.0)
    {
      StaticSummary(GetIndividualStocks())
    }
  }
}
