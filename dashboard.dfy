/**
 * The dashboard's data logic (components/RealTimeStockDashboard.tsx): the
 * initial merged list and the search-and-filter pipeline over it.
 */
module Dashboard {
  import opened Js
  import opened Text
  import opened Portfolio
  import opened RealTime
  import Seqs

  /** The merged list the dashboard starts from: the individual-stock rows, each without a quote. */
  function InitializeHybridData(portfolioData: seq<StockRecord>): (r: seq<HybridStock>)
    ensures |r| == |IndividualRows(portfolioData)|
    ensures forall i :: 0 <= i < |r| ==> r[i].baseData == IndividualRows(portfolioData)[i]
    ensures forall i :: 0 <= i < |r| ==> r[i] == CreateHybridData(IndividualRows(portfolioData)[i])
    ensures forall i :: 0 <= i < |r| ==> IsIndividualStock(r[i].baseData) && r[i].liveData.None?
    ensures AllConsistent(r)
  {
    var rows := IndividualRows(portfolioData);
    seq(|rows|, i requires 0 <= i < |rows| => CreateHybridData(rows[i]))
  }

  datatype SearchFilters = SearchFilters(
    query: string,
    gainLoss: string,
    stage2: string,
    abhishekCall: string,
    priceRange: string)

  /** The filter state the dashboard starts with. */
  const InitialFilters := SearchFilters("", "All", "All", "All Calls", "All Prices")

  /** The state the "clear filters" action sets. */
  function HandleClearFilters(current: SearchFilters): (r: SearchFilters)
    ensures r == InitialFilters
  {
    SearchFilters("", "All", "All", "All Calls", "All Prices")
  }

  /**
   * The component stores its rupee sign as the three characters U+201A,
   * U+00C7, U+03C0 (the UTF-8 bytes of U+20B9 read as Mac Roman); the case
   * labels below are spelled with them, as written.
   */
  const UnderThousand := "Under \U{201A}\U{00C7}\U{03C0}1000"
  const ThousandToFiveThousand := "\U{201A}\U{00C7}\U{03C0}1000 - \U{201A}\U{00C7}\U{03C0}5000"
  const FiveThousandToTenThousand := "\U{201A}\U{00C7}\U{03C0}5000 - \U{201A}\U{00C7}\U{03C0}10000"
  const AboveTenThousand := "Above \U{201A}\U{00C7}\U{03C0}10000"

  /** The `switch` on the price-range choice; an unrecognised choice keeps every price. */
  predicate InPriceBucket(choice: string, price: real)
  {
    if choice == UnderThousand then price < 1000.0
    else if choice == ThousandToFiveThousand then 1000.0 <= price < 5000.0
    else if choice == FiveThousandToTenThousand then 5000.0 <= price < 10000.0
    else if choice == AboveTenThousand then price >= 10000.0
    else true
  }

  /** The four buckets are disjoint and every price falls in one of them. */
  lemma PriceBucketsPartition(price: real)
    ensures InPriceBucket(UnderThousand, price) || InPriceBucket(ThousandToFiveThousand, price) ||
            InPriceBucket(FiveThousandToTenThousand, price) || InPriceBucket(AboveTenThousand, price)
    ensures !(InPriceBucket(UnderThousand, price) && InPriceBucket(ThousandToFiveThousand, price))
    ensures !(InPriceBucket(UnderThousand, price) && InPriceBucket(FiveThousandToTenThousand, price))
    ensures !(InPriceBucket(UnderThousand, price) && InPriceBucket(AboveTenThousand, price))
    ensures !(InPriceBucket(ThousandToFiveThousand, price) && InPriceBucket(FiveThousandToTenThousand, price))
    ensures !(InPriceBucket(ThousandToFiveThousand, price) && InPriceBucket(AboveTenThousand, price))
    ensures !(InPriceBucket(FiveThousandToTenThousand, price) && InPriceBucket(AboveTenThousand, price))
  {
    assert UnderThousand[0] == 'U' && AboveTenThousand[0] == 'A' && ThousandToFiveThousand[0] == '\U{201A}';
    assert ThousandToFiveThousand[3] == '1' && FiveThousandToTenThousand[3] == '5';
  }

  /** The labels the search panel offers for the price range (as properly encoded rupee signs). */
  const OfferedPriceRanges: seq<string> := [
    "Under \U{20B9}100",
    "\U{20B9}100 - \U{20B9}500",
    "\U{20B9}500 - \U{20B9}1000",
    "\U{20B9}1000 - \U{20B9}5000",
    "Above \U{20B9}5000"]

  /** None of the offered labels is a case choice, so each of them keeps every price. */
  lemma OfferedRangesKeepEveryPrice(choice: string, price: real)
    requires choice in OfferedPriceRanges
    ensures InPriceBucket(choice, price)
  {
    assert UnderThousand[6] == '\U{201A}' && AboveTenThousand[6] == '\U{201A}';
    assert ThousandToFiveThousand[0] == '\U{201A}' && FiveThousandToTenThousand[0] == '\U{201A}';
    assert choice[0] == 'U' || choice[0] == 'A' || choice[0] == '\U{20B9}';
    assert choice[0] == 'U' ==> choice[6] == '\U{20B9}';
    assert choice[0] == 'A' ==> choice[6] == '\U{20B9}';
  }

  /** The text search: name or listing code contains the (lower-cased, trimmed) query. */
  predicate MatchesQuery(h: HybridStock, query: string)
  {
    || (h.baseData.particulars.Some? && Contains(ToLower(h.baseData.particulars.value), query))
    || (h.baseData.listing.Some? && Contains(ToLower(CodeText(h.baseData.listing.value)), query))
  }

  predicate IsBlank(query: string) { Trim(query) == [] }

  /** The search text as the pipeline compares it. */
  function NormalizedQuery(query: string): string { Trim(ToLower(query)) }

  /** `'Gain'` keeps gains, `'Loss'` keeps losses, any other choice keeps everything. */
  predicate GainLossAllows(choice: string, h: HybridStock)
  {
    if choice == "Gain" then h.calculated.gainLoss > 0.0
    else if choice == "Loss" then h.calculated.gainLoss < 0.0
    else true
  }

  predicate StageAllows(choice: string, h: HybridStock)
  {
    choice == "All" || h.baseData.stage2 == Some(choice)
  }

  predicate CallAllows(choice: string, h: HybridStock)
  {
    choice == "All Calls" || h.baseData.call == Some(choice)
  }

  predicate PriceAllows(choice: string, h: HybridStock)
  {
    choice == "All Prices" || InPriceBucket(choice, h.calculated.currentCMP)
  }

  /**
   * Whether a stock is shown: with a non-blank query, exactly when it matches
   * the query (the other filters are ignored); otherwise when every filter
   * allows it.
   */
  predicate Selected(f: SearchFilters, h: HybridStock)
  {
    if !IsBlank(f.query) then MatchesQuery(h, NormalizedQuery(f.query))
    else GainLossAllows(f.gainLoss, h) && StageAllows(f.stage2, h) &&
         CallAllows(f.abhishekCall, h) && PriceAllows(f.priceRange, h)
  }

  /** The gain/loss step: `'All'` skips it; an unknown label keeps the list as it is. */
  function ByGainLoss(stocks: seq<HybridStock>, choice: string): seq<HybridStock>
  {
    if choice != "All" then
      if choice == "Gain" then Seqs.Filter(stocks, (h: HybridStock) => h.calculated.gainLoss > 0.0)
      else if choice == "Loss" then Seqs.Filter(stocks, (h: HybridStock) => h.calculated.gainLoss < 0.0)
      else stocks
    else stocks
  }

  /** The Stage-2 step: `'All'` skips it; otherwise the column must equal the choice. */
  function ByStage(stocks: seq<HybridStock>, choice: string): seq<HybridStock>
  {
    if choice != "All" then Seqs.Filter(stocks, (h: HybridStock) => h.baseData.stage2 == Some(choice))
    else stocks
  }

  /** The call step: `'All Calls'` skips it; otherwise the column must equal the choice. */
  function ByCall(stocks: seq<HybridStock>, choice: string): seq<HybridStock>
  {
    if choice != "All Calls" then Seqs.Filter(stocks, (h: HybridStock) => h.baseData.call == Some(choice))
    else stocks
  }

  /** The price-range step: `'All Prices'` skips it; otherwise the current price must be in the bucket. */
  function ByPriceRange(stocks: seq<HybridStock>, choice: string): seq<HybridStock>
  {
    if choice != "All Prices" then Seqs.Filter(stocks, (h: HybridStock) => InPriceBucket(choice, h.calculated.currentCMP))
    else stocks
  }

  /** The search step: the stocks whose name or code contains the query. */
  function BySearch(stocks: seq<HybridStock>, query: string): seq<HybridStock>
  {
    Seqs.Filter(stocks, (h: HybridStock) => MatchesQuery(h, query))
  }

  /**
   * `getFilteredStocks`: a non-blank query returns the matching stocks
   * whether or not there are any (when there are none, the later filters are
   * skipped because the query is not blank); otherwise the gain/loss,
   * Stage-2, call and price-range filters apply one after another. Either
   * way the result is one order-preserving filter by `Selected`.
   */
  function GetFilteredStocks(stocks: seq<HybridStock>, f: SearchFilters): (r: seq<HybridStock>)
    ensures r == Seqs.Filter(stocks, h => Selected(f, h))
    ensures Seqs.IsSubsequence(r, stocks)
    ensures forall h :: h in r <==> h in stocks && Selected(f, h)
  {
    if !IsBlank(f.query) then
      var query := NormalizedQuery(f.query);
      Seqs.FilterCongruent(stocks, (h: HybridStock) => MatchesQuery(h, query), h => Selected(f, h));
      BySearch(stocks, query)
    else
      FilterStepsAreSelection(stocks, f);
      ByPriceRange(ByCall(ByStage(ByGainLoss(stocks, f.gainLoss), f.stage2), f.abhishekCall), f.priceRange)
  }

  lemma ByGainLossIsFilter(stocks: seq<HybridStock>, choice: string)
    ensures ByGainLoss(stocks, choice) == Seqs.Filter(stocks, (h: HybridStock) => GainLossAllows(choice, h))
  {
    var g := (h: HybridStock) => GainLossAllows(choice, h);
    if choice == "Gain" {
      Seqs.FilterCongruent(stocks, (h: HybridStock) => h.calculated.gainLoss > 0.0, g);
    } else if choice == "Loss" {
      Seqs.FilterCongruent(stocks, (h: HybridStock) => h.calculated.gainLoss < 0.0, g);
    } else {
      Seqs.FilterKeepsAll(stocks, g);
    }
  }

  lemma ByStageIsFilter(stocks: seq<HybridStock>, choice: string)
    ensures ByStage(stocks, choice) == Seqs.Filter(stocks, (h: HybridStock) => StageAllows(choice, h))
  {
    var q := (h: HybridStock) => StageAllows(choice, h);
    if choice != "All" {
      Seqs.FilterCongruent(stocks, (h: HybridStock) => h.baseData.stage2 == Some(choice), q);
    } else {
      Seqs.FilterKeepsAll(stocks, q);
    }
  }

  lemma ByCallIsFilter(stocks: seq<HybridStock>, choice: string)
    ensures ByCall(stocks, choice) == Seqs.Filter(stocks, (h: HybridStock) => CallAllows(choice, h))
  {
    var q := (h: HybridStock) => CallAllows(choice, h);
    if choice != "All Calls" {
      Seqs.FilterCongruent(stocks, (h: HybridStock) => h.baseData.call == Some(choice), q);
    } else {
      Seqs.FilterKeepsAll(stocks, q);
    }
  }

  lemma ByPriceRangeIsFilter(stocks: seq<HybridStock>, choice: string)
    ensures ByPriceRange(stocks, choice) == Seqs.Filter(stocks, (h: HybridStock) => PriceAllows(choice, h))
  {
    var q := (h: HybridStock) => PriceAllows(choice, h);
    if choice != "All Prices" {
      Seqs.FilterCongruent(stocks, (h: HybridStock) => InPriceBucket(choice, h.calculated.currentCMP), q);
    } else {
      Seqs.FilterKeepsAll(stocks, q);
    }
  }

  /** The four filter steps together are one filter by the conjunction of what each allows. */
  lemma FilterStepsAreSelection(stocks: seq<HybridStock>, f: SearchFilters)
    requires IsBlank(f.query)
    ensures ByPriceRange(ByCall(ByStage(ByGainLoss(stocks, f.gainLoss), f.stage2), f.abhishekCall), f.priceRange)
         == Seqs.Filter(stocks, h => Selected(f, h))
  {
    var g := (h: HybridStock) => GainLossAllows(f.gainLoss, h);
    var st := (h: HybridStock) => StageAllows(f.stage2, h);
    var c := (h: HybridStock) => CallAllows(f.abhishekCall, h);
    var pr := (h: HybridStock) => PriceAllows(f.priceRange, h);
    var s1 := Seqs.Filter(stocks, g);
    var s2 := Seqs.Filter(s1, st);
    var s3 := Seqs.Filter(s2, c);
    ByGainLossIsFilter(stocks, f.gainLoss);
    ByStageIsFilter(s1, f.stage2);
    ByCallIsFilter(s2, f.abhishekCall);
    ByPriceRangeIsFilter(s3, f.priceRange);
    Seqs.FilterChain(stocks, g, st, c, pr, h => Selected(f, h));
  }

  /** A non-blank query that matches nothing shows nothing, whatever the other filters say. */
  lemma UnmatchedSearchIsEmpty(stocks: seq<HybridStock>, f: SearchFilters)
    requires !IsBlank(f.query)
    requires forall i :: 0 <= i < |stocks| ==> !MatchesQuery(stocks[i], NormalizedQuery(f.query))
    ensures GetFilteredStocks(stocks, f) == []
  {
    var query := NormalizedQuery(f.query);
    Seqs.FilterKeepsNone(stocks, (h: HybridStock) => MatchesQuery(h, query));
  }

  /** With a non-blank query the other four filters make no difference. */
  lemma SearchIgnoresOtherFilters(stocks: seq<HybridStock>, f: SearchFilters, g: SearchFilters)
    requires !IsBlank(f.query) && g.query == f.query
    ensures GetFilteredStocks(stocks, f) == GetFilteredStocks(stocks, g)
  {
  }

  /** The initial filters (which clearing restores) show the whole list. */
  lemma InitialFiltersShowEverything(stocks: seq<HybridStock>)
    ensures GetFilteredStocks(stocks, InitialFilters) == stocks
  {
    assert IsBlank(InitialFilters.query);
  }

  /** A stock with zero gain is shown neither under "Gain" nor under "Loss". */
  lemma ZeroGainInNeither(h: HybridStock, f: SearchFilters)
    requires IsBlank(f.query) && h.calculated.gainLoss == 0.0
    requires f.gainLoss == "Gain" || f.gainLoss == "Loss"
    ensures !Selected(f, h)
  {
  }

  /** A price-range step whose bucket holds every price keeps the whole list. */
  lemma {:induction false} UniversalBucketKeepsAll(stocks: seq<HybridStock>, choice: string)
    requires forall price :: InPriceBucket(choice, price)
    ensures ByPriceRange(stocks, choice) == stocks
  {
    Seqs.FilterKeepsAll(stocks, (h: HybridStock) => InPriceBucket(choice, h.calculated.currentCMP));
  }

  /** With a blank query and the other filters at their defaults, only the price-range step acts. */
  lemma OnlyPriceRangeActs(stocks: seq<HybridStock>, choice: string)
    ensures GetFilteredStocks(stocks, InitialFilters.(priceRange := choice)) == ByPriceRange(stocks, choice)
  {
    assert IsBlank("");
  }

  /** Each price range the search panel offers keeps every price. */
  lemma OfferedBucketHoldsEverything(choice: string)
    requires choice in OfferedPriceRanges
    ensures forall price :: InPriceBucket(choice, price)
  {
    forall price ensures InPriceBucket(choice, price) {
      OfferedRangesKeepEveryPrice(choice, price);
    }
  }

  /**
   * Choosing any price range the search panel offers (with a blank query and
   * the other filters at their defaults) shows the whole list.
   */
  lemma OfferedPriceRangesShowEverything(stocks: seq<HybridStock>, choice: string)
    requires choice in OfferedPriceRanges
    ensures GetFilteredStocks(stocks, InitialFilters.(priceRange := choice)) == stocks
  {
    OnlyPriceRangeActs(stocks, choice);
    OfferedBucketHoldsEverything(choice);
    UniversalBucketKeepsAll(stocks, choice);
  }
}
