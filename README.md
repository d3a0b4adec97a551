# Portfolio dashboard core, modelled in Dafny

This project models the deterministic logic beneath a portfolio dashboard for Indian equities:

- a static holdings snapshot exported from a spreadsheet;
- a service that merges each holding with live quotes and refreshes them on a timer;
- the dashboard's search-and-filter pipeline;
- three HTTP routes that produce quotes and financial ratios from outside providers.

Network results, the text picked out of scraped pages, timer firings and the presence of an API key are all inputs. Prices and amounts are Dafny `real`s. JavaScript's `Infinity` and `NaN` appear only where the sources can produce them (a division by a zero previous close, a failed `parseFloat` or `parseInt`), as the `NonFinite` case of `Js.Num`.

Modules, one per source file plus four shared ones:

- `Problems`: the error bodies the quote, financial-ratios and scraping routes share, with their status codes and messages.
- `Js`: `null`/`undefined` as `Option`, `x || 0`, truthiness, and numbers that may be non-finite.
- `Seqs`: order-preserving `filter`, `find` and `reduce`-as-sum over sequences, with their algebra.
- `Text`: `toLowerCase` (ASCII), `indexOf`/`includes`, `replace` with a string pattern, `trim`, the `[^\d.-]` strip, `parseFloat`/`parseInt`, and integer `toString`.
- `Portfolio` (`services/portfolioService.ts`): the spreadsheet row. A class `PortfolioService` holds the load-once cache, with its queries as functions reading the cache.
- `RealTime` (`services/realTimeStockService.ts`):
  - the ticker table;
  - the merged record and its metrics;
  - one refresh tick as a function of what each stock's fetches produced;
  - the summary;
  - a class `RealTimeStockService` with the subscriber list, the interval field and a ghost set of the intervals the runtime would still fire.
- `Dashboard` (`components/RealTimeStockDashboard.tsx`): the initial merged list and `getFilteredStocks`, as a composition of filter steps.
- `QuoteRoute` (`app/api/yahoo-finance/route.ts`): the three-source fallback and each source's normalisation.
- `FinancialsRoute` (`app/api/google-finance/route.ts`): symbol extraction, the Google-then-Yahoo stages (as a method over the route's own locals, proved equal to a declarative definition), labelling and rounding.
- `ScrapeRoute` (`app/api/scrape-fallback/route.ts`): the Screener symbol and the quote derived from the scraped price and change.

Behaviour of the code as written that the model keeps and states:

- The static record's price is the spreadsheet's `CMP`, or 0 when it is absent. There is no fallback to the purchase price. The percentage is guarded by the truthiness of `Investment`, while the live update guards it with `investment > 0`. The two disagree for a negative investment (`RealTime.NegativeInvestmentGuardsDiffer`).
- Without an Alpha Vantage key, the service's "alternate" fetch is a second Yahoo fetch.
- The dashboard's price-range cases are spelled with the three characters U+201A U+00C7 U+03C0 where a rupee sign was meant. The search panel (`components/AdvancedSearch.tsx:86-90`) offers differently spelled and differently bounded labels. So every offered price range shows the whole list (`Dashboard.OfferedPriceRangesShowEverything`).
- A non-blank search that matches nothing shows nothing. The other filters are skipped because the query is not blank.
- In the financial-ratios route, the Yahoo stage runs only when the Google stage left both values at 0. So the combined label "Google Finance + Yahoo Finance" is never produced. Negative values are answered with an empty source label.
- The scraped quote's percentage is computed for rises only, so a fall reports 0 %.

## Model

| member | source | states |
|---|---|---|
| Portfolio.IndividualRows | services/portfolioService.ts:87-93 | every kept row has a serial number and a name that is neither the header nor a sector heading; every such row is kept, as often as it occurs (multiset); the result is an order-preserving subsequence |
| Portfolio.IndividualRowsIdempotent | services/portfolioService.ts:87-93 | filtering the individual-stock rows again changes nothing |
| Portfolio.FindBySymbol | services/portfolioService.ts:96-101 | nothing exactly when no row's listing code equals the symbol ignoring case; otherwise the first row that does |
| Portfolio.FindByName | services/portfolioService.ts:103-108 | nothing exactly when no lower-cased name contains the lower-cased query; otherwise the first row whose name does |
| Portfolio.EmptyNameFindsFirst | services/portfolioService.ts:103-108 | an empty name query finds the first named row |
| Portfolio.SummaryOf | services/portfolioService.ts:119-136 | investment plus gain equals present value; the percentage is the gain over a positive investment and 0 otherwise |
| Portfolio.StaticGainIsSumOfGains | services/portfolioService.ts:116-137 | the snapshot's total gain is the sum of the rows' `Present value - Investment`, nulls counted as 0 |
| Portfolio.PortfolioService.constructor | services/portfolioService.ts:51-53 | the cache starts empty |
| Portfolio.PortfolioService.LoadPortfolioData | services/portfolioService.ts:62-79 | a loaded cache is returned without fetching; otherwise a fetch happens, an ok response is cached and returned, a non-ok response or a network error rejects with its message and leaves the cache empty |
| Portfolio.PortfolioService.GetIndividualStocks | services/portfolioService.ts:82-94 | empty while nothing is loaded, otherwise the individual-stock rows of the cached snapshot |
| Portfolio.PortfolioService.GetStockBySymbol | services/portfolioService.ts:96-101 | a found stock is an individual stock whose code matches ignoring case; nothing exactly when no individual stock matches |
| Portfolio.PortfolioService.GetStockByName | services/portfolioService.ts:103-108 | a found stock is an individual stock whose name contains the query ignoring case; nothing exactly when none does |
| Portfolio.PortfolioService.GetStocksBySector | services/portfolioService.ts:110-114 | the sector name is ignored: every individual stock is returned |
| Portfolio.PortfolioService.GetPortfolioSummary | services/portfolioService.ts:116-137 | the summary of the individual stocks' static columns; all zeros while nothing is loaded |
| RealTime.GetSymbolMapping | services/realTimeStockService.ts:171-194 | every ticker, listed or defaulted, ends in `.NS`; it is the code plus `.NS` exactly for the codes other than `SBLIFE`, which maps to `SBILIFE.NS` |
| RealTime.SblifeIsTheOnlyRenamedEntry | services/realTimeStockService.ts:172-190 | every table entry is its key plus `.NS` except `SBLIFE`, which maps to `SBILIFE.NS` |
| RealTime.CreateHybridData | services/realTimeStockService.ts:197-212 | no live data; price `CMP` or 0; present value is price times quantity; gain is present value less investment; percentage relative to a truthy investment and 0 otherwise; portfolio weight `Portfolio (%)` or 0 |
| RealTime.UpdateHybridData | services/realTimeStockService.ts:215-231 | the quote's price becomes the current price; metrics consistent with it; percentage 0 for a non-positive investment; row and portfolio weight kept |
| RealTime.LatestQuoteWins | services/realTimeStockService.ts:215-231 | updating twice is the same as updating with the later quote |
| RealTime.QuoteAtStaticPriceKeepsMetrics | services/realTimeStockService.ts:204-227 | a quote at the spreadsheet price leaves the metrics unchanged when the investment is not negative |
| RealTime.NegativeInvestmentGuardsDiffer | services/realTimeStockService.ts:207-227 | with a negative investment the static percentage is non-zero and the live one is 0 at the same price |
| RealTime.WorkedExample | services/realTimeStockService.ts:215-231 | an example, for any row and quote of this shape: 10 shares bought for 10000 and quoted at 1100 give present value 11000, gain 1000 and 10 % |
| RealTime.MissingCmpMeansZeroPrice | services/realTimeStockService.ts:204-208 | without `CMP` the static price is 0, the gain is minus the investment and the percentage is -100 |
| RealTime.RefreshRequests | services/realTimeStockService.ts:242-251 | no request without a listing code; otherwise a Yahoo request for the mapped ticker, then a second request only when Yahoo gave nothing, to Alpha Vantage exactly when a key is configured |
| RealTime.TickQuote | services/realTimeStockService.ts:242-255 | no quote without a listing code; the Yahoo quote when there is one; otherwise the alternate fetch's |
| RealTime.RefreshStock | services/realTimeStockService.ts:241-261 | unchanged without a quote, otherwise updated with it; row and portfolio weight kept; consistency preserved |
| RealTime.RefreshTick | services/realTimeStockService.ts:239-263 | same length and order as the captured list, each stock refreshed from its own fetches |
| RealTime.TickKeepsConsistency | services/realTimeStockService.ts:239-263 | a tick keeps every stock's metrics consistent with its row |
| RealTime.TickWithoutQuotesChangesNothing | services/realTimeStockService.ts:239-263 | a tick in which no fetch produced a quote publishes the captured list unchanged |
| RealTime.GetPortfolioSummary | services/realTimeStockService.ts:277-297 | count, summed investments (null as 0) and summed present values |
| RealTime.SummaryGainIsSumOfGains | services/realTimeStockService.ts:277-297 | with consistent metrics the total gain is the sum of the stocks' gains |
| RealTime.TickKeepsTotalInvestment | services/realTimeStockService.ts:278-280 | a tick does not change the total investment |
| RealTime.UnsubscribeUndoesSubscribe | services/realTimeStockService.ts:83-88 | unsubscribing a callback that was just subscribed, and not registered before, restores the list |
| RealTime.RealTimeStockService.constructor | services/realTimeStockService.ts:67-68 | no subscribers, no interval, nothing scheduled |
| RealTime.RealTimeStockService.Subscribe | services/realTimeStockService.ts:83-84 | the callback is appended at the end |
| RealTime.RealTimeStockService.Unsubscribe | services/realTimeStockService.ts:85-87 | every registration of the callback is removed and the others keep their order |
| RealTime.RealTimeStockService.NotifySubscribers | services/realTimeStockService.ts:91-93 | one delivery per subscriber, in registration order, each with the same list |
| RealTime.RealTimeStockService.StartRealTimeUpdates | services/realTimeStockService.ts:234-239 | the previous interval, if any, is cleared; the new one is the only one scheduled and ticks over the given list |
| RealTime.RealTimeStockService.StopRealTimeUpdates | services/realTimeStockService.ts:269-274 | the interval, if any, is cleared and the field reset; nothing stays scheduled |
| RealTime.RealTimeStockService.Tick | services/realTimeStockService.ts:239-265 | publishes the refreshed captured list to every current subscriber in order |
| Dashboard.InitializeHybridData | components/RealTimeStockDashboard.tsx:36-55 | record `i` is `RealTime.CreateHybridData` of the `i`-th individual-stock row: one quote-less merged record per row, in row order, all with consistent metrics |
| Dashboard.HandleClearFilters | components/RealTimeStockDashboard.tsx:154-162 | the filters return to their initial state |
| Dashboard.PriceBucketsPartition | components/RealTimeStockDashboard.tsx:127-141 | the four price cases are pairwise disjoint and cover every price |
| Dashboard.OfferedRangesKeepEveryPrice | components/RealTimeStockDashboard.tsx:129-140 | none of the labels the search panel offers is one of the cases, so each keeps every price |
| Dashboard.ByGainLossIsFilter | components/RealTimeStockDashboard.tsx:103-109 | the gain/loss step keeps exactly the stocks with positive ("Gain") or negative ("Loss") gain, or all |
| Dashboard.ByStageIsFilter | components/RealTimeStockDashboard.tsx:112-116 | the Stage-2 step keeps exactly the stocks whose Stage-2 equals the choice, or all |
| Dashboard.ByCallIsFilter | components/RealTimeStockDashboard.tsx:119-123 | the call step keeps exactly the stocks whose call equals the choice, or all |
| Dashboard.ByPriceRangeIsFilter | components/RealTimeStockDashboard.tsx:126-142 | the price step keeps exactly the stocks whose current price is in the chosen case, or all |
| Dashboard.GetFilteredStocks | components/RealTimeStockDashboard.tsx:81-146 | the pipeline equals a single order-preserving filter by the selection predicate `Selected`: the result is a subsequence of the list holding exactly the selected stocks |
| Dashboard.FilterStepsAreSelection | components/RealTimeStockDashboard.tsx:101-143 | with a blank query the four steps together are one filter by their conjunction |
| Dashboard.UnmatchedSearchIsEmpty | components/RealTimeStockDashboard.tsx:85-101 | a non-blank query matching nothing shows nothing |
| Dashboard.SearchIgnoresOtherFilters | components/RealTimeStockDashboard.tsx:85-97 | with a non-blank query the other four filters make no difference |
| Dashboard.InitialFiltersShowEverything | components/RealTimeStockDashboard.tsx:21-27 | the initial filters show the whole list |
| Dashboard.ZeroGainInNeither | components/RealTimeStockDashboard.tsx:103-109 | a stock with zero gain is shown neither under "Gain" nor under "Loss" |
| Dashboard.UniversalBucketKeepsAll | components/RealTimeStockDashboard.tsx:126-141 | a price choice that holds every price keeps the whole list |
| Dashboard.OnlyPriceRangeActs | components/RealTimeStockDashboard.tsx:100-143 | with a blank query and other filters at their defaults only the price step acts |
| Dashboard.OfferedBucketHoldsEverything | components/AdvancedSearch.tsx:86-90 | each offered price label holds every price: the quantified form of `Dashboard.OfferedRangesKeepEveryPrice`, as `Dashboard.OfferedPriceRangesShowEverything` uses it |
| Dashboard.OfferedPriceRangesShowEverything | components/RealTimeStockDashboard.tsx:126-141 | choosing any offered price range, other filters at their defaults, shows the whole list |
| Problems.Status | app/api/yahoo-finance/route.ts:7-129 | status 400 exactly for a missing symbol, 500 for every other error body of the three routes |
| Problems.MessageText | app/api/yahoo-finance/route.ts:115-129 | an error body carries a message exactly when the symbol was given; an exception's body carries the exception's message |
| QuoteRoute.SourceLabelsDistinct | app/api/yahoo-finance/route.ts:41-107 | helper for `QuoteRoute.QuoteLabelNamesAnsweringSource`: two sources have the same label exactly when they are the same source |
| QuoteRoute.ChartQuote | app/api/yahoo-finance/route.ts:29-42 | price and previous close are the meta fields; change is price less previous close; percentage is change over a non-zero previous close (non-finite for 0); volume the last entry or 0; market cap, P/E, EPS and dividend yield are the meta fields or 0 |
| QuoteRoute.ChartPercentReconstructsPrice | app/api/yahoo-finance/route.ts:33-34 | applying the percentage to the previous close gives back the price |
| QuoteRoute.AlphaQuote | app/api/yahoo-finance/route.ts:60-73 | price, previous close and change are the `parseFloat` readings of their fields (non-finite when unreadable); percentage read with the first `%` removed; volume the `parseInt` reading of its field; ratios 0 |
| QuoteRoute.AlphaPercentTextRoundTrip | app/api/yahoo-finance/route.ts:65 | an integer written with a trailing `%` reads back as that integer |
| QuoteRoute.QuoteApiQuote | app/api/yahoo-finance/route.ts:95-108 | price and previous close are the quote fields; previous close plus change is the price; percentage over a non-zero previous close; volume and the four ratios are the fields or 0 |
| QuoteRoute.ChartStage | app/api/yahoo-finance/route.ts:14-47 | the chart API answers exactly when ok with a non-empty result, and then with `ChartQuote` of the first result; it aborts exactly when the fetch threw, with the exception's message |
| QuoteRoute.AlphaStage | app/api/yahoo-finance/route.ts:52-78 | Alpha Vantage answers exactly when ok with a non-empty price, and then with `AlphaQuote` of the global quote; it aborts exactly when the fetch threw, with the exception's message |
| QuoteRoute.QuoteApiStage | app/api/yahoo-finance/route.ts:81-113 | the quote API answers exactly when ok with a non-empty result, and then with `QuoteApiQuote` of the first result; it aborts exactly when the fetch threw, with the exception's message |
| QuoteRoute.Attempts | app/api/yahoo-finance/route.ts:14-113 | chart first and quote API last; Alpha Vantage in between exactly when a key is configured |
| QuoteRoute.Get | app/api/yahoo-finance/route.ts:3-130 | a missing symbol gives the 400 body with no source contacted; a success carries the symbol and the label of the last source contacted; with a symbol, the response is `QuoteRoute.Decide` over the three stages |
| QuoteRoute.DecideContactsPrefix | app/api/yahoo-finance/route.ts:14-113 | for any stage outcomes, the route's control flow contacts a non-empty prefix of the fixed order, and every source but the last fell through |
| QuoteRoute.DecideLastSettles | app/api/yahoo-finance/route.ts:14-129 | for any stage outcomes, the last source contacted settles the response: its quote gives 200, its exception the 500 with its message; if it fell through, every source was contacted and the answer is the all-sources 500 |
| QuoteRoute.ContactedIsPrefix | app/api/yahoo-finance/route.ts:14-113 | the sources contacted are a non-empty prefix of the fixed order |
| QuoteRoute.EarlierSourcesFellThrough | app/api/yahoo-finance/route.ts:14-113 | every source contacted before the last one fell through |
| QuoteRoute.LastContactedDecides | app/api/yahoo-finance/route.ts:14-129 | the last source contacted decides: its quote gives 200, its exception the 500 "Internal server error" with the exception's message; if it fell through, every source was contacted and the answer is the all-sources 500 |
| QuoteRoute.FirstDecisiveSourceDecides | app/api/yahoo-finance/route.ts:11-129 | the contacted sources are a prefix of the order; those before the last fell through; the last one's quote or exception decides; when all fall through the response is the all-sources 500 |
| QuoteRoute.NoKeyNoAlphaVantage | app/api/yahoo-finance/route.ts:50-51 | without a key Alpha Vantage is never contacted |
| QuoteRoute.SuccessIffSomeSourceAnswers | app/api/yahoo-finance/route.ts:14-120 | success exactly when some source answers and every source before it fell through |
| QuoteRoute.QuoteLabelNamesAnsweringSource | app/api/yahoo-finance/route.ts:41-107 | in a success, the quote's label is a source's label exactly when that source is the last one contacted |
| FinancialsRoute.StockSymbol | app/api/google-finance/route.ts:15 | a symbol without a colon is kept; otherwise either the whole symbol or the non-empty colon-free piece that starts right after the first colon and ends at the next colon or the end |
| FinancialsRoute.QualifiedSymbolYieldsCode | app/api/google-finance/route.ts:14-15 | for a colon-free exchange and code, `EXCHANGE:CODE` followed by nothing or by more colon-separated pieces yields `CODE`, and, through the fallback, the whole symbol when `CODE` is empty |
| FinancialsRoute.PlainSymbolIsKept | app/api/google-finance/route.ts:15 | a symbol without a colon is used as it is |
| FinancialsRoute.ParsedOrZero | app/api/google-finance/route.ts:40 | the number read from the text's digits, dots and minus signs, or 0 when there is none |
| FinancialsRoute.EmptyTextIsZero | app/api/google-finance/route.ts:39-41 | empty text reads as 0, so skipping it and parsing it agree |
| FinancialsRoute.GroupedDigitsParse | app/api/google-finance/route.ts:49 | separators between digit groups are dropped before parsing |
| FinancialsRoute.Round2 | app/api/google-finance/route.ts:106-107 | the result is within half a hundredth of the input and has at most two decimals |
| FinancialsRoute.Round2Idempotent | app/api/google-finance/route.ts:106-107 | rounding a rounded value changes nothing |
| FinancialsRoute.StageValues | app/api/google-finance/route.ts:22-57 | a failed page request contributes two zeros |
| FinancialsRoute.FinancialsOf | app/api/google-finance/route.ts:5-110 | the symbol is missing exactly when no page is requested; otherwise Google's page is requested first |
| FinancialsRoute.GoogleStage | app/api/google-finance/route.ts:22-57 | the Google stage leaves the page's parsed values (0 for a missing text or a failed request) and names Google exactly when one is positive |
| FinancialsRoute.YahooStage | app/api/google-finance/route.ts:59-93 | entered with zeros and no label, the Yahoo stage leaves the page's parsed values and names Yahoo exactly when one is positive |
| FinancialsRoute.GetFinancials | app/api/google-finance/route.ts:5-110 | the route's step-by-step updates of P/E, earnings and label give the declarative answer and requested pages |
| FinancialsRoute.NoDataOnlyWhenBothPagesEmpty | app/api/google-finance/route.ts:96-102 | the 500 happens exactly when neither page yields a non-zero value; no value is invented |
| FinancialsRoute.YahooOnlyAfterEmptyGoogle | app/api/google-finance/route.ts:60 | the Yahoo page is requested exactly when the Google page yielded only zeros |
| FinancialsRoute.SourceLabelNamesAnsweringPage | app/api/google-finance/route.ts:52-89 | "Google Finance" exactly when Google gave a positive value; "Yahoo Finance" exactly when only Yahoo did; empty otherwise; never the combined label |
| FinancialsRoute.ValuesComeFromAnsweringPage | app/api/google-finance/route.ts:104-110 | the answered values are the answering page's, rounded to two decimals |
| ScrapeRoute.ScreenerSymbol | app/api/scrape-fallback/route.ts:45 | the result is three characters shorter for each suffix present (the first `.NS`, then the first `.BO` of what remains); a symbol with neither suffix is unchanged |
| ScrapeRoute.ScreenerSymbolStripsSuffix | app/api/scrape-fallback/route.ts:45 | a dot-free code with a `.NS` or `.BO` suffix gives back the code; a bare code is kept |
| ScrapeRoute.ScreenerSymbolUndoesMapping | app/api/scrape-fallback/route.ts:45 | the Screener symbol undoes the service's ticker mapping for every dot-free code except `SBLIFE` |
| ScrapeRoute.DerivedQuote | app/api/scrape-fallback/route.ts:73-84 | previous close plus change is the price; the percentage is change over previous close for a rise and 0 otherwise; volume and ratios 0 |
| ScrapeRoute.ChangeOf | app/api/scrape-fallback/route.ts:70-71 | 0 without a change span; otherwise finite exactly when the stripped text parses, and then the parsed value |
| ScrapeRoute.ScrapeScreenerIn | app/api/scrape-fallback/route.ts:43-89 | a quote exactly when the request succeeded and was ok, a price span exists and its text is a number; the quote is derived from price and change |
| ScrapeRoute.Get | app/api/scrape-fallback/route.ts:3-40 | a missing symbol gives 400 with no request; otherwise the Screener symbol is requested |
| ScrapeRoute.ScrapeDecidesResponse | app/api/scrape-fallback/route.ts:15-30 | success exactly when the scrape yields a quote, then labelled "Screener.in (Scraped)"; otherwise the scrape 500 |
| ScrapeRoute.FallReportsZeroPercent | app/api/scrape-fallback/route.ts:78 | a fall reports 0 % although the previous close is above the price |
| Text.ToLower | services/portfolioService.ts:99 | same length; each upper-case ASCII letter becomes its lower-case letter (code plus 32); other characters kept |
| Text.ToLowerIdempotent | services/portfolioService.ts:99 | lower-casing twice is lower-casing once |
| Text.IndexOf | services/portfolioService.ts:106 | the first position where the pattern occurs, or nothing when it occurs nowhere |
| Text.ContainsIff | services/portfolioService.ts:106 | inclusion holds exactly when some suffix starts with the pattern |
| Text.RemoveFirst | app/api/yahoo-finance/route.ts:65 | without an occurrence the text is kept; otherwise exactly the first occurrence is cut out |
| Text.Trim | components/RealTimeStockDashboard.tsx:85-86 | empty exactly for all-white-space text; otherwise neither starts nor ends with white space |
| Text.TrimCutsOnlySpace | components/RealTimeStockDashboard.tsx:85-86 | the text is white space, then the trimmed text, then white space: only leading and trailing white space is removed |
| Text.BlankIgnoresCase | components/RealTimeStockDashboard.tsx:85-86 | lower-casing does not change whether a query is blank |
| Text.Clean | app/api/google-finance/route.ts:40 | only digits, dots and minus signs remain, in their order, each as often as in the input (multiset) |
| Text.CleanIdempotent | app/api/google-finance/route.ts:40 | cleaning twice is cleaning once |
| Text.CleanJoinsGroups | app/api/google-finance/route.ts:40 | separators between digit groups are removed |
| Text.ParseFloat | app/api/yahoo-finance/route.ts:62-65 | a number exactly when the text, after an optional sign, starts with a digit or a dot followed by a digit |
| Text.ParseInt | app/api/yahoo-finance/route.ts:66 | a number exactly when the text, after an optional sign, starts with a digit |
| Text.ParseDecimal | app/api/yahoo-finance/route.ts:62-65 | digits, a dot and digits, followed by a non-digit or nothing, read as the integer part plus the fraction over its power of ten |
| Text.ParseIntDigits | app/api/yahoo-finance/route.ts:66 | a run of digits followed by a non-digit or nothing reads as the run's value |
| Text.MinusNegatesFloat | app/api/yahoo-finance/route.ts:62-65 | a leading minus negates the reading of unsigned text, and fails where it fails |
| Text.MinusNegatesInt | app/api/yahoo-finance/route.ts:66 | the same for the integer reading |
| Text.ParseDigits | app/api/google-finance/route.ts:40 | a digit string, with or without a minus sign, parses as its value |
| Text.IntTextRoundTrip | services/realTimeStockService.ts:192 | an integer's text parses back to the integer |
| Js.Percent | app/api/yahoo-finance/route.ts:34 | finite exactly when the whole is non-zero, and then the percentage times the whole is the part times 100 |

## Left out

- Network I/O (`fetch`, `axios`, headers, timeouts): each source outcome is an input. In the quote route it is a `Fetch` that threw, or responded with its `ok` flag and parsed body. In the service it is the optional quote a fetcher resolved to.
- The service's fetchers (`services/realTimeStockService.ts:96-168`): their normalisation is the one `QuoteRoute.ChartQuote` and `QuoteRoute.AlphaQuote` state for the route. The tick receives their results as `RealTime.Fetched`. A fetcher's price is a `real`, so a `NaN` price from Alpha Vantage is not represented there.
- HTML parsing (the cheerio selectors and the Screener.in regular expressions): the texts they pick out are inputs. Only the character stripping and parsing are modelled.
- Timer timing, `Promise.all` concurrency and overlapping ticks: one firing is `RealTimeStockService.Tick`. The runtime's live intervals are a ghost set.
- React state hooks, effects and rendering. The dashboard's subscription effect (`components/RealTimeStockDashboard.tsx:61-78`) is the service's `Subscribe`/`StartRealTimeUpdates`/`Unsubscribe`/`StopRealTimeUpdates`. The manual refresh (`components/RealTimeStockDashboard.tsx:164-187`) computes what `Dashboard.InitializeHybridData` computes.
- `Date` timestamps, `console` logging and the `lastUpdated` fields.
- `simulatePriceUpdate`, which depends on `Math.random` and `toFixed`.
- IEEE-754 arithmetic: amounts are exact reals, and `Infinity`/`NaN` are one `NonFinite` value. `Math.round` is modelled as rounding halves up on reals.
- `Text.ParseFloat`: exponents, leading white space and `Infinity` literals are not read. The texts the routes pass to it are either cleaned to digits, dots and minus signs, or are provider fields of that form. Its own contract says when a number results; the value is stated by `Text.ParseDecimal`, `Text.ParseDigits` and `Text.MinusNegatesFloat`.
- `Text.ToLower`: ASCII letters only; Unicode case mapping is not modelled.
- `process.env`: the presence of an Alpha Vantage key is a boolean input.
- The `getInstance` singletons: each service is one object.
- The spreadsheet columns `Gain/Loss`, `Gain/Loss\n(%)`, `Sale price` and the valuation columns (`Market Cap`, `P/E (TTM)`, `Latest Earnings`, `Book Value` and so on): no modelled operation reads them. Sectors appear only as heading rows whose `Particulars` contains "Sector", which `Portfolio.IndividualRows` drops. Every row carries every column, so an absent cell is `null`, written `None`.
- The chart and quote-API price fields are taken as present numbers. A response missing them would make the route answer `undefined`/`NaN` fields, which is not modelled.
- The Alpha Vantage text fields other than the price are taken as present strings. A missing `10. change percent` would throw at `.replace` and become the 500 "Internal server error". A missing previous close, change or volume would read as `NaN` and the route would still answer.
- `QuoteRoute.Get`: an exception is recorded per source as `Threw`, covering both `fetch` and `json()` failures. Exceptions raised while building a quote from a well-formed body are not modelled.
- The outer `catch` blocks of the financial-ratios and scraping routes (`app/api/google-finance/route.ts:112-121`, `app/api/scrape-fallback/route.ts:32-39`): with the page contents as inputs nothing in the modelled code can throw into them.
- The Screener symbol's requested URL is recorded; the page contents are an input.
- `RealTime.GetSymbolMapping`: the table is a keyed lookup of string codes. In the source it is an object literal, so a code naming an inherited `Object.prototype` member (`constructor`, `toString`, `valueOf`, `hasOwnProperty`, `__proto__`) reads that inherited value instead of `code + ".NS"`; the model treats such codes like any other unlisted code.
- `Text.ParseInt`: reads base 10 only. `parseInt` without a radix (`app/api/yahoo-finance/route.ts:66`) reads a `0x` prefix as hexadecimal, so `"0x1A"` gives 26 there and 0 here. Leading white space is not skipped either: `parseInt(" 12")` is 12 there and `None` here. Its own contract says when a number results; the value is stated by `Text.ParseIntDigits` and `Text.MinusNegatesInt`.
- `RealTime.RealTimeStockService.NotifySubscribers` (and `RealTime.RealTimeStockService.Tick`, which calls it): callbacks are modelled as returning. In the source `forEach` has no `try`, so a callback that throws stops the delivery to the subscribers after it and aborts that tick's publication. The dashboard's own callback makes two React state updates, which do not throw.
