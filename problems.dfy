/** The error bodies the API routes answer with, shared by all of them. */
module Problems {
  import opened Js

  /** What went wrong; it determines the body's status, `error` and `message` fields. */
  datatype Problem =
    | SymbolRequired
    | NoSourceAnswered
    | NothingScraped
    | NoFinancialData
    | Exception(message: string)

  /** The HTTP status of an error body: 400 for a missing symbol, 500 for everything else. */
  function Status(p: Problem): (code: int)
    ensures code == 400 <==> p.SymbolRequired?
    ensures code != 400 ==> code == 500
  {
    if p.SymbolRequired? then 400 else 500
  }

  /** The `error` field of an error body. */
  function ErrorText(p: Problem): string
  {
    match p
    case SymbolRequired => "Symbol parameter is required"
    case NoSourceAnswered => "Unable to fetch real-time data from all sources"
    case NothingScraped => "Unable to scrape data"
    case NoFinancialData => "Unable to fetch real-time financial data from any source"
    case Exception(_) => "Internal server error"
  }

  /** The `message` field of an error body, absent for a missing symbol. */
  function MessageText(p: Problem): (m: Option<string>)
    ensures m.None? <==> p.SymbolRequired?
    ensures p.Exception? ==> m == Some(p.message)
  {
    match p
    case SymbolRequired => None
    case NoSourceAnswered => Some("Please check the symbol or try again later")
    case NothingScraped => Some("Please check the symbol or try again later")
    case NoFinancialData => Some("Both Google Finance and Yahoo Finance failed to provide data")
    case Exception(m) => Some(m)
  }
}
