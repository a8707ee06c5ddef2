/** `GET /v1/finance/price`: the latest quote of a symbol, read from the
    Stooq CSV service. The HTTP exchange is an input, and so is the CSV
    parsing: the route sees the first row, if any, as a map from header
    to field. */
module Finance {
  import opened Wrappers
  import opened Text

  const MissingSymbol: string := "symbol is required"
  const NotFound: string := "symbol not found"
  const QuoteUrl: string := "https://stooq.com/q/l/"
  const TimeoutS: int := 10

  /** The GET request: the URL, its query parameters and the timeout. */
  datatype PriceQuery = PriceQuery(url: string, params: map<string, string>, timeoutS: int)

  /** The first CSV row: each header with its field, `None` for a field
      missing from a short row. */
  type Row = map<string, Option<string>>

  /** What the request gave: `RequestException` (its `str`), or the first
      row of the CSV text, if it has one. */
  datatype PriceFetched = PriceFailed(message: string) | Rows(first: Option<Row>)

  function QueryFor(symbol: string): PriceQuery {
    PriceQuery(QuoteUrl, map["s" := symbol, "f" := "sd2t2ohlcv", "h" := "", "e" := "csv"], TimeoutS)
  }

  /** `row.get(key)`. */
  function Field(row: Row, key: string): Option<string> {
    if key in row then row[key] else None
  }

  /** `not row or row.get("Close") in (None, "N/A")`. */
  predicate NoQuote(first: Option<Row>) {
    first.None? || first.value == map[] || Field(first.value, "Close") in {None, Some("N/A")}
  }

  /** The dict returned for a quote. */
  datatype Quote = Quote(
    symbol: string,
    date: Option<string>,
    time: Option<string>,
    open: Option<string>,
    high: Option<string>,
    low: Option<string>,
    close: Option<string>,
    volume: Option<string>)

  /** The route's answer: a quote, or an `HTTPException`. */
  datatype PriceAnswer = Price(quote: Quote) | PriceError(statusCode: int, detail: string)

  /** `get_finance_price(symbol)`. */
  function GetFinancePrice(symbol: string, fetch: PriceQuery -> PriceFetched): (r: PriceAnswer)
    // a blank symbol: 400, and the network is not consulted
    ensures Blank(symbol) ==> r == PriceError(400, MissingSymbol)
    ensures !Blank(symbol) ==>
      var f := fetch(QueryFor(symbol));
      && (f.PriceFailed? ==> r == PriceError(502, "price lookup failed: " + f.message))
      && (f.Rows? ==> (r == PriceError(404, NotFound) <==> NoQuote(f.first)))
      && (f.Rows? && !NoQuote(f.first) ==>
            var row := f.first.value;
            && r.Price?
            // the symbol the service reports, or the one asked for when it reports none
            && r.quote.symbol ==
                 (if Field(row, "Symbol") in {None, Some("")} then symbol else Field(row, "Symbol").value)
            // every other field copied verbatim
            && r.quote.date == Field(row, "Date") && r.quote.time == Field(row, "Time")
            && r.quote.open == Field(row, "Open") && r.quote.high == Field(row, "High")
            && r.quote.low == Field(row, "Low") && r.quote.close == Field(row, "Close")
            && r.quote.volume == Field(row, "Volume"))
  {
    if Strip(symbol) == [] then PriceError(400, MissingSymbol)
    else
      match fetch(QueryFor(symbol))
      case PriceFailed(message) => PriceError(502, "price lookup failed: " + message)
      case Rows(first) =>
        if NoQuote(first) then PriceError(404, NotFound)
        else
          var row := first.value;
          var reported := Field(row, "Symbol");
          Price(Quote(
            if reported.None? || reported.value == "" then symbol else reported.value,
            Field(row, "Date"), Field(row, "Time"), Field(row, "Open"), Field(row, "High"),
            Field(row, "Low"), Field(row, "Close"), Field(row, "Volume")))
  }

  /** A quote found always has a closing price other than "N/A". */
  lemma QuoteHasClose(symbol: string, fetch: PriceQuery -> PriceFetched)
    requires GetFinancePrice(symbol, fetch).Price?
    ensures var q := GetFinancePrice(symbol, fetch).quote;
      q.close.Some? && q.close != Some("N/A")
  {
  }
}
