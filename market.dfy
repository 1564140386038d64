/** The placeholder price table. */
module Market {
  import opened PyText

  /** `STOCK_PRICES`: the only tickers with a price. */
  const StockPrices: map<string, real> := map["AAPL" := 199.40, "GOOGL" := 2750.50, "MSFT" := 299.00]

  /**
   * `get_current_price`: the table price of the upper-cased ticker, 0 for
   * any ticker not in the table. The ticker is not stripped.
   */
  function GetCurrentPrice(ticker: string): (r: real)
    ensures Upper(ticker) in StockPrices ==> r == StockPrices[Upper(ticker)]
    ensures Upper(ticker) !in StockPrices ==> r == 0.0
    ensures r in {199.40, 2750.50, 299.00, 0.0}
  {
    var symbol := Upper(ticker);
    if symbol in StockPrices then StockPrices[symbol] else 0.0
  }

  /** The lookup ignores case: a ticker and its upper case have the same price. */
  lemma CaseInsensitive(ticker: string)
    ensures GetCurrentPrice(Upper(ticker)) == GetCurrentPrice(ticker)
  {
    UpperIdempotent(ticker);
  }

  /** A non-zero price comes from the table, and exactly from the ticker's own entry. */
  lemma PricedIffListed(ticker: string)
    ensures GetCurrentPrice(ticker) != 0.0 <==> Upper(ticker) in StockPrices
    ensures GetCurrentPrice(ticker) == 199.40 <==> Upper(ticker) == "AAPL"
    ensures GetCurrentPrice(ticker) == 2750.50 <==> Upper(ticker) == "GOOGL"
    ensures GetCurrentPrice(ticker) == 299.00 <==> Upper(ticker) == "MSFT"
  {
  }

  lemma PaddedAaplUpper()
    ensures Upper(" AAPL") == " AAPL"
  {
    UpperOfFixed(" AAPL");
  }

  /** "aapl" is priced as AAPL; " AAPL" is not trimmed and gets 0. */
  lemma LookupExamples()
    ensures GetCurrentPrice("aapl") == 199.40
    ensures GetCurrentPrice(" AAPL") == 0.0
  {
    AaplUpper();
    PaddedAaplUpper();
  }
}
