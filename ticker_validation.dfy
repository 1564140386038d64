/** The ticker validation service: format check, then existence check. */
module TickerValidation {
  import opened Errors
  import opened PyText
  import opened PyValue
  import Ticker
  import opened YahooClient

  function NotFoundMessage(symbol: string): string {
    "Ticker symbol '" + symbol + "' not found."
  }

  /**
   * `TickerValidationService.validate_ticker` for a service whose client
   * answers quotes with `fetchQuote`. A malformed input fails before the
   * client is asked; otherwise the client is asked about the normalised
   * symbol, and the answer decides between the symbol, `TickerNotFoundError`
   * and `YahooClientError`.
   */
  function ValidateTicker(fetchQuote: QuoteSource, raw: Option<string>): (r: Result<string>)
    ensures Ticker.NormaliseAndValidate(raw).Err? ==> r == Ticker.NormaliseAndValidate(raw)
    ensures Ticker.NormaliseAndValidate(raw).Ok? ==>
      var symbol := Ticker.NormaliseAndValidate(raw).value;
      var outcome := fetchQuote(symbol);
      && (r.Ok? <==> outcome.Fetched?)
      && (r.Ok? ==> r.value == symbol)
      && (outcome.NotFound? ==> r == Err(TickerNotFound(NotFoundMessage(symbol))))
      && (outcome.Failed? || outcome.Crashed? ==> r == Err(YahooClientFailure(TalkingPrefix + outcome.message)))
  {
    match Ticker.NormaliseAndValidate(raw)
    case Err(e) => Err(e)
    case Ok(symbol) =>
      match TickerExists(symbol, fetchQuote)
      case Err(e) => Err(e)
      case Ok(found) =>
        if !found then Err(TickerNotFound(NotFoundMessage(symbol))) else Ok(symbol)
  }

  /**
   * "Not found" and "other failure" stay apart: the result is
   * `TickerNotFoundError` exactly when the provider reported the normalised
   * symbol missing, and a `YahooClientError` exactly when the provider failed
   * some other way.
   */
  lemma NotFoundKeptDistinct(fetchQuote: QuoteSource, raw: Option<string>)
    ensures var r := ValidateTicker(fetchQuote, raw);
      var n := Ticker.NormaliseAndValidate(raw);
      && (r.Err? && r.error.TickerNotFound? <==> n.Ok? && fetchQuote(n.value).NotFound?)
      && (r.Err? && r.error.IsYahooClientError() <==> n.Ok? && (fetchQuote(n.value).Failed? || fetchQuote(n.value).Crashed?))
      && (r.Err? && r.error.InvalidTicker? <==> n.Err?)
  {
  }

  /** A malformed input fails the same way whatever the provider would say. */
  lemma InvalidBeforeProvider(raw: Option<string>, a: QuoteSource, b: QuoteSource)
    requires Ticker.NormaliseAndValidate(raw).Err?
    ensures ValidateTicker(a, raw) == ValidateTicker(b, raw)
    ensures ValidateTicker(a, raw).error.InvalidTicker?
  {
  }

  /** The provider is asked about the normalised symbol and nothing else. */
  lemma AsksNormalisedSymbol(raw: Option<string>, a: QuoteSource, b: QuoteSource)
    requires Ticker.NormaliseAndValidate(raw).Ok?
    requires a(Ticker.NormaliseAndValidate(raw).value) == b(Ticker.NormaliseAndValidate(raw).value)
    ensures ValidateTicker(a, raw) == ValidateTicker(b, raw)
  {
  }

  /** The not-found message names the symbol. */
  lemma NotFoundMessageNamesSymbol(symbol: string)
    ensures Contains(NotFoundMessage(symbol), symbol)
  {
    assert OccursAt(NotFoundMessage(symbol), symbol, 15);
  }

  /** " aapl " validates to "AAPL" when the provider has a quote for "AAPL". */
  lemma AaplValidates(fetchQuote: QuoteSource)
    requires fetchQuote("AAPL").Fetched?
    ensures ValidateTicker(fetchQuote, Some(" " + "aapl" + " ")) == Ok("AAPL")
  {
    Ticker.AaplAccepted();
  }

  /** "$$$" fails with `InvalidTickerError` whatever the provider. */
  lemma DollarsInvalid(fetchQuote: QuoteSource)
    ensures ValidateTicker(fetchQuote, Some("$$$")).Err?
    ensures ValidateTicker(fetchQuote, Some("$$$")).error.InvalidTicker?
  {
    Ticker.DollarsRejected();
  }

  /**
   * The client double of the validation service's unit tests: a quote for
   * every symbol except "MISSING", reported not found, and "BROEKN",
   * which fails.
   */
  function TestClient(symbol: string): Fetch<Quote> {
    if symbol == "MISSING" then NotFound("No data for MISSING")
    else if symbol == "BROEKN" then Failed("Yahoo service error")
    else Fetched(map["symbol" := VStr(symbol)])
  }

  /** "MISSING" has seven letters, so it fails on format and never reaches the client's not-found answer. */
  lemma MissingTestIsMalformed()
    ensures ValidateTicker(TestClient, Some("MISSING")) == Err(InvalidTicker(Ticker.FormatMessage("MISSING")))
  {
    Ticker.CanonicalLongWordRejected("MISSING");
  }

  /** "BROKEN" has six letters, so it fails on format and never reaches a client failure. */
  lemma BrokenTestIsMalformed()
    ensures ValidateTicker(TestClient, Some("BROKEN")) == Err(InvalidTicker(Ticker.FormatMessage("BROKEN")))
  {
    Ticker.CanonicalLongWordRejected("BROKEN");
  }

  /** A client double whose not-found and failing symbols are well-formed tickers. */
  function WellFormedTestClient(symbol: string): Fetch<Quote> {
    if symbol == "MISS" then NotFound("No data for MISS")
    else if symbol == "BRKN" then Failed("Yahoo service error")
    else Fetched(map["symbol" := VStr(symbol)])
  }

  /** With a well-formed missing symbol the service raises `TickerNotFoundError`. */
  lemma WellFormedMissingNotFound()
    ensures ValidateTicker(WellFormedTestClient, Some("MISS")) == Err(TickerNotFound(NotFoundMessage("MISS")))
  {
    assert Ticker.AllTickerLetters("MISS"[..4]);
    Ticker.NormaliseCanonical("MISS");
  }

  /** With a well-formed failing symbol the service raises a `YahooClientError`. */
  lemma WellFormedBrokenUpstream()
    ensures ValidateTicker(WellFormedTestClient, Some("BRKN")).Err?
    ensures ValidateTicker(WellFormedTestClient, Some("BRKN")).error.IsYahooClientError()
    ensures !ValidateTicker(WellFormedTestClient, Some("BRKN")).error.YahooSymbolNotFound?
  {
    assert Ticker.AllTickerLetters("BRKN"[..4]);
    Ticker.NormaliseCanonical("BRKN");
  }
}
