/**
 * The data provider as seen by the core: the outcome of one call, the
 * exceptions it raises, and the existence check built on `fetch_quote`.
 */
module YahooClient {
  import opened Errors
  import opened PyValue

  /**
   * The outcome of one provider call: it returns a payload, raises
   * `YahooSymbolNotFoundError`, raises another `YahooClientError`, or
   * raises an exception outside that hierarchy, with that exception's
   * message.
   */
  datatype Fetch<+T> =
    | Fetched(value: T)
    | NotFound(message: string)
    | Failed(message: string)
    | Crashed(message: string)

  /** The exception a failed call raises, carried unchanged to the caller. */
  function Raised<T>(f: Fetch<T>): (e: Error)
    requires !f.Fetched?
    ensures e.IsYahooClientError() <==> !f.Crashed?
    ensures e.YahooSymbolNotFound? <==> f.NotFound?
    ensures e.Foreign? <==> f.Crashed?
    ensures e.message == f.message
  {
    match f
    case NotFound(m) => YahooSymbolNotFound(m)
    case Failed(m) => YahooClientFailure(m)
    case Crashed(m) => Foreign(m)
  }

  /** The payload of `fetch_quote`: a dict of quote fields. */
  type Quote = map<string, Value>

  /** `YahooClient.fetch_quote` of a client, as a function of the symbol. */
  type QuoteSource = string -> Fetch<Quote>

  const TalkingPrefix := "Error talking to Yahoo Finance: "

  /**
   * `ticker_exists`: true when the quote call returns, whatever it returns;
   * false when it raises `YahooSymbolNotFoundError`; any other exception,
   * inside the `YahooClientError` hierarchy or not, is re-raised as a
   * `YahooClientError`, never as false.
   */
  function TickerExists(symbol: string, fetchQuote: QuoteSource): (r: Result<bool>)
    ensures r == Ok(true) <==> fetchQuote(symbol).Fetched?
    ensures r == Ok(false) <==> fetchQuote(symbol).NotFound?
    ensures r.Err? <==> fetchQuote(symbol).Failed? || fetchQuote(symbol).Crashed?
    ensures r.Err? ==> r.error == YahooClientFailure(TalkingPrefix + fetchQuote(symbol).message)
  {
    match fetchQuote(symbol)
    case Fetched(_) => Ok(true)
    case NotFound(_) => Ok(false)
    case Failed(m) => Err(YahooClientFailure(TalkingPrefix + m))
    case Crashed(m) => Err(YahooClientFailure(TalkingPrefix + m))
  }

  /** An exception outside the `YahooClientError` hierarchy comes out of the check wrapped as one. */
  lemma ForeignExceptionWrapped(symbol: string, fetchQuote: QuoteSource)
    requires fetchQuote(symbol).Crashed?
    ensures Raised(fetchQuote(symbol)).Foreign?
    ensures TickerExists(symbol, fetchQuote).Err?
    ensures TickerExists(symbol, fetchQuote).error.IsYahooClientError()
  {
  }

  /**
   * The not-found exception is itself a `YahooClientError`, so the general
   * clause would swallow it into an error if it came first; the check
   * instead answers false for it.
   */
  lemma NotFoundCaughtFirst(symbol: string, fetchQuote: QuoteSource)
    requires fetchQuote(symbol).NotFound?
    ensures Raised(fetchQuote(symbol)).IsYahooClientError()
    ensures TickerExists(symbol, fetchQuote) == Ok(false)
  {
  }

  /** The answer depends on the one quote call for `symbol` and nothing else. */
  lemma TickerExistsOneCall(symbol: string, a: QuoteSource, b: QuoteSource)
    requires a(symbol) == b(symbol)
    ensures TickerExists(symbol, a) == TickerExists(symbol, b)
  {
  }
}
