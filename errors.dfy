/** Optional values, results and the exceptions the core raises. */
module Errors {

  /** Python's `Optional[...]`: a value or `None`. */
  datatype Option<+T> = None | Some(value: T)

  /**
   * One constructor per exception class the core raises or lets through.
   * `YahooSymbolNotFound` models `YahooSymbolNotFoundError`, which is a
   * subclass of `YahooClientError`; `YahooClientFailure` is a
   * `YahooClientError` that is not the not-found subclass. `Foreign` is any
   * other exception a provider raises (a `KeyError`, say), which the
   * services let through as itself.
   */
  datatype Error =
    | InvalidTicker(message: string)
    | TickerNotFound(message: string)
    | YahooSymbolNotFound(message: string)
    | YahooClientFailure(message: string)
    | PriceData(message: string)
      /** `AttributeError` from calling `.get` on a fundamentals section that is not a dict. */
    | AttributeError(section: string)
    | Foreign(message: string)
  {
    /** `isinstance(e, YahooClientError)`, honouring the subclass relation. */
    predicate IsYahooClientError() {
      YahooSymbolNotFound? || YahooClientFailure?
    }
  }

  /** A value returned normally, or the exception raised instead. */
  datatype Result<+T> = Ok(value: T) | Err(error: Error)
}
