# stock-evaluator core, modelled in Dafny

stock-evaluator is a small HTTP service. Its core does four things:

- It normalises and validates stock ticker symbols.
- It checks that a symbol exists with the market-data provider (Yahoo Finance).
- It derives price changes and fundamentals ratios from the provider's raw data.
- It aggregates registered metrics for a ticker.

This project models that core as Dafny modules, one per source file, plus
four modules for the Python built-ins the core relies on:

| module | models |
|---|---|
| `Errors` | the exceptions the core raises (`InvalidTickerError`, `TickerNotFoundError`, `YahooSymbolNotFoundError`, `YahooClientError`, `PriceDataError`, `AttributeError`), and any other exception a provider raises, as a `Result` |
| `PyText` | `str.isspace`, `strip()`, `upper()`, substring search, string ordering |
| `PySorted` | `sorted()` of a dict's string keys, its least and greatest key |
| `PyValue` | the dynamic values in provider payloads, truthiness, `dict.get`, `float()` |
| `Ticker` | `src/app/utils/ticker.py` |
| `YahooClient` | the error hierarchy and `ticker_exists` in `src/app/providers/yahoo_client.py` |
| `TickerValidation` | `src/app/core/ticker_validation.py` |
| `PriceService` | `src/app/core/price_service.py` |
| `FundamentalsService` | `src/app/core/fundamentals_service.py` |
| `Market` | `src/app/providers/market.py` |
| `Metrics` | `src/app/metrics/__init__.py`, with `StockPriceMetric` from `src/app/metrics/price.py` |

The provider's calls are parameters. Each is a function from its arguments to
a `Fetch` outcome: a payload, a "symbol not found" error, another
`YahooClientError`, or an exception outside that hierarchy (a `KeyError`, say).
The services re-raise the last kind as itself (`Errors.Foreign`), while
`ticker_exists` wraps it in a `YahooClientError`.
A service is therefore proved for every possible provider answer.
The asynchronous `await` is a plain call here.

The aggregation loop in `evaluate_all` is an imperative method. It is proved
against a recursive specification function. Everything else in the core
computes a value, and is modelled by functions and lemmas.

## Model

| member | source | states |
|---|---|---|
| PyText.Strip | src/app/utils/ticker.py:23 | `strip()` drops whitespace only from the ends: the result never grows, has no whitespace at either end, and is empty exactly when the input is all whitespace |
| PyText.StripKeepsCharacters | src/app/utils/ticker.py:23 | every character left by `strip()` was in the input |
| PyText.StripFixed | src/app/utils/ticker.py:23 | a string with no whitespace at either end is its own strip |
| PyText.StripPadded | src/app/utils/ticker.py:23 | whitespace around a word with non-space ends is exactly what `strip()` removes |
| PyText.UpperChar | src/app/utils/ticker.py:23 | `upper()` of one character gives 1 to 3 characters; whitespace is kept and a non-space stays non-space |
| PyText.Upper | src/app/utils/ticker.py:23 | `upper()` never shortens a string and leaves no character that upper-casing would change |
| PyText.UpperAppend | src/app/utils/ticker.py:23 | `upper()` distributes over concatenation |
| PyText.UpperOfFixed | src/app/utils/ticker.py:23 | a string of characters that `upper()` keeps is its own upper case |
| PyText.UpperIdempotent | src/app/providers/market.py:16 | upper-casing twice is upper-casing once |
| PyText.UpperHasNoLowercase | src/app/utils/ticker.py:23 | the upper case of a string holds no `a`-`z` |
| PyText.UpperKeepsEnds | src/app/utils/ticker.py:23-24 | upper-casing keeps a stripped string's ends non-space and keeps it non-empty |
| PyText.StrLeReflexive | src/app/core/fundamentals_service.py:24 | string order is reflexive |
| PyText.StrLeAntisymmetric | src/app/core/fundamentals_service.py:24 | string order is antisymmetric |
| PyText.StrLeTransitive | src/app/core/fundamentals_service.py:24 | string order is transitive |
| PyText.StrLeTotal | src/app/core/fundamentals_service.py:24 | any two strings are ordered one way or the other |
| PySorted.GreatestExists | src/app/core/fundamentals_service.py:24 | every non-empty key set has a greatest key |
| PySorted.GreatestUnique | src/app/core/fundamentals_service.py:24 | the greatest key is unique |
| PySorted.MaxKey | src/app/core/fundamentals_service.py:24 | `sorted(keys)[-1]` is the greatest key |
| PySorted.SortedKeys | src/app/core/fundamentals_service.py:144 | `sorted(keys)` lists each key once, in strictly increasing order |
| PySorted.SortedKeysEnds | src/app/core/fundamentals_service.py:144-146 | the last sorted key is the greatest, and the first is below every key |
| PySorted.MinKey | src/app/core/fundamentals_service.py:145 | `sorted(keys)[0]` is the least key |
| PySorted.TwoKeys | src/app/core/fundamentals_service.py:144-146 | of two keys in order, the first sorts first and the second last |
| PyValue.FalsyValues | src/app/core/fundamentals_service.py:54-56 | `bool(v)` is false exactly for zero, `False`, the empty string, `None` and the empty dict |
| PyValue.GetOr | src/app/core/fundamentals_service.py:54-56 | `d.get(key, default)` gives the entry when present and the default otherwise |
| PyValue.Get | src/app/core/fundamentals_service.py:58 | `d.get(key)` is the entry for a present key and `None` for a missing one |
| PyValue.FirstIndex | src/app/core/fundamentals_service.py:96 | the index found is the first character satisfying the test, or the length |
| PyValue.ParseFloat | src/app/core/fundamentals_service.py:96 | `float()` of a blank string raises |
| PyValue.DigitsParse | src/app/core/fundamentals_service.py:96 | a string of decimal digits parses to the whole number it spells |
| PyValue.NoDigitRejected | src/app/core/fundamentals_service.py:96-98 | a string with no ASCII digit never parses in the model (Python's `float()` also accepts `inf`, `nan` and Unicode digits; see PyValue.ParseFloat under Left out) |
| Ticker.NormaliseAndValidate | src/app/utils/ticker.py:11-30 | `None` and blank input fail with their own messages. The call succeeds exactly when the stripped, upper-cased input matches `[A-Z]{1,5}(\.[A-Z]{1,2})?`, and then returns that string. Every failure is `InvalidTickerError`, and a non-blank input that fails carries the format message quoting the raw input |
| Ticker.GrammarSplit | src/app/utils/ticker.py:3 | a matching string is 1 to 5 letters, optionally followed by a dot and 1 or 2 letters |
| Ticker.RegexEndAnchor | src/app/utils/ticker.py:3 | `TICKER_REGEX.match` accepts every string in the grammar, accepts a grammar string followed by one newline (Python's `$`), and on a string ending in a non-space accepts exactly the grammar |
| Ticker.GrammarWithoutDot | src/app/utils/ticker.py:3 | a matching string with no dot has at most 5 letters |
| Ticker.GrammarShape | src/app/utils/ticker.py:3 | a matching string has 1 to 8 characters, all `A`-`Z` but at most one dot, never first or last |
| Ticker.NormalisedShape | src/app/utils/ticker.py:23-30 | a normalised symbol has 1 to 8 characters and no whitespace or lower case. It holds at most one dot, never first or last |
| Ticker.NormaliseIdempotent | src/app/utils/ticker.py:11-30 | normalising a normalised symbol gives it back |
| Ticker.MissingOrBlankRejected | src/app/utils/ticker.py:20-25 | `None` and blank input fail with a message containing "cannot be" |
| Ticker.NormaliseCanonical | src/app/utils/ticker.py:23-30 | a string that strip and upper-case leave alone is accepted as itself, or rejected with the format message |
| Ticker.AaplCanonical | tests/utils/test_ticker.py:11 | "AAPL" normalises to itself |
| Ticker.MsftAccepted | tests/utils/test_ticker.py:12 | " msft " normalises to "MSFT" |
| Ticker.BrkAccepted | tests/utils/test_ticker.py:15 | " BRK.A" normalises to "BRK.A" |
| Ticker.AaplAccepted | tests/core/ticker_validation.py:35-36 | " aapl " normalises to "AAPL" |
| Ticker.RejectsBadCharacter | src/app/utils/ticker.py:23-28 | an input whose stripped, upper-cased form holds a character outside `A`-`Z` and the dot fails |
| Ticker.PunctuationRejected | tests/utils/test_ticker.py:39 | "AAPL!" is rejected |
| Ticker.InnerSpaceRejected | tests/utils/test_ticker.py:40 | "AAP L" is rejected |
| Ticker.LongWordRejected | src/app/utils/ticker.py:23-28 | an input whose stripped, upper-cased form is longer than 5 characters and has no dot fails with the format message |
| Ticker.SixLettersRejected | tests/utils/test_ticker.py:41 | "AAAAAA" is rejected |
| Ticker.TwoDotsRejected | tests/utils/test_ticker.py:42 | "A.B.C" is rejected |
| Ticker.DollarsRejected | tests/core/ticker_validation.py:42-43 | "$$$" is rejected |
| YahooClient.Raised | src/app/providers/yahoo_client.py:7-11 | the exception a failed call raises keeps its message; it is a `YahooClientError` unless it came from outside that hierarchy, and the not-found one exactly for a not-found outcome |
| YahooClient.TickerExists | src/app/providers/yahoo_client.py:74-90 | true exactly when the quote call returns, false exactly when it raises not-found. Any other exception is re-raised as `YahooClientError` with the "Error talking to Yahoo Finance: " prefix, never turned into false. This holds for exceptions outside the `YahooClientError` hierarchy too |
| YahooClient.ForeignExceptionWrapped | src/app/providers/yahoo_client.py:89-90 | an exception outside the `YahooClientError` hierarchy comes out of the check as a `YahooClientError` |
| YahooClient.NotFoundCaughtFirst | src/app/providers/yahoo_client.py:84-88 | not-found is a `YahooClientError` yet answers false: it is caught before the general clause |
| YahooClient.TickerExistsOneCall | src/app/providers/yahoo_client.py:84-86 | the answer depends only on the one quote call for the symbol |
| TickerValidation.ValidateTicker | src/app/core/ticker_validation.py:18-31 | malformed input fails before the client is asked. Otherwise the normalised symbol is returned exactly when the client has a quote for it. A not-found answer gives `TickerNotFoundError`; another failure gives the wrapped `YahooClientError` |
| TickerValidation.NotFoundKeptDistinct | src/app/core/ticker_validation.py:25-31 | each exception kind arises exactly in its own case. `TickerNotFoundError` means the provider said not-found; `YahooClientError` means it failed otherwise; `InvalidTickerError` means the input was malformed |
| TickerValidation.InvalidBeforeProvider | src/app/core/ticker_validation.py:25-27 | for malformed input the outcome is the same whatever the provider would answer |
| TickerValidation.AsksNormalisedSymbol | src/app/core/ticker_validation.py:25-27 | only the provider's answer for the normalised symbol matters |
| TickerValidation.NotFoundMessageNamesSymbol | src/app/core/ticker_validation.py:29 | the not-found message contains the symbol |
| TickerValidation.AaplValidates | tests/core/ticker_validation.py:32-36 | " aapl " validates to "AAPL" when the provider has a quote |
| TickerValidation.DollarsInvalid | tests/core/ticker_validation.py:39-43 | "$$$" fails with `InvalidTickerError` whatever the provider |
| TickerValidation.MissingTestIsMalformed | tests/core/ticker_validation.py:47-51 | with the test's client double, "MISSING" fails on format |
| TickerValidation.BrokenTestIsMalformed | tests/core/ticker_validation.py:55-59 | with the test's client double, "BROKEN" fails on format |
| TickerValidation.WellFormedMissingNotFound | tests/core/ticker_validation.py:47-51 | a well-formed symbol the client reports missing gives `TickerNotFoundError` |
| TickerValidation.WellFormedBrokenUpstream | tests/core/ticker_validation.py:55-59 | a well-formed symbol whose call fails gives a `YahooClientError` that is not the not-found one |
| PriceService.PctChange | src/app/core/price_service.py:11-24 | the change against a previous value of 0 is 0. Otherwise, applying the percentage to the previous value gives the current one |
| PriceService.PctChangeRecovers | src/app/core/price_service.py:22-24 | growing the previous value by the percentage change gives back the current value |
| PriceService.PctChangeSign | src/app/core/price_service.py:22-24 | against a positive previous value, the change is 0, positive or negative exactly as the value stayed, rose or fell |
| PriceService.GetPriceForSymbol | src/app/core/price_service.py:33-68 | malformed input fails first, and provider exceptions pass through unchanged. Fewer than 2 history entries gives `PriceDataError`. Otherwise the newest close is current, compared with the second-newest (1 day) and the oldest (week) |
| PriceService.ChangesRecoverCurrent | src/app/core/price_service.py:55-61 | each reported change, applied to its compared close, gives back the current price |
| PriceService.TwoPointsSameChanges | src/app/core/price_service.py:55-61 | with two entries the day and week changes coincide |
| PriceService.ProviderErrorsPropagate | src/app/core/price_service.py:45-49 | a provider exception reaches the caller with its message. It is a `YahooClientError` unless the provider raised something outside that hierarchy, and not-found exactly when the provider said so |
| PriceService.InvalidBeforeFetch | src/app/core/price_service.py:43-49 | for malformed input the outcome is the same whatever the client would answer |
| PriceService.FetchesNormalisedWeek | src/app/core/price_service.py:46 | only the client's answer for 7 days of the normalised symbol matters |
| PriceService.RisingWeekExample | tests/core/test_price_service.py:51-61 | closes 100 to 106 give current 106, a day change of 100/105 percent and a week change of 6 percent |
| PriceService.ShortHistoryRejected | src/app/core/price_service.py:51-52 | a single history entry gives `PriceDataError` |
| PriceService.MissingFields | src/app/schemas/price.py:3-7 | a field is left unset exactly when the schema requires it and no keyword gives it |
| PriceService.ServiceOmitsWeekField | src/app/core/price_service.py:63-68 | the service's keywords leave `change_1w_pct` unset |
| PriceService.RenamedWeekFieldComplete | src/app/schemas/price.py:7 | passing the week change as `change_1w_pct` sets every required field |
| FundamentalsService.SafeFloat | src/app/core/fundamentals_service.py:85-98 | numbers and booleans convert. A string converts as `float()` parses it. `None`, dicts and `VOther` (a truthy object that `float()` rejects with `TypeError`) give `None` |
| FundamentalsService.PercentFromDecimal | src/app/core/fundamentals_service.py:100-113 | `None` exactly when the value is not numeric; otherwise the fraction times 100 |
| FundamentalsService.RatioPercent | src/app/core/fundamentals_service.py:115-128 | `None` exactly for a missing operand or a zero denominator; otherwise the result times the denominator is 100 times the numerator |
| FundamentalsService.LatestNumeric | src/app/core/fundamentals_service.py:11-27 | `None` for anything but a non-empty dict; otherwise the converted value under the greatest period key |
| FundamentalsService.LatestIgnoresEarlier | src/app/core/fundamentals_service.py:21-25 | values under any key but the greatest do not affect the result |
| FundamentalsService.Span | src/app/core/fundamentals_service.py:153 | the span is at least 1 and at most `years`. It is 1 for up to 2 periods, otherwise the number of periods less one, capped at `years` |
| FundamentalsService.RevenueCagrPercent | src/app/core/fundamentals_service.py:130-157 | defined exactly when the data is a non-empty dict whose earliest and latest values are numeric and positive. It is then the compound growth over the span |
| FundamentalsService.Cagr | src/app/core/fundamentals_service.py:155-157 | one plus the percentage over 100 is the `1/span`-th power of end over start: the constant per-period growth factor |
| FundamentalsService.CagrOneStep | src/app/core/fundamentals_service.py:156-157 | over one step the growth is end over start, less one, as a percentage |
| FundamentalsService.CagrFlat | src/app/core/fundamentals_service.py:156-157 | equal start and end values give zero growth over any span |
| FundamentalsService.CagrSingleStep | src/app/core/fundamentals_service.py:153-157 | with at most two periods the growth is the plain ratio of latest to earliest, less one |
| FundamentalsService.CagrDoubling | src/app/core/fundamentals_service.py:130-157 | revenue 100 in 2019 and 200 in 2024 is 100 percent growth |
| FundamentalsService.CagrNeedsTable | src/app/core/fundamentals_service.py:141-148 | an empty dict, or a value that is not a mapping, has no growth rate |
| FundamentalsService.Section | src/app/core/fundamentals_service.py:54-56 | a missing or falsy section reads as an empty dict, so `x or {}` replaces exactly zero, `False`, the empty string, `None` and the empty dict; a truthy section is kept |
| FundamentalsService.ReturnOnCapital | src/app/core/fundamentals_service.py:66-69 | the ROIC percentage when ROIC is numeric, otherwise the return-on-equity percentage |
| FundamentalsService.Derive | src/app/core/fundamentals_service.py:54-83 | a truthy section that is not a mapping raises `AttributeError`, sections checked in the order info, cashflow, income statement. Otherwise each field comes from its own input, and FCF yield is latest free cash flow over market cap |
| FundamentalsService.GetFundamentalsForSymbol | src/app/core/fundamentals_service.py:37-83 | malformed input fails first, and provider exceptions pass through unchanged. Otherwise the response is derived from the bundle for the normalised symbol |
| FundamentalsService.InvalidBeforeFetch | src/app/core/fundamentals_service.py:46-52 | for malformed input the outcome is the same whatever the provider would answer |
| FundamentalsService.ProviderErrorsPropagate | src/app/core/fundamentals_service.py:48-52 | a provider exception reaches the caller with its message. It is a `YahooClientError` unless the provider raised something outside that hierarchy, and not-found exactly when the provider said so |
| FundamentalsService.EmptyBundle | src/app/core/fundamentals_service.py:54-83 | an empty bundle yields every field `None`, not an error |
| FundamentalsService.MissingSectionGivesNone | src/app/core/fundamentals_service.py:54-72 | a missing section leaves the fields drawn from it `None` |
| FundamentalsService.RoicFallback | src/app/core/fundamentals_service.py:67-69 | the result is present exactly when ROIC or ROE is numeric; a numeric ROIC wins |
| FundamentalsService.RoicAbsentUsesEquity | src/app/core/fundamentals_service.py:67-69 | with ROIC absent, an ROE of 0.10 is reported as 10 percent |
| FundamentalsService.RoicTextUsesEquity | src/app/core/fundamentals_service.py:67-69 | a non-numeric ROIC also falls back to ROE |
| FundamentalsService.SampleFundamentals | src/app/core/fundamentals_service.py:37-83 | the worked bundle gives P/E 25 and 20, market cap 1000, dividend yield 1, ROIC 15, FCF yield 5 and revenue growth 100 |
| FundamentalsService.SampleDividendYield | src/app/core/fundamentals_service.py:61 | a dividend yield of 0.01 is reported as 1 percent |
| FundamentalsService.TestDividendYieldIsHundred | tests/core/test_fundamentals_service.py:16 | the unit test's dividend yield of 1 is reported as 100 percent |
| Market.GetCurrentPrice | src/app/providers/market.py:1-18 | the table price of the upper-cased ticker, 0 for a ticker not in the table; never any other value |
| Market.CaseInsensitive | src/app/providers/market.py:16 | a ticker and its upper case have the same price |
| Market.PricedIffListed | src/app/providers/market.py:10-18 | the price is non-zero exactly when the upper-cased ticker is listed, and each listed price belongs to its own ticker |
| Market.LookupExamples | src/app/providers/market.py:16-18 | "aapl" is priced 199.40; " AAPL" is not stripped and gets 0 |
| Metrics.ErrorPersists | src/app/metrics/__init__.py:20-22 | once a metric has raised, the rest of the list does not change the outcome |
| Metrics.EvaluateMetrics | src/app/metrics/__init__.py:17-24 | the loop's result is the in-order evaluation of the list |
| Metrics.EvaluateAll | src/app/metrics/__init__.py:7-24 | for the registered list, the result maps "stock_price" to the ticker's current price |
| Metrics.EvaluationOkIff | src/app/metrics/__init__.py:20-22 | the aggregation succeeds exactly when every metric computes without raising |
| Metrics.FirstErrorAborts | src/app/metrics/__init__.py:20-22 | the first metric that raises decides the exception, and no partial mapping is returned |
| Metrics.EvaluationKeys | src/app/metrics/__init__.py:17-22 | a successful result has exactly one key per metric name |
| Metrics.EvaluationValues | src/app/metrics/__init__.py:20-22 | each name holds the value of the last metric registered under it |
| Metrics.RegisteredEvaluation | src/app/metrics/__init__.py:7-9 | the registered list evaluates to the stock price alone |
| Metrics.TickerPassedAsGiven | src/app/metrics/__init__.py:20-21 | the ticker reaches the metric unnormalised: " AAPL" is priced 0 |

## Findings

| source | as written | input that shows it | evidently intended | confidence | as-written member | corrected member |
|---|---|---|---|---|---|---|
| tests/core/ticker_validation.py:47-51 | the not-found test uses the 7-letter symbol "MISSING" | "MISSING" fails the 1 to 5 letter format check, so `InvalidTickerError` is raised, not `TickerNotFoundError` | a well-formed symbol the client double reports missing | high (proved; not executed) | TickerValidation.MissingTestIsMalformed | TickerValidation.WellFormedMissingNotFound |
| tests/core/ticker_validation.py:55-59 | the upstream-error test uses the 6-letter "BROKEN"; the double fails only for "BROEKN" | "BROKEN" fails the format check, so `InvalidTickerError` is raised, not `YahooClientError` | a well-formed symbol whose quote call fails in the double | high (proved; not executed) | TickerValidation.BrokenTestIsMalformed | TickerValidation.WellFormedBrokenUpstream |
| tests/core/test_fundamentals_service.py:16 | the double's dividend yield is 1 with the comment "1%", and the test expects 1.0 | `_percent_from_decimal(1)` is 100.0 | a decimal fraction of 0.01 | high (proved; not executed) | FundamentalsService.TestDividendYieldIsHundred | FundamentalsService.SampleDividendYield |
| src/app/core/price_service.py:63-68 | the response is built with `change_7d_pct`, but the schema requires `change_1w_pct` | any successful history: the required `change_1w_pct` is missing | pass the week change as `change_1w_pct` | medium (pydantic's validation modelled as required-field coverage; not executed) | PriceService.ServiceOmitsWeekField | PriceService.RenamedWeekFieldComplete |

The rest of the model uses the corrected forms: `PriceService.PriceResponse` carries `change1wPct`, and the fundamentals example uses a dividend yield of 0.01.

Behaviour of the code a reader might not expect:

- A return on invested capital that is present but not numeric still falls back to the return on equity.
- The aggregator registers only the stock-price metric, stored under its name `stock_price`, not under dotted per-field keys.
- A section of the fundamentals bundle that is truthy and not a mapping makes the service raise `AttributeError`. It is not turned into `None` fields.
- The ticker pattern's `$` also matches before a final newline (`Ticker.MatchesTickerRegex`). After `strip()` no such newline can remain.

## Left out

- Network access: the yfinance call inside `fetch_quote`, and the client methods `fetch_daily_history` and `fetch_fundamentals` that the services call. They are parameters. The yfinance client in `src/app/providers/yahoo_client.py` defines only `fetch_quote`, so with that client the other two calls would raise `AttributeError`; the model covers that outcome as an exception outside the `YahooClientError` hierarchy (`Crashed`, passed up as `Foreign`).
- FundamentalsService.SafeFloat: the `Value` type does not represent falsy containers other than dicts (`[]`, `()`, `set()`), mappings that are not dicts (`types.MappingProxyType`, other `collections.abc.Mapping`s, which have `get` and `keys`), nor objects that `float()` converts through `__float__` or `__index__` (`Decimal`, `Fraction`, numpy integers). A `[]` section, which the source reads as `{}`, a `Decimal` field, which the source converts, and a non-dict mapping used as a section or a revenue table, which the source reads, are outside the model; `VOther` is only a truthy object that `float()` rejects and that has no `get` or `keys`.
- `async`/`await`: concurrency and timing are not modelled.
- The HTTP routes, the response schemas beyond the price schema's field names, configuration and the application object.
- Python floats are modelled as exact reals, so NaN, infinities, rounding and overflow are absent. The unit test that feeds a NaN revenue value is not modelled.
- PyValue.ParseFloat: `float()` of a string covers sign, ASCII digits, a decimal point and an exponent. It rejects underscores, `inf`, `nan` and non-ASCII Unicode decimal digits (such as "١٢"), all of which Python's `float()` accepts. `float()` of a huge integer (`OverflowError`) is also not covered.
- History entries without a `close` key, or with a non-numeric close, are not modelled: `PricePoint.close` is always a number. The entry's date is not used by the service and is an opaque integer.
- FundamentalsService.RevenueCagrPercent: the fractional power `x ** e` is a parameter constrained only by `x ** 1 == x` and `1 ** e == 1`, so only spans of one step and flat revenue have closed-form results.
- PyText.Upper, PyText.UpperChar: only characters whose upper case is ASCII are upper-cased (`a`-`z` and ten ligatures and special letters). Every other character is kept as is; for those Python's upper case is not ASCII, so acceptance by the ticker pattern and every accepted symbol are exact.
- Metrics.EvaluateAll: `StockFundamentalsMetric` in `src/app/metrics/fundamentals.py` is not registered and is not part of this model. `src/app/metrics/base.py` is an abstract interface, represented by the `Metric` datatype.
- YahooClient.TickerExists: "one call, no retry" is expressed as dependence on the single outcome for the symbol, not as a count of calls.
