/** The price service: current close and percentage changes over a week of history. */
module PriceService {
  import opened Errors
  import Ticker
  import opened YahooClient

  /** One daily history entry; `date` is kept as an opaque timestamp. */
  datatype PricePoint = PricePoint(date: int, close: real)

  /** The service's result, with the fields the response schema declares. */
  datatype PriceResponse = PriceResponse(symbol: string, current: real, change1dPct: real, change1wPct: real)

  /** `fetch_daily_history(symbol, days)` of a client: entries oldest to newest. */
  type HistorySource = (string, int) -> Fetch<seq<PricePoint>>

  /** The look-back the service asks the client for. */
  const HistoryDays := 7

  /**
   * `_pct_change`: the percentage by which `current` differs from
   * `previous`, and 0 when `previous` is 0. Applying the percentage to
   * `previous` gives back `current`.
   */
  function PctChange(current: real, previous: real): (r: real)
    ensures previous == 0.0 ==> r == 0.0
    ensures previous != 0.0 ==> previous + previous * r / 100.0 == current
  {
    if previous == 0.0 then 0.0 else ((current - previous) / previous) * 100.0
  }

  /** Against a positive previous value the change is zero, positive or negative as the value stayed, rose or fell. */
  lemma PctChangeSign(current: real, previous: real)
    requires previous > 0.0
    ensures PctChange(current, previous) == 0.0 <==> current == previous
    ensures PctChange(current, previous) > 0.0 <==> current > previous
    ensures PctChange(current, previous) < 0.0 <==> current < previous
  {
    var r := PctChange(current, previous);
    assert previous * r == (current - previous) * 100.0;
    if r > 0.0 {
      assert previous * r > 0.0;
    } else if r < 0.0 {
      assert previous * r < 0.0;
    }
  }

  function NotEnoughMessage(symbol: string): string {
    "Not enough price data for symbol '" + symbol + "'."
  }

  /**
   * `PriceService.get_price_for_symbol` for a service whose client answers
   * history requests with `fetchHistory`. A malformed input fails before the
   * client is asked; the client is asked for 7 days of the normalised
   * symbol and its exceptions pass through unchanged; fewer than two entries
   * is `PriceDataError`; otherwise the newest close is the current price,
   * compared with the second-newest for the 1-day change and with the oldest
   * for the 7-day change.
   */
  function GetPriceForSymbol(fetchHistory: HistorySource, raw: Option<string>): (r: Result<PriceResponse>)
    ensures Ticker.NormaliseAndValidate(raw).Err? ==> r == Err(Ticker.NormaliseAndValidate(raw).error)
    ensures Ticker.NormaliseAndValidate(raw).Ok? ==>
      var symbol := Ticker.NormaliseAndValidate(raw).value;
      var outcome := fetchHistory(symbol, HistoryDays);
      && (!outcome.Fetched? ==> r == Err(Raised(outcome)))
      && (outcome.Fetched? && |outcome.value| < 2 ==> r == Err(PriceData(NotEnoughMessage(symbol))))
      && (outcome.Fetched? && |outcome.value| >= 2 ==>
            var h := outcome.value;
            r.Ok? && r.value.symbol == symbol && r.value.current == h[|h| - 1].close
            && r.value.change1dPct == PctChange(h[|h| - 1].close, h[|h| - 2].close)
            && r.value.change1wPct == PctChange(h[|h| - 1].close, h[0].close))
  {
    match Ticker.NormaliseAndValidate(raw)
    case Err(e) => Err(e)
    case Ok(symbol) =>
      match fetchHistory(symbol, HistoryDays)
      case NotFound(m) => Err(YahooSymbolNotFound(m))
      case Failed(m) => Err(YahooClientFailure(m))
      case Crashed(m) => Err(Foreign(m))
      case Fetched(history) =>
        if |history| < 2 then Err(PriceData(NotEnoughMessage(symbol)))
        else
          var latest := history[|history| - 1].close;
          var prevClose := history[|history| - 2].close;
          var weekAgoClose := history[0].close;
          Ok(PriceResponse(symbol, latest, PctChange(latest, prevClose), PctChange(latest, weekAgoClose)))
  }

  /**
   * The two changes of a successful result lead back from the compared
   * closes to the current price.
   */
  lemma ChangesRecoverCurrent(fetchHistory: HistorySource, raw: Option<string>)
    requires GetPriceForSymbol(fetchHistory, raw).Ok?
    ensures var p := GetPriceForSymbol(fetchHistory, raw).value;
      var h := fetchHistory(p.symbol, HistoryDays).value;
      && |h| >= 2
      && (h[|h| - 2].close != 0.0 ==> Grown(h[|h| - 2].close, p.change1dPct) == p.current)
      && (h[0].close != 0.0 ==> Grown(h[0].close, p.change1wPct) == p.current)
  {
    var p := GetPriceForSymbol(fetchHistory, raw).value;
    var h := fetchHistory(p.symbol, HistoryDays).value;
    var a, b := h[|h| - 2].close, h[0].close;
    assert p.current == h[|h| - 1].close;
    assert p.change1dPct == PctChange(p.current, a);
    assert p.change1wPct == PctChange(p.current, b);
    if a != 0.0 {
      PctChangeRecovers(p.current, a);
    }
    if b != 0.0 {
      PctChangeRecovers(p.current, b);
    }
  }

  /** `value` grown by `pct` percent. */
  function Grown(value: real, pct: real): real {
    value * (1.0 + pct / 100.0)
  }

  /** Growing `previous` by the percentage change gives back `current`. */
  lemma PctChangeRecovers(current: real, previous: real)
    requires previous != 0.0
    ensures Grown(previous, PctChange(current, previous)) == current
  {
    var r := PctChange(current, previous);
    assert previous * (1.0 + r / 100.0) == previous + previous * r / 100.0;
  }

  /** With exactly two entries the oldest is the second-newest, so both changes agree. */
  lemma TwoPointsSameChanges(fetchHistory: HistorySource, raw: Option<string>)
    requires GetPriceForSymbol(fetchHistory, raw).Ok?
    requires |fetchHistory(GetPriceForSymbol(fetchHistory, raw).value.symbol, HistoryDays).value| == 2
    ensures GetPriceForSymbol(fetchHistory, raw).value.change1dPct == GetPriceForSymbol(fetchHistory, raw).value.change1wPct
  {
  }

  /**
   * A provider's exceptions reach the caller unchanged: not-found, another
   * `YahooClientError`, or a foreign exception that stays outside the
   * `YahooClientError` hierarchy.
   */
  lemma ProviderErrorsPropagate(fetchHistory: HistorySource, raw: Option<string>)
    requires Ticker.NormaliseAndValidate(raw).Ok?
    requires !fetchHistory(Ticker.NormaliseAndValidate(raw).value, HistoryDays).Fetched?
    ensures GetPriceForSymbol(fetchHistory, raw).Err?
    ensures GetPriceForSymbol(fetchHistory, raw).error.message
      == fetchHistory(Ticker.NormaliseAndValidate(raw).value, HistoryDays).message
    ensures GetPriceForSymbol(fetchHistory, raw).error.IsYahooClientError()
      <==> !fetchHistory(Ticker.NormaliseAndValidate(raw).value, HistoryDays).Crashed?
    ensures GetPriceForSymbol(fetchHistory, raw).error.YahooSymbolNotFound?
      <==> fetchHistory(Ticker.NormaliseAndValidate(raw).value, HistoryDays).NotFound?
  {
  }

  /** A malformed input fails the same way whatever the client would say. */
  lemma InvalidBeforeFetch(raw: Option<string>, a: HistorySource, b: HistorySource)
    requires Ticker.NormaliseAndValidate(raw).Err?
    ensures GetPriceForSymbol(a, raw) == GetPriceForSymbol(b, raw)
    ensures GetPriceForSymbol(a, raw).error.InvalidTicker?
  {
  }

  /** The client is asked for 7 days of the normalised symbol and nothing else. */
  lemma FetchesNormalisedWeek(raw: Option<string>, a: HistorySource, b: HistorySource)
    requires Ticker.NormaliseAndValidate(raw).Ok?
    requires a(Ticker.NormaliseAndValidate(raw).value, 7) == b(Ticker.NormaliseAndValidate(raw).value, 7)
    ensures GetPriceForSymbol(a, raw) == GetPriceForSymbol(b, raw)
  {
  }

  /** Closes 100, 101, ..., 106 for "AAPL": current 106, up 100/105 percent on the day and 6 percent on the week. */
  lemma RisingWeekExample(fetchHistory: HistorySource)
    requires fetchHistory("AAPL", 7).Fetched?
    requires var h := fetchHistory("AAPL", 7).value;
      |h| == 7 && forall i :: 0 <= i < 7 ==> h[i].close == 100.0 + i as real
    ensures GetPriceForSymbol(fetchHistory, Some("AAPL")) == Ok(PriceResponse("AAPL", 106.0, 100.0 / 105.0, 6.0))
  {
    Ticker.AaplCanonical();
    var h := fetchHistory("AAPL", 7).value;
    assert h[6].close == 106.0 && h[5].close == 105.0 && h[0].close == 100.0;
    assert PctChange(106.0, 105.0) == 100.0 / 105.0;
    assert PctChange(106.0, 100.0) == 6.0;
  }

  /** A single entry is `PriceDataError`: no change can be computed. */
  lemma ShortHistoryRejected(fetchHistory: HistorySource)
    requires fetchHistory("AAPL", 7).Fetched? && |fetchHistory("AAPL", 7).value| == 1
    ensures GetPriceForSymbol(fetchHistory, Some("AAPL")).Err?
    ensures GetPriceForSymbol(fetchHistory, Some("AAPL")).error.PriceData?
  {
    Ticker.AaplCanonical();
  }

  /** The fields the `PriceResponse` schema requires. */
  const SchemaFields: set<string> := {"symbol", "current", "change_1d_pct", "change_1w_pct"}

  /** The keyword arguments the service passes when it builds its response. */
  const ServiceFields: set<string> := {"symbol", "current", "change_1d_pct", "change_7d_pct"}

  /** The required fields a construction from keyword arguments `given` leaves without a value; extra keywords are ignored. */
  function MissingFields(given: set<string>): (m: set<string>)
    ensures forall f :: f in m <==> f in SchemaFields && f !in given
  {
    SchemaFields - given
  }

  /** The week-change keyword the service passes is not the schema's: its response always lacks `change_1w_pct`. */
  lemma ServiceOmitsWeekField()
    ensures MissingFields(ServiceFields) == {"change_1w_pct"}
  {
    assert "change_1w_pct" != "change_7d_pct";
  }

  /** Passing the week change as `change_1w_pct` supplies every required field. */
  lemma RenamedWeekFieldComplete()
    ensures MissingFields(ServiceFields - {"change_7d_pct"} + {"change_1w_pct"}) == {}
  {
  }
}
