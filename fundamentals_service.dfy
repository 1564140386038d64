/**
 * The fundamentals service: valuation and quality ratios derived from the
 * provider's raw statement data, each field falling back to `None` on
 * missing or non-numeric input.
 */
module FundamentalsService {
  import opened Errors
  import opened PyText
  import opened PyValue
  import opened PySorted
  import Ticker
  import opened YahooClient

  /** `_safe_float`: `float(v)`, or `None` where `float` raises `TypeError` or `ValueError`. */
  function SafeFloat(v: Value): (r: Option<real>)
    ensures v.VNum? ==> r == Some(v.num)
    ensures v.VBool? ==> r == Some(if v.flag then 1.0 else 0.0)
    ensures v.VStr? ==> r == ParseFloat(v.text)
    ensures r.None? <==> v.VNull? || v.VTable? || v.VOther? || (v.VStr? && ParseFloat(v.text).None?)
  {
    match v
    case VNum(x) => Some(x)
    case VBool(b) => Some(if b then 1.0 else 0.0)
    case VStr(s) => ParseFloat(s)
    case _ => None
  }

  /** `_percent_from_decimal`: a decimal fraction as a percentage; `None` exactly when the value is not numeric. */
  function PercentFromDecimal(v: Value): (r: Option<real>)
    ensures r.None? <==> SafeFloat(v).None?
    ensures r.Some? ==> r.value / 100.0 == SafeFloat(v).value
  {
    var d := SafeFloat(v);
    if d.None? then None else Some(d.value * 100.0)
  }

  /** `_ratio_percent`: `numerator / denominator` as a percentage; `None` for a missing operand or a zero denominator. */
  function RatioPercent(numerator: Option<real>, denominator: Option<real>): (r: Option<real>)
    ensures r.None? <==> numerator.None? || denominator.None? || denominator.value == 0.0
    ensures r.Some? ==> r.value * denominator.value == numerator.value * 100.0
  {
    if numerator.None? || denominator.None? || denominator.value == 0.0 then None
    else Some((numerator.value / denominator.value) * 100.0)
  }

  /**
   * `_latest_numeric`: `None` for anything but a non-empty dict; otherwise
   * the value under the greatest period key, converted by `float`.
   */
  function LatestNumeric(data: Value): (r: Option<real>)
    ensures !data.VTable? || data.table == map[] ==> r.None?
    ensures data.VTable? && data.table != map[] ==> r == SafeFloat(data.table[MaxKey(data.table.Keys)])
  {
    if !data.VTable? || data.table == map[] then None
    else
      var periods := SortedKeys(data.table.Keys);
      SortedKeysEnds(data.table.Keys);
      SafeFloat(data.table[periods[|periods| - 1]])
  }

  /** Values under any key but the greatest do not matter to `_latest_numeric`. */
  lemma LatestIgnoresEarlier(t: map<string, Value>, k: string, v: Value)
    requires k in t && k != MaxKey(t.Keys)
    ensures LatestNumeric(VTable(t[k := v])) == LatestNumeric(VTable(t))
  {
    assert t[k := v].Keys == t.Keys;
  }

  /** `max(1, min(years, count - 1))`: the number of steps between the first and last period, capped at `years`. */
  function Span(years: int, count: int): (s: int)
    ensures s >= 1
    ensures years >= 1 ==> s <= years
    ensures count <= 2 ==> s == 1
    ensures 1 <= count - 1 <= years ==> s == count - 1
    ensures 1 <= years <= count - 1 ==> s == years
  {
    var capped := if years < count - 1 then years else count - 1;
    if capped < 1 then 1 else capped
  }

  /** The laws of Python's `x ** e` on positive reals that the model relies on. */
  ghost predicate PowerLaws(pow: (real, real) -> real) {
    && (forall x :: pow(x, 1.0) == x)
    && (forall e :: pow(1.0, e) == 1.0)
  }

  /** A fractional power function, left abstract except for its laws. */
  type RealPower = pow: (real, real) -> real | PowerLaws(pow)
    witness (x: real, e: real) => if e == 1.0 then x else 1.0

  /**
   * `_revenue_cagr_percent`: with the periods sorted, the compound growth
   * rate from the value of the first period to that of the last, over
   * `Span(years, count)` steps, as a percentage; `None` for anything but a
   * non-empty dict and whenever either end value is not numeric or not
   * positive.
   */
  function RevenueCagrPercent(data: Value, years: int, pow: RealPower): (r: Option<real>)
    ensures r.Some? <==>
      && data.VTable? && data.table != map[]
      && SafeFloat(data.table[MinKey(data.table.Keys)]).Some?
      && SafeFloat(data.table[MaxKey(data.table.Keys)]).Some?
      && SafeFloat(data.table[MinKey(data.table.Keys)]).value > 0.0
      && SafeFloat(data.table[MaxKey(data.table.Keys)]).value > 0.0
    ensures r.Some? ==> r.value == Cagr(SafeFloat(data.table[MinKey(data.table.Keys)]).value,
                                        SafeFloat(data.table[MaxKey(data.table.Keys)]).value,
                                        Span(years, |data.table.Keys|), pow)
  {
    if !Truthy(data) then None
    else if !data.VTable? then None  // a value that is not a mapping has no `.keys()`; the handler answers None
    else
      var periods := data.table.Keys;
      var start := SafeFloat(data.table[MinKey(periods)]);  // the first of the sorted periods
      var end := SafeFloat(data.table[MaxKey(periods)]);    // the last of the sorted periods
      if start.None? || end.None? then None
      else if start.value <= 0.0 || end.value <= 0.0 then None
      else
        Some(Cagr(start.value, end.value, Span(years, |periods|), pow))
  }

  /** The compound growth from `start` to `end` over `span` steps, as a percentage. */
  function Cagr(start: real, end: real, span: int, pow: RealPower): (r: real)
    requires start > 0.0 && span >= 1
    ensures 1.0 + r / 100.0 == pow(end / start, 1.0 / span as real)
  {
    (pow(end / start, 1.0 / span as real) - 1.0) * 100.0
  }

  /** Over a single step the growth is the plain ratio of end to start, less one. */
  lemma CagrOneStep(start: real, end: real, pow: RealPower)
    requires start > 0.0
    ensures Cagr(start, end, 1, pow) == (end / start - 1.0) * 100.0
  {
    assert 1.0 / (1 as real) == 1.0;
    assert pow(end / start, 1.0) == end / start;
  }

  /** A value that ends where it started has grown by nothing, whatever the span. */
  lemma CagrFlat(x: real, span: int, pow: RealPower)
    requires x > 0.0 && span >= 1
    ensures Cagr(x, x, span, pow) == 0.0
  {
    assert x / x == 1.0;
    assert pow(1.0, 1.0 / span as real) == 1.0;
  }

  /** With at most two periods the growth is the plain ratio of last to first, less one, as a percentage. */
  lemma CagrSingleStep(data: Value, years: int, pow: RealPower)
    requires RevenueCagrPercent(data, years, pow).Some?
    requires |data.table| <= 2
    ensures RevenueCagrPercent(data, years, pow).value
      == (SafeFloat(data.table[MaxKey(data.table.Keys)]).value / SafeFloat(data.table[MinKey(data.table.Keys)]).value - 1.0) * 100.0
  {
    var start := SafeFloat(data.table[MinKey(data.table.Keys)]).value;
    var end := SafeFloat(data.table[MaxKey(data.table.Keys)]).value;
    assert |data.table.Keys| == |data.table|;
    CagrOneStep(start, end, pow);
  }

  lemma YearsInOrder()
    ensures StrLt("2019", "2024")
  {
    assert "2019"[1..] == "019" && "2024"[1..] == "024";
    assert "019"[1..] == "19" && "024"[1..] == "24";
    assert StrLe("19", "24");
  }

  /** Revenue of 100 in 2019 and 200 in 2024 has grown by 100 percent. */
  lemma CagrDoubling(pow: RealPower)
    ensures RevenueCagrPercent(VTable(map["2019" := VNum(100.0), "2024" := VNum(200.0)]), 5, pow) == Some(100.0)
  {
    var t := map["2019" := VNum(100.0), "2024" := VNum(200.0)];
    YearsInOrder();
    TwoKeys("2019", "2024");
    assert t.Keys == {"2019", "2024"};
    assert MinKey(t.Keys) == "2019" && MaxKey(t.Keys) == "2024";
    assert SafeFloat(t["2019"]) == Some(100.0) && SafeFloat(t["2024"]) == Some(200.0);
    CagrSingleStep(VTable(t), 5, pow);
  }

  /** A dict of period to revenue that is empty, or a value that is not a dict at all, has no growth rate. */
  lemma CagrNeedsTable(data: Value, years: int, pow: RealPower)
    requires !data.VTable? || data.table == map[]
    ensures RevenueCagrPercent(data, years, pow).None?
  {
  }

  /** The raw provider bundle: statement sections keyed by name. */
  type Bundle = map<string, Value>

  /** `YahooClient.fetch_fundamentals`, as the outcome it yields for a symbol. */
  type FundamentalsSource = string -> Fetch<Bundle>

  /** The fields of the service's response, each `None` when it cannot be derived. */
  datatype FundamentalsResponse = FundamentalsResponse(
    symbol: string,
    peTtm: Option<real>,
    peForward: Option<real>,
    marketCap: Option<real>,
    dividendYield: Option<real>,
    returnOnInvestedCapital: Option<real>,
    fcfYield: Option<real>,
    revenueGrowth5y: Option<real>)

  const InfoKey := "info"
  const IncomeKey := "income_statement"
  const CashflowKey := "cashflow"
  const RevenueYears := 5

  /** `raw.get(name, {}) or {}`: a missing or falsy section reads as an empty dict. */
  function Section(raw: Bundle, name: string): (v: Value)
    ensures Truthy(v) || v == VTable(map[])
    ensures name in raw && Truthy(raw[name]) ==> v == raw[name]
    ensures name !in raw || !Truthy(raw[name]) ==> v == VTable(map[])
  {
    var section := GetOr(raw, name, VTable(map[]));
    if Truthy(section) then section else VTable(map[])
  }

  /** The return on invested capital, falling back to the return on equity when the former is not numeric. */
  function ReturnOnCapital(info: map<string, Value>): (r: Option<real>)
    ensures SafeFloat(Get(info, "returnOnInvestedCapital")).Some? ==> r == PercentFromDecimal(Get(info, "returnOnInvestedCapital"))
    ensures SafeFloat(Get(info, "returnOnInvestedCapital")).None? ==> r == PercentFromDecimal(Get(info, "returnOnEquity"))
  {
    var roic := PercentFromDecimal(Get(info, "returnOnInvestedCapital"));
    if roic.None? then PercentFromDecimal(Get(info, "returnOnEquity")) else roic
  }

  /**
   * The response built from a fetched bundle. Reading a field from a
   * truthy section that is not a mapping (it has no `get`) raises
   * `AttributeError`; the sections
   * are read in the order info, cashflow, income statement.
   */
  function Derive(symbol: string, raw: Bundle, pow: RealPower): (r: Result<FundamentalsResponse>)
    ensures !Section(raw, InfoKey).VTable? ==> r == Err(AttributeError(InfoKey))
    ensures Section(raw, InfoKey).VTable? && !Section(raw, CashflowKey).VTable? ==> r == Err(AttributeError(CashflowKey))
    ensures Section(raw, InfoKey).VTable? && Section(raw, CashflowKey).VTable? && !Section(raw, IncomeKey).VTable?
      ==> r == Err(AttributeError(IncomeKey))
    ensures r.Ok? <==> Section(raw, InfoKey).VTable? && Section(raw, CashflowKey).VTable? && Section(raw, IncomeKey).VTable?
    ensures r.Ok? ==> r.value.symbol == symbol
    ensures r.Ok? ==> var info := Section(raw, InfoKey).table;
      && r.value.marketCap == SafeFloat(Get(info, "marketCap"))
      && r.value.peTtm == SafeFloat(Get(info, "trailingPE"))
      && r.value.peForward == SafeFloat(Get(info, "forwardPE"))
      && r.value.dividendYield == PercentFromDecimal(Get(info, "dividendYield"))
      && r.value.returnOnInvestedCapital == ReturnOnCapital(info)
    ensures r.Ok? ==>
      r.value.fcfYield == RatioPercent(LatestNumeric(GetOr(Section(raw, CashflowKey).table, "Free Cash Flow", VTable(map[]))), r.value.marketCap)
    ensures r.Ok? ==>
      r.value.revenueGrowth5y == RevenueCagrPercent(GetOr(Section(raw, IncomeKey).table, "Total Revenue", VTable(map[])), RevenueYears, pow)
  {
    var info := Section(raw, InfoKey);
    var income := Section(raw, IncomeKey);
    var cashflow := Section(raw, CashflowKey);
    if !info.VTable? then Err(AttributeError(InfoKey))
    else
      var marketCap := SafeFloat(Get(info.table, "marketCap"));
      var peTtm := SafeFloat(Get(info.table, "trailingPE"));
      var peForward := SafeFloat(Get(info.table, "forwardPE"));
      var dividendYield := PercentFromDecimal(Get(info.table, "dividendYield"));
      if !cashflow.VTable? then Err(AttributeError(CashflowKey))
      else
        var freeCashflow := LatestNumeric(GetOr(cashflow.table, "Free Cash Flow", VTable(map[])));
        var fcfYield := RatioPercent(freeCashflow, marketCap);
        var roic := ReturnOnCapital(info.table);
        if !income.VTable? then Err(AttributeError(IncomeKey))
        else
          var revenueGrowth := RevenueCagrPercent(GetOr(income.table, "Total Revenue", VTable(map[])), RevenueYears, pow);
          Ok(FundamentalsResponse(symbol, peTtm, peForward, marketCap, dividendYield, roic, fcfYield, revenueGrowth))
  }

  /**
   * `FundamentalsService.get_fundamentals_for_symbol`: validate the symbol,
   * fetch the bundle for the normalised symbol, pass provider errors up
   * unchanged and derive the response.
   */
  function GetFundamentalsForSymbol(fetchFundamentals: FundamentalsSource, pow: RealPower, raw: Option<string>)
    : (r: Result<FundamentalsResponse>)
    ensures Ticker.NormaliseAndValidate(raw).Err? ==> r == Err(Ticker.NormaliseAndValidate(raw).error)
    ensures Ticker.NormaliseAndValidate(raw).Ok? ==>
      var symbol := Ticker.NormaliseAndValidate(raw).value;
      && (!fetchFundamentals(symbol).Fetched? ==> r == Err(Raised(fetchFundamentals(symbol))))
      && (fetchFundamentals(symbol).Fetched? ==> r == Derive(symbol, fetchFundamentals(symbol).value, pow))
    ensures r.Ok? ==> raw.Some? && r.value.symbol == Upper(Strip(raw.value)) && Ticker.TickerGrammar(r.value.symbol)
  {
    match Ticker.NormaliseAndValidate(raw)
    case Err(e) => Err(e)
    case Ok(symbol) =>
      match fetchFundamentals(symbol)
      case Fetched(bundle) => Derive(symbol, bundle, pow)
      case NotFound(m) => Err(YahooSymbolNotFound(m))
      case Failed(m) => Err(YahooClientFailure(m))
      case Crashed(m) => Err(Foreign(m))
  }

  /** An invalid symbol is rejected before the provider is consulted: the outcome does not depend on it. */
  lemma InvalidBeforeFetch(raw: Option<string>, a: FundamentalsSource, b: FundamentalsSource, pow: RealPower)
    requires Ticker.NormaliseAndValidate(raw).Err?
    ensures GetFundamentalsForSymbol(a, pow, raw) == GetFundamentalsForSymbol(b, pow, raw)
    ensures GetFundamentalsForSymbol(a, pow, raw).error.InvalidTicker?
  {
  }

  /**
   * A provider's exceptions reach the caller unchanged and still distinct:
   * not-found, another `YahooClientError`, or a foreign exception that is
   * not turned into a `YahooClientError`.
   */
  lemma ProviderErrorsPropagate(fetchFundamentals: FundamentalsSource, pow: RealPower, raw: Option<string>)
    requires Ticker.NormaliseAndValidate(raw).Ok?
    requires !fetchFundamentals(Ticker.NormaliseAndValidate(raw).value).Fetched?
    ensures GetFundamentalsForSymbol(fetchFundamentals, pow, raw).Err?
    ensures GetFundamentalsForSymbol(fetchFundamentals, pow, raw).error.message
      == fetchFundamentals(Ticker.NormaliseAndValidate(raw).value).message
    ensures GetFundamentalsForSymbol(fetchFundamentals, pow, raw).error.IsYahooClientError()
      <==> !fetchFundamentals(Ticker.NormaliseAndValidate(raw).value).Crashed?
    ensures GetFundamentalsForSymbol(fetchFundamentals, pow, raw).error.YahooSymbolNotFound?
      <==> fetchFundamentals(Ticker.NormaliseAndValidate(raw).value).NotFound?
  {
  }

  /** An empty bundle yields a response whose every field is `None`, not an error. */
  lemma EmptyBundle(symbol: string, pow: RealPower)
    ensures Derive(symbol, map[], pow) == Ok(FundamentalsResponse(symbol, None, None, None, None, None, None, None))
  {
  }

  /** A missing section leaves exactly the fields drawn from it `None`. */
  lemma MissingSectionGivesNone(symbol: string, raw: Bundle, pow: RealPower)
    requires Derive(symbol, raw, pow).Ok?
    ensures InfoKey !in raw ==> var v := Derive(symbol, raw, pow).value;
      v.peTtm.None? && v.peForward.None? && v.marketCap.None? && v.dividendYield.None?
      && v.returnOnInvestedCapital.None? && v.fcfYield.None?
    ensures CashflowKey !in raw ==> Derive(symbol, raw, pow).value.fcfYield.None?
    ensures IncomeKey !in raw ==> Derive(symbol, raw, pow).value.revenueGrowth5y.None?
  {
  }

  /** The return on invested capital falls back to the return on equity whenever the former is missing or not numeric. */
  lemma RoicFallback(info: map<string, Value>)
    ensures ReturnOnCapital(info).Some? <==>
      SafeFloat(Get(info, "returnOnInvestedCapital")).Some? || SafeFloat(Get(info, "returnOnEquity")).Some?
    ensures SafeFloat(Get(info, "returnOnInvestedCapital")).Some? ==>
      ReturnOnCapital(info).value == SafeFloat(Get(info, "returnOnInvestedCapital")).value * 100.0
  {
  }

  /** Without a return on invested capital, a return on equity of 0.10 is reported as 10 percent. */
  lemma RoicAbsentUsesEquity()
    ensures ReturnOnCapital(map["returnOnEquity" := VNum(0.10)]) == Some(10.0)
  {
  }

  /** A non-numeric return on invested capital also falls back to the return on equity. */
  lemma RoicTextUsesEquity()
    ensures ReturnOnCapital(map["returnOnInvestedCapital" := VStr("n/a"), "returnOnEquity" := VNum(0.10)]) == Some(10.0)
  {
    var text := "n/a";
    assert forall k :: 0 <= k < |text| ==> !IsDigit(text[k]);
    NoDigitRejected(text);
  }

  /** A worked bundle: market cap 1000, P/E 25 and 20, yield 0.01, ROIC 0.15, free cash flow 50, revenue from 100 to 200. */
  const SampleInfo: map<string, Value> := map[
    "marketCap" := VNum(1000.0), "trailingPE" := VNum(25.0), "forwardPE" := VNum(20.0),
    "dividendYield" := VNum(0.01), "returnOnInvestedCapital" := VNum(0.15)]
  const SampleCashflow: map<string, Value> := map["Free Cash Flow" := VTable(map["2024" := VNum(50.0)])]
  const SampleIncome: map<string, Value> := map["Total Revenue" := VTable(map["2019" := VNum(100.0), "2024" := VNum(200.0)])]
  const SampleBundle: Bundle := map[
    InfoKey := VTable(SampleInfo), CashflowKey := VTable(SampleCashflow), IncomeKey := VTable(SampleIncome)]

  lemma SampleSections()
    ensures Section(SampleBundle, InfoKey) == VTable(SampleInfo)
    ensures Section(SampleBundle, CashflowKey) == VTable(SampleCashflow)
    ensures Section(SampleBundle, IncomeKey) == VTable(SampleIncome)
  {
    assert "marketCap" in SampleInfo;
    assert "Free Cash Flow" in SampleCashflow;
    assert "Total Revenue" in SampleIncome;
  }

  lemma SampleFreeCashflow()
    ensures LatestNumeric(GetOr(SampleCashflow, "Free Cash Flow", VTable(map[]))) == Some(50.0)
  {
    var t := map["2024" := VNum(50.0)];
    assert t.Keys == {"2024"};
    assert GetOr(SampleCashflow, "Free Cash Flow", VTable(map[])) == VTable(t);
  }

  lemma SampleRevenueGrowth(pow: RealPower)
    ensures RevenueCagrPercent(GetOr(SampleIncome, "Total Revenue", VTable(map[])), RevenueYears, pow) == Some(100.0)
  {
    CagrDoubling(pow);
  }

  lemma SampleMarketCap()
    ensures SafeFloat(Get(SampleInfo, "marketCap")) == Some(1000.0)
  {
    assert Get(SampleInfo, "marketCap") == VNum(1000.0);
  }

  lemma SampleTrailingPE()
    ensures SafeFloat(Get(SampleInfo, "trailingPE")) == Some(25.0)
  {
    assert Get(SampleInfo, "trailingPE") == VNum(25.0);
  }

  lemma SampleForwardPE()
    ensures SafeFloat(Get(SampleInfo, "forwardPE")) == Some(20.0)
  {
    assert Get(SampleInfo, "forwardPE") == VNum(20.0);
  }

  lemma SampleDividendYield()
    ensures PercentFromDecimal(Get(SampleInfo, "dividendYield")) == Some(1.0)
  {
    assert Get(SampleInfo, "dividendYield") == VNum(0.01);
  }

  lemma SampleReturnOnCapital()
    ensures ReturnOnCapital(SampleInfo) == Some(15.0)
  {
    assert Get(SampleInfo, "returnOnInvestedCapital") == VNum(0.15);
  }

  /** The worked bundle yields P/E 25 and 20, market cap 1000, yield 1%, ROIC 15%, FCF yield 5% and revenue growth 100%. */
  lemma SampleFundamentals(pow: RealPower)
    ensures Derive("AAPL", SampleBundle, pow)
      == Ok(FundamentalsResponse("AAPL", Some(25.0), Some(20.0), Some(1000.0), Some(1.0), Some(15.0), Some(5.0), Some(100.0)))
  {
    SampleSections();
    SampleMarketCap();
    SampleTrailingPE();
    SampleForwardPE();
    SampleDividendYield();
    SampleReturnOnCapital();
    SampleFreeCashflow();
    SampleRevenueGrowth(pow);
    var r := Derive("AAPL", SampleBundle, pow);
    assert r.Ok?;
    assert r.value.fcfYield == RatioPercent(Some(50.0), Some(1000.0));
  }

  /** The info section of the service's unit test: as the sample, but with a dividend yield of 1. */
  const TestInfo: map<string, Value> := SampleInfo["dividendYield" := VNum(1.0)]

  /** The code reads the test's dividend yield of 1 as a decimal fraction and reports 100 percent. */
  lemma TestDividendYieldIsHundred()
    ensures PercentFromDecimal(Get(TestInfo, "dividendYield")) == Some(100.0)
  {
    assert Get(TestInfo, "dividendYield") == VNum(1.0);
  }
}
