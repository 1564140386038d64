/** The metric registry and the aggregation over it. */
module Metrics {
  import opened Errors
  import opened PyValue
  import Market

  /** A registered metric: its `name` and its `compute`, which returns a value or raises. */
  datatype Metric = Metric(name: string, compute: string -> Result<Value>)

  /** `StockPriceMetric`: the placeholder price of the ticker as given. */
  const StockPriceMetric := Metric("stock_price", (ticker: string) => Ok(VNum(Market.GetCurrentPrice(ticker))))

  /** `_METRICS`: the registration list. */
  const Registered: seq<Metric> := [StockPriceMetric]

  /**
   * What computing `metrics` in order and storing each value under the
   * metric's name yields: the first metric that raises aborts with its
   * exception.
   */
  function Evaluation(metrics: seq<Metric>, ticker: string): Result<map<string, Value>>
  {
    if metrics == [] then Ok(map[])
    else
      var last := metrics[|metrics| - 1];
      match Evaluation(metrics[..|metrics| - 1], ticker)
      case Err(e) => Err(e)
      case Ok(results) =>
        match last.compute(ticker)
        case Err(e) => Err(e)
        case Ok(v) => Ok(results[last.name := v])
  }

  /** Once a prefix of the list has raised, the whole evaluation raises the same. */
  lemma {:induction false} ErrorPersists(metrics: seq<Metric>, ticker: string, i: nat)
    requires i <= |metrics| && Evaluation(metrics[..i], ticker).Err?
    ensures Evaluation(metrics, ticker) == Evaluation(metrics[..i], ticker)
    decreases |metrics| - i
  {
    if i < |metrics| {
      assert metrics[..i + 1][..i] == metrics[..i];
      ErrorPersists(metrics, ticker, i + 1);
    } else {
      assert metrics[..i] == metrics;
    }
  }

  /**
   * `evaluate_all` over a given list: the metrics are computed in list
   * order on the ticker as given, and the result is the evaluation above.
   */
  method EvaluateMetrics(metrics: seq<Metric>, ticker: string) returns (r: Result<map<string, Value>>)
    ensures r == Evaluation(metrics, ticker)
  {
    var results: map<string, Value> := map[];
    for i := 0 to |metrics|
      invariant Evaluation(metrics[..i], ticker) == Ok(results)
    {
      assert metrics[..i + 1][..i] == metrics[..i];
      var value := metrics[i].compute(ticker);
      if value.Err? {
        ErrorPersists(metrics, ticker, i + 1);
        return Err(value.error);
      }
      results := results[metrics[i].name := value.value];
    }
    assert metrics[..|metrics|] == metrics;
    return Ok(results);
  }

  /** `evaluate_all`: the registered list, which holds the stock price alone. */
  method EvaluateAll(ticker: string) returns (r: Result<map<string, Value>>)
    ensures r == Ok(map["stock_price" := VNum(Market.GetCurrentPrice(ticker))])
  {
    r := EvaluateMetrics(Registered, ticker);
    RegisteredEvaluation(ticker);
  }

  /** The evaluation succeeds exactly when every metric computes without raising. */
  lemma {:induction false} EvaluationOkIff(metrics: seq<Metric>, ticker: string)
    ensures Evaluation(metrics, ticker).Ok? <==> forall i :: 0 <= i < |metrics| ==> metrics[i].compute(ticker).Ok?
  {
    if metrics != [] {
      var init := metrics[..|metrics| - 1];
      EvaluationOkIff(init, ticker);
      assert forall i :: 0 <= i < |init| ==> init[i] == metrics[i];
    }
  }

  /** The first metric that raises decides the exception; nothing partial is returned. */
  lemma FirstErrorAborts(metrics: seq<Metric>, ticker: string, i: nat)
    requires i < |metrics| && metrics[i].compute(ticker).Err?
    requires forall j :: 0 <= j < i ==> metrics[j].compute(ticker).Ok?
    ensures Evaluation(metrics, ticker) == Err(metrics[i].compute(ticker).error)
  {
    var prefix := metrics[..i];
    EvaluationOkIff(prefix, ticker);
    assert metrics[..i + 1][..i] == prefix;
    ErrorPersists(metrics, ticker, i + 1);
  }

  /** A successful evaluation has one key per metric name. */
  lemma {:induction false} EvaluationKeys(metrics: seq<Metric>, ticker: string)
    requires Evaluation(metrics, ticker).Ok?
    ensures Evaluation(metrics, ticker).value.Keys == set i | 0 <= i < |metrics| :: metrics[i].name
  {
    if metrics != [] {
      var n := |metrics| - 1;
      var init := metrics[..n];
      EvaluationKeys(init, ticker);
      var names := set i | 0 <= i < |metrics| :: metrics[i].name;
      var initNames := set i | 0 <= i < n :: init[i].name;
      assert names == initNames + {metrics[n].name} by {
        forall k | k in names ensures k in initNames + {metrics[n].name} {
          var i :| 0 <= i < |metrics| && metrics[i].name == k;
          if i < n {
            assert init[i].name == k;
          }
        }
        forall k | k in initNames ensures k in names {
          var i :| 0 <= i < n && init[i].name == k;
          assert metrics[i].name == k;
        }
      }
    }
  }

  /**
   * In a successful evaluation each name holds the value of the last metric
   * registered under it; a later metric overwrites an earlier one.
   */
  lemma {:induction false} EvaluationValues(metrics: seq<Metric>, ticker: string, i: nat)
    requires Evaluation(metrics, ticker).Ok?
    requires i < |metrics| && forall j :: i < j < |metrics| ==> metrics[j].name != metrics[i].name
    ensures metrics[i].name in Evaluation(metrics, ticker).value
    ensures metrics[i].compute(ticker) == Ok(Evaluation(metrics, ticker).value[metrics[i].name])
  {
    var n := |metrics| - 1;
    var init := metrics[..n];
    if i < n {
      assert init[i] == metrics[i];
      EvaluationValues(init, ticker, i);
    }
  }

  /** With the registration as it stands the result is the stock price alone, keyed "stock_price". */
  lemma RegisteredEvaluation(ticker: string)
    ensures Evaluation(Registered, ticker) == Ok(map["stock_price" := VNum(Market.GetCurrentPrice(ticker))])
  {
    assert Registered[..0] == [];
  }

  /** The ticker reaches the metric unnormalised: " AAPL" is priced 0, not as AAPL. */
  lemma TickerPassedAsGiven()
    ensures Evaluation(Registered, " AAPL") == Ok(map["stock_price" := VNum(0.0)])
  {
    RegisteredEvaluation(" AAPL");
    Market.LookupExamples();
  }
}
