/**
 * The collaborators every node calls but that are not modelled: the language
 * model, the price-history and metrics fetches, the news search and the JSON
 * serialisers. They are uninterpreted inputs gathered in `Env`; a node returns
 * its update together with the log of calls it made, so that "no call" and
 * "exactly one call at temperature t" can be stated.
 */
module External {
  import opened SharedState

  /** A metric value as `get_financial_metrics` returns it: `None`, or a value rendered by Python's `str()`. */
  datatype Value = Null | Val(repr: string)

  /** The metrics dict; `{}` when the fetch failed. */
  type Metrics = map<string, Value>

  /** One row of daily OHLCV history. */
  datatype PriceRow = PriceRow(date: string, open: string, high: string, low: string, close: string, volume: string)

  /** A history row with the indicator columns added by `add_all_indicators`. */
  datatype IndicatorRow = IndicatorRow(price: PriceRow, indicators: map<string, Value>)

  /** One cleaned news hit. */
  datatype NewsItem = NewsItem(title: string, snippet: string, date: string, source: string, url: string)

  /** The external world of one request. */
  datatype Env = Env(
    // response.content of the model invoked with (system prompt, human prompt, temperature)
    llm: (string, string, real) -> string,
    // get_stock_history(ticker, period, interval); [] when the fetch failed
    history: (string, string, string) -> seq<PriceRow>,
    // the indicator columns add_all_indicators computes for row i of a history
    indicatorsAt: (seq<PriceRow>, nat) -> map<string, Value>,
    // DataFrame.to_json(orient="records")
    recordsJson: seq<IndicatorRow> -> string,
    // get_financial_metrics(ticker)
    metrics: string -> Metrics,
    // json.dumps(metrics, indent=2)
    metricsJson: Metrics -> string,
    // search_financial_news(query, max_results); [] when the search failed
    news: (string, int) -> seq<NewsItem>,
    // json.dumps(news_items, indent=2)
    newsJson: seq<NewsItem> -> string)

  /** One call a node makes to the outside world, with its arguments. */
  datatype Call =
    | ModelCall(system: string, human: string, temperature: real)
    | HistoryCall(ticker: string, period: string, interval: string)
    | MetricsCall(ticker: string)
    | NewsCall(query: string, maxResults: int)

  /** What a node returns (its partial update) and what it called to get there. */
  datatype NodeResult = NodeResult(update: Update, calls: seq<Call>)

  /** The number of model invocations in a call log. */
  function ModelCallCount(calls: seq<Call>): (n: nat)
    ensures n <= |calls|
    ensures n == 0 <==> forall i :: 0 <= i < |calls| ==> !calls[i].ModelCall?
    decreases |calls|
  {
    if calls == [] then 0
    else ModelCallCount(calls[..|calls| - 1]) + (if calls[|calls| - 1].ModelCall? then 1 else 0)
  }

  /** The number of model invocations in two consecutive logs adds up. */
  lemma {:induction false} ModelCallCountAppend(a: seq<Call>, b: seq<Call>)
    ensures ModelCallCount(a + b) == ModelCallCount(a) + ModelCallCount(b)
    decreases |b|
  {
    if b != [] {
      assert (a + b)[..|a + b| - 1] == a + b[..|b| - 1];
      ModelCallCountAppend(a, b[..|b| - 1]);
    } else {
      assert a + b == a;
    }
  }

  /** Python's `metrics.get(key) is not None`. */
  predicate Present(m: Metrics, key: string) {
    key in m && m[key].Val?
  }

  /** Python's f-string rendering of `metrics.get(key)`: a missing key or `None` renders as "None". */
  function Show(m: Metrics, key: string): (r: string)
    ensures Present(m, key) ==> r == m[key].repr
    ensures !Present(m, key) ==> r == "None"
  {
    if Present(m, key) then m[key].repr else "None"
  }
}
