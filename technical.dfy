/**
 * The technical analyst: guard on the ticker, fetch three months of daily
 * history, hard-fail when it is empty, add indicator columns, keep the last ten
 * rows and ask the model at temperature 0.1.
 */
module Technical {
  import opened Wrappers
  import opened SharedState
  import opened External

  const SystemPrompt: string :=
    "You are an expert Technical Analyst for Indian Stock Markets.\n"
    + "Your job is to analyze the price action, volume, and technical indicators of a stock and provide a technical analysis summary.\n"
    + "Include insights on Moving Averages (SMA, EMA), RSI, and MACD.\n"
    + "Conclude with a clear 'Bullish', 'Bearish', or 'Neutral' technical signal.\n"
    + "Be concise but highly analytical.\n"

  const Temperature: real := 0.1
  const Period: string := "3mo"
  /** The default `interval` of `get_stock_history`. */
  const Interval: string := "1d"
  /** Rows handed to the model: `tail(10)`. */
  const Window: nat := 10

  const NoTickerError: string := "Error: No ticker provided for technical analysis."

  function NoHistoryMessage(ticker: string): string {
    "Could not retrieve historical data for " + ticker + "."
  }

  function HumanPrompt(ticker: string, recent: string): string {
    "Analyze the following recent technical data for " + ticker + ":\n" + recent
  }

  /** `add_all_indicators`: the same rows, in the same order, each with its indicator columns. */
  function AddAllIndicators(env: Env, rows: seq<PriceRow>): (r: seq<IndicatorRow>)
    ensures |r| == |rows|
    ensures forall i :: 0 <= i < |r| ==> r[i].price == rows[i]
  {
    seq(|rows|, i requires 0 <= i < |rows| => IndicatorRow(rows[i], env.indicatorsAt(rows, i)))
  }

  function Min(a: nat, b: nat): nat {
    if a <= b then a else b
  }

  /** pandas `tail(n)`: the last min(n, |s|) elements, in order. */
  function Tail<T>(s: seq<T>, n: nat): (r: seq<T>)
    ensures |r| == Min(n, |s|)
    ensures forall j :: 0 <= j < |r| ==> r[j] == s[|s| - |r| + j]
  {
    s[|s| - Min(n, |s|)..]
  }

  /** The rows the model sees: the last min(10, n) rows of the enriched history. */
  function RecentRows(env: Env, rows: seq<PriceRow>): (r: seq<IndicatorRow>)
    ensures |r| == Min(Window, |rows|)
    ensures forall j :: 0 <= j < |r| ==> r[j].price == rows[|rows| - |r| + j]
  {
    Tail(AddAllIndicators(env, rows), Window)
  }

  /**
   * The window: with at least ten rows the model sees exactly ten, with fewer
   * it sees all of them, and the latest row is always the last one it sees.
   */
  lemma RecentRowsWindow(env: Env, rows: seq<PriceRow>)
    ensures |rows| >= Window ==> |RecentRows(env, rows)| == Window
    ensures |rows| <= Window ==>
      |RecentRows(env, rows)| == |rows| && forall j :: 0 <= j < |rows| ==> RecentRows(env, rows)[j].price == rows[j]
    ensures rows != [] ==> RecentRows(env, rows)[|RecentRows(env, rows)| - 1].price == rows[|rows| - 1]
  {
  }

  /** `technical_analyst_node`. */
  function TechnicalAnalystNode(s: State, env: Env): (r: NodeResult)
    ensures Keys(r.update) == {TechnicalAnalysis}
    // no ticker: the error string, and nothing is called
    ensures s.ticker.GetOr("") == "" <==> r.calls == []
    ensures s.ticker.GetOr("") == "" ==> r.update.technicalAnalysis == Some(NoTickerError)
    // with a ticker, the history is fetched first, once, for three months
    ensures s.ticker.GetOr("") != "" ==>
      |r.calls| >= 1 && r.calls[0] == HistoryCall(s.ticker.value, Period, Interval)
      && forall i :: 1 <= i < |r.calls| ==> !r.calls[i].HistoryCall?
    // empty history: hard-fail without a model call
    ensures s.ticker.GetOr("") != "" && env.history(s.ticker.value, Period, Interval) == [] ==>
      r.calls == [HistoryCall(s.ticker.value, Period, Interval)]
      && r.update.technicalAnalysis == Some(NoHistoryMessage(s.ticker.value))
    // otherwise exactly one model call at 0.1 over the last ten rows, whose text is returned unmodified
    ensures ModelCallCount(r.calls) == 1 <==>
      s.ticker.GetOr("") != "" && env.history(s.ticker.value, Period, Interval) != []
    ensures ModelCallCount(r.calls) == 1 ==>
      var rows := env.history(s.ticker.value, Period, Interval);
      var call := ModelCall(SystemPrompt, HumanPrompt(s.ticker.value, env.recordsJson(RecentRows(env, rows))), Temperature);
      r.calls == [HistoryCall(s.ticker.value, Period, Interval), call]
      && r.update.technicalAnalysis == Some(env.llm(call.system, call.human, call.temperature))
  {
    var ticker := s.ticker.GetOr("");
    if ticker == "" then
      NodeResult(Single(TechnicalAnalysis, NoTickerError), [])
    else
      var fetch := HistoryCall(ticker, Period, Interval);
      var rows := env.history(ticker, Period, Interval);
      if rows == [] then
        NodeResult(Single(TechnicalAnalysis, NoHistoryMessage(ticker)), [fetch])
      else
        var recent := env.recordsJson(RecentRows(env, rows));
        var human := HumanPrompt(ticker, recent);
        NodeResult(Single(TechnicalAnalysis, env.llm(SystemPrompt, human, Temperature)),
                   [fetch, ModelCall(SystemPrompt, human, Temperature)])
  }
}
