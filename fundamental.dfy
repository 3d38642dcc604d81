/**
 * The fundamental analyst: guard on the ticker, fetch the metrics dict,
 * hard-fail when it is empty or has no market capitalisation, otherwise ask the
 * model at temperature 0.1 over the serialised metrics.
 */
module Fundamental {
  import opened Wrappers
  import opened SharedState
  import opened External

  const SystemPrompt: string :=
    "You are an expert Fundamental Analyst for Indian Stock Markets.\n"
    + "Your job is to evaluate a company's financial health based on core metrics (P/E, EPS, Margins, Debt, ROE).\n"
    + "Compare valuation, profitability, and growth.\n"
    + "Conclude with a clear 'Undervalued', 'Overvalued', or 'Fairly Valued' assessment.\n"
    + "Be concise but highly analytical.\n"

  const Temperature: real := 0.1
  const NoTickerError: string := "Error: No ticker provided."

  function NoMetricsMessage(ticker: string): string {
    "Could not retrieve fundamental metrics for " + ticker + "."
  }

  function HumanPrompt(ticker: string, metricsJson: string): string {
    "Analyze the following financial metrics for " + ticker + ":\n" + metricsJson
  }

  /** The hard-fail test: an empty dict, or `marketCap` missing or `None`. No other metric is looked at. */
  predicate Insufficient(m: Metrics) {
    m == map[] || !Present(m, "marketCap")
  }

  /** `fundamental_analyst_node`. */
  function FundamentalAnalystNode(s: State, env: Env): (r: NodeResult)
    ensures Keys(r.update) == {FundamentalAnalysis}
    ensures s.ticker.GetOr("") == "" <==> r.calls == []
    ensures s.ticker.GetOr("") == "" ==> r.update.fundamentalAnalysis == Some(NoTickerError)
    ensures s.ticker.GetOr("") != "" ==>
      |r.calls| >= 1 && r.calls[0] == MetricsCall(s.ticker.value)
      && forall i :: 1 <= i < |r.calls| ==> !r.calls[i].MetricsCall?
    // the model is called exactly when there is a ticker and a market capitalisation
    ensures ModelCallCount(r.calls) <= 1
    ensures ModelCallCount(r.calls) == 1 <==>
      s.ticker.GetOr("") != "" && Present(env.metrics(s.ticker.value), "marketCap")
    ensures s.ticker.GetOr("") != "" && Insufficient(env.metrics(s.ticker.value)) ==>
      r.calls == [MetricsCall(s.ticker.value)]
      && r.update.fundamentalAnalysis == Some(NoMetricsMessage(s.ticker.value))
    ensures ModelCallCount(r.calls) == 1 ==>
      var call := ModelCall(SystemPrompt, HumanPrompt(s.ticker.value, env.metricsJson(env.metrics(s.ticker.value))), Temperature);
      r.calls == [MetricsCall(s.ticker.value), call]
      && r.update.fundamentalAnalysis == Some(env.llm(call.system, call.human, call.temperature))
  {
    var ticker := s.ticker.GetOr("");
    if ticker == "" then
      NodeResult(Single(FundamentalAnalysis, NoTickerError), [])
    else
      var metrics := env.metrics(ticker);
      if Insufficient(metrics) then
        NodeResult(Single(FundamentalAnalysis, NoMetricsMessage(ticker)), [MetricsCall(ticker)])
      else
        var human := HumanPrompt(ticker, env.metricsJson(metrics));
        NodeResult(Single(FundamentalAnalysis, env.llm(SystemPrompt, human, Temperature)),
                   [MetricsCall(ticker), ModelCall(SystemPrompt, human, Temperature)])
  }

  /** Only `marketCap` is checked: with it present the model is called even if every other metric is `None`. */
  lemma OnlyMarketCapRequired(s: State, env: Env)
    requires s.ticker.GetOr("") != ""
    requires Present(env.metrics(s.ticker.value), "marketCap")
    requires forall k :: k in env.metrics(s.ticker.value) && k != "marketCap" ==> env.metrics(s.ticker.value)[k] == Null
    ensures ModelCallCount(FundamentalAnalystNode(s, env).calls) == 1
  {
  }
}
