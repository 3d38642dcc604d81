/**
 * The risk analyst: guard on the ticker, fetch the metrics dict, and build a
 * data block: a placeholder block when the dict is empty or has no beta (a soft
 * degrade: the model is still called), otherwise five labelled lines. Then ask
 * the model at temperature 0.1.
 */
module Risk {
  import opened Wrappers
  import opened SharedState
  import opened External

  const SystemPrompt: string :=
    "You are an expert Risk Management Analyst for Indian Markets.\n"
    + "Your job is to evaluate the risk of investing in a given stock.\n"
    + "Analyze the Beta (volatility compared to the market), and 52-week range.\n"
    + "Conclude with a clear 'High Risk', 'Medium Risk', or 'Low Risk' rating.\n"
    + "Provide a concise risk assessment.\n"

  const Temperature: real := 0.1
  const NoTickerError: string := "Error: No ticker provided."
  const Unavailable: string := "Data Unavailable"

  function HumanPrompt(ticker: string, data: string): string {
    "Evaluate the risk for " + ticker + " based on this data:\n" + data
  }

  /** The fallback test: an empty dict, or `beta` missing or `None`. */
  predicate BetaMissing(m: Metrics) {
    m == map[] || !Present(m, "beta")
  }

  /** The data block as (label, value) lines, in the order the source writes them. */
  function RiskFacts(ticker: string, m: Metrics): seq<(string, string)> {
    if BetaMissing(m) then
      [("Ticker", ticker), ("Beta", Unavailable)]
    else
      [("Ticker", ticker),
       ("Beta", Show(m, "beta")),
       ("52-Week High", Show(m, "fiftyTwoWeekHigh")),
       ("52-Week Low", Show(m, "fiftyTwoWeekLow")),
       ("Debt to Equity", Show(m, "debtToEquity"))]
  }

  /** One line of the block: "label: value\n". */
  function Line(name: string, value: string): string {
    name + ": " + value + "\n"
  }

  /** The facts as consecutive lines. */
  function RenderLines(facts: seq<(string, string)>): string
    decreases |facts|
  {
    if facts == [] then "" else Line(facts[0].0, facts[0].1) + RenderLines(facts[1..])
  }

  /** The text of the data block, as the source's two f-string templates spell it. */
  function RiskData(ticker: string, m: Metrics): (r: string)
    ensures BetaMissing(m) ==> r == "Ticker: " + ticker + "\nBeta: Data Unavailable\n"
    ensures !BetaMissing(m) ==>
      r == "Ticker: " + ticker + "\n"
        + "Beta: " + Show(m, "beta") + "\n"
        + "52-Week High: " + Show(m, "fiftyTwoWeekHigh") + "\n"
        + "52-Week Low: " + Show(m, "fiftyTwoWeekLow") + "\n"
        + "Debt to Equity: " + Show(m, "debtToEquity") + "\n"
  {
    var facts := RiskFacts(ticker, m);
    RenderLinesUnfold(facts);
    if BetaMissing(m) then
      assert RenderLines(facts) == Line("Ticker", ticker) + Line("Beta", Unavailable);
      PlaceholderText(ticker);
      RenderLines(facts)
    else
      var b, h, l, d := Show(m, "beta"), Show(m, "fiftyTwoWeekHigh"), Show(m, "fiftyTwoWeekLow"), Show(m, "debtToEquity");
      assert RenderLines(facts) == Line("Ticker", ticker) + Line("Beta", b) + Line("52-Week High", h)
        + Line("52-Week Low", l) + Line("Debt to Equity", d);
      FullText(ticker, b, h, l, d);
      RenderLines(facts)
  }

  lemma PlaceholderText(t: string)
    ensures Line("Ticker", t) + Line("Beta", Unavailable) == "Ticker: " + t + "\nBeta: Data Unavailable\n"
  {
  }

  lemma FullText(t: string, b: string, h: string, l: string, d: string)
    ensures Line("Ticker", t) + Line("Beta", b) + Line("52-Week High", h) + Line("52-Week Low", l)
        + Line("Debt to Equity", d)
      == "Ticker: " + t + "\n" + "Beta: " + b + "\n" + "52-Week High: " + h + "\n"
        + "52-Week Low: " + l + "\n" + "Debt to Equity: " + d + "\n"
  {
  }

  /** RenderLines spelled out for blocks of two and of five lines. */
  lemma RenderLinesUnfold(f: seq<(string, string)>)
    ensures |f| == 2 ==> RenderLines(f) == Line(f[0].0, f[0].1) + Line(f[1].0, f[1].1)
    ensures |f| == 5 ==>
      RenderLines(f) == Line(f[0].0, f[0].1) + Line(f[1].0, f[1].1) + Line(f[2].0, f[2].1)
        + Line(f[3].0, f[3].1) + Line(f[4].0, f[4].1)
  {
    if |f| == 2 {
      assert RenderLines(f[1..]) == Line(f[1].0, f[1].1) + RenderLines(f[2..]);
    }
    if |f| == 5 {
      assert RenderLines(f[4..]) == Line(f[4].0, f[4].1) + RenderLines(f[5..]);
      assert RenderLines(f[3..]) == Line(f[3].0, f[3].1) + RenderLines(f[4..]);
      assert RenderLines(f[2..]) == Line(f[2].0, f[2].1) + RenderLines(f[3..]);
      assert RenderLines(f[1..]) == Line(f[1].0, f[1].1) + RenderLines(f[2..]);
    }
  }

  /** `risk_analyst_node`. */
  function RiskAnalystNode(s: State, env: Env): (r: NodeResult)
    ensures Keys(r.update) == {RiskAnalysis}
    ensures s.ticker.GetOr("") == "" <==> r.calls == []
    ensures s.ticker.GetOr("") == "" ==> r.update.riskAnalysis == Some(NoTickerError)
    // with a ticker: one metrics fetch, then always exactly one model call at 0.1, even without beta
    ensures ModelCallCount(r.calls) == 1 <==> s.ticker.GetOr("") != ""
    ensures s.ticker.GetOr("") != "" ==>
      var call := ModelCall(SystemPrompt, HumanPrompt(s.ticker.value, RiskData(s.ticker.value, env.metrics(s.ticker.value))), Temperature);
      r.calls == [MetricsCall(s.ticker.value), call]
      && r.update.riskAnalysis == Some(env.llm(call.system, call.human, call.temperature))
  {
    var ticker := s.ticker.GetOr("");
    if ticker == "" then
      NodeResult(Single(RiskAnalysis, NoTickerError), [])
    else
      var human := HumanPrompt(ticker, RiskData(ticker, env.metrics(ticker)));
      NodeResult(Single(RiskAnalysis, env.llm(SystemPrompt, human, Temperature)),
                 [MetricsCall(ticker), ModelCall(SystemPrompt, human, Temperature)])
  }

  /**
   * Soft degrade: with beta missing the node still calls the model, and the
   * prompt carries the placeholder block.
   */
  lemma SoftDegrade(s: State, env: Env)
    requires s.ticker.GetOr("") != ""
    requires BetaMissing(env.metrics(s.ticker.value))
    ensures ModelCallCount(RiskAnalystNode(s, env).calls) == 1
    ensures RiskAnalystNode(s, env).calls[1].human
      == "Evaluate the risk for " + s.ticker.value + " based on this data:\n"
         + "Ticker: " + s.ticker.value + "\nBeta: Data Unavailable\n"
  {
  }
}
