/**
 * The sentiment analyst: guard on the ticker, search news for the base symbol
 * (the text before the first ".") with a fixed locale qualifier, hard-fail when
 * nothing is found, otherwise ask the model at temperature 0.2.
 */
module Sentiment {
  import opened Wrappers
  import opened SharedState
  import opened External

  const SystemPrompt: string :=
    "You are an expert Market Sentiment Analyst.\n"
    + "Your job is to read recent news headlines and snippets about a specific stock and gauge the market's mood.\n"
    + "Identify any major catalysts, positive news, or concerning events.\n"
    + "Conclude with a clear 'Bullish', 'Bearish', or 'Neutral' sentiment rating.\n"
    + "Be concise.\n"

  const Temperature: real := 0.2
  const MaxResults: int := 5
  const Qualifier: string := " share news Indian stock market"
  const NoTickerError: string := "Error: No ticker provided."

  function NoNewsMessage(ticker: string): string {
    "Could not find recent news for " + ticker + "."
  }

  function HumanPrompt(ticker: string, newsJson: string): string {
    "Analyze the following recent news for " + ticker + ":\n" + newsJson
  }

  /**
   * `ticker.split(".")[0]`: the longest prefix of the ticker without a ".",
   * which is the whole ticker when it has no "." and otherwise stops right
   * before the first one.
   */
  function BaseSymbol(t: string): (r: string)
    ensures r <= t
    ensures '.' !in r
    ensures |r| < |t| ==> t[|r|] == '.'
    decreases |t|
  {
    if t == [] || t[0] == '.' then [] else [t[0]] + BaseSymbol(t[1..])
  }

  /** The query sent to the news search. */
  function SearchTerm(ticker: string): string {
    BaseSymbol(ticker) + Qualifier
  }

  /** An exchange suffix is dropped: the base of `b + "." + x` is `b` when `b` has no ".". */
  lemma {:induction false} SuffixDropped(b: string, x: string)
    requires '.' !in b
    ensures BaseSymbol(b + "." + x) == b
    decreases |b|
  {
    if b != [] {
      assert (b + "." + x)[1..] == b[1..] + "." + x;
      SuffixDropped(b[1..], x);
    }
  }

  /** A ticker without a "." is used whole. */
  lemma {:induction false} DotFreeKept(t: string)
    requires '.' !in t
    ensures BaseSymbol(t) == t
    decreases |t|
  {
    if t != [] {
      DotFreeKept(t[1..]);
    }
  }

  /** `sentiment_analyst_node`. */
  function SentimentAnalystNode(s: State, env: Env): (r: NodeResult)
    ensures Keys(r.update) == {SentimentAnalysis}
    ensures s.ticker.GetOr("") == "" <==> r.calls == []
    ensures s.ticker.GetOr("") == "" ==> r.update.sentimentAnalysis == Some(NoTickerError)
    // with a ticker, one search for the base symbol, at most five results
    ensures s.ticker.GetOr("") != "" ==>
      |r.calls| >= 1 && r.calls[0] == NewsCall(SearchTerm(s.ticker.value), MaxResults)
      && forall i :: 1 <= i < |r.calls| ==> !r.calls[i].NewsCall?
    ensures ModelCallCount(r.calls) == 1 <==>
      s.ticker.GetOr("") != "" && env.news(SearchTerm(s.ticker.value), MaxResults) != []
    ensures s.ticker.GetOr("") != "" && env.news(SearchTerm(s.ticker.value), MaxResults) == [] ==>
      r.calls == [NewsCall(SearchTerm(s.ticker.value), MaxResults)]
      && r.update.sentimentAnalysis == Some(NoNewsMessage(s.ticker.value))
    ensures ModelCallCount(r.calls) == 1 ==>
      var items := env.news(SearchTerm(s.ticker.value), MaxResults);
      var call := ModelCall(SystemPrompt, HumanPrompt(s.ticker.value, env.newsJson(items)), Temperature);
      r.calls == [NewsCall(SearchTerm(s.ticker.value), MaxResults), call]
      && r.update.sentimentAnalysis == Some(env.llm(call.system, call.human, call.temperature))
  {
    var ticker := s.ticker.GetOr("");
    // `user_query` is read (defaulting to the ticker) and never used
    var query := s.userQuery.GetOr(ticker);
    if ticker == "" then
      NodeResult(Single(SentimentAnalysis, NoTickerError), [])
    else
      var term := SearchTerm(ticker);
      var items := env.news(term, MaxResults);
      if items == [] then
        NodeResult(Single(SentimentAnalysis, NoNewsMessage(ticker)), [NewsCall(term, MaxResults)])
      else
        var human := HumanPrompt(ticker, env.newsJson(items));
        NodeResult(Single(SentimentAnalysis, env.llm(SystemPrompt, human, Temperature)),
                   [NewsCall(term, MaxResults), ModelCall(SystemPrompt, human, Temperature)])
  }

  /** `user_query` never influences what the node does. */
  lemma QueryIgnored(s: State, q: Option<string>, env: Env)
    ensures SentimentAnalystNode(s.(userQuery := q), env) == SentimentAnalystNode(s, env)
  {
  }

  /** "RELIANCE.NS" is searched under its base symbol "RELIANCE". */
  lemma ExchangeSuffixExample()
    ensures BaseSymbol("RELIANCE.NS") == "RELIANCE"
    ensures SearchTerm("RELIANCE.NS") == "RELIANCE" + Qualifier
  {
    var t := "RELIANCE.NS";
    assert t[8] == '.';
    assert forall i :: 0 <= i < 8 ==> t[i] != '.';
  }
}
