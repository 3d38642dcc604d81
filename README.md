# trade_today orchestration, in Dafny

trade_today is a multi-agent stock analysis service. One request runs a
fixed LangGraph workflow over a shared `TradingState` record:

1. a **supervisor** pulls a ticker out of the user's query with a model call;
2. four **analysts** run in parallel on that ticker:
   - technical: three months of price history, indicators, the last ten rows;
   - fundamental: the financial metrics;
   - sentiment: a news search;
   - risk: beta, the 52-week range and debt to equity.
3. a **judge** combines the four reports into a final recommendation.

This project models the deterministic control logic of that pipeline:

- the state record and LangGraph's merge of each node's partial update (the only reducer is `messages`, concatenation);
- every node's guards, error strings, prompts, temperatures and external calls;
- the byte-exact text of the risk data block and of the judge's report;
- the graph that `build_graph` assembles, as a class with `AddNode`/`AddEdge`;
- a reference executor. It runs the analysts one after another in any order, and it is proved to give the same state as the parallel step.

The model, the market-data tools and the news search are oracles: fields of an `Env` value. Every node returns its update together with the log of external calls it made. Contracts therefore state:

- which calls a node makes, in what order, and at which temperature;
- that the model's answer is stored unmodified.

Modules, one per source file: `SharedState` (core/state.py), `Technical`,
`Fundamental`, `Sentiment`, `Risk`, `Judge` (agents/), `Workflow`
(graph/workflow.py), `Execution` (the LangGraph run of the compiled graph),
`External` (the oracle interface) and `Wrappers` (`Option`).

## Model

| member | source | states |
|---|---|---|
| SharedState.Merge | core/state.py:4-15 | every text key the update holds overwrites the state's value, every other key keeps it; `messages` becomes old ++ update's list |
| SharedState.MergeExtendsTrace | core/state.py:15 | after a merge the old trace is a prefix of the new one and the appended part is exactly the update's list |
| SharedState.MergeWithoutMessagesKeepsTrace | core/state.py:15 | an update without `messages` (or with an empty list) leaves the trace unchanged |
| SharedState.MergeEmptyUpdate | core/state.py:4-15 | merging an update that holds no key is the identity |
| SharedState.MergeDisjointCommutes | core/state.py:4-15 | two updates writing disjoint key sets can be merged in either order with the same result |
| SharedState.MergeAllAppends | core/state.py:15 | merging updates one at a time appends all their message lists in order, the same trace as one merge of the concatenation |
| SharedState.MergeAllLastWriterWins | core/state.py:4-14 | after merging a list of updates a text key holds the value of the last update that wrote it, or its old value |
| SharedState.InitialState | api.py:54-63 | a request starts with the query, every other text key "" and an empty trace |
| Technical.AddAllIndicators | tools/technical_ind.py:47-61 | indicator columns are added to the same rows in the same order |
| Technical.Tail | agents/technical.py:29 | `tail(n)` is the last min(n, length) elements in order |
| Technical.RecentRows | agents/technical.py:26-29 | the model sees the last min(10, n) rows of the enriched history |
| Technical.RecentRowsWindow | agents/technical.py:29 | at least ten rows gives exactly ten, fewer gives all of them, and the latest row is always the last seen |
| Technical.TechnicalAnalystNode | agents/technical.py:15-40 | writes only `technical_analysis`; no ticker gives the error text and no call; empty history gives the fetch alone and the no-data text; otherwise fetch ("3mo", "1d") then one model call at 0.1, whose answer is stored unmodified; the model is called iff there is a ticker and history |
| Fundamental.FundamentalAnalystNode | agents/fundamental.py:14-36 | writes only `fundamental_analysis`; no ticker gives the error text and no call; no metrics or no `marketCap` gives the fetch alone and the no-data text; the model (at 0.1) is called iff a ticker and a market capitalisation are present |
| Fundamental.OnlyMarketCapRequired | agents/fundamental.py:22-23 | a metrics dict with a market capitalisation and every other value null still reaches the model |
| Sentiment.BaseSymbol | agents/sentiment.py:22 | `split(".")[0]` is the dot-free prefix that stops at the first dot |
| Sentiment.SuffixDropped | agents/sentiment.py:22 | a symbol followed by an exchange suffix searches on the bare symbol |
| Sentiment.DotFreeKept | agents/sentiment.py:22 | a ticker without a dot is searched unchanged |
| Sentiment.ExchangeSuffixExample | agents/sentiment.py:22 | "RELIANCE.NS" searches "RELIANCE share news Indian stock market" |
| Sentiment.SentimentAnalystNode | agents/sentiment.py:14-39 | writes only `sentiment_analysis`; no ticker gives the error text and no call; one news search (5 results) on the base symbol; no news gives the no-news text; the model (at 0.2) is called iff there is a ticker and news |
| Sentiment.QueryIgnored | agents/sentiment.py:16 | the user query the node reads has no effect on its result |
| Risk.RiskData | agents/risk.py:21-31 | without beta the data block is the ticker and "Beta: Data Unavailable"; with beta it is the five labelled lines, missing values shown as "None" |
| Risk.RiskAnalystNode | agents/risk.py:13-42 | writes only `risk_analysis`; no ticker gives the error text and no call; otherwise exactly a metrics fetch then one model call at 0.1, whose answer is stored unmodified |
| Risk.SoftDegrade | agents/risk.py:21-23 | a missing beta still produces a model call, on the placeholder block |
| Judge.ReportText | agents/judge.py:24-38 | the synthesis report is byte for byte the f-string: banner, then the four headed sections, with its four-space indentation |
| Judge.SectionOccurs | agents/judge.py:27-37 | each section occurs in the report at its computed offset |
| Judge.SectionsOrdered | agents/judge.py:27-37 | earlier sections end before later ones start |
| Judge.ReportLayout | agents/judge.py:24-38 | the banner comes first; then the technical, fundamental, sentiment and risk sections, each its header followed by its analysis, occur in that order, each whole section ending before the next one starts |
| Judge.JudgeNode | agents/judge.py:17-49 | writes only `final_recommendation`; always exactly one model call at 0.3 on the preamble plus report; the answer is stored unmodified |
| Judge.Defaults | agents/judge.py:18-22 | missing keys are reported as ticker "Unknown" and empty analyses |
| Workflow.Strip | graph/workflow.py:34 | `str.strip()`: the result is the input with whitespace removed at both ends only, and neither end is whitespace |
| Workflow.StripKeepsTrimmed | graph/workflow.py:34 | a string with no whitespace at either end is unchanged |
| Workflow.StripIdempotent | graph/workflow.py:34 | stripping twice is stripping once |
| Workflow.SentinelPassesThrough | graph/workflow.py:16 | the sentinel "UNKNOWN", with or without a trailing newline, comes out as "UNKNOWN" |
| Workflow.SupervisorNode | graph/workflow.py:19-37 | writes only `ticker`; a non-empty ticker is kept and nothing is called; otherwise one model call at 0.0 on the query (default "") and the stripped answer becomes the ticker |
| Workflow.SupervisorSeededIsNoOp | graph/workflow.py:24-25 | with a ticker already set, the supervisor makes no call and its merge changes nothing |
| Workflow.SupervisorIdempotent | graph/workflow.py:19-37 | running the supervisor again after it resolved a non-empty ticker is a no-op |
| Workflow.FreshRequestResolvesTicker | graph/workflow.py:21-34 | a fresh request (ticker "") always asks the model, on exactly the user's query |
| Workflow.NamesDistinct | graph/workflow.py:48-53 | the six node names are pairwise distinct |
| Workflow.StateGraph.constructor | graph/workflow.py:43 | a new graph has no nodes and no edges |
| Workflow.StateGraph.AddNode | graph/workflow.py:48-53 | appends one node, edges unchanged |
| Workflow.StateGraph.AddEdge | graph/workflow.py:59-74 | appends one edge, nodes unchanged |
| Workflow.BuildGraph | graph/workflow.py:39-80 | the built graph is well formed, has the six nodes and ten edges, and its edges are exactly the workflow's edge relation |
| Workflow.BuiltEdgesAreWorkflow | graph/workflow.py:59-74 | the ten added edges are exactly entry, fan-out, join and exit |
| Workflow.BuiltGraphWellFormed | graph/workflow.py:48-74 | the six registered nodes are distinct and are all the nodes, there is an entry edge from START, no edge leaves END or enters START, and every other edge endpoint is a registered node |
| Workflow.FanOutAndJoin | graph/workflow.py:61-71 | the supervisor's successors are the four analysts, each analyst's only predecessor is the supervisor and only successor the judge, the judge's predecessors are the four analysts |
| Workflow.EdgeAdvancesStage | graph/workflow.py:59-74 | every edge goes one stage forward (START, supervisor, analysts, judge, END) |
| Workflow.PathAdvances | graph/workflow.py:59-74 | along any path the stage grows by one per step |
| Workflow.Acyclic | graph/workflow.py:59-74 | no path returns to its start: the graph has no cycle |
| Workflow.CompleteRuns | graph/workflow.py:59-74 | every path from START to END is START, supervisor, one analyst, judge, END |
| Execution.MergeOwn | graph/workflow.py:61-71 | merging the update an analyst computed into any state writes that analyst's own field and leaves every other field and the trace unchanged |
| Execution.ApplyAnalystsFields | graph/workflow.py:61-71 | after the analysts of any order run one by one, each analyst's field holds what it computes from the starting state, and nothing else changed |
| Execution.OrderIndependent | graph/workflow.py:61-71 | two orders holding the same analysts give the same state |
| Execution.SequentialMatchesParallel | graph/workflow.py:61-71 | every order of the four analysts gives the state of the parallel step, where all four read the same state |
| Execution.Superstep | graph/workflow.py:61-71 | the parallel step: all four analysts read the same state, and the trace grows by their four message lists in node order |
| Execution.SuperstepMergesAll | graph/workflow.py:67-71 | the parallel step is the merge of the four analysts' updates, each computed on the same state, applied in node order |
| Execution.SuperstepFields | graph/workflow.py:67-71 | after the parallel step the four analysis fields hold the four analysts' results and nothing else changed |
| Execution.Analysts | graph/workflow.py:48-53 | the registered analyst table: each of the four analyst nodes reads only `ticker` and writes exactly its own key |
| Execution.Compiled | graph/workflow.py:48-53 | the registered node table meets what the executor relies on: the analysts conform, the supervisor writes only `ticker`, the judge writes only `final_recommendation` with exactly one call, to the model |
| Execution.JoinBarrier | graph/workflow.py:67-71 | for any wired node table, when the judge runs all four analyses computed from the supervisor's state are present, the ticker is the supervisor's and the trace is the initial one |
| Execution.TraceUntouched | core/state.py:15 | for any wired node table no node writes `messages`, so a request ends with the trace it started with |
| Execution.SeededTickerSkipsSupervisor | graph/workflow.py:24-25 | in the compiled graph, with a pre-set ticker the supervisor makes no call and the analysts read the initial state unchanged |
| Execution.AnalystCallsOnStart | graph/workflow.py:61-71 | in a sequential run each analyst makes the calls it would make on the starting state |
| Execution.CallsOnPermutation | graph/workflow.py:61-71 | the analysts' calls, as a multiset, do not depend on the order they run in |
| Execution.TraceCoversNodes | graph/workflow.py:48-53 | supervisor, any order of the analysts, judge runs each of the six registered nodes exactly once |
| Execution.TraceFollowsGraph | graph/workflow.py:59-74 | supervisor, any order of the analysts, judge runs every node once and each edge's source before its target |
| Execution.RunAnalysts | graph/workflow.py:61-71 | running the analysts one at a time in any order gives the parallel step's state and, as a multiset, its calls |
| Execution.Reference | graph/workflow.py:59-80 | the final state of a request: when the judge writes only `final_recommendation`, the state the judge read with that one key replaced by its answer |
| Execution.Execute | graph/workflow.py:59-80 | one request over any wired node table, analysts in any order: the reference final state, the untouched trace, the reference calls in some order, the supervisor's calls first and the judge's model call last |

## Left out

- The model, the history and metrics fetches and the news search are oracles: total functions in `Env`. `get_llm`'s configuration, API keys, retries and exceptions from these calls are not modelled; a call that raises would abort the request in the source.
- The indicator mathematics (SMA, EMA, RSI, MACD) is an oracle per row. Only the row structure of `add_all_indicators` is modelled.
- `to_json` and `json.dumps` are opaque serialisers in `Env`; their output text is not modelled.
- LangGraph's parallel execution, threads and checkpointing are replaced by the sequential executor in `Execution`. The executor is proved equal to the parallel step's merge, but concurrent scheduling itself is not modelled.
- LangGraph's validation at `add_node`/`add_edge`/`compile` is captured only as the `WellFormedGraph` predicate. Its exceptions are not modelled.
- `compile()` is the identity on the graph. The executor `Execution.Execute` is generic in its node table; `Execution.Compiled(env)` is the table `build_graph` registers, and its contract is the executor's precondition.
- Entries of `messages` are plain strings. No node of the core writes that key.
- An update key whose value is Python `None` is treated as a key the update does not hold. No node of the core returns such a value.
- `api.py`, `app.py` (streaming and display), `vector_db/`, `list_models.py` and the tools' own HTTP and yfinance logic are not part of this model.
- Execution.Execute: the order of the analysts' calls among themselves is stated only as a multiset, because LangGraph runs the four analysts concurrently and their interleaving is not fixed.
