/**
 * The supervisor node, which resolves the ticker, and `build_graph`, which
 * wires the fixed workflow: START -> supervisor -> the four analysts -> judge -> END.
 */
module Workflow {
  import opened Wrappers
  import opened SharedState
  import opened External

  // ---------------------------------------------------------------------------
  // Supervisor
  // ---------------------------------------------------------------------------

  const SupervisorSystemPrompt: string :=
    "You are the Supervisor of a Trading Analysis Swarm.\n"
    + "Your ONLY job is to extract the stock ticker from the user query.\n"
    + "If the user provides an Indian stock name, attempt to append the correct Yahoo Finance suffix (.NS for NSE, .BO for BSE) if missing. \n"
    + "Respond ONLY with the exact ticker string (e.g. 'RELIANCE.NS'). Do not include any other text, reasoning, or markdown formatting.\n"
    + "If you cannot determine a ticker, output 'UNKNOWN'.\n"

  /** Zero temperature, for strict extraction. */
  const SupervisorTemperature: real := 0.0

  /** The sentinel the prompt asks for when no ticker can be found; nothing checks for it. */
  const UnknownTicker: string := "UNKNOWN"

  /** The characters Python's `str.strip()` removes: those for which `str.isspace()` holds. */
  predicate IsSpace(c: char) {
    || ('\t' <= c <= '\r')
    || ('\U{1C}' <= c <= ' ')
    || c == '\U{85}' || c == '\U{A0}' || c == '\U{1680}'
    || ('\U{2000}' <= c <= '\U{200A}')
    || c == '\U{2028}' || c == '\U{2029}' || c == '\U{202F}' || c == '\U{205F}' || c == '\U{3000}'
  }

  /** Drops leading whitespace: what is left is a suffix that does not start with whitespace. */
  function TrimLeft(s: string): (r: string)
    ensures |r| <= |s| && r == s[|s| - |r|..]
    ensures forall k :: 0 <= k < |s| - |r| ==> IsSpace(s[k])
    ensures r == [] || !IsSpace(r[0])
    decreases |s|
  {
    if s != [] && IsSpace(s[0]) then TrimLeft(s[1..]) else s
  }

  /** Drops trailing whitespace: what is left is a prefix that does not end with whitespace. */
  function TrimRight(s: string): (r: string)
    ensures |r| <= |s| && r == s[..|r|]
    ensures forall k :: |r| <= k < |s| ==> IsSpace(s[k])
    ensures r == [] || !IsSpace(r[|r| - 1])
    decreases |s|
  {
    if s != [] && IsSpace(s[|s| - 1]) then TrimRight(s[..|s| - 1]) else s
  }

  /** `r` sits in `s` at index `i` with only whitespace before and after it. */
  predicate Padded(s: string, r: string, i: nat) {
    && i + |r| <= |s|
    && s[i..i + |r|] == r
    && (forall k :: 0 <= k < i ==> IsSpace(s[k]))
    && (forall k :: i + |r| <= k < |s| ==> IsSpace(s[k]))
  }

  /** A suffix after leading whitespace, cut before trailing whitespace, sits padded in the text. */
  lemma PaddedBetween(s: string, l: string, r: string)
    requires |l| <= |s| && l == s[|s| - |l|..]
    requires forall k :: 0 <= k < |s| - |l| ==> IsSpace(s[k])
    requires |r| <= |l| && r == l[..|r|]
    requires forall k :: |r| <= k < |l| ==> IsSpace(l[k])
    ensures Padded(s, r, |s| - |l|)
  {
    var i := |s| - |l|;
    assert s[i..i + |r|] == r by {
      assert s[i..][..|r|] == s[i..i + |r|];
    }
    forall k | i + |r| <= k < |s|
      ensures IsSpace(s[k])
    {
      assert s[k] == l[k - i];
    }
  }

  /** Trimming both ends leaves the text where it was, with only whitespace around it. */
  lemma TrimmedIsPadded(s: string)
    ensures Padded(s, TrimRight(TrimLeft(s)), |s| - |TrimLeft(s)|)
  {
    PaddedBetween(s, TrimLeft(s), TrimRight(TrimLeft(s)));
  }

  /** Python's `str.strip()`: the text between the leading and the trailing whitespace. */
  function Strip(s: string): (r: string)
    ensures exists i: nat :: Padded(s, r, i)
    ensures r == [] || (!IsSpace(r[0]) && !IsSpace(r[|r| - 1]))
  {
    TrimmedIsPadded(s);
    TrimRight(TrimLeft(s))
  }

  /** Text with no whitespace at either end is kept as it is. */
  lemma StripKeepsTrimmed(x: string)
    requires x == [] || (!IsSpace(x[0]) && !IsSpace(x[|x| - 1]))
    ensures Strip(x) == x
  {
  }

  /** Stripping twice is stripping once. */
  lemma StripIdempotent(s: string)
    ensures Strip(Strip(s)) == Strip(s)
  {
    StripKeepsTrimmed(Strip(s));
  }

  /** The sentinel answer, with or without a trailing newline, becomes the ticker "UNKNOWN". */
  lemma SentinelPassesThrough()
    ensures Strip(UnknownTicker) == UnknownTicker
    ensures Strip(UnknownTicker + "\n") == UnknownTicker
  {
    var u := UnknownTicker;
    assert u[0] == 'U' && u[|u| - 1] == 'N';
    StripKeepsTrimmed(u);
    var padded := u + "\n";
    assert padded[0] == 'U' && padded[|padded| - 1] == '\n';
    assert TrimLeft(padded) == padded;
    assert padded[..|padded| - 1] == u;
    assert TrimRight(padded) == TrimRight(u);
  }

  /** `supervisor_node`. */
  function SupervisorNode(s: State, env: Env): (r: NodeResult)
    ensures Keys(r.update) == {Ticker}
    // a ticker already present is returned as it is, and the model is not called
    ensures s.ticker.GetOr("") != "" ==> r.calls == [] && r.update.ticker == s.ticker
    // otherwise one model call at 0.0 on the query (default ""), whose answer is stripped and nothing else
    ensures s.ticker.GetOr("") == "" ==>
      var call := ModelCall(SupervisorSystemPrompt, s.userQuery.GetOr(""), SupervisorTemperature);
      r.calls == [call]
      && r.update.ticker == Some(Strip(env.llm(call.system, call.human, call.temperature)))
  {
    var query := s.userQuery.GetOr("");
    if s.ticker.GetOr("") != "" then
      NodeResult(Single(Ticker, s.ticker.value), [])
    else
      var answer := env.llm(SupervisorSystemPrompt, query, SupervisorTemperature);
      NodeResult(Single(Ticker, Strip(answer)), [ModelCall(SupervisorSystemPrompt, query, SupervisorTemperature)])
  }

  /** With a pre-seeded ticker, merging the supervisor's update changes nothing. */
  lemma SupervisorSeededIsNoOp(s: State, env: Env)
    requires s.ticker.GetOr("") != ""
    ensures SupervisorNode(s, env).calls == []
    ensures Merge(s, SupervisorNode(s, env).update) == s
  {
    var u := SupervisorNode(s, env).update;
    StateExtensionality(Merge(s, u), s);
  }

  /**
   * Running the supervisor again on the state it produced, once that state has
   * a non-empty ticker, makes no call and changes nothing.
   */
  lemma SupervisorIdempotent(s: State, env: Env)
    requires Merge(s, SupervisorNode(s, env).update).ticker.GetOr("") != ""
    ensures
      var s1 := Merge(s, SupervisorNode(s, env).update);
      SupervisorNode(s1, env).calls == [] && Merge(s1, SupervisorNode(s1, env).update) == s1
  {
    SupervisorSeededIsNoOp(Merge(s, SupervisorNode(s, env).update), env);
  }

  /** A fresh request (ticker "") always costs exactly one extraction call on the user's query. */
  lemma FreshRequestResolvesTicker(query: string, env: Env)
    ensures SupervisorNode(InitialState(query), env).calls
      == [ModelCall(SupervisorSystemPrompt, query, SupervisorTemperature)]
  {
  }

  // ---------------------------------------------------------------------------
  // Graph
  // ---------------------------------------------------------------------------

  datatype NodeId = Supervisor | TechnicalAnalyst | FundamentalAnalyst | SentimentAnalyst | RiskAnalyst | Judge

  /** START and END are virtual endpoints, not nodes. */
  datatype Endpoint = Start | End | Node(id: NodeId)

  datatype Edge = Edge(from: Endpoint, to: Endpoint)

  /** The names the nodes are registered under. */
  function Name(n: NodeId): string {
    match n
    case Supervisor => "supervisor"
    case TechnicalAnalyst => "technical_analyst"
    case FundamentalAnalyst => "fundamental_analyst"
    case SentimentAnalyst => "sentiment_analyst"
    case RiskAnalyst => "risk_analyst"
    case Judge => "judge"
  }

  /** Distinct nodes are registered under distinct names. */
  lemma NamesDistinct(a: NodeId, b: NodeId)
    requires a != b
    ensures Name(a) != Name(b)
  {
  }

  predicate IsAnalyst(n: NodeId) {
    n in {TechnicalAnalyst, FundamentalAnalyst, SentimentAnalyst, RiskAnalyst}
  }

  const AllNodes: set<NodeId> := {Supervisor, TechnicalAnalyst, FundamentalAnalyst, SentimentAnalyst, RiskAnalyst, Judge}

  const AllEndpoints: set<Endpoint> :=
    {Start, End, Node(Supervisor), Node(TechnicalAnalyst), Node(FundamentalAnalyst),
     Node(SentimentAnalyst), Node(RiskAnalyst), Node(Judge)}

  /**
   * The edge relation of the compiled workflow: entry, unconditional fan-out
   * from the supervisor to every analyst, every analyst into the judge, exit.
   * There are no conditional edges: no edge depends on the state.
   */
  predicate IsWorkflowEdge(e: Edge) {
    || (e.from == Start && e.to == Node(Supervisor))
    || (e.from == Node(Supervisor) && e.to.Node? && IsAnalyst(e.to.id))
    || (e.from.Node? && IsAnalyst(e.from.id) && e.to == Node(Judge))
    || (e.from == Node(Judge) && e.to == End)
  }

  /** The builder `StateGraph(TradingState)` that `build_graph` fills in. */
  class StateGraph {
    var nodes: seq<NodeId>
    var edges: seq<Edge>

    constructor ()
      ensures nodes == [] && edges == []
    {
      nodes := [];
      edges := [];
    }

    /** `workflow.add_node(name, fn)`. */
    method AddNode(n: NodeId)
      modifies this
      ensures nodes == old(nodes) + [n] && edges == old(edges)
    {
      nodes := nodes + [n];
    }

    /** `workflow.add_edge(from, to)`. */
    method AddEdge(from: Endpoint, to: Endpoint)
      modifies this
      ensures edges == old(edges) + [Edge(from, to)] && nodes == old(nodes)
    {
      edges := edges + [Edge(from, to)];
    }

    predicate WellFormed()
      reads this
    {
      WellFormedGraph(nodes, edges)
    }
  }

  /** What compiling checks: nodes registered once, an entry edge, and every edge between registered nodes or START/END. */
  predicate WellFormedGraph(nodes: seq<NodeId>, edges: seq<Edge>) {
    && (forall i, j :: 0 <= i < j < |nodes| ==> nodes[i] != nodes[j])
    && (forall e :: e in edges ==> e.from != End && e.to != Start)
    && (forall e :: e in edges && e.from.Node? ==> e.from.id in nodes)
    && (forall e :: e in edges && e.to.Node? ==> e.to.id in nodes)
    && (exists e :: e in edges && e.from == Start)
  }

  /** The nodes `build_graph` registers, in its order. */
  const BuiltNodes: seq<NodeId> := [Supervisor, TechnicalAnalyst, FundamentalAnalyst, SentimentAnalyst, RiskAnalyst, Judge]

  /** The edges `build_graph` adds, in its order. */
  const BuiltEdges: seq<Edge> := [
    Edge(Start, Node(Supervisor)),
    Edge(Node(Supervisor), Node(TechnicalAnalyst)), Edge(Node(Supervisor), Node(FundamentalAnalyst)),
    Edge(Node(Supervisor), Node(SentimentAnalyst)), Edge(Node(Supervisor), Node(RiskAnalyst)),
    Edge(Node(TechnicalAnalyst), Node(Judge)), Edge(Node(FundamentalAnalyst), Node(Judge)),
    Edge(Node(SentimentAnalyst), Node(Judge)), Edge(Node(RiskAnalyst), Node(Judge)),
    Edge(Node(Judge), End)]

  /** The edges added are exactly the workflow's edge relation. */
  lemma BuiltEdgesAreWorkflow()
    ensures forall e :: e in BuiltEdges <==> IsWorkflowEdge(e)
  {
    forall e | IsWorkflowEdge(e)
      ensures e in BuiltEdges
    {
      if e.from == Node(Supervisor) {
        assert e.to in {Node(TechnicalAnalyst), Node(FundamentalAnalyst), Node(SentimentAnalyst), Node(RiskAnalyst)};
      } else if e.to == Node(Judge) {
        assert e.from in {Node(TechnicalAnalyst), Node(FundamentalAnalyst), Node(SentimentAnalyst), Node(RiskAnalyst)};
      }
    }
  }

  /** The registrations compile: six distinct nodes, all edges between them or START/END. */
  lemma BuiltGraphWellFormed()
    ensures WellFormedGraph(BuiltNodes, BuiltEdges)
    ensures (set n | n in BuiltNodes) == AllNodes
  {
    assert BuiltEdges[0].from == Start;
    forall i | 0 <= i < |BuiltNodes|
      ensures Position(BuiltNodes[i]) == i
    {
    }
    forall n: NodeId
      ensures n in BuiltNodes
    {
      assert BuiltNodes[Position(n)] == n;
    }
    BuiltEdgesAreWorkflow();
  }

  /** The index of each node in `BuiltNodes`. */
  function Position(n: NodeId): (i: nat)
    ensures i < |BuiltNodes| && BuiltNodes[i] == n
  {
    match n
    case Supervisor => 0
    case TechnicalAnalyst => 1
    case FundamentalAnalyst => 2
    case SentimentAnalyst => 3
    case RiskAnalyst => 4
    case Judge => 5
  }

  /** `build_graph`: six nodes, then the ten edges of the fixed workflow. */
  method BuildGraph() returns (g: StateGraph)
    ensures fresh(g)
    ensures g.WellFormed()
    ensures |g.nodes| == 6 && (set n | n in g.nodes) == AllNodes
    ensures |g.edges| == 10
    ensures forall e :: e in g.edges <==> IsWorkflowEdge(e)
  {
    g := new StateGraph();
    g.AddNode(Supervisor);
    g.AddNode(TechnicalAnalyst);
    g.AddNode(FundamentalAnalyst);
    g.AddNode(SentimentAnalyst);
    g.AddNode(RiskAnalyst);
    g.AddNode(Judge);
    assert g.nodes == BuiltNodes;

    g.AddEdge(Start, Node(Supervisor));

    g.AddEdge(Node(Supervisor), Node(TechnicalAnalyst));
    g.AddEdge(Node(Supervisor), Node(FundamentalAnalyst));
    g.AddEdge(Node(Supervisor), Node(SentimentAnalyst));
    g.AddEdge(Node(Supervisor), Node(RiskAnalyst));

    g.AddEdge(Node(TechnicalAnalyst), Node(Judge));
    g.AddEdge(Node(FundamentalAnalyst), Node(Judge));
    g.AddEdge(Node(SentimentAnalyst), Node(Judge));
    g.AddEdge(Node(RiskAnalyst), Node(Judge));

    g.AddEdge(Node(Judge), End);
    assert g.edges == BuiltEdges;

    BuiltEdgesAreWorkflow();
    BuiltGraphWellFormed();
  }

  /** The nodes with an edge into `n`. */
  function Predecessors(n: Endpoint): set<Endpoint> {
    set p | p in AllEndpoints && IsWorkflowEdge(Edge(p, n))
  }

  /** The nodes `n` has an edge to. */
  function Successors(n: Endpoint): set<Endpoint> {
    set q | q in AllEndpoints && IsWorkflowEdge(Edge(n, q))
  }

  /**
   * Fan-out and join: the supervisor is entered only from START and leads to
   * each of the four analysts; each analyst is entered only from the
   * supervisor; the judge has exactly the four analysts as predecessors and
   * leads only to END.
   */
  lemma FanOutAndJoin()
    ensures Predecessors(Node(Supervisor)) == {Start}
    ensures Successors(Node(Supervisor))
      == {Node(TechnicalAnalyst), Node(FundamentalAnalyst), Node(SentimentAnalyst), Node(RiskAnalyst)}
    ensures forall a :: IsAnalyst(a) ==> Predecessors(Node(a)) == {Node(Supervisor)}
    ensures forall a :: IsAnalyst(a) ==> Successors(Node(a)) == {Node(Judge)}
    ensures Predecessors(Node(Judge))
      == {Node(TechnicalAnalyst), Node(FundamentalAnalyst), Node(SentimentAnalyst), Node(RiskAnalyst)}
    ensures Successors(Node(Judge)) == {End}
    ensures Predecessors(Start) == {} && Successors(End) == {}
  {
    forall a | IsAnalyst(a)
      ensures Predecessors(Node(a)) == {Node(Supervisor)}
      ensures Successors(Node(a)) == {Node(Judge)}
    {
      assert Node(Supervisor) in Predecessors(Node(a));
      assert Node(Judge) in Successors(Node(a));
    }
    assert Start in Predecessors(Node(Supervisor));
    assert End in Successors(Node(Judge));
    assert Node(TechnicalAnalyst) in Successors(Node(Supervisor));
    assert Node(FundamentalAnalyst) in Successors(Node(Supervisor));
    assert Node(SentimentAnalyst) in Successors(Node(Supervisor));
    assert Node(RiskAnalyst) in Successors(Node(Supervisor));
    assert Node(TechnicalAnalyst) in Predecessors(Node(Judge));
    assert Node(FundamentalAnalyst) in Predecessors(Node(Judge));
    assert Node(SentimentAnalyst) in Predecessors(Node(Judge));
    assert Node(RiskAnalyst) in Predecessors(Node(Judge));
  }

  /** The stage of an endpoint: START 0, supervisor 1, analysts 2, judge 3, END 4. */
  function Stage(e: Endpoint): nat {
    match e
    case Start => 0
    case End => 4
    case Node(n) => if n == Supervisor then 1 else if n == Judge then 3 else 2
  }

  /** Every edge goes exactly one stage forward. */
  lemma EdgeAdvancesStage(e: Edge)
    requires IsWorkflowEdge(e)
    ensures Stage(e.to) == Stage(e.from) + 1
  {
  }

  /** A walk along workflow edges. */
  predicate IsPath(p: seq<Endpoint>) {
    forall i :: 0 <= i < |p| - 1 ==> IsWorkflowEdge(Edge(p[i], p[i + 1]))
  }

  /** Each step of a path advances one stage. */
  lemma {:induction false} PathAdvances(p: seq<Endpoint>)
    requires IsPath(p) && p != []
    ensures Stage(p[|p| - 1]) == Stage(p[0]) + |p| - 1
    ensures forall i :: 0 <= i < |p| ==> Stage(p[i]) == Stage(p[0]) + i
    decreases |p|
  {
    if |p| > 1 {
      var init := p[..|p| - 1];
      assert IsPath(init) by {
        forall i | 0 <= i < |init| - 1
          ensures IsWorkflowEdge(Edge(init[i], init[i + 1]))
        {
          assert init[i] == p[i] && init[i + 1] == p[i + 1];
        }
      }
      PathAdvances(init);
      EdgeAdvancesStage(Edge(p[|p| - 2], p[|p| - 1]));
    }
  }

  /** The graph is acyclic: no walk of one or more edges returns to where it began. */
  lemma Acyclic(p: seq<Endpoint>)
    requires IsPath(p) && |p| >= 2
    ensures p[0] != p[|p| - 1]
  {
    PathAdvances(p);
  }

  /**
   * Every run from START to END visits exactly the supervisor, one analyst and
   * the judge in between: nothing precedes the supervisor and nothing follows
   * the judge except END.
   */
  lemma CompleteRuns(p: seq<Endpoint>)
    requires IsPath(p) && |p| >= 1 && p[0] == Start && p[|p| - 1] == End
    ensures |p| == 5
    ensures p[1] == Node(Supervisor) && p[2].Node? && IsAnalyst(p[2].id) && p[3] == Node(Judge)
  {
    PathAdvances(p);
    assert IsWorkflowEdge(Edge(p[0], p[1]));
    assert IsWorkflowEdge(Edge(p[1], p[2]));
    assert IsWorkflowEdge(Edge(p[2], p[3]));
    assert IsWorkflowEdge(Edge(p[3], p[4]));
  }
}
