/**
 * A sequential reference executor for the compiled workflow: the supervisor,
 * then the four analysts in any order, each update merged into the running
 * state, then the judge. Because the analysts read only the ticker and write
 * pairwise distinct fields, every order gives the state that LangGraph's
 * parallel step gives (all four read the same state, all four updates merged).
 *
 * The analyst nodes are reached through a dispatch table `run`, as the
 * compiled graph reaches them by name; the order lemmas hold for every table
 * that `Conforms`, and `Analysts` promises the real one does.
 */
module Execution {
  import opened Wrappers
  import opened SharedState
  import opened External
  import opened Workflow
  import TechnicalAgent = Technical
  import FundamentalAgent = Fundamental
  import SentimentAgent = Sentiment
  import RiskAgent = Risk
  import JudgeAgent = Judge

  /** A table from analyst node to its function of the state. */
  type Runner = (NodeId, State) -> NodeResult

  /** The field each analyst writes. */
  function OutputField(n: NodeId): (f: Field)
    requires IsAnalyst(n)
    ensures !HasReducer(f) && f != Ticker && f != UserQuery && f != FinalRecommendation
  {
    if n == TechnicalAnalyst then TechnicalAnalysis
    else if n == FundamentalAnalyst then FundamentalAnalysis
    else if n == SentimentAnalyst then SentimentAnalysis
    else RiskAnalysis
  }

  /** The four analysis fields. */
  predicate IsAnalysisField(f: Field) {
    f in {TechnicalAnalysis, FundamentalAnalysis, SentimentAnalysis, RiskAnalysis}
  }

  /** The analyst that owns an analysis field. */
  function Owner(f: Field): (n: NodeId)
    requires IsAnalysisField(f)
    ensures IsAnalyst(n) && OutputField(n) == f
  {
    if f == TechnicalAnalysis then TechnicalAnalyst
    else if f == FundamentalAnalysis then FundamentalAnalyst
    else if f == SentimentAnalysis then SentimentAnalyst
    else RiskAnalyst
  }

  /**
   * What the order lemmas need of the analysts: each reads only the ticker,
   * and each returns an update holding exactly its own field.
   */
  ghost predicate Conforms(run: Runner) {
    && (forall n, s1: State, s2: State :: IsAnalyst(n) && s1.ticker == s2.ticker ==> run(n, s1) == run(n, s2))
    && (forall n, s :: IsAnalyst(n) ==> Keys(run(n, s).update) == {OutputField(n)})
  }

  lemma ReadsTicker(run: Runner, n: NodeId, s1: State, s2: State)
    requires Conforms(run) && IsAnalyst(n)
    requires s1.ticker == s2.ticker
    ensures run(n, s1) == run(n, s2)
  {
  }

  /** What an analyst stores in its field, given the state it reads. */
  function Output(run: Runner, n: NodeId, s: State): string
    requires Conforms(run) && IsAnalyst(n)
  {
    assert OutputField(n) in Keys(run(n, s).update);
    UpdateText(run(n, s).update, OutputField(n)).value
  }

  predicate AllAnalysts(order: seq<NodeId>) {
    forall i :: 0 <= i < |order| ==> IsAnalyst(order[i])
  }

  /** The four analysts, each once, in some order. */
  predicate IsAnalystPermutation(order: seq<NodeId>) {
    multiset(order) == multiset(CanonicalOrder)
  }

  /** The analysts of `order` run one after another, each reading the state the previous merge left. */
  function ApplyAnalysts(order: seq<NodeId>, s: State, run: Runner): State
    decreases |order|
  {
    if order == [] then s
    else
      var p := ApplyAnalysts(order[..|order| - 1], s, run);
      Merge(p, run(order[|order| - 1], p).update)
  }

  /** The calls the analysts of `order` make when run one after another. */
  function AnalystCalls(order: seq<NodeId>, s: State, run: Runner): seq<Call>
    decreases |order|
  {
    if order == [] then []
    else
      var init := order[..|order| - 1];
      AnalystCalls(init, s, run) + run(order[|order| - 1], ApplyAnalysts(init, s, run)).calls
  }

  /**
   * Merging the update an analyst computed on `s` into any state `p` writes
   * the analyst's own field and leaves every other field and the trace as `p` has them.
   */
  lemma MergeOwn(run: Runner, n: NodeId, s: State, p: State)
    requires Conforms(run) && IsAnalyst(n)
    ensures Text(Merge(p, run(n, s).update), OutputField(n)) == Some(Output(run, n, s))
    ensures forall f :: !HasReducer(f) && f != OutputField(n) ==> Text(Merge(p, run(n, s).update), f) == Text(p, f)
    ensures Merge(p, run(n, s).update).messages == p.messages
  {
    var u := run(n, s).update;
    assert Keys(u) == {OutputField(n)};
    assert Messages !in Keys(u);
  }

  /**
   * After running the analysts of `order`, each analyst's field holds what
   * that analyst computes from the starting state if it is in `order`, and the
   * old value otherwise; every other field and the trace are unchanged.
   */
  lemma {:induction false} ApplyAnalystsFields(order: seq<NodeId>, s: State, run: Runner)
    requires Conforms(run) && AllAnalysts(order)
    ensures forall n :: IsAnalyst(n) ==>
      Text(ApplyAnalysts(order, s, run), OutputField(n))
        == if n in order then Some(Output(run, n, s)) else Text(s, OutputField(n))
    ensures forall f :: !HasReducer(f) && !IsAnalysisField(f) ==>
      Text(ApplyAnalysts(order, s, run), f) == Text(s, f)
    ensures ApplyAnalysts(order, s, run).messages == s.messages
    decreases |order|
  {
    if order != [] {
      var init, last := order[..|order| - 1], order[|order| - 1];
      assert order == init + [last];
      assert AllAnalysts(init);
      ApplyAnalystsFields(init, s, run);
      var p := ApplyAnalysts(init, s, run);
      assert p.ticker == Text(p, Ticker) == Text(s, Ticker) == s.ticker;
      ReadsTicker(run, last, p, s);
      MergeOwn(run, last, p, p);
      forall n | IsAnalyst(n)
        ensures Text(ApplyAnalysts(order, s, run), OutputField(n))
          == if n in order then Some(Output(run, n, s)) else Text(s, OutputField(n))
      {
        if n != last {
          assert n in order <==> n in init;
        }
      }
    }
  }

  /** The analysts' merges commute: any two orders holding the same analysts give the same state. */
  lemma OrderIndependent(o1: seq<NodeId>, o2: seq<NodeId>, s: State, run: Runner)
    requires Conforms(run) && AllAnalysts(o1) && AllAnalysts(o2)
    requires forall n :: n in o1 <==> n in o2
    ensures ApplyAnalysts(o1, s, run) == ApplyAnalysts(o2, s, run)
  {
    ApplyAnalystsFields(o1, s, run);
    ApplyAnalystsFields(o2, s, run);
    var a, b := ApplyAnalysts(o1, s, run), ApplyAnalysts(o2, s, run);
    forall f | !HasReducer(f)
      ensures Text(a, f) == Text(b, f)
    {
      if IsAnalysisField(f) {
        var n := Owner(f);
      }
    }
    StateExtensionality(a, b);
  }

  /**
   * LangGraph's parallel step: all four analysts read the same state `s`, and
   * their updates are merged in node order. The trace grows by the four
   * updates' message lists, in that order.
   */
  function Superstep(s: State, run: Runner): (r: State)
    ensures r.messages == s.messages + Appended(run(TechnicalAnalyst, s).update)
      + Appended(run(FundamentalAnalyst, s).update) + Appended(run(SentimentAnalyst, s).update)
      + Appended(run(RiskAnalyst, s).update)
  {
    Merge(Merge(Merge(Merge(s, run(TechnicalAnalyst, s).update), run(FundamentalAnalyst, s).update),
                run(SentimentAnalyst, s).update), run(RiskAnalyst, s).update)
  }

  const CanonicalOrder: seq<NodeId> := [TechnicalAnalyst, FundamentalAnalyst, SentimentAnalyst, RiskAnalyst]

  lemma MergeAllFour(s: State, u1: Update, u2: Update, u3: Update, u4: Update)
    ensures MergeAll(s, [u1, u2, u3, u4]) == Merge(Merge(Merge(Merge(s, u1), u2), u3), u4)
  {
    var m1 := Merge(s, u1);
    var m2 := Merge(m1, u2);
    var m3 := Merge(m2, u3);
    assert MergeAll(m3, [u4]) == Merge(m3, u4) by { assert [u4][1..] == []; }
    assert MergeAll(m2, [u3, u4]) == MergeAll(m3, [u4]) by { assert [u3, u4][1..] == [u4]; }
    assert MergeAll(m1, [u2, u3, u4]) == MergeAll(m2, [u3, u4]) by { assert [u2, u3, u4][1..] == [u3, u4]; }
    assert MergeAll(s, [u1, u2, u3, u4]) == MergeAll(m1, [u2, u3, u4]) by { assert [u1, u2, u3, u4][1..] == [u2, u3, u4]; }
  }

  /** The parallel step is LangGraph's merge of the list of the four updates, in node order. */
  lemma SuperstepMergesAll(s: State, run: Runner)
    ensures Superstep(s, run) == MergeAll(s, [run(TechnicalAnalyst, s).update, run(FundamentalAnalyst, s).update,
                                              run(SentimentAnalyst, s).update, run(RiskAnalyst, s).update])
  {
    MergeAllFour(s, run(TechnicalAnalyst, s).update, run(FundamentalAnalyst, s).update,
                 run(SentimentAnalyst, s).update, run(RiskAnalyst, s).update);
  }

  /** A permutation of the four analysts holds only analysts, and exactly the canonical ones. */
  lemma PermutationMembers(order: seq<NodeId>)
    requires IsAnalystPermutation(order)
    ensures AllAnalysts(order)
    ensures forall n :: n in order <==> IsAnalyst(n)
  {
    forall n
      ensures n in order <==> IsAnalyst(n)
    {
      assert n in order <==> n in multiset(order);
    }
  }

  /** Running the four analysts one after another, in any order, gives the parallel step's state. */
  lemma SequentialMatchesParallel(order: seq<NodeId>, s: State, run: Runner)
    requires Conforms(run) && IsAnalystPermutation(order)
    ensures AllAnalysts(order)
    ensures ApplyAnalysts(order, s, run) == Superstep(s, run)
  {
    PermutationMembers(order);
    ApplyAnalystsFields(order, s, run);
    SuperstepFields(s, run);
    var a, b := ApplyAnalysts(order, s, run), Superstep(s, run);
    forall f | !HasReducer(f)
      ensures Text(a, f) == Text(b, f)
    {
      if IsAnalysisField(f) {
        var n := Owner(f);
      }
    }
    StateExtensionality(a, b);
  }

  /** The calls of the analysts of `order`, each reading the same state `s`. */
  function CallsOn(order: seq<NodeId>, s: State, run: Runner): seq<Call>
    decreases |order|
  {
    if order == [] then [] else CallsOn(order[..|order| - 1], s, run) + run(order[|order| - 1], s).calls
  }

  /** In a sequential run every analyst makes the calls it would make on the starting state. */
  lemma {:induction false} AnalystCallsOnStart(order: seq<NodeId>, s: State, run: Runner)
    requires Conforms(run) && AllAnalysts(order)
    ensures AnalystCalls(order, s, run) == CallsOn(order, s, run)
    decreases |order|
  {
    if order != [] {
      var init := order[..|order| - 1];
      assert AllAnalysts(init);
      AnalystCallsOnStart(init, s, run);
      ApplyAnalystsFields(init, s, run);
      var p := ApplyAnalysts(init, s, run);
      assert p.ticker == Text(p, Ticker) == Text(s, Ticker) == s.ticker;
      ReadsTicker(run, order[|order| - 1], p, s);
    }
  }

  lemma {:induction false} CallsOnAppend(a: seq<NodeId>, b: seq<NodeId>, s: State, run: Runner)
    ensures CallsOn(a + b, s, run) == CallsOn(a, s, run) + CallsOn(b, s, run)
    decreases |b|
  {
    if b != [] {
      var ab := a + b;
      assert ab[..|ab| - 1] == a + b[..|b| - 1];
      CallsOnAppend(a, b[..|b| - 1], s, run);
    } else {
      assert a + b == a;
    }
  }

  /** Taking one element out of both sides of a multiset equation. */
  lemma MultisetRemove<T>(a: seq<T>, x: T, left: seq<T>, right: seq<T>)
    requires multiset(a + [x]) == multiset(left + [x] + right)
    ensures multiset(a) == multiset(left + right)
  {
    assert multiset(a + [x]) == multiset(a) + multiset{x};
    assert multiset(left + [x] + right) == multiset(left + right) + multiset{x};
    assert multiset(a) == multiset(a) + multiset{x} - multiset{x};
    assert multiset(left + right) == multiset(left + right) + multiset{x} - multiset{x};
  }

  /** Taking one analyst out of the middle of an order takes its calls out of the multiset. */
  lemma CallsOnSplit(left: seq<NodeId>, x: NodeId, right: seq<NodeId>, s: State, run: Runner)
    ensures multiset(CallsOn(left + [x] + right, s, run))
      == multiset(CallsOn(left + right, s, run)) + multiset(run(x, s).calls)
  {
    CallsOnAppend(left, right, s, run);
    CallsOnAppend(left + [x], right, s, run);
    CallsOnAppend(left, [x], s, run);
    assert CallsOn([x], s, run) == run(x, s).calls by {
      assert [x][..0] == [];
    }
  }

  /** The calls of a set of analysts do not depend on the order they run in, only on which run. */
  lemma {:induction false} CallsOnPermutation(o1: seq<NodeId>, o2: seq<NodeId>, s: State, run: Runner)
    requires multiset(o1) == multiset(o2)
    ensures multiset(CallsOn(o1, s, run)) == multiset(CallsOn(o2, s, run))
    decreases |o1|
  {
    if o1 == [] {
      assert o2 == [];
    } else {
      var x, init1 := o1[|o1| - 1], o1[..|o1| - 1];
      assert o1 == init1 + [x];
      assert x in multiset(o2);
      var j :| 0 <= j < |o2| && o2[j] == x;
      var left, right := o2[..j], o2[j + 1..];
      assert o2 == left + [x] + right;
      MultisetRemove(init1, x, left, right);
      CallsOnPermutation(init1, left + right, s, run);
      CallsOnSplit(left, x, right, s, run);
      assert CallsOn(o1, s, run) == CallsOn(init1, s, run) + run(x, s).calls;
    }
  }

  /** The calls of the parallel step: each analyst's calls on the same state. */
  function SuperstepCalls(s: State, run: Runner): seq<Call> {
    run(TechnicalAnalyst, s).calls + run(FundamentalAnalyst, s).calls
      + run(SentimentAnalyst, s).calls + run(RiskAnalyst, s).calls
  }

  lemma SuperstepCallsCanonical(s: State, run: Runner)
    ensures CallsOn(CanonicalOrder, s, run) == SuperstepCalls(s, run)
  {
    var c := CanonicalOrder;
    var a, b := run(TechnicalAnalyst, s).calls, run(FundamentalAnalyst, s).calls;
    var d, e := run(SentimentAnalyst, s).calls, run(RiskAnalyst, s).calls;
    assert c[..3][..2] == c[..2] && c[..2][..1] == c[..1] && c[..1][..0] == [];
    assert CallsOn(c[..1], s, run) == a by { assert [] + a == a; }
    assert CallsOn(c[..2], s, run) == a + b;
    assert CallsOn(c[..3], s, run) == a + b + d;
    assert c[..4] == c;
  }

  /** An update that holds no key. */
  const NoUpdate: Update := Update(None, None, None, None, None, None, None, None)

  lemma TechnicalReadsTicker(s1: State, s2: State, env: Env)
    requires s1.ticker == s2.ticker
    ensures TechnicalAgent.TechnicalAnalystNode(s1, env) == TechnicalAgent.TechnicalAnalystNode(s2, env)
  {
  }

  lemma FundamentalReadsTicker(s1: State, s2: State, env: Env)
    requires s1.ticker == s2.ticker
    ensures FundamentalAgent.FundamentalAnalystNode(s1, env) == FundamentalAgent.FundamentalAnalystNode(s2, env)
  {
  }

  lemma SentimentReadsTicker(s1: State, s2: State, env: Env)
    requires s1.ticker == s2.ticker
    ensures SentimentAgent.SentimentAnalystNode(s1, env) == SentimentAgent.SentimentAnalystNode(s2, env)
  {
  }

  lemma RiskReadsTicker(s1: State, s2: State, env: Env)
    requires s1.ticker == s2.ticker
    ensures RiskAgent.RiskAnalystNode(s1, env) == RiskAgent.RiskAnalystNode(s2, env)
  {
  }

  /**
   * The workflow's analyst table: each analyst name to its node function.
   * Each of the four reads only the ticker and writes exactly its own field.
   */
  function Analysts(env: Env): (run: Runner)
    ensures Conforms(run)
  {
    var run := (n: NodeId, s: State) =>
      if n == TechnicalAnalyst then TechnicalAgent.TechnicalAnalystNode(s, env)
      else if n == FundamentalAnalyst then FundamentalAgent.FundamentalAnalystNode(s, env)
      else if n == SentimentAnalyst then SentimentAgent.SentimentAnalystNode(s, env)
      else if n == RiskAnalyst then RiskAgent.RiskAnalystNode(s, env)
      else NodeResult(NoUpdate, []);
    assert Conforms(run) by {
      forall n, s1: State, s2: State | IsAnalyst(n) && s1.ticker == s2.ticker
        ensures run(n, s1) == run(n, s2)
      {
        if n == TechnicalAnalyst {
          TechnicalReadsTicker(s1, s2, env);
        } else if n == FundamentalAnalyst {
          FundamentalReadsTicker(s1, s2, env);
        } else if n == SentimentAnalyst {
          SentimentReadsTicker(s1, s2, env);
        } else {
          RiskReadsTicker(s1, s2, env);
        }
      }
      forall n, s | IsAnalyst(n)
        ensures Keys(run(n, s).update) == {OutputField(n)}
      {
        if n == TechnicalAnalyst {
          assert run(n, s) == TechnicalAgent.TechnicalAnalystNode(s, env);
        } else if n == FundamentalAnalyst {
          assert run(n, s) == FundamentalAgent.FundamentalAnalystNode(s, env);
        } else if n == SentimentAnalyst {
          assert run(n, s) == SentimentAgent.SentimentAnalystNode(s, env);
        } else {
          assert run(n, s) == RiskAgent.RiskAnalystNode(s, env);
        }
      }
    }
    run
  }

  /** The compiled graph's node table: the supervisor, the four analysts, the judge. */
  datatype Nodes = Nodes(supervisor: State -> NodeResult, analysts: Runner, judge: State -> NodeResult)

  /**
   * What the executor needs of a node table: the analysts conform, the
   * supervisor writes only `ticker`, and the judge writes only
   * `final_recommendation` with exactly one call, to the model.
   */
  ghost predicate Wired(t: Nodes) {
    && Conforms(t.analysts)
    && (forall s :: Keys(t.supervisor(s).update) == {Ticker})
    && (forall s :: Keys(t.judge(s).update) == {FinalRecommendation} && |t.judge(s).calls| == 1 && t.judge(s).calls[0].ModelCall?)
  }

  /**
   * The table `build_graph` registers: each node name to its node function.
   * It meets everything the executor relies on.
   */
  function Compiled(env: Env): (t: Nodes)
    ensures Wired(t)
  {
    var t := Nodes(s => SupervisorNode(s, env), Analysts(env), s => JudgeAgent.JudgeNode(s, env));
    assert Wired(t) by {
      forall s
        ensures Keys(t.supervisor(s).update) == {Ticker}
      {
        var r := SupervisorNode(s, env);
      }
      forall s
        ensures Keys(t.judge(s).update) == {FinalRecommendation} && |t.judge(s).calls| == 1
          && t.judge(s).calls[0].ModelCall?
      {
        var r := JudgeAgent.JudgeNode(s, env);
      }
    }
    t
  }

  /** The state after the supervisor's update is merged into the initial state. */
  function Resolved(init: State, t: Nodes): State {
    Merge(init, t.supervisor(init).update)
  }

  /** The state the judge reads: the parallel analyst step after the supervisor. */
  function JudgeInput(init: State, t: Nodes): State {
    Superstep(Resolved(init, t), t.analysts)
  }

  /**
   * The final state of a request: when the judge writes only
   * `final_recommendation`, the state it read with that one key replaced.
   */
  function Reference(init: State, t: Nodes): (r: State)
    ensures var v := t.judge(JudgeInput(init, t)).update;
      Keys(v) == {FinalRecommendation} ==> r == JudgeInput(init, t).(finalRecommendation := v.finalRecommendation)
  {
    var s2 := JudgeInput(init, t);
    var v := t.judge(s2).update;
    var r := Merge(s2, v);
    assert Keys(v) == {FinalRecommendation} ==> r == s2.(finalRecommendation := v.finalRecommendation) by {
      if Keys(v) == {FinalRecommendation} {
        StateExtensionality(r, s2.(finalRecommendation := v.finalRecommendation));
      }
    }
    r
  }

  /** The calls of a request: the supervisor's, the parallel step's, the judge's. */
  function ReferenceCalls(init: State, t: Nodes): seq<Call> {
    t.supervisor(init).calls + SuperstepCalls(Resolved(init, t), t.analysts) + t.judge(JudgeInput(init, t)).calls
  }

  /**
   * After the parallel step every analysis field holds what its analyst
   * computed from the state before the step; every other field and the trace
   * are unchanged.
   */
  lemma SuperstepFields(s: State, run: Runner)
    requires Conforms(run)
    ensures forall n :: IsAnalyst(n) ==> Text(Superstep(s, run), OutputField(n)) == Some(Output(run, n, s))
    ensures forall f :: !HasReducer(f) && !IsAnalysisField(f) ==> Text(Superstep(s, run), f) == Text(s, f)
    ensures Superstep(s, run).messages == s.messages
  {
    var t, f, se, r := TechnicalAnalyst, FundamentalAnalyst, SentimentAnalyst, RiskAnalyst;
    var m1 := Merge(s, run(t, s).update);
    var m2 := Merge(m1, run(f, s).update);
    var m3 := Merge(m2, run(se, s).update);
    MergeOwn(run, t, s, s);
    MergeOwn(run, f, s, m1);
    MergeOwn(run, se, s, m2);
    MergeOwn(run, r, s, m3);
  }

  /**
   * Join barrier: when the judge runs, all four analysis fields hold what the
   * four analysts computed from the supervisor's state, the ticker is the
   * supervisor's, and the trace is untouched.
   */
  lemma JoinBarrier(init: State, t: Nodes)
    requires Wired(t)
    ensures JudgeInput(init, t).ticker == Resolved(init, t).ticker
    ensures JudgeInput(init, t).messages == init.messages
    ensures forall n :: IsAnalyst(n) ==>
      Text(JudgeInput(init, t), OutputField(n)) == Some(Output(t.analysts, n, Resolved(init, t)))
  {
    var s1 := Resolved(init, t);
    SuperstepFields(s1, t.analysts);
    assert Text(JudgeInput(init, t), Ticker) == Text(s1, Ticker);
    assert Messages !in Keys(t.supervisor(init).update);
  }

  /** No node writes `messages`, so a request ends with the trace it started with. */
  lemma TraceUntouched(init: State, t: Nodes)
    requires Wired(t)
    ensures Reference(init, t).messages == init.messages
  {
    JoinBarrier(init, t);
    assert Messages !in Keys(t.judge(JudgeInput(init, t)).update);
  }

  /** Pre-seeding the ticker skips the extraction: the supervisor makes no call and changes nothing. */
  lemma SeededTickerSkipsSupervisor(init: State, env: Env)
    requires init.ticker.GetOr("") != ""
    ensures Compiled(env).supervisor(init).calls == []
    ensures Resolved(init, Compiled(env)) == init
  {
    SupervisorSeededIsNoOp(init, env);
  }

  /**
   * The nodes run in an order the graph allows: every node once, and for
   * every edge between two nodes, its source runs before its target.
   */
  predicate FollowsGraph(trace: seq<NodeId>) {
    && multiset(trace) == multiset(BuiltNodes)
    && forall i, j :: 0 <= i < |trace| && 0 <= j < |trace| && IsWorkflowEdge(Edge(Node(trace[i]), Node(trace[j]))) ==> i < j
  }

  /** The only edges between two nodes lead from the supervisor to an analyst or from an analyst to the judge. */
  lemma NodeEdges(a: NodeId, b: NodeId)
    requires IsWorkflowEdge(Edge(Node(a), Node(b)))
    ensures (a == Supervisor && IsAnalyst(b)) || (IsAnalyst(a) && b == Judge)
  {
  }

  /** The trace runs each of the six nodes once. */
  lemma TraceCoversNodes(order: seq<NodeId>)
    requires IsAnalystPermutation(order)
    ensures multiset([Supervisor] + order + [Judge]) == multiset(BuiltNodes)
  {
    assert multiset([Supervisor] + order + [Judge]) == multiset{Supervisor} + multiset(order) + multiset{Judge};
    assert BuiltNodes == [Supervisor] + CanonicalOrder + [Judge];
    assert multiset(BuiltNodes) == multiset{Supervisor} + multiset(CanonicalOrder) + multiset{Judge};
  }

  lemma TraceFollowsGraph(order: seq<NodeId>)
    requires IsAnalystPermutation(order)
    ensures FollowsGraph([Supervisor] + order + [Judge])
  {
    PermutationMembers(order);
    TraceCoversNodes(order);
    var t := [Supervisor] + order + [Judge];
    assert forall k :: 1 <= k <= |order| ==> t[k] == order[k - 1];
    forall i, j | 0 <= i < |t| && 0 <= j < |t| && IsWorkflowEdge(Edge(Node(t[i]), Node(t[j])))
      ensures i < j
    {
      NodeEdges(t[i], t[j]);
      if t[i] == Supervisor {
        assert i == 0;
        assert j != 0;
      } else {
        assert j == |t| - 1;
        assert i != |t| - 1;
      }
    }
  }

  /**
   * The analyst step run one analyst at a time, in the given order, each
   * update merged as it arrives: the state is the parallel step's, and the
   * calls are the parallel step's calls in some order.
   */
  method RunAnalysts(s0: State, run: Runner, order: seq<NodeId>) returns (s: State, calls: seq<Call>)
    requires Conforms(run) && IsAnalystPermutation(order)
    ensures s == Superstep(s0, run)
    ensures multiset(calls) == multiset(SuperstepCalls(s0, run))
  {
    PermutationMembers(order);
    s := s0;
    calls := [];
    var i := 0;
    while i < |order|
      invariant 0 <= i <= |order|
      invariant s == ApplyAnalysts(order[..i], s0, run)
      invariant calls == AnalystCalls(order[..i], s0, run)
    {
      assert order[..i + 1][..i] == order[..i];
      var r := run(order[i], s);
      s := Merge(s, r.update);
      calls := calls + r.calls;
      i := i + 1;
    }
    assert order[..i] == order;
    SequentialMatchesParallel(order, s0, run);
    AnalystCallsOnStart(order, s0, run);
    CallsOnPermutation(order, CanonicalOrder, s0, run);
    SuperstepCallsCanonical(s0, run);
  }

  /** The state a request ends in, once the analyst step has produced `s2`. */
  lemma RequestState(init: State, t: Nodes, s2: State)
    requires Wired(t)
    requires s2 == Superstep(Resolved(init, t), t.analysts)
    ensures Merge(s2, t.judge(s2).update) == Reference(init, t)
    ensures Merge(s2, t.judge(s2).update).messages == init.messages
  {
    TraceUntouched(init, t);
  }

  /**
   * Assembling the calls of a request: if the analyst step's calls are a
   * permutation of the parallel step's, the whole log is a permutation of the
   * reference log, starts with the supervisor's calls and ends with the
   * judge's one call.
   */
  lemma AssembleCalls(sup: seq<Call>, analystCalls: seq<Call>, parallel: seq<Call>, verdict: seq<Call>)
    requires multiset(analystCalls) == multiset(parallel)
    requires |verdict| == 1
    ensures multiset(sup + analystCalls + verdict) == multiset(sup + parallel + verdict)
    ensures |sup| < |sup + analystCalls + verdict|
    ensures (sup + analystCalls + verdict)[..|sup|] == sup
    ensures (sup + analystCalls + verdict)[|sup + analystCalls + verdict| - 1] == verdict[0]
  {
    Prefix(sup, analystCalls + verdict);
    assert sup + analystCalls + verdict == sup + (analystCalls + verdict);
  }

  lemma Prefix<T>(a: seq<T>, b: seq<T>)
    ensures (a + b)[..|a|] == a
  {
  }

  /**
   * One request: the supervisor, then the analysts in the given order, then
   * the judge (an order the graph allows, by `TraceFollowsGraph`). Every order
   * gives the same final state and the same calls, in some order; the
   * supervisor's calls come first and the judge's model call last. The
   * compiled graph is `Execute(init, Compiled(env), order)`, and
   * `Compiled` promises its precondition.
   */
  method Execute(init: State, t: Nodes, order: seq<NodeId>)
    returns (final: State, trace: seq<NodeId>, calls: seq<Call>)
    requires Wired(t) && IsAnalystPermutation(order)
    ensures trace == [Supervisor] + order + [Judge]
    ensures final == Reference(init, t)
    ensures final.messages == init.messages
    ensures multiset(calls) == multiset(ReferenceCalls(init, t))
    ensures |t.supervisor(init).calls| < |calls|
    ensures calls[..|t.supervisor(init).calls|] == t.supervisor(init).calls
    ensures calls[|calls| - 1] == t.judge(JudgeInput(init, t)).calls[0] && calls[|calls| - 1].ModelCall?
  {
    var sup := t.supervisor(init);
    var s1 := Merge(init, sup.update);
    var s2, analystCalls := RunAnalysts(s1, t.analysts, order);
    var verdict := t.judge(s2);
    final := Merge(s2, verdict.update);
    trace := [Supervisor] + order + [Judge];
    calls := sup.calls + analystCalls + verdict.calls;
    RequestState(init, t, s2);
    AssembleCalls(sup.calls, analystCalls, SuperstepCalls(s1, t.analysts), verdict.calls);
    assert s1 == Resolved(init, t) && s2 == JudgeInput(init, t);
  }
}
