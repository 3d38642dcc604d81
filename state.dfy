/**
 * The shared `TradingState` record threaded through the workflow, the partial
 * updates that nodes return, and LangGraph's merge of an update into the state:
 * every field is overwritten by the update's value when the update holds that
 * key, except `messages`, whose reducer is list concatenation (`operator.add`).
 */
module SharedState {
  import opened Wrappers

  /** One entry of the trace log; the source never inspects entries. */
  type Message = string

  /** The eight keys of `TradingState`, in declaration order. */
  datatype Field =
    | UserQuery
    | Ticker
    | FundamentalAnalysis
    | TechnicalAnalysis
    | SentimentAnalysis
    | RiskAnalysis
    | FinalRecommendation
    | Messages

  const AllFields: set<Field> :=
    {UserQuery, Ticker, FundamentalAnalysis, TechnicalAnalysis, SentimentAnalysis,
     RiskAnalysis, FinalRecommendation, Messages}

  /** The only key that declares a reducer. */
  predicate HasReducer(f: Field) {
    f == Messages
  }

  /**
   * The running state. A text field that is `None` is a key missing from the
   * dict (nodes read such keys with `state.get(key, default)`); a missing
   * `messages` list is the empty list.
   */
  datatype State = State(
    userQuery: Option<string>,
    ticker: Option<string>,
    fundamentalAnalysis: Option<string>,
    technicalAnalysis: Option<string>,
    sentimentAnalysis: Option<string>,
    riskAnalysis: Option<string>,
    finalRecommendation: Option<string>,
    messages: seq<Message>)

  /** A partial update returned by a node: `None` is a key the node's dict does not hold. */
  datatype Update = Update(
    userQuery: Option<string>,
    ticker: Option<string>,
    fundamentalAnalysis: Option<string>,
    technicalAnalysis: Option<string>,
    sentimentAnalysis: Option<string>,
    riskAnalysis: Option<string>,
    finalRecommendation: Option<string>,
    messages: Option<seq<Message>>)

  /** The value of text field `f` in the state. */
  function Text(s: State, f: Field): Option<string>
    requires !HasReducer(f)
  {
    match f
    case UserQuery => s.userQuery
    case Ticker => s.ticker
    case FundamentalAnalysis => s.fundamentalAnalysis
    case TechnicalAnalysis => s.technicalAnalysis
    case SentimentAnalysis => s.sentimentAnalysis
    case RiskAnalysis => s.riskAnalysis
    case FinalRecommendation => s.finalRecommendation
  }

  /** The value an update carries for text field `f`. */
  function UpdateText(u: Update, f: Field): Option<string>
    requires !HasReducer(f)
  {
    match f
    case UserQuery => u.userQuery
    case Ticker => u.ticker
    case FundamentalAnalysis => u.fundamentalAnalysis
    case TechnicalAnalysis => u.technicalAnalysis
    case SentimentAnalysis => u.sentimentAnalysis
    case RiskAnalysis => u.riskAnalysis
    case FinalRecommendation => u.finalRecommendation
  }

  /** Whether an update holds key `f`. */
  predicate Holds(u: Update, f: Field) {
    if HasReducer(f) then u.messages.Some? else UpdateText(u, f).Some?
  }

  /** The keys of the dict a node returns. */
  function Keys(u: Update): (k: set<Field>)
    ensures k <= AllFields
    ensures forall f :: !HasReducer(f) ==> (f in k <==> UpdateText(u, f).Some?)
    ensures Messages in k <==> u.messages.Some?
  {
    set f | f in AllFields && Holds(u, f)
  }

  /** The dict `{f: v}`: an update holding exactly one text key. */
  function Single(f: Field, v: string): (u: Update)
    requires !HasReducer(f)
    ensures Keys(u) == {f}
    ensures UpdateText(u, f) == Some(v)
  {
    Update(
      if f == UserQuery then Some(v) else None,
      if f == Ticker then Some(v) else None,
      if f == FundamentalAnalysis then Some(v) else None,
      if f == TechnicalAnalysis then Some(v) else None,
      if f == SentimentAnalysis then Some(v) else None,
      if f == RiskAnalysis then Some(v) else None,
      if f == FinalRecommendation then Some(v) else None,
      None)
  }

  /** The messages an update appends: an absent list appends nothing. */
  function Appended(u: Update): seq<Message> {
    u.messages.GetOr([])
  }

  /**
   * LangGraph's merge of a node's update into the state: a key without a
   * reducer takes the update's value when the update holds it and keeps the old
   * value otherwise; `messages` becomes old ++ update.
   */
  function Merge(s: State, u: Update): (r: State)
    ensures forall f :: !HasReducer(f) ==>
      Text(r, f) == if f in Keys(u) then UpdateText(u, f) else Text(s, f)
    ensures r.messages == s.messages + Appended(u)
  {
    State(
      if u.userQuery.Some? then u.userQuery else s.userQuery,
      if u.ticker.Some? then u.ticker else s.ticker,
      if u.fundamentalAnalysis.Some? then u.fundamentalAnalysis else s.fundamentalAnalysis,
      if u.technicalAnalysis.Some? then u.technicalAnalysis else s.technicalAnalysis,
      if u.sentimentAnalysis.Some? then u.sentimentAnalysis else s.sentimentAnalysis,
      if u.riskAnalysis.Some? then u.riskAnalysis else s.riskAnalysis,
      if u.finalRecommendation.Some? then u.finalRecommendation else s.finalRecommendation,
      s.messages + Appended(u))
  }

  /** Two states that agree on every text field and on the trace are the same state. */
  lemma StateExtensionality(a: State, b: State)
    requires forall f :: !HasReducer(f) ==> Text(a, f) == Text(b, f)
    requires a.messages == b.messages
    ensures a == b
  {
    assert Text(a, UserQuery) == Text(b, UserQuery);
    assert Text(a, Ticker) == Text(b, Ticker);
    assert Text(a, FundamentalAnalysis) == Text(b, FundamentalAnalysis);
    assert Text(a, TechnicalAnalysis) == Text(b, TechnicalAnalysis);
    assert Text(a, SentimentAnalysis) == Text(b, SentimentAnalysis);
    assert Text(a, RiskAnalysis) == Text(b, RiskAnalysis);
    assert Text(a, FinalRecommendation) == Text(b, FinalRecommendation);
  }

  /** After a merge the old trace is a prefix of the new one, and the lengths add up. */
  lemma MergeExtendsTrace(s: State, u: Update)
    ensures s.messages <= Merge(s, u).messages
    ensures |Merge(s, u).messages| == |s.messages| + |Appended(u)|
    ensures Merge(s, u).messages[|s.messages|..] == Appended(u)
  {
  }

  /** An update with no `messages` key, or an empty list, leaves the trace as it was. */
  lemma MergeWithoutMessagesKeepsTrace(s: State, u: Update)
    requires u.messages.None? || u.messages == Some([])
    ensures Merge(s, u).messages == s.messages
  {
  }

  /** Merging an update that writes no key changes nothing. */
  lemma MergeEmptyUpdate(s: State, u: Update)
    requires Keys(u) == {}
    ensures Merge(s, u) == s
  {
    StateExtensionality(Merge(s, u), s);
  }

  /** Updates with disjoint key sets can be merged in either order. */
  lemma MergeDisjointCommutes(s: State, u1: Update, u2: Update)
    requires Keys(u1) !! Keys(u2)
    ensures Merge(Merge(s, u1), u2) == Merge(Merge(s, u2), u1)
  {
    var a, b := Merge(Merge(s, u1), u2), Merge(Merge(s, u2), u1);
    assert u1.messages.None? || u2.messages.None?;
    StateExtensionality(a, b);
  }

  /** Merging a list of updates one at a time, first to last. */
  function MergeAll(s: State, us: seq<Update>): State
    decreases |us|
  {
    if us == [] then s else MergeAll(Merge(s, us[0]), us[1..])
  }

  /** The concatenation of the message lists of several updates. */
  function AllAppended(us: seq<Update>): seq<Message>
    decreases |us|
  {
    if us == [] then [] else Appended(us[0]) + AllAppended(us[1..])
  }

  /**
   * Because concatenation is associative, merging several updates one at a
   * time appends their message lists in order, which is the same trace as
   * merging their concatenation once.
   */
  lemma {:induction false} MergeAllAppends(s: State, us: seq<Update>)
    ensures MergeAll(s, us).messages == s.messages + AllAppended(us)
    ensures MergeAll(s, us).messages
      == Merge(s, Update(None, None, None, None, None, None, None, Some(AllAppended(us)))).messages
    decreases |us|
  {
    if us != [] {
      MergeAllAppends(Merge(s, us[0]), us[1..]);
      assert (s.messages + Appended(us[0])) + AllAppended(us[1..])
          == s.messages + (Appended(us[0]) + AllAppended(us[1..]));
    }
  }

  /**
   * A text field after merging several updates holds the value of the last
   * update that wrote it, or its old value when none did.
   */
  lemma {:induction false} MergeAllLastWriterWins(s: State, us: seq<Update>, f: Field)
    requires !HasReducer(f)
    ensures Text(MergeAll(s, us), f) == LastWritten(us, f, Text(s, f))
    decreases |us|
  {
    if us != [] {
      MergeAllLastWriterWins(Merge(s, us[0]), us[1..], f);
      LastWrittenStep(us, f, Text(s, f));
    }
  }

  /** The value of `f` written last among `us`, or `prior` when none of them writes it. */
  function LastWritten(us: seq<Update>, f: Field, prior: Option<string>): Option<string>
    requires !HasReducer(f)
    decreases |us|
  {
    if us == [] then prior
    else if f in Keys(us[|us| - 1]) then UpdateText(us[|us| - 1], f)
    else LastWritten(us[..|us| - 1], f, prior)
  }

  lemma {:induction false} LastWrittenStep(us: seq<Update>, f: Field, prior: Option<string>)
    requires !HasReducer(f) && us != []
    ensures LastWritten(us, f, prior)
      == LastWritten(us[1..], f, if f in Keys(us[0]) then UpdateText(us[0], f) else prior)
    decreases |us|
  {
    if |us| > 1 {
      assert us[1..][..|us[1..]| - 1] == us[..|us| - 1][1..];
      LastWrittenStep(us[..|us| - 1], f, prior);
    } else {
      assert us[..0] == [];
    }
  }

  /** The state every request starts from: every text field "" and an empty trace. */
  function InitialState(query: string): (s: State)
    ensures Text(s, UserQuery) == Some(query)
    ensures forall f :: !HasReducer(f) && f != UserQuery ==> Text(s, f) == Some("")
    ensures s.messages == []
  {
    State(Some(query), Some(""), Some(""), Some(""), Some(""), Some(""), Some(""), [])
  }
}
