/**
 * The judge: no guard. It reads the ticker (default "Unknown") and the four
 * analyses (default ""), lays them out in a fixed four-section report, and asks
 * the model once at temperature 0.3. The answer is stored as it is: nothing
 * checks that it ends with a "FINAL RECOMMENDATION:" line.
 */
module Judge {
  import opened Wrappers
  import opened SharedState
  import opened External

  const SystemPrompt: string :=
    "You are the Lead Portfolio Manager and Final Judge.\n"
    + "You are reviewing a comprehensive report on an Indian Stock compiled by 4 expert analysts: Technical, Fundamental, Sentiment, and Risk.\n"
    + "Your job is to synthesize these 4 perspectives, resolve any conflicts (e.g., strong fundamentals but bearish technicals might mean 'Hold' or 'Wait for better entry'), and make a final investment decision.\n"
    + "\n"
    + "Your output MUST end with a clear, definitive recommendation formatted exactly as one of the following:\n"
    + "FINAL RECOMMENDATION: BUY\n"
    + "FINAL RECOMMENDATION: HOLD\n"
    + "FINAL RECOMMENDATION: SELL\n"
    + "\n"
    + "Keep your synthesis concise, highlighting the most heavily weighted factors.\n"

  const Temperature: real := 0.3
  const Preamble: string := "Here are the analyst reports to synthesize:\n"

  const TechnicalHeader: string := "[TECHNICAL ANALYSIS]"
  const FundamentalHeader: string := "[FUNDAMENTAL ANALYSIS]"
  const SentimentHeader: string := "[SENTIMENT ANALYSIS]"
  const RiskHeader: string := "[RISK ANALYSIS]"

  /** The indentation the report's triple-quoted f-string carries on every line. */
  const Indent: string := "\n    "
  /** An indented blank line, then the indentation of the next line. */
  const Gap: string := "\n    \n    "

  const Headers: seq<string> := [TechnicalHeader, FundamentalHeader, SentimentHeader, RiskHeader]

  /** The banner line naming the stock. */
  function Banner(ticker: string): string {
    "--- STOCK: " + ticker + " ---"
  }

  /** A header and, on the next line, its analysis. */
  function Block(header: string, body: string): string {
    header + Indent + body
  }

  /** The blocks in order, each after a blank line. */
  function Sections(blocks: seq<string>): string
    decreases |blocks|
  {
    if blocks == [] then "" else Sections(blocks[..|blocks| - 1]) + (Gap + blocks[|blocks| - 1])
  }

  /** The four blocks of the report, in the fixed order technical, fundamental, sentiment, risk. */
  function Blocks(tech: string, fund: string, sent: string, risk: string): seq<string> {
    [Block(TechnicalHeader, tech), Block(FundamentalHeader, fund), Block(SentimentHeader, sent), Block(RiskHeader, risk)]
  }

  /** The synthesis report. */
  function Report(ticker: string, tech: string, fund: string, sent: string, risk: string): string {
    Indent + Banner(ticker) + Sections(Blocks(tech, fund, sent, risk)) + Indent
  }

  /** The report is, byte for byte, the text of the source's f-string. */
  lemma ReportText(t: string, tech: string, fund: string, sent: string, risk: string)
    ensures Report(t, tech, fund, sent, risk) ==
      "\n    " + Banner(t)
      + "\n    \n    " + "[TECHNICAL ANALYSIS]" + "\n    " + tech
      + "\n    \n    " + "[FUNDAMENTAL ANALYSIS]" + "\n    " + fund
      + "\n    \n    " + "[SENTIMENT ANALYSIS]" + "\n    " + sent
      + "\n    \n    " + "[RISK ANALYSIS]" + "\n    " + risk
      + "\n    "
  {
    var b0, b1, b2, b3 := Block(TechnicalHeader, tech), Block(FundamentalHeader, fund),
                          Block(SentimentHeader, sent), Block(RiskHeader, risk);
    assert Blocks(tech, fund, sent, risk) == [b0, b1, b2, b3];
    SectionsOfFour(b0, b1, b2, b3);
    Flatten(Indent, Banner(t), Gap, TechnicalHeader, FundamentalHeader, SentimentHeader, RiskHeader,
            tech, fund, sent, risk);
  }

  lemma SectionsOfFour(b0: string, b1: string, b2: string, b3: string)
    ensures Sections([b0, b1, b2, b3]) == Gap + b0 + (Gap + b1) + (Gap + b2) + (Gap + b3)
  {
    var bs := [b0, b1, b2, b3];
    assert bs[..1][..0] == [];
    assert Sections(bs[..1]) == Gap + b0;
    assert bs[..2][..1] == bs[..1];
    assert Sections(bs[..2]) == Sections(bs[..1]) + (Gap + b1);
    assert bs[..3][..2] == bs[..2];
    assert Sections(bs[..3]) == Sections(bs[..2]) + (Gap + b2);
    assert bs[..3] == bs[..|bs| - 1];
  }

  /** Regrouping the report's concatenation. */
  lemma Flatten(i: string, banner: string, g: string, h0: string, h1: string, h2: string, h3: string,
                x0: string, x1: string, x2: string, x3: string)
    ensures i + banner + (g + (h0 + i + x0) + (g + (h1 + i + x1)) + (g + (h2 + i + x2)) + (g + (h3 + i + x3))) + i
      == i + banner + g + h0 + i + x0 + g + h1 + i + x1 + g + h2 + i + x2 + g + h3 + i + x3 + i
  {
  }

  /** `sub` is found in `s` starting at index `at`. */
  predicate Occurs(s: string, sub: string, at: nat) {
    at + |sub| <= |s| && s[at..at + |sub|] == sub
  }

  lemma OccursSuffix(x: string, y: string)
    ensures Occurs(x + y, y, |x|)
  {
    assert (x + y)[|x|..|x| + |y|] == y;
  }

  lemma OccursExtend(s: string, sub: string, at: nat, z: string)
    requires Occurs(s, sub, at)
    ensures Occurs(s + z, sub, at)
  {
    assert (s + z)[at..at + |sub|] == s[at..at + |sub|];
  }

  /** Where block k starts in `head + Sections(blocks)`. */
  function BlockStart(head: string, blocks: seq<string>, k: nat): nat
    requires k <= |blocks|
  {
    |head| + |Sections(blocks[..k])| + |Gap|
  }

  /** Block k of the sections is found at its start position. */
  lemma {:induction false} SectionOccurs(head: string, blocks: seq<string>, k: nat)
    requires k < |blocks|
    ensures Occurs(head + Sections(blocks), blocks[k], BlockStart(head, blocks, k))
    decreases |blocks|
  {
    var init := blocks[..|blocks| - 1];
    assert head + Sections(blocks) == (head + Sections(init)) + (Gap + blocks[|blocks| - 1]);
    if k == |blocks| - 1 {
      assert blocks[..k] == init;
      assert head + Sections(blocks) == (head + Sections(init) + Gap) + blocks[k];
      OccursSuffix(head + Sections(init) + Gap, blocks[k]);
    } else {
      SectionOccurs(head, init, k);
      assert init[..k] == blocks[..k];
      OccursExtend(head + Sections(init), blocks[k], BlockStart(head, blocks, k), Gap + blocks[|blocks| - 1]);
    }
  }

  /** A block ends before the next one starts. */
  lemma {:induction false} SectionsOrdered(head: string, blocks: seq<string>, j: nat, k: nat)
    requires j < k < |blocks|
    ensures BlockStart(head, blocks, j) + |blocks[j]| < BlockStart(head, blocks, k)
    decreases k
  {
    assert blocks[..k][..k - 1] == blocks[..k - 1];
    if j < k - 1 {
      SectionsOrdered(head, blocks, j, k - 1);
    }
  }

  /** Block k is header k followed by analysis k. */
  lemma BlocksInOrder(tech: string, fund: string, sent: string, risk: string)
    ensures |Blocks(tech, fund, sent, risk)| == |Headers| == 4
    ensures forall k :: 0 <= k < 4 ==>
      Blocks(tech, fund, sent, risk)[k] == Block(Headers[k], [tech, fund, sent, risk][k])
  {
  }

  /**
   * The report names the stock first, then holds the four headers in the order
   * technical, fundamental, sentiment, risk, each immediately followed (on the
   * next line) by its own analysis; the blocks do not overlap.
   */
  lemma ReportLayout(ticker: string, tech: string, fund: string, sent: string, risk: string)
    ensures Occurs(Report(ticker, tech, fund, sent, risk), Banner(ticker), |Indent|)
    ensures forall k :: 0 <= k < 4 ==>
      Occurs(Report(ticker, tech, fund, sent, risk), Block(Headers[k], [tech, fund, sent, risk][k]),
             BlockStart(Indent + Banner(ticker), Blocks(tech, fund, sent, risk), k))
    ensures forall j, k :: 0 <= j < k < 4 ==>
      BlockStart(Indent + Banner(ticker), Blocks(tech, fund, sent, risk), j)
        + |Block(Headers[j], [tech, fund, sent, risk][j])|
        < BlockStart(Indent + Banner(ticker), Blocks(tech, fund, sent, risk), k)
    ensures |Indent| + |Banner(ticker)| < BlockStart(Indent + Banner(ticker), Blocks(tech, fund, sent, risk), 0)
  {
    var head, bs := Indent + Banner(ticker), Blocks(tech, fund, sent, risk);
    var r := Report(ticker, tech, fund, sent, risk);
    OccursSuffix(Indent, Banner(ticker));
    OccursExtend(head, Banner(ticker), |Indent|, Sections(bs));
    OccursExtend(head + Sections(bs), Banner(ticker), |Indent|, Indent);
    BlocksInOrder(tech, fund, sent, risk);
    forall k | 0 <= k < 4
      ensures Occurs(r, bs[k], BlockStart(head, bs, k))
    {
      SectionOccurs(head, bs, k);
      OccursExtend(head + Sections(bs), bs[k], BlockStart(head, bs, k), Indent);
    }
    forall j, k | 0 <= j < k < 4
      ensures BlockStart(head, bs, j) + |bs[j]| < BlockStart(head, bs, k)
    {
      SectionsOrdered(head, bs, j, k);
    }
  }

  /** The human message: the preamble line, then the report. */
  function HumanPrompt(s: State): string {
    Preamble + Report(s.ticker.GetOr("Unknown"),
                      s.technicalAnalysis.GetOr(""), s.fundamentalAnalysis.GetOr(""),
                      s.sentimentAnalysis.GetOr(""), s.riskAnalysis.GetOr(""))
  }

  /** `judge_node`. */
  function JudgeNode(s: State, env: Env): (r: NodeResult)
    ensures Keys(r.update) == {FinalRecommendation}
    // always exactly one call, to the model, at 0.3: there is no guard
    ensures |r.calls| == 1 && ModelCallCount(r.calls) == 1
    ensures r.calls[0] == ModelCall(SystemPrompt, HumanPrompt(s), Temperature)
    // the answer is stored unmodified, whatever it says
    ensures r.update.finalRecommendation == Some(env.llm(SystemPrompt, HumanPrompt(s), Temperature))
  {
    var human := HumanPrompt(s);
    NodeResult(Single(FinalRecommendation, env.llm(SystemPrompt, human, Temperature)),
               [ModelCall(SystemPrompt, human, Temperature)])
  }

  /** A missing ticker reads as "Unknown" and missing analyses as empty sections. */
  lemma Defaults(s: State)
    requires s.ticker.None?
    requires s.technicalAnalysis.None? && s.fundamentalAnalysis.None?
    requires s.sentimentAnalysis.None? && s.riskAnalysis.None?
    ensures HumanPrompt(s) == Preamble + Report("Unknown", "", "", "", "")
  {
  }
}
