/**
 * `mergeCouncil` (lib/merge/mergeCouncil.ts): one synthesis call, and one
 * retry with a schema reminder only when the first reply arrived but did not
 * parse or validate. The provider and `JSON.parse` are parameters.
 */
module Merge {
  import opened Options
  import opened Types
  import opened JsonValues
  import opened Extract
  import opened Validate
  import opened Prompts

  datatype MergeOutput = MergeOutput(result: Json, tokensUsed: nat)

  /** What the merge returned, and the provider requests it made, in order. */
  datatype MergeRun = MergeRun(output: Option<MergeOutput>, calls: seq<Request>)

  /** A reply's text extracts, parses and validates. */
  predicate Accepted(parse: Parser, text: string) {
    var parsed := parse(ExtractJson(text));
    parsed.Some? && ValidMergeResult(parsed.value)
  }

  function FirstRequest(q: string, g: string, c: string): Request {
    Request(MergePrompt, [HistoryMessage(User, BuildMergeMessages(q, g, c))])
  }

  function RetryRequest(q: string, g: string, c: string): Request {
    Request(MergePrompt, [HistoryMessage(User, RetryMessage(BuildMergeMessages(q, g, c)))])
  }

  /** Tokens reported for the requests made (0 for a failed call). */
  function TokensOf(provider: Provider, calls: seq<Request>): nat {
    if |calls| == 0 then 0
    else
      var reply := Ask(provider, calls[|calls| - 1]);
      TokensOf(provider, calls[..|calls| - 1]) + (if reply.Some? then reply.value.tokensUsed else 0)
  }

  /** One synthesis reply, if it was accepted, as the merge's output. */
  function Outcome(parse: Parser, reply: ProviderResponse, spent: nat): (r: Option<MergeOutput>)
    ensures r.Some? <==> Accepted(parse, reply.response)
    ensures r.Some? ==> r.value == MergeOutput(parse(ExtractJson(reply.response)).value, spent + reply.tokensUsed)
  {
    if Accepted(parse, reply.response) then
      Some(MergeOutput(parse(ExtractJson(reply.response)).value, spent + reply.tokensUsed))
    else None
  }

  lemma TokensOfOne(provider: Provider, a: Request)
    requires Ask(provider, a).Some?
    ensures TokensOf(provider, [a]) == Ask(provider, a).value.tokensUsed
  {
    assert [a][..0] == [];
  }

  lemma TokensOfTwo(provider: Provider, a: Request, b: Request)
    requires Ask(provider, a).Some? && Ask(provider, b).Some?
    ensures TokensOf(provider, [a, b]) == Ask(provider, a).value.tokensUsed + Ask(provider, b).value.tokensUsed
  {
    assert [a, b][..1] == [a];
    TokensOfOne(provider, a);
  }

  /**
   * `mergeCouncil`. The thread history is accepted and ignored: the merge
   * message is built from the query and the two advisor texts only.
   */
  function MergeCouncil(query: string, gpt: string, claude: string, history: seq<HistoryMessage>,
                        provider: Provider, parse: Parser): (run: MergeRun)
    ensures 1 <= |run.calls| <= 2
    ensures run.calls[0] == FirstRequest(query, gpt, claude)
    ensures |run.calls| == 2 ==> run.calls[1] == RetryRequest(query, gpt, claude)
    ensures run.output.Some? ==>
      && ValidMergeResult(run.output.value.result)
      && run.output.value.tokensUsed == TokensOf(provider, run.calls)
  {
    var first := FirstRequest(query, gpt, claude);
    var retry := RetryRequest(query, gpt, claude);
    var r1 := Ask(provider, first);
    if r1.None? then MergeRun(None, [first])
    else if Accepted(parse, r1.value.response) then
      TokensOfOne(provider, first);
      MergeRun(Outcome(parse, r1.value, 0), [first])
    else
      var r2 := Ask(provider, retry);
      if r2.None? then MergeRun(None, [first, retry])
      else
        TokensOfTwo(provider, first, retry);
        MergeRun(Outcome(parse, r2.value, r1.value.tokensUsed), [first, retry])
  }

  /**
   * The retry happens exactly when the first reply arrived but was not
   * accepted; there is a result exactly when the last reply arrived and was
   * accepted, and then it is that reply's parsed JSON, every call having
   * been answered.
   */
  lemma MergeCouncilOutcome(query: string, gpt: string, claude: string, history: seq<HistoryMessage>,
                            provider: Provider, parse: Parser)
    ensures var run := MergeCouncil(query, gpt, claude, history, provider, parse);
      var last := Ask(provider, run.calls[|run.calls| - 1]);
      && (|run.calls| == 2 <==>
            (var first := Ask(provider, run.calls[0]); first.Some? && !Accepted(parse, first.value.response)))
      && (run.output.Some? <==> last.Some? && Accepted(parse, last.value.response))
      && (run.output.Some? ==>
            && run.output.value.result == parse(ExtractJson(last.value.response)).value
            && (forall k :: 0 <= k < |run.calls| ==> Ask(provider, run.calls[k]).Some?))
  {
  }

  /** Every request the merge makes carries the merge prompt. */
  lemma MergeCallsPrompt(query: string, gpt: string, claude: string, history: seq<HistoryMessage>,
                         provider: Provider, parse: Parser)
    ensures var run := MergeCouncil(query, gpt, claude, history, provider, parse);
      forall k :: 0 <= k < |run.calls| ==> run.calls[k].system == MergePrompt
  {
  }

  /** The history argument never influences the merge. */
  lemma MergeIgnoresHistory(q: string, g: string, c: string, h1: seq<HistoryMessage>, h2: seq<HistoryMessage>,
                            provider: Provider, parse: Parser)
    ensures MergeCouncil(q, g, c, h1, provider, parse) == MergeCouncil(q, g, c, h2, provider, parse)
  {
  }

  /** A failed first call ends the merge: no retry, no result. */
  lemma FirstCallFailureNoRetry(q: string, g: string, c: string, h: seq<HistoryMessage>,
                                provider: Provider, parse: Parser)
    requires Ask(provider, FirstRequest(q, g, c)).None?
    ensures MergeCouncil(q, g, c, h, provider, parse) == MergeRun(None, [FirstRequest(q, g, c)])
  {
  }
}
