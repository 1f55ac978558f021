/**
 * Properties of `POST /api/chat` across all provider behaviours: when each
 * status is returned, which requests are made, how tokens are billed, and
 * what the thread looks like afterwards.
 */
module ChatLaws {
  import opened Options
  import opened Types
  import opened JsonValues
  import opened Validate
  import opened Prompts
  import opened Merge
  import opened Arbiter
  import opened Costs
  import opened Threads
  import opened Chat

  /** The messages both advisors receive: the stored history and the new user turn. */
  function Turn(store: Store, body: ChatBody): seq<HistoryMessage>
    requires ValidBody(body)
  {
    ThreadHistory(store, body.threadId.value) + [HistoryMessage(User, body.message.value)]
  }

  function ModeOf(body: ChatBody): RequestMode
    requires ValidBody(body)
  {
    ParseRequestMode(body.mode.value).value
  }

  function GptAnswer(store: Store, body: ChatBody, gptP: Provider): Option<ProviderResponse>
    requires ValidBody(body)
  {
    Ask(gptP, Request(GptSystemPrompt, Turn(store, body)))
  }

  function ClaudeAnswer(store: Store, body: ChatBody, claudeP: Provider): Option<ProviderResponse>
    requires ValidBody(body)
  {
    Ask(claudeP, Request(ClaudeSystemPrompt, Turn(store, body)))
  }

  function ProviderFor(b: Backend, gptP: Provider, claudeP: Provider): Provider {
    if b == OpenAI then gptP else claudeP
  }

  /** Tokens reported by the calls made to one backend (a failed call reports none). */
  function Spent(calls: seq<Call>, backend: Backend, gptP: Provider, claudeP: Provider): nat {
    if |calls| == 0 then 0
    else
      var c := calls[|calls| - 1];
      Spent(calls[..|calls| - 1], backend, gptP, claudeP)
      + (if c.backend == backend then TokensFrom(Ask(ProviderFor(c.backend, gptP, claudeP), c.request)) else 0)
  }

  lemma {:induction false} SpentAppend(a: seq<Call>, b: seq<Call>, backend: Backend, gptP: Provider, claudeP: Provider)
    ensures Spent(a + b, backend, gptP, claudeP) == Spent(a, backend, gptP, claudeP) + Spent(b, backend, gptP, claudeP)
    decreases |b|
  {
    if |b| == 0 {
      assert a + b == a;
    } else {
      var n := |b| - 1;
      assert (a + b)[..|a + b| - 1] == a + b[..n];
      SpentAppend(a, b[..n], backend, gptP, claudeP);
    }
  }

  /** The merge's calls, billed to Claude, are exactly what `TokensOf` counts. */
  lemma {:induction false} SpentMergeCalls(reqs: seq<Request>, gptP: Provider, claudeP: Provider)
    ensures Spent(AnthropicCalls(reqs), Anthropic, gptP, claudeP) == TokensOf(claudeP, reqs)
    ensures Spent(AnthropicCalls(reqs), OpenAI, gptP, claudeP) == 0
  {
    if |reqs| > 0 {
      var n := |reqs| - 1;
      assert AnthropicCalls(reqs)[..n] == AnthropicCalls(reqs[..n]);
      SpentMergeCalls(reqs[..n], gptP, claudeP);
    }
  }

  lemma SpentPair(g: Call, c: Call, gptP: Provider, claudeP: Provider)
    requires g.backend == OpenAI && c.backend == Anthropic
    ensures Spent([g, c], OpenAI, gptP, claudeP) == TokensFrom(Ask(gptP, g.request))
    ensures Spent([g, c], Anthropic, gptP, claudeP) == TokensFrom(Ask(claudeP, c.request))
  {
    assert [g, c] == [g] + [c];
    SpentAppend([g], [c], OpenAI, gptP, claudeP);
    SpentAppend([g], [c], Anthropic, gptP, claudeP);
    SpentOne(g, gptP, claudeP);
    SpentOne(c, gptP, claudeP);
  }

  lemma SpentOne(c: Call, gptP: Provider, claudeP: Provider)
    ensures Spent([c], c.backend, gptP, claudeP) == TokensFrom(Ask(ProviderFor(c.backend, gptP, claudeP), c.request))
    ensures forall b: Backend :: b != c.backend ==> Spent([c], b, gptP, claudeP) == 0
  {
    assert [c][..0] == [];
  }

  /** The tokens a gathered stage reports are the tokens its calls reported, per backend. */
  predicate Billed(g: Gathered, gptP: Provider, claudeP: Provider) {
    g.gptTokens == Spent(g.calls, OpenAI, gptP, claudeP)
    && g.claudeTokens == Spent(g.calls, Anthropic, gptP, claudeP)
  }

  /** The advisor calls lead every council trace. */
  lemma AdvisorPrefix(advisor: seq<Call>, rest: seq<Call>)
    requires |advisor| == 2
    ensures |advisor + rest| >= 2 && (advisor + rest)[..2] == advisor
  {
    assert (advisor + rest)[..2] == advisor;
  }

  /** A failed merge: only the advisors' tokens are reported, and there is no arbiter. */
  lemma SynthesizeUnmerged(arbiter: bool, message: string, history: seq<HistoryMessage>,
                           g: ProviderResponse, c: ProviderResponse, gCall: Call, cCall: Call,
                           gptP: Provider, claudeP: Provider, parse: Parser)
    requires gCall.backend == OpenAI && cCall.backend == Anthropic
    requires Ask(gptP, gCall.request) == Some(g) && Ask(claudeP, cCall.request) == Some(c)
    requires MergeCouncil(message, g.response, c.response, history, claudeP, parse).output.None?
    ensures var s := Synthesize(arbiter, message, history, g, c, [gCall, cCall], claudeP, parse);
      && |s.g.calls| >= 2 && s.g.calls[..2] == [gCall, cCall]
      && s.g.merge.None? && s.g.arbiter.None?
      && Billed(s.g.(calls := [gCall, cCall]), gptP, claudeP)
      && (forall k :: 2 <= k < |s.g.calls| ==>
            s.g.calls[k].backend == Anthropic && s.g.calls[k].request.system == MergePrompt)
  {
    var run := MergeCouncil(message, g.response, c.response, history, claudeP, parse);
    AdvisorPrefix([gCall, cCall], AnthropicCalls(run.calls));
    SpentPair(gCall, cCall, gptP, claudeP);
  }

  /** One more call adds its tokens to its own backend only. */
  lemma SpentSnoc(calls: seq<Call>, c: Call, backend: Backend, gptP: Provider, claudeP: Provider)
    ensures Spent(calls + [c], backend, gptP, claudeP)
         == Spent(calls, backend, gptP, claudeP)
            + (if c.backend == backend then TokensFrom(Ask(ProviderFor(c.backend, gptP, claudeP), c.request)) else 0)
  {
    assert (calls + [c])[..|calls|] == calls;
  }

  /** The advisors followed by the merge's calls: GPT's tokens, and Claude's plus the merge's. */
  lemma AdvisorMergeSpent(gCall: Call, cCall: Call, reqs: seq<Request>, gptP: Provider, claudeP: Provider)
    requires gCall.backend == OpenAI && cCall.backend == Anthropic
    ensures Spent([gCall, cCall] + AnthropicCalls(reqs), OpenAI, gptP, claudeP) == TokensFrom(Ask(gptP, gCall.request))
    ensures Spent([gCall, cCall] + AnthropicCalls(reqs), Anthropic, gptP, claudeP)
         == TokensFrom(Ask(claudeP, cCall.request)) + TokensOf(claudeP, reqs)
  {
    SpentPair(gCall, cCall, gptP, claudeP);
    SpentMergeCalls(reqs, gptP, claudeP);
    SpentAppend([gCall, cCall], AnthropicCalls(reqs), OpenAI, gptP, claudeP);
    SpentAppend([gCall, cCall], AnthropicCalls(reqs), Anthropic, gptP, claudeP);
  }

  /** The advisors, the merge's calls and the arbiter call: everything after GPT's call is Claude's. */
  lemma ArbitratedSpent(gCall: Call, cCall: Call, reqs: seq<Request>, arbCall: Call, gptP: Provider, claudeP: Provider)
    requires gCall.backend == OpenAI && cCall.backend == Anthropic && arbCall.backend == Anthropic
    ensures Spent([gCall, cCall] + AnthropicCalls(reqs) + [arbCall], OpenAI, gptP, claudeP)
         == TokensFrom(Ask(gptP, gCall.request))
    ensures Spent([gCall, cCall] + AnthropicCalls(reqs) + [arbCall], Anthropic, gptP, claudeP)
         == TokensFrom(Ask(claudeP, cCall.request)) + TokensOf(claudeP, reqs) + TokensFrom(Ask(claudeP, arbCall.request))
  {
    AdvisorMergeSpent(gCall, cCall, reqs, gptP, claudeP);
    SpentSnoc([gCall, cCall] + AnthropicCalls(reqs), arbCall, OpenAI, gptP, claudeP);
    SpentSnoc([gCall, cCall] + AnthropicCalls(reqs), arbCall, Anthropic, gptP, claudeP);
  }

  /** A merge without the arbiter: the merge's tokens are billed to Claude. */
  lemma SynthesizeMerged(message: string, history: seq<HistoryMessage>,
                         g: ProviderResponse, c: ProviderResponse, gCall: Call, cCall: Call,
                         gptP: Provider, claudeP: Provider, parse: Parser)
    requires gCall.backend == OpenAI && cCall.backend == Anthropic
    requires Ask(gptP, gCall.request) == Some(g) && Ask(claudeP, cCall.request) == Some(c)
    requires MergeCouncil(message, g.response, c.response, history, claudeP, parse).output.Some?
    ensures var s := Synthesize(false, message, history, g, c, [gCall, cCall], claudeP, parse);
      && |s.g.calls| >= 2 && s.g.calls[..2] == [gCall, cCall]
      && s.g.merge.Some? && s.g.arbiter.None?
      && Billed(s.g, gptP, claudeP)
  {
    var run := MergeCouncil(message, g.response, c.response, history, claudeP, parse);
    AdvisorPrefix([gCall, cCall], AnthropicCalls(run.calls));
    AdvisorMergeSpent(gCall, cCall, run.calls, gptP, claudeP);
  }

  /** A merge followed by the arbiter: both are billed to Claude, the arbiter call last. */
  lemma SynthesizeArbitrated(message: string, history: seq<HistoryMessage>,
                             g: ProviderResponse, c: ProviderResponse, gCall: Call, cCall: Call,
                             gptP: Provider, claudeP: Provider, parse: Parser)
    requires gCall.backend == OpenAI && cCall.backend == Anthropic
    requires Ask(gptP, gCall.request) == Some(g) && Ask(claudeP, cCall.request) == Some(c)
    requires MergeCouncil(message, g.response, c.response, history, claudeP, parse).output.Some?
    ensures var s := Synthesize(true, message, history, g, c, [gCall, cCall], claudeP, parse);
      && |s.g.calls| >= 2 && s.g.calls[..2] == [gCall, cCall]
      && s.g.merge.Some?
      && Billed(s.g, gptP, claudeP)
  {
    var run := MergeCouncil(message, g.response, c.response, history, claudeP, parse);
    var out := run.output.value;
    var arbCall := Call(Anthropic, ArbiterRequest(message, g.response, c.response, ConsensusOf(out.result)));
    AdvisorPrefix([gCall, cCall], AnthropicCalls(run.calls) + [arbCall]);
    assert [gCall, cCall] + AnthropicCalls(run.calls) + [arbCall] == [gCall, cCall] + (AnthropicCalls(run.calls) + [arbCall]);
    ArbitratedSpent(gCall, cCall, run.calls, arbCall, gptP, claudeP);
  }

  /**
   * Billing of what a provider stage gathered: every reported token is
   * billed to the backend that reported it, except those of a failed merge,
   * which are dropped (the calls after the two advisors are then merge calls).
   */
  predicate StageBilled(s: Stage, gptP: Provider, claudeP: Provider) {
    s.Proceed? ==>
      && (s.g.merge.Some? || s.g.mode != Council ==> Billed(s.g, gptP, claudeP))
      && (s.g.merge.None? && s.g.mode == Council ==>
            && |s.g.calls| >= 2
            && Billed(s.g.(calls := s.g.calls[..2]), gptP, claudeP)
            && (forall k :: 2 <= k < |s.g.calls| ==>
                  s.g.calls[k].backend == Anthropic && s.g.calls[k].request.system == MergePrompt))
  }

  lemma CouncilBilling(arbiter: bool, message: string, history: seq<HistoryMessage>,
                       gptP: Provider, claudeP: Provider, parse: Parser)
    ensures StageBilled(CouncilStage(arbiter, message, history, gptP, claudeP, parse), gptP, claudeP)
  {
    var msgs := history + [HistoryMessage(User, message)];
    var gCall, cCall := AdvisorCall(OpenAI, msgs), AdvisorCall(Anthropic, msgs);
    var gOut, cOut := Ask(gptP, gCall.request), Ask(claudeP, cCall.request);
    SpentPair(gCall, cCall, gptP, claudeP);
    if Truthy(TextOf(gOut)) && Truthy(TextOf(cOut)) {
      var run := MergeCouncil(message, gOut.value.response, cOut.value.response, history, claudeP, parse);
      if run.output.None? {
        SynthesizeUnmerged(arbiter, message, history, gOut.value, cOut.value, gCall, cCall, gptP, claudeP, parse);
      } else if arbiter {
        SynthesizeArbitrated(message, history, gOut.value, cOut.value, gCall, cCall, gptP, claudeP, parse);
      } else {
        SynthesizeMerged(message, history, gOut.value, cOut.value, gCall, cCall, gptP, claudeP, parse);
      }
    }
  }

  /** The billing rule holds for the provider stage of every mode. */
  lemma DispatchBilling(mode: RequestMode, arbiter: bool, message: string, history: seq<HistoryMessage>,
                        gptP: Provider, claudeP: Provider, parse: Parser)
    ensures StageBilled(Dispatch(mode, arbiter, message, history, gptP, claudeP, parse), gptP, claudeP)
  {
    var msgs := history + [HistoryMessage(User, message)];
    match mode
    case CouncilMode =>
      CouncilBilling(arbiter, message, history, gptP, claudeP, parse);
    case GptOnly =>
      SpentOne(AdvisorCall(OpenAI, msgs), gptP, claudeP);
    case ClaudeOnly =>
      SpentOne(AdvisorCall(Anthropic, msgs), gptP, claudeP);
  }

  /**
   * Validation: 400 exactly for a body missing a field or naming an unknown
   * mode, with the matching message, before any provider call or write.
   */
  lemma PostValidation(body: ChatBody, store: Store, gptP: Provider, claudeP: Provider,
                       parse: Parser, stringify: Printer, messageId: string)
    ensures var r := Post(body, store, gptP, claudeP, parse, stringify, messageId);
      && (r.status == 400 <==> !ValidBody(body))
      && (r.status == 400 ==> r.calls == [] && r.store == store)
      && (!(Truthy(body.threadId) && Truthy(body.message) && Truthy(body.mode)) ==>
            r.body == ErrorBody(MissingFields))
      && ((Truthy(body.threadId) && Truthy(body.message) && Truthy(body.mode)
           && body.mode.value !in {"council", "gpt-only", "claude-only"}) ==>
            r.body == ErrorBody(InvalidMode))
  {
    if ValidBody(body) {
      PostStages(body, store, gptP, claudeP, parse, stringify, messageId);
      var s := Dispatch(ModeOf(body), body.arbiter, body.message.value,
                        ThreadHistory(store, body.threadId.value), gptP, claudeP, parse);
      DispatchStops(ModeOf(body), body.arbiter, body.message.value,
                    ThreadHistory(store, body.threadId.value), gptP, claudeP, parse);
      if s.Proceed? {
        PersistOutcome(body.threadId.value, body.message.value, s.g, store, stringify, messageId, CostText(s.g));
      }
    }
  }

  /** The route answers 200 with the envelope, or 400, 500 or 503 with an error message. */
  lemma PostStatus(body: ChatBody, store: Store, gptP: Provider, claudeP: Provider,
                   parse: Parser, stringify: Printer, messageId: string)
    ensures var r := Post(body, store, gptP, claudeP, parse, stringify, messageId);
      && r.status in {200, 400, 500, 503}
      && (r.status == 200 <==> r.body.Envelope?)
  {
    if ValidBody(body) {
      PostStages(body, store, gptP, claudeP, parse, stringify, messageId);
      var s := Dispatch(ModeOf(body), body.arbiter, body.message.value,
                        ThreadHistory(store, body.threadId.value), gptP, claudeP, parse);
      DispatchStops(ModeOf(body), body.arbiter, body.message.value,
                    ThreadHistory(store, body.threadId.value), gptP, claudeP, parse);
      if s.Proceed? {
        PersistOutcome(body.threadId.value, body.message.value, s.g, store, stringify, messageId, CostText(s.g));
      }
    }
  }

  /** A provider failure (503) writes nothing. */
  lemma UnavailableWritesNothing(body: ChatBody, store: Store, gptP: Provider, claudeP: Provider,
                                 parse: Parser, stringify: Printer, messageId: string)
    ensures var r := Post(body, store, gptP, claudeP, parse, stringify, messageId);
      r.status == 503 ==> r.store == store && r.body.ErrorBody?
  {
    if ValidBody(body) {
      PostStages(body, store, gptP, claudeP, parse, stringify, messageId);
      var s := Dispatch(ModeOf(body), body.arbiter, body.message.value,
                        ThreadHistory(store, body.threadId.value), gptP, claudeP, parse);
      if s.Proceed? {
        PersistOutcome(body.threadId.value, body.message.value, s.g, store, stringify, messageId, CostText(s.g));
      }
    }
  }

  /** A provider stage stops only with 503. */
  lemma DispatchStops(mode: RequestMode, arbiter: bool, message: string, history: seq<HistoryMessage>,
                      gptP: Provider, claudeP: Provider, parse: Parser)
    ensures var s := Dispatch(mode, arbiter, message, history, gptP, claudeP, parse);
      s.Stopped? ==> s.status == 503
  {
  }

  function StageCalls(s: Stage): seq<Call> {
    match s case Stopped(_, _, calls) => calls case Proceed(g) => g.calls
  }

  /** The route after validation: the provider stage, then persistence unless it stopped. */
  lemma PostStages(body: ChatBody, store: Store, gptP: Provider, claudeP: Provider,
                   parse: Parser, stringify: Printer, messageId: string)
    requires ValidBody(body)
    ensures var r := Post(body, store, gptP, claudeP, parse, stringify, messageId);
      var s := Dispatch(ModeOf(body), body.arbiter, body.message.value,
                        ThreadHistory(store, body.threadId.value), gptP, claudeP, parse);
      && r.calls == StageCalls(s)
      && (s.Stopped? ==> r == Reply(s.status, ErrorBody(s.error), s.calls, store))
      && (s.Proceed? ==> r == Persist(body.threadId.value, body.message.value, s.g, store, stringify, messageId,
                                    CostText(s.g)))
  {
  }

  /** A successful request returns what its provider stage gathered, and made exactly that stage's calls. */
  lemma PostSuccess(body: ChatBody, store: Store, gptP: Provider, claudeP: Provider,
                    parse: Parser, stringify: Printer, messageId: string)
    requires ValidBody(body)
    ensures var r := Post(body, store, gptP, claudeP, parse, stringify, messageId);
      var s := Dispatch(ModeOf(body), body.arbiter, body.message.value,
                        ThreadHistory(store, body.threadId.value), gptP, claudeP, parse);
      r.status == 200 ==>
        && s.Proceed? && r.calls == s.g.calls
        && r.body.response == Respond(body.threadId.value, messageId, s.g, CostText(s.g))
  {
    PostStages(body, store, gptP, claudeP, parse, stringify, messageId);
    var s := Dispatch(ModeOf(body), body.arbiter, body.message.value,
                      ThreadHistory(store, body.threadId.value), gptP, claudeP, parse);
    DispatchStops(ModeOf(body), body.arbiter, body.message.value,
                  ThreadHistory(store, body.threadId.value), gptP, claudeP, parse);
    if s.Proceed? {
      PersistOutcome(body.threadId.value, body.message.value, s.g, store, stringify, messageId, CostText(s.g));
    }
  }

  /**
   * Persistence: 200 with the gathered results exactly when the thread
   * exists and there is content to store, else 500; an unknown thread is
   * left unwritten.
   */
  lemma PersistOutcome(threadId: string, message: string, g: Gathered, store: Store,
                       stringify: Printer, messageId: string, costText: string)
    requires g.merge.Some? ==> ValidMergeResult(g.merge.value)
    ensures var r := Persist(threadId, message, g, store, stringify, messageId, costText);
      && r.calls == g.calls
      && r.status in {200, 500}
      && (r.status == 200 <==> threadId in store && ContentForStorage(g.merge, g.gpt, g.claude).Some?)
      && (r.status == 200 ==> r.body.response == Respond(threadId, messageId, g, costText))
      && (r.status == 500 ==> r.body == ErrorBody(InternalError))
      && (threadId !in store ==> r.store == store)
  {
  }

  /**
   * The council stage: 503 exactly when neither advisor produced text;
   * degraded, without synthesis, exactly when one of them produced none.
   * Whenever it proceeds there is content to store.
   */
  lemma CouncilStageOutcome(arbiter: bool, message: string, history: seq<HistoryMessage>,
                            gptP: Provider, claudeP: Provider, parse: Parser)
    ensures var msgs := history + [HistoryMessage(User, message)];
      var s := CouncilStage(arbiter, message, history, gptP, claudeP, parse);
      var g := TextOf(Ask(gptP, Request(GptSystemPrompt, msgs)));
      var c := TextOf(Ask(claudeP, Request(ClaudeSystemPrompt, msgs)));
      && |StageCalls(s)| >= 2
      && StageCalls(s)[0] == Call(OpenAI, Request(GptSystemPrompt, msgs))
      && StageCalls(s)[1] == Call(Anthropic, Request(ClaudeSystemPrompt, msgs))
      && (s.Stopped? <==> !Truthy(g) && !Truthy(c))
      && (s.Stopped? ==> s.status == 503 && s.error == BothFailed)
      && (s.Proceed? ==>
            && s.g.gpt == g && s.g.claude == c
            && (s.g.mode == Degraded <==> !Truthy(g) || !Truthy(c))
            && (s.g.mode != Degraded ==> s.g.mode == Council)
            && (s.g.mode == Degraded ==> |s.g.calls| == 2 && s.g.merge.None? && s.g.arbiter.None?)
            && ContentForStorage(s.g.merge, s.g.gpt, s.g.claude).Some?)
  {
    var msgs := history + [HistoryMessage(User, message)];
    var gCall, cCall := AdvisorCall(OpenAI, msgs), AdvisorCall(Anthropic, msgs);
    var gOut, cOut := Ask(gptP, gCall.request), Ask(claudeP, cCall.request);
    if Truthy(TextOf(gOut)) && Truthy(TextOf(cOut)) {
      var run := MergeCouncil(message, gOut.value.response, cOut.value.response, history, claudeP, parse);
      if run.output.None? {
        SynthesizeUnmerged(arbiter, message, history, gOut.value, cOut.value, gCall, cCall, gptP, claudeP, parse);
      } else if arbiter {
        SynthesizeArbitrated(message, history, gOut.value, cOut.value, gCall, cCall, gptP, claudeP, parse);
      } else {
        SynthesizeMerged(message, history, gOut.value, cOut.value, gCall, cCall, gptP, claudeP, parse);
      }
    }
  }

  /**
   * Council mode: both advisors receive the same turn under their own system
   * prompts; the request fails with 503 exactly when neither produced text,
   * and otherwise succeeds when the thread exists (500 when it does not),
   * degraded exactly when one of them produced none, in which case no
   * synthesis is attempted.
   */
  lemma CouncilOutcome(body: ChatBody, store: Store, gptP: Provider, claudeP: Provider,
                       parse: Parser, stringify: Printer, messageId: string)
    requires ValidBody(body) && ModeOf(body) == CouncilMode
    ensures var r := Post(body, store, gptP, claudeP, parse, stringify, messageId);
      var g := TextOf(GptAnswer(store, body, gptP));
      var c := TextOf(ClaudeAnswer(store, body, claudeP));
      && |r.calls| >= 2
      && r.calls[0] == Call(OpenAI, Request(GptSystemPrompt, Turn(store, body)))
      && r.calls[1] == Call(Anthropic, Request(ClaudeSystemPrompt, Turn(store, body)))
      && (r.status == 503 <==> !Truthy(g) && !Truthy(c))
      && (r.status != 503 ==> r.status in {200, 500})
      && (r.status == 200 <==> (Truthy(g) || Truthy(c)) && body.threadId.value in store)
      && (r.status == 200 ==> r.body.response.gptResponse == g && r.body.response.claudeResponse == c)
      && (r.status == 200 ==> (r.body.response.mode == Degraded <==> !Truthy(g) || !Truthy(c)))
      && (r.status == 200 && r.body.response.mode != Degraded ==> r.body.response.mode == Council)
      && (r.status == 200 && r.body.response.mode == Degraded ==>
            |r.calls| == 2 && r.body.response.mergeResult.None? && r.body.response.arbiterReview.None?)
  {
    PostStages(body, store, gptP, claudeP, parse, stringify, messageId);
    CouncilStageOutcome(body.arbiter, body.message.value, ThreadHistory(store, body.threadId.value),
                        gptP, claudeP, parse);
    var s := Dispatch(ModeOf(body), body.arbiter, body.message.value,
                      ThreadHistory(store, body.threadId.value), gptP, claudeP, parse);
    if s.Proceed? {
      PersistOutcome(body.threadId.value, body.message.value, s.g, store, stringify, messageId, CostText(s.g));
    }
  }

  /**
   * Token accounting of a successful request: the reported total and cost
   * are the tokens each backend reported, GPT's at GPT's rate and every
   * Claude call (advisor, merge, arbiter) at Claude's; when the synthesis
   * failed, the tokens of its attempts are not counted.
   */
  lemma TokenAccounting(body: ChatBody, store: Store, gptP: Provider, claudeP: Provider,
                        parse: Parser, stringify: Printer, messageId: string)
    requires ValidBody(body)
    ensures var r := Post(body, store, gptP, claudeP, parse, stringify, messageId);
      r.status == 200 ==>
        var resp := r.body.response;
        && (resp.mergeResult.Some? || resp.mode != Council ==>
              var gs, cs := Spent(r.calls, OpenAI, gptP, claudeP), Spent(r.calls, Anthropic, gptP, claudeP);
              resp.tokensUsed == gs + cs && resp.estimatedCost == FormatCost(CalculateCost(gs, cs)))
        && (resp.mergeResult.None? && resp.mode == Council ==>
              && |r.calls| >= 2
              && (var gs, cs := Spent(r.calls[..2], OpenAI, gptP, claudeP), Spent(r.calls[..2], Anthropic, gptP, claudeP);
                  resp.tokensUsed == gs + cs && resp.estimatedCost == FormatCost(CalculateCost(gs, cs)))
              && (forall k :: 2 <= k < |r.calls| ==>
                    r.calls[k].backend == Anthropic && r.calls[k].request.system == MergePrompt))
  {
    PostSuccess(body, store, gptP, claudeP, parse, stringify, messageId);
    DispatchBilling(ModeOf(body), body.arbiter, body.message.value, ThreadHistory(store, body.threadId.value),
                    gptP, claudeP, parse);
  }

  /**
   * The single-provider modes: exactly one request, to the chosen provider;
   * 503 exactly when it fails. An unknown thread, or an empty GPT-only reply
   * (which leaves no content to store: the fallback reads the absent Claude
   * text), ends in 500; every other reply succeeds, unmerged and without
   * arbiter.
   */
  lemma SingleOutcome(body: ChatBody, store: Store, gptP: Provider, claudeP: Provider,
                      parse: Parser, stringify: Printer, messageId: string)
    requires ValidBody(body) && ModeOf(body) != CouncilMode
    ensures var r := Post(body, store, gptP, claudeP, parse, stringify, messageId);
      var gptOnly := ModeOf(body) == GptOnly;
      var answer := if gptOnly then GptAnswer(store, body, gptP) else ClaudeAnswer(store, body, claudeP);
      && r.calls == [if gptOnly then Call(OpenAI, Request(GptSystemPrompt, Turn(store, body)))
                     else Call(Anthropic, Request(ClaudeSystemPrompt, Turn(store, body)))]
      && (r.status == 503 <==> answer.None?)
      && (r.status == 500 <==>
            answer.Some? && (body.threadId.value !in store || (gptOnly && answer.value.response == "")))
      && (r.status == 200 ==>
            var resp := r.body.response;
            && resp.mode == AsResponseMode(ModeOf(body))
            && resp.mergeResult.None? && resp.arbiterReview.None?
            && resp.gptResponse == (if gptOnly then Some(answer.value.response) else None)
            && resp.claudeResponse == (if gptOnly then None else Some(answer.value.response)))
  {
    PostStages(body, store, gptP, claudeP, parse, stringify, messageId);
    var gptOnly := ModeOf(body) == GptOnly;
    var history := ThreadHistory(store, body.threadId.value);
    var s := Dispatch(ModeOf(body), body.arbiter, body.message.value, history, gptP, claudeP, parse);
    var backend := if gptOnly then OpenAI else Anthropic;
    assert s == SingleStage(backend, body.message.value, history, if gptOnly then gptP else claudeP);
    SingleStageOutcome(backend, body.message.value, history, if gptOnly then gptP else claudeP);
    if s.Proceed? {
      PersistOutcome(body.threadId.value, body.message.value, s.g, store, stringify, messageId, CostText(s.g));
    }
  }

  /**
   * With a GPT provider that never answers with empty text, as `callGPT`
   * never does, a gpt-only request on an existing thread cannot end in 500:
   * it answers 503 when the call fails and 200 otherwise.
   */
  lemma GptOnlyNoInternalError(body: ChatBody, store: Store, gptP: Provider, claudeP: Provider,
                               parse: Parser, stringify: Printer, messageId: string)
    requires ValidBody(body) && ModeOf(body) == GptOnly && NonEmptyAnswers(gptP)
    ensures var r := Post(body, store, gptP, claudeP, parse, stringify, messageId);
      && (r.status == 500 <==> GptAnswer(store, body, gptP).Some? && body.threadId.value !in store)
      && (r.status == 200 <==> GptAnswer(store, body, gptP).Some? && body.threadId.value in store)
      && (r.status == 503 <==> GptAnswer(store, body, gptP).None?)
  {
    SingleOutcome(body, store, gptP, claudeP, parse, stringify, messageId);
    PostStatus(body, store, gptP, claudeP, parse, stringify, messageId);
  }

  /** A single-provider stage: one call; stops exactly when it fails; content is missing only for an empty GPT reply. */
  lemma SingleStageOutcome(backend: Backend, message: string, history: seq<HistoryMessage>, p: Provider)
    ensures var s := SingleStage(backend, message, history, p);
      var call := AdvisorCall(backend, history + [HistoryMessage(User, message)]);
      var answer := Ask(p, call.request);
      var gptOnly := backend == OpenAI;
      && StageCalls(s) == [call]
      && (s.Stopped? <==> answer.None?)
      && (s.Stopped? ==> s.status == 503)
      && (s.Proceed? ==>
            && s.g.mode == (if gptOnly then GptOnlyReply else ClaudeOnlyReply)
            && s.g.merge.None? && s.g.arbiter.None?
            && s.g.gpt == (if gptOnly then Some(answer.value.response) else None)
            && s.g.claude == (if gptOnly then None else Some(answer.value.response))
            && (ContentForStorage(s.g.merge, s.g.gpt, s.g.claude).None? <==> gptOnly && answer.value.response == ""))
  {
  }

  /** A single-provider request never consults the other provider. */
  lemma SingleIgnoresOther(body: ChatBody, store: Store, gptP: Provider, claudeP: Provider,
                           otherGpt: Provider, otherClaude: Provider,
                           parse: Parser, stringify: Printer, messageId: string)
    requires ValidBody(body)
    ensures ModeOf(body) == GptOnly ==>
      Post(body, store, gptP, claudeP, parse, stringify, messageId)
      == Post(body, store, gptP, otherClaude, parse, stringify, messageId)
    ensures ModeOf(body) == ClaudeOnly ==>
      Post(body, store, gptP, claudeP, parse, stringify, messageId)
      == Post(body, store, otherGpt, claudeP, parse, stringify, messageId)
  {
  }

  /** The records persistence writes, in terms of what was gathered. */
  lemma PersistRecords(id: string, message: string, g: Gathered, store: Store,
                       stringify: Printer, messageId: string, costText: string)
    requires g.merge.Some? ==> ValidMergeResult(g.merge.value)
    ensures var r := Persist(id, message, g, store, stringify, messageId, costText);
      var content := ContentForStorage(g.merge, g.gpt, g.claude);
      var user := StoredRecord(UserRecord(message, g.mode), stringify);
      && (forall other :: other != id ==> Messages(r.store, other) == Messages(store, other))
      && (id !in store ==> r.store == store)
      && (id in store && content.None? ==> Messages(r.store, id) == Messages(store, id) + [user])
      && (id in store && content.Some? ==>
            var asst := StoredRecord(AssistantRecord(content.value, g), stringify);
            Messages(r.store, id) == Messages(store, id) + [user, asst]
            && ThreadHistory(r.store, id) == ThreadHistory(store, id)
                 + [HistoryMessage(User, message), HistoryMessage(Assistant, content.value)])
  {
    var user := UserRecord(message, g.mode);
    if id in store {
      var afterUser := AddMessage(store, id, user, stringify).value;
      AddMessageHistory(store, id, user, stringify);
      match ContentForStorage(g.merge, g.gpt, g.claude)
      case None =>
      case Some(content) =>
        var asst := AssistantRecord(content, g);
        AddMessageHistory(afterUser, id, asst, stringify);
        assert Messages(store, id) + [StoredRecord(user, stringify)] + [StoredRecord(asst, stringify)]
            == Messages(store, id) + [StoredRecord(user, stringify), StoredRecord(asst, stringify)];
    }
  }

  /**
   * What a successful reply leaves in thread `id`, relative to `store`: the
   * user turn (no tokens, no cost, the final mode) and the assistant turn
   * (the stored content, the reported results and tokens, a cost formatting
   * to the reported string), so that the next history is the old one plus
   * these two turns.
   */
  predicate SuccessTurn(r: Reply, store: Store, id: string, message: string, stringify: Printer)
    requires r.body.Envelope?
  {
    var ms := Messages(r.store, id);
    && |ms| == |Messages(store, id)| + 2
    && ms[..|ms| - 2] == Messages(store, id)
    && TurnRecords(ms[|ms| - 2], ms[|ms| - 1], r.body.response, message, stringify)
    && ThreadHistory(r.store, id) == ThreadHistory(store, id)
         + [HistoryMessage(User, message), HistoryMessage(Assistant, ms[|ms| - 1].content)]
  }

  /** The two rows of a successful turn, against the envelope the route returned. */
  predicate TurnRecords(user: StoredMessage, asst: StoredMessage, resp: ChatResponse, message: string,
                        stringify: Printer) {
    && user.role == "user" && user.content == message
    && user.tokensUsed == 0 && user.estimatedCost == 0.0
    && user.mode == ResponseModeName(resp.mode)
    && asst.role == "assistant"
    && asst.gptResponse == resp.gptResponse
    && asst.claudeResponse == resp.claudeResponse
    && asst.arbiterReview == resp.arbiterReview
    && asst.mode == ResponseModeName(resp.mode)
    && asst.tokensUsed == resp.tokensUsed
    && FormatCost(asst.estimatedCost) == resp.estimatedCost
    && (asst.mergeResult.Some? <==> resp.mergeResult.Some?)
    && (resp.mergeResult.Some? ==>
          ValidMergeResult(resp.mergeResult.value)
          && asst.mergeResult.value == stringify(resp.mergeResult.value)
          && asst.content == ConsensusOf(resp.mergeResult.value))
    && (resp.mergeResult.None? && Truthy(resp.gptResponse) ==> Some(asst.content) == resp.gptResponse)
    && (resp.mergeResult.None? && !Truthy(resp.gptResponse) ==> Some(asst.content) == resp.claudeResponse)
  }

  /** The records persistence writes match the envelope it returns. */
  lemma RecordsMatch(id: string, message: string, g: Gathered, stringify: Printer, messageId: string)
    requires g.merge.Some? ==> ValidMergeResult(g.merge.value)
    requires ContentForStorage(g.merge, g.gpt, g.claude).Some?
    ensures var content := ContentForStorage(g.merge, g.gpt, g.claude).value;
      TurnRecords(StoredRecord(UserRecord(message, g.mode), stringify),
                  StoredRecord(AssistantRecord(content, g), stringify),
                  Respond(id, messageId, g, CostText(g)), message, stringify)
  {
  }

  /** A failed second write leaves the user turn alone behind. */
  predicate OrphanTurn(r: Reply, store: Store, id: string, message: string) {
    var ms := Messages(r.store, id);
    && |ms| == |Messages(store, id)| + 1
    && ms[..|ms| - 1] == Messages(store, id)
    && ms[|ms| - 1].role == "user" && ms[|ms| - 1].content == message
  }

  /**
   * What a reply leaves in the store: the turn(s) above in its thread, no
   * other thread touched, and nothing at all when the thread does not exist.
   */
  ghost predicate LeavesTurn(r: Reply, store: Store, id: string, message: string, stringify: Printer) {
    && (forall other :: other != id ==> Messages(r.store, other) == Messages(store, other))
    && (id !in store ==> r.store == store && r.status != 200)
    && (r.status == 200 && r.body.Envelope? ==> SuccessTurn(r, store, id, message, stringify))
    && (r.status == 500 && id in store ==> OrphanTurn(r, store, id, message))
    && (r.status != 200 && r.status != 500 ==> r.store == store)
  }

  lemma PersistSuccess(id: string, message: string, g: Gathered, store: Store,
                       stringify: Printer, messageId: string, costText: string)
    requires g.merge.Some? ==> ValidMergeResult(g.merge.value)
    requires costText == CostText(g)
    requires ContentForStorage(g.merge, g.gpt, g.claude).Some?
    ensures Persist(id, message, g, store, stringify, messageId, costText).body.Envelope? <==> id in store
    ensures id in store ==>
      SuccessTurn(Persist(id, message, g, store, stringify, messageId, costText), store, id, message, stringify)
  {
    var r := Persist(id, message, g, store, stringify, messageId, costText);
    if id !in store {
      PersistOutcome(id, message, g, store, stringify, messageId, costText);
      return;
    }
    PersistOutcome(id, message, g, store, stringify, messageId, costText);
    PersistRecords(id, message, g, store, stringify, messageId, costText);
    RecordsMatch(id, message, g, stringify, messageId);
    var content := ContentForStorage(g.merge, g.gpt, g.claude).value;
    var user := StoredRecord(UserRecord(message, g.mode), stringify);
    var asst := StoredRecord(AssistantRecord(content, g), stringify);
    var ms := Messages(r.store, id);
    assert ms == Messages(store, id) + [user, asst];
    assert ms[..|ms| - 2] == Messages(store, id);
    assert ms[|ms| - 1] == asst && ms[|ms| - 2] == user;
  }

  lemma PersistLeavesTurn(id: string, message: string, g: Gathered, store: Store,
                          stringify: Printer, messageId: string, costText: string)
    requires g.merge.Some? ==> ValidMergeResult(g.merge.value)
    requires costText == CostText(g)
    ensures LeavesTurn(Persist(id, message, g, store, stringify, messageId, costText), store, id, message, stringify)
  {
    var r := Persist(id, message, g, store, stringify, messageId, costText);
    PersistOutcome(id, message, g, store, stringify, messageId, costText);
    PersistRecords(id, message, g, store, stringify, messageId, costText);
    if id !in store {
    } else if ContentForStorage(g.merge, g.gpt, g.claude).Some? {
      PersistSuccess(id, message, g, store, stringify, messageId, costText);
    } else {
      var ms := Messages(r.store, id);
      assert ms[..|ms| - 1] == Messages(store, id);
    }
  }

  /** Every request leaves its thread as `LeavesTurn` describes. */
  lemma StoredTurn(body: ChatBody, store: Store, gptP: Provider, claudeP: Provider,
                   parse: Parser, stringify: Printer, messageId: string)
    requires ValidBody(body)
    ensures LeavesTurn(Post(body, store, gptP, claudeP, parse, stringify, messageId),
                       store, body.threadId.value, body.message.value, stringify)
  {
    PostStages(body, store, gptP, claudeP, parse, stringify, messageId);
    var id, message := body.threadId.value, body.message.value;
    var s := Dispatch(ModeOf(body), body.arbiter, message, ThreadHistory(store, id), gptP, claudeP, parse);
    if s.Proceed? {
      PersistLeavesTurn(id, message, s.g, store, stringify, messageId, CostText(s.g));
    }
  }

  /**
   * The arbiter after a synthesis: called only when asked for and only on a
   * successful merge, as the last request, with the query, both advisor
   * texts and the consensus; its review is the provider's text.
   */
  lemma SynthesizeArbiter(arbiter: bool, message: string, history: seq<HistoryMessage>,
                          g: ProviderResponse, c: ProviderResponse, advisor: seq<Call>,
                          claudeP: Provider, parse: Parser)
    requires forall k :: 0 <= k < |advisor| ==> advisor[k].request.system != ArbiterPrompt
    ensures var s := Synthesize(arbiter, message, history, g, c, advisor, claudeP, parse);
      && (s.g.arbiter.Some? ==> arbiter && s.g.merge.Some?)
      && (arbiter && s.g.merge.Some? ==>
            var req := ArbiterRequest(message, g.response, c.response, ConsensusOf(s.g.merge.value));
            && |s.g.calls| > 0 && s.g.calls[|s.g.calls| - 1] == Call(Anthropic, req)
            && s.g.arbiter == TextOf(Ask(claudeP, req)))
      && (!(arbiter && s.g.merge.Some?) ==>
            && s.g.arbiter.None?
            && forall k :: 0 <= k < |s.g.calls| ==> s.g.calls[k].request.system != ArbiterPrompt)
  {
    var run := MergeCouncil(message, g.response, c.response, history, claudeP, parse);
    MergeCallsPrompt(message, g.response, c.response, history, claudeP, parse);
    NoArbiterBefore(advisor, run.calls);
  }

  /** Calls without the arbiter prompt followed by merge calls carry no arbiter prompt. */
  lemma NoArbiterBefore(advisor: seq<Call>, reqs: seq<Request>)
    requires forall k :: 0 <= k < |advisor| ==> advisor[k].request.system != ArbiterPrompt
    requires forall k :: 0 <= k < |reqs| ==> reqs[k].system == MergePrompt
    ensures forall k :: 0 <= k < |advisor + AnthropicCalls(reqs)| ==>
      (advisor + AnthropicCalls(reqs))[k].request.system != ArbiterPrompt
  {
    SystemPromptsDistinct();
    var mergeCalls := AnthropicCalls(reqs);
    forall k | 0 <= k < |advisor + mergeCalls|
      ensures (advisor + mergeCalls)[k].request.system != ArbiterPrompt
    {
      if k >= |advisor| {
        assert (advisor + mergeCalls)[k] == mergeCalls[k - |advisor|];
      }
    }
  }

  /** The arbiter at the level of the provider stage, in every mode. */
  lemma DispatchArbiter(mode: RequestMode, arbiter: bool, message: string, history: seq<HistoryMessage>,
                        gptP: Provider, claudeP: Provider, parse: Parser)
    ensures var s := Dispatch(mode, arbiter, message, history, gptP, claudeP, parse);
      s.Proceed? ==>
        && (s.g.arbiter.Some? ==> arbiter && s.g.merge.Some?)
        && (arbiter && s.g.merge.Some? ==>
              && s.g.gpt.Some? && s.g.claude.Some?
              && var req := ArbiterRequest(message, s.g.gpt.value, s.g.claude.value, ConsensusOf(s.g.merge.value));
              && |s.g.calls| > 0 && s.g.calls[|s.g.calls| - 1] == Call(Anthropic, req)
              && s.g.arbiter == TextOf(Ask(claudeP, req)))
        && (!(arbiter && s.g.merge.Some?) ==>
              && s.g.arbiter.None?
              && forall k :: 0 <= k < |s.g.calls| ==> s.g.calls[k].request.system != ArbiterPrompt)
  {
    SystemPromptsDistinct();
    var msgs := history + [HistoryMessage(User, message)];
    if mode == CouncilMode {
      var gCall, cCall := AdvisorCall(OpenAI, msgs), AdvisorCall(Anthropic, msgs);
      var gOut, cOut := Ask(gptP, gCall.request), Ask(claudeP, cCall.request);
      if Truthy(TextOf(gOut)) && Truthy(TextOf(cOut)) {
        SynthesizeArbiter(arbiter, message, history, gOut.value, cOut.value, [gCall, cCall], claudeP, parse);
      }
    }
  }

  /**
   * The arbiter, end to end: a review is reported only when one was asked
   * for and the synthesis succeeded; then the last request is the arbiter's,
   * built from the query, the two reported advisor texts and the consensus,
   * and the review is the provider's text.
   */
  lemma ArbiterGate(body: ChatBody, store: Store, gptP: Provider, claudeP: Provider,
                    parse: Parser, stringify: Printer, messageId: string)
    requires ValidBody(body)
    ensures var r := Post(body, store, gptP, claudeP, parse, stringify, messageId);
      r.status == 200 ==>
        var resp := r.body.response;
        && (resp.arbiterReview.Some? ==> body.arbiter && resp.mergeResult.Some?)
        && (body.arbiter && resp.mergeResult.Some? ==>
              && resp.gptResponse.Some? && resp.claudeResponse.Some?
              && ValidMergeResult(resp.mergeResult.value)
              && var req := ArbiterRequest(body.message.value, resp.gptResponse.value,
                                           resp.claudeResponse.value, ConsensusOf(resp.mergeResult.value));
              && |r.calls| > 0 && r.calls[|r.calls| - 1] == Call(Anthropic, req)
              && resp.arbiterReview == TextOf(Ask(claudeP, req)))
  {
    PostSuccess(body, store, gptP, claudeP, parse, stringify, messageId);
    DispatchArbiter(ModeOf(body), body.arbiter, body.message.value, ThreadHistory(store, body.threadId.value),
                    gptP, claudeP, parse);
  }

  /** Without a request for it or without a synthesis, no request carries the arbiter prompt. */
  lemma ArbiterAbsent(body: ChatBody, store: Store, gptP: Provider, claudeP: Provider,
                      parse: Parser, stringify: Printer, messageId: string)
    requires ValidBody(body)
    ensures var r := Post(body, store, gptP, claudeP, parse, stringify, messageId);
      r.status == 200 && !(body.arbiter && r.body.response.mergeResult.Some?) ==>
        && r.body.response.arbiterReview.None?
        && forall k :: 0 <= k < |r.calls| ==> r.calls[k].request.system != ArbiterPrompt
  {
    PostSuccess(body, store, gptP, claudeP, parse, stringify, messageId);
    DispatchArbiter(ModeOf(body), body.arbiter, body.message.value, ThreadHistory(store, body.threadId.value),
                    gptP, claudeP, parse);
  }
}
