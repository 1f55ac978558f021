/**
 * The chat endpoint (app/api/chat/route.ts, `POST`): input validation, the
 * council / single-provider / degraded branching, the optional arbiter, token
 * accounting per provider, the choice of stored content and the two appended
 * records. Providers, `JSON.parse`, `JSON.stringify` and the store's fresh
 * message id are parameters; every provider request made is recorded.
 */
module Chat {
  import opened Options
  import opened Types
  import opened JsonValues
  import opened Validate
  import opened Prompts
  import opened Merge
  import opened Arbiter
  import opened Costs
  import opened Threads

  /** The request body fields the route reads; `None` for missing or `null`. */
  datatype ChatBody = ChatBody(
    threadId: Option<string>,
    message: Option<string>,
    mode: Option<string>,
    arbiter: bool)

  /** The success envelope. */
  datatype ChatResponse = ChatResponse(
    threadId: string,
    messageId: string,
    gptResponse: Option<string>,
    claudeResponse: Option<string>,
    mergeResult: Option<Json>,
    arbiterReview: Option<string>,
    mode: ResponseMode,
    tokensUsed: int,
    estimatedCost: string)

  datatype Backend = OpenAI | Anthropic

  /** One provider request the route made. */
  datatype Call = Call(backend: Backend, request: Request)

  datatype ReplyBody = ErrorBody(error: string) | Envelope(response: ChatResponse)

  /** The HTTP status and body, the requests made, and the store afterwards. */
  datatype Reply = Reply(status: nat, body: ReplyBody, calls: seq<Call>, store: Store)

  const MissingFields: string := "Missing required fields: thread_id, message, mode"
  const InvalidMode: string := "Invalid mode. Must be council, gpt-only, or claude-only"
  const BothFailed: string := "Both providers failed"
  const GptFailed: string := "GPT provider failed"
  const ClaudeFailed: string := "Claude provider failed"
  const InternalError: string := "Internal server error"

  /** JavaScript truthiness of a nullable string: present and non-empty. */
  predicate Truthy(s: Option<string>) {
    s.Some? && |s.value| > 0
  }

  function TextOf(r: Option<ProviderResponse>): (t: Option<string>)
    ensures t.Some? <==> r.Some?
  {
    match r case Some(p) => Some(p.response) case None => None
  }

  function TokensFrom(r: Option<ProviderResponse>): nat {
    match r case Some(p) => p.tokensUsed case None => 0
  }

  /** What the provider stages produced, before anything is stored. */
  datatype Gathered = Gathered(
    mode: ResponseMode,
    gpt: Option<string>,
    claude: Option<string>,
    merge: Option<Json>,
    arbiter: Option<string>,
    gptTokens: nat,
    claudeTokens: nat,
    calls: seq<Call>)

  /** A provider stage either stops the request with an error status or gathers results. */
  datatype Stage = Stopped(status: nat, error: string, calls: seq<Call>) | Proceed(g: Gathered)

  predicate WellFormed(s: Stage) {
    s.Proceed? ==> (s.g.merge.Some? ==> ValidMergeResult(s.g.merge.value))
  }

  function AdvisorCall(backend: Backend, msgs: seq<HistoryMessage>): Call {
    Call(backend, Request(if backend == OpenAI then GptSystemPrompt else ClaudeSystemPrompt, msgs))
  }

  function AnthropicCalls(reqs: seq<Request>): (cs: seq<Call>)
    ensures |cs| == |reqs|
    ensures forall k :: 0 <= k < |reqs| ==> cs[k] == Call(Anthropic, reqs[k])
  {
    seq(|reqs|, k requires 0 <= k < |reqs| => Call(Anthropic, reqs[k]))
  }

  /** After both advisors answered with text: merge, then the arbiter if asked and merged. */
  function Synthesize(arbiter: bool, message: string, history: seq<HistoryMessage>,
                      g: ProviderResponse, c: ProviderResponse, advisorCalls: seq<Call>,
                      claudeP: Provider, parse: Parser): (s: Stage)
    ensures s.Proceed? && WellFormed(s)
  {
    var run := MergeCouncil(message, g.response, c.response, history, claudeP, parse);
    var calls := advisorCalls + AnthropicCalls(run.calls);
    match run.output
    case None =>
      Proceed(Gathered(Council, Some(g.response), Some(c.response), None, None,
                       g.tokensUsed, c.tokensUsed, calls))
    case Some(out) =>
      if !arbiter then
        Proceed(Gathered(Council, Some(g.response), Some(c.response), Some(out.result), None,
                         g.tokensUsed, c.tokensUsed + out.tokensUsed, calls))
      else
        var review := ArbiterReview(message, g.response, c.response, ConsensusOf(out.result), claudeP);
        var arbCall := Call(Anthropic, ArbiterRequest(message, g.response, c.response, ConsensusOf(out.result)));
        Proceed(Gathered(Council, Some(g.response), Some(c.response), Some(out.result),
                         match review case Some(a) => Some(a.review) case None => None,
                         g.tokensUsed,
                         c.tokensUsed + out.tokensUsed + (match review case Some(a) => a.tokensUsed case None => 0),
                         calls + [arbCall]))
  }

  /** Council mode: both advisors on the same history, then the degraded-mode rule. */
  function CouncilStage(arbiter: bool, message: string, history: seq<HistoryMessage>,
                        gptP: Provider, claudeP: Provider, parse: Parser): (s: Stage)
    ensures WellFormed(s)
  {
    var msgs := history + [HistoryMessage(User, message)];
    var gCall := AdvisorCall(OpenAI, msgs);
    var cCall := AdvisorCall(Anthropic, msgs);
    var gOut := Ask(gptP, gCall.request);
    var cOut := Ask(claudeP, cCall.request);
    var gText, cText := TextOf(gOut), TextOf(cOut);
    if !Truthy(gText) && !Truthy(cText) then
      Stopped(503, BothFailed, [gCall, cCall])
    else if !Truthy(gText) || !Truthy(cText) then
      Proceed(Gathered(Degraded, gText, cText, None, None, TokensFrom(gOut), TokensFrom(cOut), [gCall, cCall]))
    else
      Synthesize(arbiter, message, history, gOut.value, cOut.value, [gCall, cCall], claudeP, parse)
  }

  /** A single-provider mode: only the requested provider is asked. */
  function SingleStage(backend: Backend, message: string, history: seq<HistoryMessage>, p: Provider): (s: Stage)
    ensures WellFormed(s)
  {
    var call := AdvisorCall(backend, history + [HistoryMessage(User, message)]);
    match Ask(p, call.request)
    case None => Stopped(503, if backend == OpenAI then GptFailed else ClaudeFailed, [call])
    case Some(r) =>
      if backend == OpenAI then
        Proceed(Gathered(GptOnlyReply, Some(r.response), None, None, None, r.tokensUsed, 0, [call]))
      else
        Proceed(Gathered(ClaudeOnlyReply, None, Some(r.response), None, None, 0, r.tokensUsed, [call]))
  }

  function Dispatch(mode: RequestMode, arbiter: bool, message: string, history: seq<HistoryMessage>,
                    gptP: Provider, claudeP: Provider, parse: Parser): (s: Stage)
    ensures WellFormed(s)
  {
    match mode
    case CouncilMode => CouncilStage(arbiter, message, history, gptP, claudeP, parse)
    case GptOnly => SingleStage(OpenAI, message, history, gptP)
    case ClaudeOnly => SingleStage(Anthropic, message, history, claudeP)
  }

  /**
   * The content stored for the assistant turn: the consensus when there is
   * an artifact, else the one truthy advisor text, else GPT's text when
   * truthy, else Claude's text, which may be `null`.
   */
  function ContentForStorage(merge: Option<Json>, gpt: Option<string>, claude: Option<string>): (r: Option<string>)
    requires merge.Some? ==> ValidMergeResult(merge.value)
    ensures merge.Some? ==> r == Some(ConsensusOf(merge.value))
    ensures merge.None? && Truthy(gpt) ==> r == gpt
    ensures merge.None? && !Truthy(gpt) && Truthy(claude) ==> r == claude
    ensures merge.None? && !Truthy(gpt) && !Truthy(claude) ==> r == claude
  {
    if merge.Some? then Some(ConsensusOf(merge.value))
    else if Truthy(gpt) && !Truthy(claude) then gpt
    else if Truthy(claude) && !Truthy(gpt) then claude
    else if Truthy(gpt) then gpt
    else claude
  }

  function UserRecord(message: string, mode: ResponseMode): AddMessageData {
    AddMessageData(User, message, None, None, None, None, ResponseModeName(mode), 0, 0.0)
  }

  function AssistantRecord(content: string, g: Gathered): AddMessageData {
    AddMessageData(Assistant, content, g.gpt, g.claude, g.merge, g.arbiter, ResponseModeName(g.mode),
                   g.gptTokens + g.claudeTokens, CalculateCost(g.gptTokens, g.claudeTokens))
  }

  /** The reported cost: both providers' tokens at their rates, formatted. */
  function CostText(g: Gathered): string {
    FormatCost(CalculateCost(g.gptTokens, g.claudeTokens))
  }

  /** The success envelope: the gathered results, the token total and the cost text. */
  function Respond(threadId: string, messageId: string, g: Gathered, costText: string): ChatResponse {
    ChatResponse(threadId, messageId, g.gpt, g.claude, g.merge, g.arbiter, g.mode,
                 g.gptTokens + g.claudeTokens, costText)
  }

  /**
   * Cost, content and the two writes. Either write throws, and the route's
   * catch-all turns that into a 500: the first when the thread does not
   * exist (nothing is written), the second when the content is `null` (the
   * column is a required string; the user record stays written).
   */
  function Persist(threadId: string, message: string, g: Gathered, store: Store,
                   stringify: Printer, messageId: string, costText: string): Reply
    requires g.merge.Some? ==> ValidMergeResult(g.merge.value)
  {
    match AddMessage(store, threadId, UserRecord(message, g.mode), stringify)
    case None => Reply(500, ErrorBody(InternalError), g.calls, store)
    case Some(afterUser) =>
      match ContentForStorage(g.merge, g.gpt, g.claude)
      case None => Reply(500, ErrorBody(InternalError), g.calls, afterUser)
      case Some(content) =>
        match AddMessage(afterUser, threadId, AssistantRecord(content, g), stringify)
        case None => Reply(500, ErrorBody(InternalError), g.calls, afterUser)
        case Some(afterBoth) =>
          Reply(200, Envelope(Respond(threadId, messageId, g, costText)), g.calls, afterBoth)
  }

  /** The body passes the route's two validation checks. */
  predicate ValidBody(body: ChatBody) {
    Truthy(body.threadId) && Truthy(body.message) && Truthy(body.mode)
    && ParseRequestMode(body.mode.value).Some?
  }

  /** `POST /api/chat`. */
  function Post(body: ChatBody, store: Store, gptP: Provider, claudeP: Provider,
                parse: Parser, stringify: Printer, messageId: string): (r: Reply)
    ensures r.status == 200 ==> r.body.Envelope?
  {
    if !(Truthy(body.threadId) && Truthy(body.message) && Truthy(body.mode)) then
      Reply(400, ErrorBody(MissingFields), [], store)
    else if ParseRequestMode(body.mode.value).None? then
      Reply(400, ErrorBody(InvalidMode), [], store)
    else
      var threadId, message := body.threadId.value, body.message.value;
      var history := ThreadHistory(store, threadId);
      match Dispatch(ParseRequestMode(body.mode.value).value, body.arbiter, message, history,
                     gptP, claudeP, parse)
      case Stopped(status, error, calls) => Reply(status, ErrorBody(error), calls, store)
      case Proceed(g) =>
        Persist(threadId, message, g, store, stringify, messageId, CostText(g))
  }
}
