/**
 * The records exchanged by the council pipeline: the decision artifact and
 * its parts, the chat request and response, provider replies and history
 * entries. Each string-valued union of the source is a datatype with its
 * wire name and the parser that inverts it.
 */
module Types {
  import opened Options

  datatype ConfidenceLevel = High | Medium | Low

  function ConfidenceName(c: ConfidenceLevel): string {
    match c
    case High => "high"
    case Medium => "medium"
    case Low => "low"
  }

  /** Membership in `['high', 'medium', 'low']`, as the validator tests it. */
  function ParseConfidence(s: string): (r: Option<ConfidenceLevel>)
    ensures r.Some? <==> s in {"high", "medium", "low"}
    ensures r.Some? ==> ConfidenceName(r.value) == s
  {
    if s == "high" then Some(High)
    else if s == "medium" then Some(Medium)
    else if s == "low" then Some(Low)
    else None
  }

  /** The three wire names are recognised and denote exactly their level. */
  lemma ConfidenceRoundTrip(c: ConfidenceLevel)
    ensures ParseConfidence(ConfidenceName(c)) == Some(c)
    ensures c == High || c == Medium || c == Low
  {
  }

  /** Which advisor a delta sides with. */
  datatype Recommendation = Gpt | Claude | Neither

  function RecommendationName(r: Recommendation): string {
    match r
    case Gpt => "gpt"
    case Claude => "claude"
    case Neither => "neither"
  }

  function ParseRecommendation(s: string): (r: Option<Recommendation>)
    ensures r.Some? <==> s in {"gpt", "claude", "neither"}
    ensures r.Some? ==> RecommendationName(r.value) == s
  {
    if s == "gpt" then Some(Gpt)
    else if s == "claude" then Some(Claude)
    else if s == "neither" then Some(Neither)
    else None
  }

  lemma RecommendationRoundTrip(r: Recommendation)
    ensures ParseRecommendation(RecommendationName(r)) == Some(r)
  {
  }

  /** One point of disagreement; only the calibration warning is optional. */
  datatype Delta = Delta(
    topic: string,
    gptPosition: string,
    gptConfidence: ConfidenceLevel,
    claudePosition: string,
    claudeConfidence: ConfidenceLevel,
    recommended: Recommendation,
    reasoning: string,
    calibrationWarning: Option<string>)

  /** The project-context note attached to platform questions. */
  datatype ClaudeMdUpdate = ClaudeMdUpdate(
    currentStatus: string,
    recentChanges: seq<string>,
    plannedNext: seq<string>)

  /** The declared shape of the decision artifact; only the context update is optional. */
  datatype MergeResult = MergeResult(
    consensus: string,
    confidence: ConfidenceLevel,
    consensusStrength: real,
    gptOverallConfidence: ConfidenceLevel,
    claudeOverallConfidence: ConfidenceLevel,
    confidenceReasoning: string,
    deltas: seq<Delta>,
    unverifiedAssumptions: seq<string>,
    nextSteps: seq<string>,
    decisionFilterNotes: string,
    claudeMdUpdate: Option<ClaudeMdUpdate>)

  /** The modes a request may ask for. */
  datatype RequestMode = CouncilMode | GptOnly | ClaudeOnly

  /** The modes a response may report: the request modes plus `degraded`. */
  datatype ResponseMode = Council | GptOnlyReply | ClaudeOnlyReply | Degraded

  function RequestModeName(m: RequestMode): string {
    match m
    case CouncilMode => "council"
    case GptOnly => "gpt-only"
    case ClaudeOnly => "claude-only"
  }

  function ResponseModeName(m: ResponseMode): string {
    match m
    case Council => "council"
    case GptOnlyReply => "gpt-only"
    case ClaudeOnlyReply => "claude-only"
    case Degraded => "degraded"
  }

  /** The route's mode check: exactly the three request modes are accepted. */
  function ParseRequestMode(s: string): (r: Option<RequestMode>)
    ensures r.Some? <==> s in {"council", "gpt-only", "claude-only"}
    ensures r.Some? ==> RequestModeName(r.value) == s
  {
    if s == "council" then Some(CouncilMode)
    else if s == "gpt-only" then Some(GptOnly)
    else if s == "claude-only" then Some(ClaudeOnly)
    else None
  }

  /** A request mode reported back unchanged. */
  function AsResponseMode(m: RequestMode): (r: ResponseMode)
    ensures ResponseModeName(r) == RequestModeName(m)
    ensures r != Degraded
  {
    match m
    case CouncilMode => Council
    case GptOnly => GptOnlyReply
    case ClaudeOnly => ClaudeOnlyReply
  }

  /** Every response mode name is distinct, and `degraded` is no request mode. */
  lemma ResponseModeNamesDistinct(a: ResponseMode, b: ResponseMode)
    ensures ResponseModeName(a) == ResponseModeName(b) ==> a == b
    ensures ParseRequestMode(ResponseModeName(Degraded)).None?
  {
  }

  datatype Role = User | Assistant

  function RoleName(r: Role): string {
    match r
    case User => "user"
    case Assistant => "assistant"
  }

  /** One entry of the history sent to the advisors. */
  datatype HistoryMessage = HistoryMessage(role: Role, content: string)

  /** What a provider returns on success. */
  datatype ProviderResponse = ProviderResponse(response: string, tokensUsed: nat)

  /** One provider request: a system prompt and a message list. */
  datatype Request = Request(system: string, messages: seq<HistoryMessage>)

  /**
   * A provider: answers a request with text and a token count, or fails
   * (`null`). The network call itself is not modelled.
   */
  type Provider = (string, seq<HistoryMessage>) -> Option<ProviderResponse>

  /** The provider's answer to a recorded request. */
  function Ask(p: Provider, r: Request): Option<ProviderResponse> {
    p(r.system, r.messages)
  }

  /**
   * Every answer the provider gives has non-empty text, as `callGPT`
   * guarantees by answering null when the completion's content is falsy.
   */
  ghost predicate NonEmptyAnswers(p: Provider) {
    forall r: Request :: Ask(p, r).Some? ==> Ask(p, r).value.response != ""
  }
}
