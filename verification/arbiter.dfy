/** `arbiterReview` (lib/merge/arbiterReview.ts): one provider call, passed through. */
module Arbiter {
  import opened Options
  import opened Types
  import opened Prompts

  datatype ArbiterOutput = ArbiterOutput(review: string, tokensUsed: nat)

  /** The one request the arbiter makes: the arbiter prompt and one user message. */
  function ArbiterRequest(q: string, g: string, c: string, consensus: string): Request {
    Request(ArbiterPrompt, [HistoryMessage(User, BuildArbiterMessages(q, g, c, consensus))])
  }

  /**
   * `arbiterReview`: `null` exactly when the provider fails; otherwise the
   * provider's text and token count, unchanged.
   */
  function ArbiterReview(q: string, g: string, c: string, consensus: string, provider: Provider)
    : (r: Option<ArbiterOutput>)
    ensures r.None? <==> Ask(provider, ArbiterRequest(q, g, c, consensus)).None?
    ensures r.Some? ==>
      var reply := Ask(provider, ArbiterRequest(q, g, c, consensus)).value;
      r.value.review == reply.response && r.value.tokensUsed == reply.tokensUsed
  {
    match Ask(provider, ArbiterRequest(q, g, c, consensus))
    case None => None
    case Some(reply) => Some(ArbiterOutput(reply.response, reply.tokensUsed))
  }
}
