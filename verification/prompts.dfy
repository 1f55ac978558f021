/**
 * The prompt builders (lib/merge/prompts.ts). The system prompts are opaque
 * constants: the advisors share one text, and the merge and arbiter prompts
 * differ from it and from each other. The two message templates are
 * modelled character for character.
 */
module Prompts {
  import opened Text

  /** Opaque stand-ins for the system prompts; both advisors get the same text. */
  const GptSystemPrompt: string := "<SHARED_ADVISOR_PROMPT>"
  const ClaudeSystemPrompt: string := GptSystemPrompt
  const MergePrompt: string := "<MERGE_PROMPT>"
  const ArbiterPrompt: string := "<ARBITER_PROMPT>"

  lemma SystemPromptsDistinct()
    ensures GptSystemPrompt == ClaudeSystemPrompt && GptSystemPrompt != MergePrompt
    ensures GptSystemPrompt != ArbiterPrompt && ClaudeSystemPrompt != MergePrompt
    ensures ClaudeSystemPrompt != ArbiterPrompt && MergePrompt != ArbiterPrompt
  {
    assert GptSystemPrompt[1] != MergePrompt[1];
    assert GptSystemPrompt[1] != ArbiterPrompt[1];
    assert ClaudeSystemPrompt[1] != MergePrompt[1];
    assert ClaudeSystemPrompt[1] != ArbiterPrompt[1];
    assert MergePrompt[1] != ArbiterPrompt[1];
  }

  const QueryHeader: string := "USER QUERY:\n"
  const GptHeader: string := "\n\nGPT-4o RESPONSE:\n"
  const ClaudeHeader: string := "\n\nCLAUDE RESPONSE:\n"
  const MergeRequestLine: string :=
    "\n\nPlease synthesize these responses into a unified consensus. Respond with ONLY valid JSON."

  const ArbiterQueryHeader: string := "ORIGINAL QUERY:\n"
  const ConsensusHeader: string := "\n\nMERGED CONSENSUS:\n"
  const ArbiterRequestLine: string := "\n\nPlease provide your brief arbiter review."

  /** Where the GPT text starts in a merge message for query `q`. */
  function MergeGptAt(q: string): nat {
    |QueryHeader| + |q| + |GptHeader|
  }

  /** Where the Claude text starts in a merge message for `q` and GPT text `g`. */
  function MergeClaudeAt(q: string, g: string): nat {
    MergeGptAt(q) + |g| + |ClaudeHeader|
  }

  /** `buildMergeMessages`: the query and both advisor texts under their headers, then the request line. */
  function BuildMergeMessages(q: string, g: string, c: string): string {
    QueryHeader + q + GptHeader + g + ClaudeHeader + c + MergeRequestLine
  }

  /**
   * The merge message holds the three inputs verbatim at positions fixed by
   * role, GPT's text before Claude's, and the fixed request line last.
   */
  lemma MergeMessageLayout(q: string, g: string, c: string)
    ensures var r := BuildMergeMessages(q, g, c);
      && |r| == MergeClaudeAt(q, g) + |c| + |MergeRequestLine|
      && IsAt(r, 0, QueryHeader) && IsAt(r, |QueryHeader|, q)
      && IsAt(r, MergeGptAt(q) - |GptHeader|, GptHeader) && IsAt(r, MergeGptAt(q), g)
      && IsAt(r, MergeClaudeAt(q, g) - |ClaudeHeader|, ClaudeHeader) && IsAt(r, MergeClaudeAt(q, g), c)
      && IsAt(r, |r| - |MergeRequestLine|, MergeRequestLine)
  {
    var r1 := QueryHeader + q;
    var r2 := r1 + GptHeader;
    var r3 := r2 + g;
    var r4 := r3 + ClaudeHeader;
    var r5 := r4 + c;
    assert IsAt(QueryHeader, 0, QueryHeader);
    IsAtKept(QueryHeader, q); IsAtEnd(QueryHeader, q);
    IsAtKept(r1, GptHeader); IsAtEnd(r1, GptHeader);
    IsAtKept(r2, g); IsAtEnd(r2, g);
    IsAtKept(r3, ClaudeHeader); IsAtEnd(r3, ClaudeHeader);
    IsAtKept(r4, c); IsAtEnd(r4, c);
    IsAtKept(r5, MergeRequestLine); IsAtEnd(r5, MergeRequestLine);
  }

  /** The GPT text precedes the Claude text, whatever the inputs. */
  lemma MergeGptBeforeClaude(q: string, g: string, c: string)
    ensures MergeGptAt(q) + |g| < MergeClaudeAt(q, g)
    ensures BuildMergeMessages(q, g, c)[MergeGptAt(q)..MergeGptAt(q) + |g|] == g
    ensures BuildMergeMessages(q, g, c)[MergeClaudeAt(q, g)..MergeClaudeAt(q, g) + |c|] == c
  {
    MergeMessageLayout(q, g, c);
  }

  const RetryPreamble: string :=
    "Your previous response was not valid JSON or did not match the required schema. Return ONLY the JSON object with these exact fields:\n"
    + "- consensus (string)\n"
    + "- confidence (\"high\" | \"medium\" | \"low\")\n"
    + "- deltas (array)\n"
    + "- unverified_assumptions (array of strings)\n"
    + "- next_steps (array of strings)\n"
    + "- decision_filter_notes (string)\n"
    + "\n"
    + "No markdown, no explanation, no preamble. Just the JSON object.\n"
    + "\n"
    + "Original request:\n"

  /** The retry message: the schema reminder, then the original merge message. */
  function RetryMessage(mergeMessage: string): string {
    RetryPreamble + mergeMessage
  }

  /** The retry message starts with the reminder and carries the merge message intact after it. */
  lemma RetryMessageLayout(mergeMessage: string)
    ensures var r := RetryMessage(mergeMessage);
      && IsAt(r, 0, RetryPreamble)
      && IsAt(r, |RetryPreamble|, mergeMessage) && |r| == |RetryPreamble| + |mergeMessage|
  {
    assert IsAt(RetryPreamble, 0, RetryPreamble);
    IsAtKept(RetryPreamble, mergeMessage); IsAtEnd(RetryPreamble, mergeMessage);
  }

  function ArbiterGptAt(q: string): nat {
    |ArbiterQueryHeader| + |q| + |GptHeader|
  }

  function ArbiterClaudeAt(q: string, g: string): nat {
    ArbiterGptAt(q) + |g| + |ClaudeHeader|
  }

  function ArbiterConsensusAt(q: string, g: string, c: string): nat {
    ArbiterClaudeAt(q, g) + |c| + |ConsensusHeader|
  }

  /** `buildArbiterMessages`: query, both advisor texts and the consensus under their headers, then the request line. */
  function BuildArbiterMessages(q: string, g: string, c: string, consensus: string): string {
    ArbiterQueryHeader + q + GptHeader + g + ClaudeHeader + c + ConsensusHeader + consensus + ArbiterRequestLine
  }

  /**
   * The arbiter message holds the query, GPT's text, Claude's text and then
   * the consensus after both advisor texts, with the fixed request line last.
   */
  lemma ArbiterMessageLayout(q: string, g: string, c: string, consensus: string)
    ensures var r := BuildArbiterMessages(q, g, c, consensus);
      && |r| == ArbiterConsensusAt(q, g, c) + |consensus| + |ArbiterRequestLine|
      && IsAt(r, 0, ArbiterQueryHeader) && IsAt(r, |ArbiterQueryHeader|, q)
      && IsAt(r, ArbiterGptAt(q), g) && IsAt(r, ArbiterClaudeAt(q, g), c)
      && ArbiterGptAt(q) + |g| < ArbiterClaudeAt(q, g) && ArbiterClaudeAt(q, g) + |c| < ArbiterConsensusAt(q, g, c)
      && IsAt(r, ArbiterConsensusAt(q, g, c) - |ConsensusHeader|, ConsensusHeader)
      && IsAt(r, ArbiterConsensusAt(q, g, c), consensus)
      && IsAt(r, |r| - |ArbiterRequestLine|, ArbiterRequestLine)
  {
    var r1 := ArbiterQueryHeader + q;
    var r2 := r1 + GptHeader;
    var r3 := r2 + g;
    var r4 := r3 + ClaudeHeader;
    var r5 := r4 + c;
    var r6 := r5 + ConsensusHeader;
    var r7 := r6 + consensus;
    assert IsAt(ArbiterQueryHeader, 0, ArbiterQueryHeader);
    IsAtKept(ArbiterQueryHeader, q); IsAtEnd(ArbiterQueryHeader, q);
    IsAtKept(r1, GptHeader);
    IsAtKept(r2, g); IsAtEnd(r2, g);
    IsAtKept(r3, ClaudeHeader);
    IsAtKept(r4, c); IsAtEnd(r4, c);
    IsAtKept(r5, ConsensusHeader); IsAtEnd(r5, ConsensusHeader);
    IsAtKept(r6, consensus); IsAtEnd(r6, consensus);
    IsAtKept(r7, ArbiterRequestLine); IsAtEnd(r7, ArbiterRequestLine);
  }
}
