# council-chat: the council pipeline in Dafny

This project models the decision logic of council-chat's chat endpoint, `POST /api/chat`. A user's question goes to two advisors, GPT and Claude, each given the thread's history. When both answer, a synthesis model merges the two texts into a JSON decision artifact. That output is extracted, validated and retried at most once. An arbiter may then review the consensus. Finally the endpoint bills the tokens, picks the content to store and appends two records to the thread.

The model is pure and functional. These pieces are parameters, not modelled:
- each provider, a function from a system prompt and messages to an optional `(text, tokens)`;
- `JSON.parse`, a partial function from strings to `Json`;
- `JSON.stringify`;
- the store's fresh message id.

The route's result records every provider request it made, in order. That is how properties such as "only the chosen provider is asked" and "no merge in degraded mode" are stated.

Modules, following the source:
- `Types` holds the records and string unions of lib/types.ts.
- `JsonValues` holds JSON values and the parser and printer types.
- `Text` holds trim, substring search, ASCII upper-casing, split and join.
- `Extract` and `ExtractLaws` cover `extractJSON`.
- `Validate` covers `validateMergeResult`, as a predicate and as a decoder with an encoder that inverts it.
- `Prompts` covers `buildMergeMessages`, `buildArbiterMessages` and the retry message.
- `Merge` covers `mergeCouncil`.
- `Arbiter` covers `arbiterReview`.
- `Costs` covers `calculateCost`, `formatCost` and `calculateAndFormat`, including a concrete `toFixed`.
- `Threads` covers `getThreadHistory` and `addMessage` over a map from thread id to records.
- `Chat` covers the route.
- `ChatLaws` holds the properties of the route.
- `Verdicts`, `ConfidenceDisplay` and `ContextMarkdown` cover the three pure helpers in the display components.

Behaviours of the code a reader may not expect:
- The validator checks six top-level fields and five fields of each delta (lib/merge/mergeCouncil.ts:45-81). It never reads `consensus_strength` or the other declared fields, so an artifact whose strength is any value at all, or absent, is accepted (`Validate.ConsensusStrengthUnchecked`).
- When the synthesis fails after both advisors answered, the tokens of its attempts are dropped: only a successful merge adds to the Claude total (app/api/chat/route.ts:83-86, `ChatLaws.TokenAccounting`). The mode stays `council` and GPT's text is stored.
- The arbiter is given the query, the two advisor texts and the consensus string only, not the rest of the artifact (app/api/chat/route.ts:88-93).
- The merge message ignores the thread history: `buildMergeMessages` takes three parameters, and the fourth argument `mergeCouncil` passes to it is dropped (lib/merge/mergeCouncil.ts:104-109, `Merge.MergeIgnoresHistory`).
- A message row's `threadId` is the key of its thread, so `addMessage` on an unknown thread id throws. The route then answers 500 through its catch-all after the provider calls, and nothing is written (app/api/chat/route.ts:144-185, `ChatLaws.PersistOutcome`, `ChatLaws.StoredTurn`).
- In `gpt-only` mode, the route itself does not rule out an answer with empty text. Such an answer would leave no content to store, because the fallback chain ends on the absent Claude text; the second write would fail and the request would end in 500 after the user record was written (`ChatLaws.SingleOutcome`). `callGPT` never gives such an answer: it answers null when the content is falsy (lib/providers/openai.ts:33-37). Under that guarantee a gpt-only request on an existing thread never ends in 500 (`ChatLaws.GptOnlyNoInternalError`).

## Model

| member | source | states |
|---|---|---|
| `Types.ParseConfidence` | lib/merge/mergeCouncil.ts:54 | a confidence string is accepted exactly when it is high, medium or low, and then names the level it parses to |
| `Types.ConfidenceRoundTrip` | lib/types.ts:2 | there are exactly three levels, and each wire name parses back to its level |
| `Types.ParseRecommendation` | lib/merge/mergeCouncil.ts:68 | `recommended` is accepted exactly when it is gpt, claude or neither, and then names what it parses to |
| `Types.RecommendationRoundTrip` | lib/types.ts:11 | each recommendation's wire name parses back to it |
| `Types.ParseRequestMode` | app/api/chat/route.ts:24-29 | a mode is accepted exactly when it is council, gpt-only or claude-only, and then names the mode it parses to |
| `Types.AsResponseMode` | lib/types.ts:48-60 | a request mode is reported under the same name, and never as degraded |
| `Types.ResponseModeNamesDistinct` | lib/types.ts:60 | the four response modes have distinct names, and degraded is not a request mode |
| `Text.Trim` | lib/merge/mergeCouncil.ts:9 | the text splits into whitespace, the result and whitespace, and the result has no whitespace at either end |
| `Text.TrimUnique` | lib/merge/mergeCouncil.ts:9 | any such split of the text determines the trimmed result |
| `Text.TrimIdempotent` | lib/merge/mergeCouncil.ts:30 | trimming an already trimmed text changes nothing |
| `Extract.BalancedEnd` | lib/merge/mergeCouncil.ts:14-23 | the depth scan stops at the shortest non-empty prefix whose `{` and `}` counts balance, or yields 0 when no prefix balances |
| `Extract.FenceSpan` | lib/merge/mergeCouncil.ts:28 | the fenced block runs from the first fence to the first later fence that does not overlap it; there is none exactly when no two such fences exist |
| `Extract.InteriorStart` | lib/merge/mergeCouncil.ts:28 | the block's interior starts after the fence, and also after a `json` tag exactly when one follows the fence |
| `Extract.FencedBlock` | lib/merge/mergeCouncil.ts:28-31 | a fenced block is found exactly when the fences are located |
| `Extract.BraceSpan` | lib/merge/mergeCouncil.ts:34-37 | the span exists exactly when some `{` precedes some `}`; it runs from the first `{` to the last `}` of the untrimmed text |
| `Extract.ExtractJson` | lib/merge/mergeCouncil.ts:8-25 | when the trimmed text starts with `{`, the result is its shortest balanced prefix, or empty when none balances |
| `ExtractLaws.ObjectBranch` | lib/merge/mergeCouncil.ts:12-24 | on the object branch, the result is the unique shortest balanced prefix of the trimmed text |
| `ExtractLaws.TrimAroundCore` | lib/merge/mergeCouncil.ts:9 | leading whitespace, then a core with no whitespace at either end, then more text, trims to the core followed by that text without its trailing whitespace |
| `ExtractLaws.TrailingCommentary` | lib/merge/mergeCouncil.ts:12-24 | an object followed by commentary yields the object alone, provided it balances only at its last character |
| `ExtractLaws.FencedBranch` | lib/merge/mergeCouncil.ts:27-31 | without a leading `{`, the result is the trimmed interior of the first fenced block |
| `ExtractLaws.JsonFenceSpan` | lib/merge/mergeCouncil.ts:28 | in prose + a json-tagged fence + body + fence, the fences are the two around the body and the tag is recognised |
| `ExtractLaws.FencedJsonUnwrapped` | lib/merge/mergeCouncil.ts:27-31 | a json-fenced block after prose yields its body, trimmed |
| `ExtractLaws.ObjectInProse` | lib/merge/mergeCouncil.ts:33-37 | with no fenced pair, no leading `{`, and some `{` before a `}`, the result runs from the first `{` to the last `}` |
| `ExtractLaws.PlainTextTrimmed` | lib/merge/mergeCouncil.ts:27-39 | with no fenced pair, no leading `{`, and no `{` before a `}`, the text comes back trimmed |
| `ExtractLaws.QuotedBraceDepths` | lib/merge/mergeCouncil.ts:16-22 | in `{"a": "}"}` the brace count first balances after eight characters |
| `ExtractLaws.BraceInStringTruncates` | lib/merge/mergeCouncil.ts:12-24 | because the scan counts braces inside strings, `{"a": "}"}` is cut to `{"a": "}` |
| `Validate.DecodeDelta` | lib/merge/mergeCouncil.ts:62-70 | a delta is decoded exactly when it has string topic, positions and reasoning and a known recommendation, and the decoded fields are those values |
| `Validate.DecodeDeltas` | lib/merge/mergeCouncil.ts:62-70 | the deltas decode exactly when every one is valid, each to its own decoding, in order |
| `Validate.DecodeStrings` | lib/merge/mergeCouncil.ts:73-78 | a list decodes exactly when every item is a string, to those strings in order |
| `Validate.Decode` | lib/merge/mergeCouncil.ts:45-81 | the artifact decodes exactly when the validator accepts it, carrying its consensus, notes, confidence and lists |
| `Validate.DecodeEncodeDelta` | lib/merge/mergeCouncil.ts:62-70 | an encoded delta decodes back to itself |
| `Validate.DecodeEncode` | lib/merge/mergeCouncil.ts:45-81 | every encoded checked artifact is accepted and decodes back to itself |
| `Validate.TypedDeltaAccepted` | lib/types.ts:5-14 | every value of the declared delta type passes the delta check, with or without its calibration warning |
| `Validate.TypedResultAccepted` | lib/types.ts:24-36 | every value of the declared artifact type is accepted whatever its strength and optional update, and its consensus is read back unchanged |
| `Validate.OnlyCheckedFieldsMatter` | lib/merge/mergeCouncil.ts:45-81 | two objects that agree on the six checked keys get the same verdict |
| `Validate.ConsensusStrengthUnchecked` | lib/merge/mergeCouncil.ts:45-81 | setting `consensus_strength` to any value never changes the verdict |
| `Validate.BadDeltaRejects` | lib/merge/mergeCouncil.ts:62-70 | one invalid delta rejects the whole artifact |
| `Validate.NonStringItemRejects` | lib/merge/mergeCouncil.ts:72-78 | one non-string assumption or next step rejects the whole artifact |
| `Validate.EmptyArraysAccepted` | lib/merge/mergeCouncil.ts:56-59 | an artifact whose three lists are empty is accepted |
| `Prompts.SystemPromptsDistinct` | lib/merge/prompts.ts:4-73 | GPT and Claude receive the same advisor system prompt; the merge and arbiter prompts differ from it and from each other |
| `Prompts.MergeMessageLayout` | lib/merge/prompts.ts:75-89 | the merge message holds its header, the query, GPT's text and Claude's text verbatim at positions fixed by role, with the request line last |
| `Prompts.MergeGptBeforeClaude` | lib/merge/prompts.ts:83-87 | GPT's text comes before Claude's, whatever the inputs |
| `Prompts.RetryMessageLayout` | lib/merge/mergeCouncil.ts:137-148 | the retry message is the schema reminder followed by the original merge message, intact |
| `Prompts.ArbiterMessageLayout` | lib/merge/prompts.ts:92-110 | the arbiter message holds the query, GPT's text and Claude's text, then the consensus after both, with the request line last |
| `Arbiter.ArbiterReview` | lib/merge/arbiterReview.ts:9-35 | the review is absent exactly when its one request fails; otherwise it is the provider's text and token count, unchanged |
| `Merge.MergeCouncil` | lib/merge/mergeCouncil.ts:93-182 | one or two requests: the merge message first and only ever the retry message second; a result is valid and carries the tokens of the calls made |
| `Merge.MergeCouncilOutcome` | lib/merge/mergeCouncil.ts:111-181 | the retry happens exactly when the first reply arrived unaccepted; a result exists exactly when the last reply arrived and is accepted, and is its parsed JSON |
| `Merge.MergeCallsPrompt` | lib/merge/mergeCouncil.ts:112-152 | every synthesis request carries the merge system prompt |
| `Merge.MergeIgnoresHistory` | lib/merge/mergeCouncil.ts:99-109 | the thread history never changes the merge's requests or result |
| `Merge.FirstCallFailureNoRetry` | lib/merge/mergeCouncil.ts:116-119 | a failed first call ends the merge with no retry and no result |
| `Merge.TokensOfTwo` | lib/merge/mergeCouncil.ts:121-159 | the tokens of two answered calls are the sum of their counts |
| `Costs.CalculateCost` | lib/utils/costs.ts:16-23 | non-negative token counts cost a non-negative amount |
| `Costs.CostRates` | lib/utils/costs.ts:2-14 | no tokens cost nothing, and a million tokens cost 6.25 for GPT and 9 for Claude |
| `Costs.CostAdditive` | lib/utils/costs.ts:20-22 | the cost is additive in both token counts |
| `Costs.CostMonotone` | lib/utils/costs.ts:20-22 | the cost never decreases when either count grows |
| `Costs.DigitsValueConcat` | lib/utils/costs.ts:27-29 | the digits of two strings read together are the first's value shifted past the second's |
| `Costs.FixedPointShape` | lib/utils/costs.ts:27-29 | a fixed-point string has digits, a point and exactly `d` decimals, and its digits read the scaled value |
| `Costs.ToFixedShape` | lib/utils/costs.ts:27-29 | `toFixed(d)` puts a minus sign exactly on negatives, then `d` decimals reading the magnitude rounded half up |
| `Costs.FormatCost` | lib/utils/costs.ts:25-30 | the cost string always starts with `$` |
| `Costs.FormatCostShape` | lib/utils/costs.ts:25-30 | after the `$`, a non-negative cost is shown to its chosen decimals, rounded half up |
| `Costs.FormatCostDecimals` | lib/utils/costs.ts:26-29 | a non-negative cost shows four decimals exactly when it is below one cent, and two exactly when it is not |
| `Costs.CalculateAndFormat` | lib/utils/costs.ts:32-38 | for non-negative counts, `$` and then the counts' cost at the blended rates, to four decimals below one cent and two from one cent up, rounded half up |
| `Costs.FormatCostExamples` | lib/utils/costs.ts:25-30 | half a cent shows as `$0.0050`, and 1.2345 as `$1.23` |
| `Threads.ProjectAppend` | lib/storage/threadsRepo.ts:66-74 | the history of two runs of records is their histories concatenated, so stored order is kept |
| `Threads.ProjectOne` | lib/storage/threadsRepo.ts:67-72 | a user or assistant record yields exactly one entry with its role and content; any other role yields none |
| `Threads.ProjectIgnoresRawFields` | lib/storage/threadsRepo.ts:69-72 | records that agree on role and content give the same history, whatever their raw texts, artifact, mode or cost |
| `Threads.ProjectContents` | lib/storage/threadsRepo.ts:64-75 | every history entry carries the role and stored content of some record |
| `Threads.GetThreadHistory` | lib/storage/threadsRepo.ts:52-76 | the loop returns the projection of the thread's records, and an empty history for an unknown thread |
| `Threads.StoredRecord` | lib/storage/threadsRepo.ts:34-49 | the row keeps role, content, texts, mode, tokens and cost, and stores the artifact serialised exactly when one is given |
| `Threads.AddMessage` | lib/storage/threadsRepo.ts:34-49 | the write succeeds exactly when the thread exists; then the row is appended to it, no thread is created, and no other thread changes |
| `Threads.AddMessageHistory` | lib/storage/threadsRepo.ts:34-76 | adding a record extends its thread's history by exactly its role and content |
| `Chat.TextOf` | app/api/chat/route.ts:53-61 | an advisor's text is present exactly when its call succeeded |
| `Chat.Synthesize` | app/api/chat/route.ts:74-86 | once both advisors answered, the stage always proceeds, and any artifact it holds passed validation |
| `Chat.CouncilStage` | app/api/chat/route.ts:83-84 | any artifact a council stage holds passed validation (its outcomes are `ChatLaws.CouncilStageOutcome`) |
| `Chat.ContentForStorage` | app/api/chat/route.ts:130-142 | the stored content is the consensus if merged, else the truthy GPT text, else the truthy Claude text, else Claude's text, which may be absent |
| `Chat.Post` | app/api/chat/route.ts:166-178 | a 200 reply always carries the response envelope (the other outcomes are stated by the `ChatLaws` lemmas) |
| `ChatLaws.PostValidation` | app/api/chat/route.ts:16-29 | 400 exactly for a missing field or an unknown mode, with the matching message, before any provider call or write |
| `ChatLaws.PostStatus` | app/api/chat/route.ts:11-186 | the status is 200, 400, 500 or 503, and 200 exactly when the envelope is returned |
| `ChatLaws.UnavailableWritesNothing` | app/api/chat/route.ts:64-69 | a 503 reply carries an error and leaves the store unchanged |
| `ChatLaws.DispatchStops` | app/api/chat/route.ts:46-123 | the provider stage stops only with 503 |
| `ChatLaws.PostSuccess` | app/api/chat/route.ts:166-178 | a 200 reply returns the gathered results, token total and cost, and made exactly the stage's calls |
| `ChatLaws.PersistOutcome` | app/api/chat/route.ts:130-185 | persistence answers 200 exactly when the thread exists and there is content to store, else 500 with the internal error; an unknown thread leaves the store unchanged |
| `ChatLaws.CouncilStageOutcome` | app/api/chat/route.ts:46-102 | both advisors get the same turn; the stage stops exactly when neither has text, and is degraded, without synthesis, exactly when one has none |
| `ChatLaws.CouncilOutcome` | app/api/chat/route.ts:46-185 | in council mode, 503 exactly when neither advisor has text; otherwise 200 exactly when the thread exists and 500 when it does not; on 200, degraded exactly when one advisor has no text, and then nothing is merged and no arbiter runs |
| `ChatLaws.SpentAppend` | app/api/chat/route.ts:42-43 | tokens per backend add up over concatenated call lists |
| `ChatLaws.SpentMergeCalls` | app/api/chat/route.ts:85 | the merge's calls bill to Claude exactly the tokens the merge counts, and nothing to GPT |
| `ChatLaws.SynthesizeUnmerged` | app/api/chat/route.ts:74-101 | after a failed merge only the advisors' tokens are counted, no arbiter runs, and the later calls are merge calls |
| `ChatLaws.SynthesizeMerged` | app/api/chat/route.ts:83-86 | after a merge without the arbiter, each backend is billed the tokens its calls reported |
| `ChatLaws.SynthesizeArbitrated` | app/api/chat/route.ts:83-99 | after a merge and the arbiter, each backend is billed the tokens its calls reported |
| `ChatLaws.CouncilBilling` | app/api/chat/route.ts:46-102 | every council stage bills each backend its calls' tokens, except the dropped tokens of a failed merge |
| `ChatLaws.DispatchBilling` | app/api/chat/route.ts:46-123 | the billing rule holds in every mode |
| `ChatLaws.TokenAccounting` | app/api/chat/route.ts:126-128 | a 200 reply's tokens and cost are GPT's calls at GPT's rate plus every Claude call at Claude's, failed-merge attempts excluded |
| `ChatLaws.SingleStageOutcome` | app/api/chat/route.ts:103-123 | one call to the chosen backend; the stage stops exactly when it fails; content is missing only for an empty GPT reply, which `callGPT` never gives |
| `ChatLaws.SingleOutcome` | app/api/chat/route.ts:103-142 | a single-provider request makes one request, answers 503 exactly on failure and 500 exactly when it answered but the thread is unknown or the GPT-only text is empty (which needs a GPT provider that answers with empty text), and reports only that provider's text |
| `ChatLaws.GptOnlyNoInternalError` | lib/providers/openai.ts:33-37 | with a GPT provider that, like `callGPT`, never answers with empty text, a gpt-only request answers 503 exactly when GPT fails, and otherwise 200 on an existing thread and 500 only on an unknown one |
| `ChatLaws.SingleIgnoresOther` | app/api/chat/route.ts:103-123 | a single-provider request's reply does not depend on the other provider |
| `ChatLaws.PersistRecords` | app/api/chat/route.ts:144-164 | on an existing thread the user record is appended, then the assistant record when there is content, and the history grows by exactly those turns; on an unknown thread nothing is written |
| `ChatLaws.RecordsMatch` | app/api/chat/route.ts:144-176 | both stored records agree with the returned envelope: mode, texts, artifact, tokens, cost and content |
| `ChatLaws.PersistSuccess` | app/api/chat/route.ts:144-178 | with content to store, persistence returns the envelope exactly when the thread exists, and then leaves exactly the two records of the turn, matching it |
| `ChatLaws.PersistLeavesTurn` | app/api/chat/route.ts:144-185 | persistence leaves two records on 200, only the user record on 500 for an existing thread, and nothing for an unknown one (which never answers 200), touching no other thread |
| `ChatLaws.StoredTurn` | app/api/chat/route.ts:11-186 | every valid request leaves its thread as one of those outcomes, or unchanged on 503 |
| `ChatLaws.SynthesizeArbiter` | app/api/chat/route.ts:87-100 | the arbiter runs last, only when asked for and merged, on the consensus; otherwise no arbiter request is made |
| `ChatLaws.NoArbiterBefore` | app/api/chat/route.ts:46-86 | neither the advisor calls nor the merge calls carry the arbiter prompt |
| `ChatLaws.DispatchArbiter` | app/api/chat/route.ts:87-100 | in every mode, a review exists only when asked for and merged, and is then the answer to the last request |
| `ChatLaws.ArbiterGate` | app/api/chat/route.ts:87-100 | a review is reported only when asked for and merged; then the last request is the arbiter's on the reported texts and consensus, and a failed arbiter leaves the review null |
| `ChatLaws.ArbiterAbsent` | app/api/chat/route.ts:87-100 | without a request or without a merge, no request carries the arbiter prompt and no review is reported |
| `Verdicts.ExtractVerdict` | app/components/ArbiterCard.tsx:8-14 | the verdict is a mentioned token with no mentioned token before it in the order PROCEED, REVISE, ESCALATE, and none exactly when no token occurs |
| `Verdicts.VerdictIgnoresCase` | app/components/ArbiterCard.tsx:9 | upper-casing the review first changes nothing |
| `Verdicts.ProceedAnywhere` | app/components/ArbiterCard.tsx:10 | PROCEED, in any letter case and anywhere, decides the verdict |
| `Verdicts.ReviseBeforeEscalate` | app/components/ArbiterCard.tsx:11-12 | a review mentioning REVISE and ESCALATE but not PROCEED reads as REVISE |
| `ConfidenceDisplay.LevelLabelIsUpperName` | app/components/ConfidenceIndicator.tsx:12-31 | each level's label is its name in capitals, and distinct levels show distinct labels |
| `ConfidenceDisplay.LevelColourBands` | app/components/ConfidenceIndicator.tsx:12-75 | distinct levels show distinct colours, and a level's colour is the strength bar's colour exactly on the band the level names (green from 80, amber from 50, red below) |
| `ConfidenceDisplay.ClampStrength` | app/components/ConfidenceIndicator.tsx:69 | the clamped strength lies in [0, 100], in-range values are unchanged, and outside values go to the nearer bound |
| `ConfidenceDisplay.ClampIdempotent` | app/components/ConfidenceIndicator.tsx:69 | clamping twice is clamping once |
| `ConfidenceDisplay.ClampMonotone` | app/components/ConfidenceIndicator.tsx:69 | clamping keeps the order of two strengths |
| `ConfidenceDisplay.BarColourBands` | app/components/ConfidenceIndicator.tsx:71-75 | green exactly from 80 up, amber exactly from 50 below 80, red exactly below 50 |
| `ContextMarkdown.Bullets` | app/components/ContextUpdateCard.tsx:19 | each item becomes exactly one `- ` line, in order |
| `ContextMarkdown.EmptyBulletList` | app/components/ContextUpdateCard.tsx:19 | an empty list gives an empty section body |
| `ContextMarkdown.BulletListRoundTrip` | app/components/ContextUpdateCard.tsx:19-22 | splitting a section body at newlines and removing the dashes gives back the items, when no item spans lines |
| `ContextMarkdown.GenerateMarkdown` | app/components/ContextUpdateCard.tsx:14-23 | the block is the status heading and status, then the changes heading and list, then the planned heading and list, which ends it |
| `ContextMarkdown.SectionOrder` | app/components/ContextUpdateCard.tsx:15-22 | the three headings occur in the order Current Status, Recent Changes, Planned Next |

## Left out

- The provider SDK calls (lib/providers/openai.ts, lib/providers/anthropic.ts) and the network are not modelled. Each provider is a function parameter, and the request it receives is recorded.
- `Promise.all` concurrency is not modelled. Both advisors are asked, and neither sees the other's answer.
- Timeouts and cancellation are not modelled; the route implements neither.
- `JSON.parse` and `JSON.stringify` are function parameters. A parse that throws is `None`.
- Image attachments are not modelled. The route never reads them.
- A non-string truthy request field (a number, say) is not modelled. Request fields are optional strings.
- A request body that fails to parse is not modelled. In the source it ends in the catch-all 500.
- The history-context string built in `mergeCouncil` is not modelled, because `buildMergeMessages` drops it.
- Console logging is not modelled.
- The contents of the system prompts are opaque constants: one shared advisor prompt, and distinct merge and arbiter prompts. The behaviour they ask of the models is not code.
- `Text.ToUpper`: upper-cases ASCII letters only, because JavaScript's full Unicode case mapping (including mappings that change length) is not modelled.
- `Text.Trim` follows JavaScript's whitespace set code point by code point, but strings are sequences of code points, not UTF-16 units.
- `Costs.ToFixedShape`: arithmetic is exact (`real`). It rounds half up on the exact value, not IEEE doubles, and leaves out the exponential form `toFixed` uses from 1e21 up, because floating point is not modelled.
- `Costs.FormatCostDecimals`: stated for non-negative costs, because the route only formats costs of non-negative token counts.
- Prisma is not modelled. The store is a map from thread id to records; the row id comes in as a parameter. `createThread`, `getThread`, lib/storage/shareRepo.ts, lib/storage/configRepo.ts and the other routes are not part of this model.
- A `null` content makes the assistant write fail, on the basis that the `content` column is a required string. A write to an unknown thread id fails, on the basis that a message's `threadId` is the key of the thread relation that lib/storage/threadsRepo.ts:52-58 reads back through `include: { messages }`. The Prisma schema is not part of this model.
- `ConfidenceDisplay.ClampStrength`: takes a `real`. Because the validator never checks `consensus_strength`, the share page (app/share/[token]/page.tsx:99) can pass an absent or non-numeric value to the bar; in the source that becomes NaN and is drawn red with width "NaN%". IEEE NaN is not modelled.
- The React components are not modelled beyond `extractVerdict`, the confidence labels and colours, the strength bar's clamp and colour, and `generateMarkdown`. Colours are modelled as three named bands, not Tailwind class strings.
