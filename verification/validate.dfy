/**
 * `validateMergeResult` (lib/merge/mergeCouncil.ts): the schema check the
 * synthesis output must pass. It inspects six top-level fields and five
 * fields of each delta, rejects the whole object on any bad field, and
 * looks at nothing else (`consensus_strength` included).
 */
module Validate {
  import opened Options
  import opened Types
  import opened JsonValues

  /** `['high', 'medium', 'low'].includes(j[key])`. */
  predicate HasConfidence(j: Json, key: string) {
    HasString(j, key) && ParseConfidence(StringAt(j, key)).Some?
  }

  /** `['gpt', 'claude', 'neither'].includes(j[key])`. */
  predicate HasRecommendation(j: Json, key: string) {
    HasString(j, key) && ParseRecommendation(StringAt(j, key)).Some?
  }

  /**
   * The per-delta check. A JSON array passes the source's `typeof` test but
   * has no `topic`, so requiring an object here gives the same verdict.
   */
  predicate ValidDelta(d: Json) {
    && d.JObject?
    && HasString(d, "topic")
    && HasString(d, "gpt_position")
    && HasString(d, "claude_position")
    && HasRecommendation(d, "recommended")
    && HasString(d, "reasoning")
  }

  predicate AllStrings(items: seq<Json>) {
    forall k :: 0 <= k < |items| ==> items[k].JString?
  }

  /** `validateMergeResult`. */
  predicate ValidMergeResult(j: Json) {
    && j.JObject?
    && HasString(j, "consensus")
    && HasString(j, "decision_filter_notes")
    && HasConfidence(j, "confidence")
    && HasArray(j, "deltas")
    && HasArray(j, "unverified_assumptions")
    && HasArray(j, "next_steps")
    && (forall k :: 0 <= k < |ArrayAt(j, "deltas")| ==> ValidDelta(ArrayAt(j, "deltas")[k]))
    && AllStrings(ArrayAt(j, "unverified_assumptions"))
    && AllStrings(ArrayAt(j, "next_steps"))
  }

  /** What an accepted delta is known to hold. */
  datatype CheckedDelta = CheckedDelta(
    topic: string,
    gptPosition: string,
    claudePosition: string,
    recommended: Recommendation,
    reasoning: string)

  /** What an accepted artifact is known to hold: the checked fields, typed. */
  datatype CheckedMerge = CheckedMerge(
    consensus: string,
    confidence: ConfidenceLevel,
    deltas: seq<CheckedDelta>,
    unverifiedAssumptions: seq<string>,
    nextSteps: seq<string>,
    decisionFilterNotes: string)

  /** A delta read through the checks: `Some` exactly when it is accepted. */
  function DecodeDelta(d: Json): (r: Option<CheckedDelta>)
    ensures r.Some? <==> ValidDelta(d)
    ensures r.Some? ==>
      && r.value.topic == StringAt(d, "topic")
      && r.value.gptPosition == StringAt(d, "gpt_position")
      && r.value.claudePosition == StringAt(d, "claude_position")
      && RecommendationName(r.value.recommended) == StringAt(d, "recommended")
      && r.value.reasoning == StringAt(d, "reasoning")
  {
    if ValidDelta(d) then
      Some(CheckedDelta(
        StringAt(d, "topic"),
        StringAt(d, "gpt_position"),
        StringAt(d, "claude_position"),
        ParseRecommendation(StringAt(d, "recommended")).value,
        StringAt(d, "reasoning")))
    else None
  }

  /** All deltas decoded, or `None` as soon as one is rejected. */
  function DecodeDeltas(items: seq<Json>): (r: Option<seq<CheckedDelta>>)
    ensures r.Some? <==> forall k :: 0 <= k < |items| ==> ValidDelta(items[k])
    ensures r.Some? ==> |r.value| == |items|
    ensures r.Some? ==> forall k :: 0 <= k < |items| ==> DecodeDelta(items[k]) == Some(r.value[k])
  {
    if |items| == 0 then Some([])
    else
      match DecodeDelta(items[0])
      case None => None
      case Some(d) =>
        match DecodeDeltas(items[1..])
        case None => None
        case Some(rest) => Some([d] + rest)
  }

  /** All items as strings, or `None` as soon as one is not a string. */
  function DecodeStrings(items: seq<Json>): (r: Option<seq<string>>)
    ensures r.Some? <==> AllStrings(items)
    ensures r.Some? ==> |r.value| == |items|
    ensures r.Some? ==> forall k :: 0 <= k < |items| ==> items[k] == JString(r.value[k])
  {
    if |items| == 0 then Some([])
    else if !items[0].JString? then None
    else
      match DecodeStrings(items[1..])
      case None => None
      case Some(rest) => Some([items[0].str] + rest)
  }

  /**
   * The validator as a discriminated result: `Some` exactly when
   * `validateMergeResult` accepts, carrying the checked fields.
   */
  function Decode(j: Json): (r: Option<CheckedMerge>)
    ensures r.Some? <==> ValidMergeResult(j)
    ensures r.Some? ==>
      && r.value.consensus == StringAt(j, "consensus")
      && r.value.decisionFilterNotes == StringAt(j, "decision_filter_notes")
      && ConfidenceName(r.value.confidence) == StringAt(j, "confidence")
      && DecodeDeltas(ArrayAt(j, "deltas")) == Some(r.value.deltas)
      && |r.value.unverifiedAssumptions| == |ArrayAt(j, "unverified_assumptions")|
      && (forall k :: 0 <= k < |r.value.unverifiedAssumptions| ==>
            ArrayAt(j, "unverified_assumptions")[k] == JString(r.value.unverifiedAssumptions[k]))
      && |r.value.nextSteps| == |ArrayAt(j, "next_steps")|
      && (forall k :: 0 <= k < |r.value.nextSteps| ==>
            ArrayAt(j, "next_steps")[k] == JString(r.value.nextSteps[k]))
  {
    if !(j.JObject? && HasString(j, "consensus") && HasString(j, "decision_filter_notes")
         && HasConfidence(j, "confidence") && HasArray(j, "deltas")
         && HasArray(j, "unverified_assumptions") && HasArray(j, "next_steps"))
    then None
    else
      match (DecodeDeltas(ArrayAt(j, "deltas")),
             DecodeStrings(ArrayAt(j, "unverified_assumptions")),
             DecodeStrings(ArrayAt(j, "next_steps")))
      case (Some(ds), Some(us), Some(ns)) =>
        Some(CheckedMerge(
          StringAt(j, "consensus"),
          ParseConfidence(StringAt(j, "confidence")).value,
          ds, us, ns,
          StringAt(j, "decision_filter_notes")))
      case _ => None
  }

  /** The consensus of an accepted artifact (what the route reads). */
  function ConsensusOf(j: Json): string
    requires ValidMergeResult(j)
  {
    StringAt(j, "consensus")
  }

  function EncodeDelta(d: CheckedDelta): Json {
    JObject(map[
      "topic" := JString(d.topic),
      "gpt_position" := JString(d.gptPosition),
      "claude_position" := JString(d.claudePosition),
      "recommended" := JString(RecommendationName(d.recommended)),
      "reasoning" := JString(d.reasoning)])
  }

  function EncodeStrings(xs: seq<string>): (r: seq<Json>)
    ensures |r| == |xs|
    ensures forall k :: 0 <= k < |xs| ==> r[k] == JString(xs[k])
  {
    seq(|xs|, k requires 0 <= k < |xs| => JString(xs[k]))
  }

  function EncodeDeltas(ds: seq<CheckedDelta>): (r: seq<Json>)
    ensures |r| == |ds|
    ensures forall k :: 0 <= k < |ds| ==> r[k] == EncodeDelta(ds[k])
  {
    seq(|ds|, k requires 0 <= k < |ds| => EncodeDelta(ds[k]))
  }

  /** The checked fields written back as a JSON object. */
  function Encode(m: CheckedMerge): Json {
    JObject(map[
      "consensus" := JString(m.consensus),
      "confidence" := JString(ConfidenceName(m.confidence)),
      "deltas" := JArray(EncodeDeltas(m.deltas)),
      "unverified_assumptions" := JArray(EncodeStrings(m.unverifiedAssumptions)),
      "next_steps" := JArray(EncodeStrings(m.nextSteps)),
      "decision_filter_notes" := JString(m.decisionFilterNotes)])
  }

  lemma DecodeEncodeDelta(d: CheckedDelta)
    ensures DecodeDelta(EncodeDelta(d)) == Some(d)
  {
    ConfidenceRoundTrip(High);
    RecommendationRoundTrip(d.recommended);
  }

  /** The string fields of an encoded artifact. */
  lemma EncodeTextFields(m: CheckedMerge)
    ensures var f := Encode(m).fields;
      && "consensus" in f && f["consensus"] == JString(m.consensus)
      && "decision_filter_notes" in f && f["decision_filter_notes"] == JString(m.decisionFilterNotes)
      && "confidence" in f && f["confidence"] == JString(ConfidenceName(m.confidence))
  {
  }

  /** The array fields of an encoded artifact. */
  lemma EncodeListFields(m: CheckedMerge)
    ensures var f := Encode(m).fields;
      && "deltas" in f && f["deltas"] == JArray(EncodeDeltas(m.deltas))
      && "unverified_assumptions" in f && f["unverified_assumptions"] == JArray(EncodeStrings(m.unverifiedAssumptions))
      && "next_steps" in f && f["next_steps"] == JArray(EncodeStrings(m.nextSteps))
  {
  }

  /** Encoding then validating gives back the same checked artifact. */
  lemma DecodeEncode(m: CheckedMerge)
    ensures ValidMergeResult(Encode(m))
    ensures Decode(Encode(m)) == Some(m)
  {
    var j := Encode(m);
    EncodeTextFields(m);
    EncodeListFields(m);
    var items := ArrayAt(j, "deltas");
    forall k | 0 <= k < |items| ensures DecodeDelta(items[k]) == Some(m.deltas[k]) {
      DecodeEncodeDelta(m.deltas[k]);
    }
    ConfidenceRoundTrip(m.confidence);
    var ds := DecodeDeltas(items);
    assert ds.Some?;
    assert ds.value == m.deltas;
    var us := DecodeStrings(ArrayAt(j, "unverified_assumptions"));
    assert us.Some? && us.value == m.unverifiedAssumptions;
    var ns := DecodeStrings(ArrayAt(j, "next_steps"));
    assert ns.Some? && ns.value == m.nextSteps;
  }

  /** The declared artifact type as JSON; absent optional fields are omitted. */
  function TypedDeltaJson(d: Delta): Json {
    var base := map[
      "topic" := JString(d.topic),
      "gpt_position" := JString(d.gptPosition),
      "gpt_confidence" := JString(ConfidenceName(d.gptConfidence)),
      "claude_position" := JString(d.claudePosition),
      "claude_confidence" := JString(ConfidenceName(d.claudeConfidence)),
      "recommended" := JString(RecommendationName(d.recommended)),
      "reasoning" := JString(d.reasoning)];
    match d.calibrationWarning
    case None => JObject(base)
    case Some(w) => JObject(base["calibration_warning" := JString(w)])
  }

  function TypedDeltasJson(ds: seq<Delta>): (items: seq<Json>)
    ensures |items| == |ds| && forall k :: 0 <= k < |ds| ==> items[k] == TypedDeltaJson(ds[k])
  {
    seq(|ds|, k requires 0 <= k < |ds| => TypedDeltaJson(ds[k]))
  }

  function UpdateJson(u: ClaudeMdUpdate): Json {
    JObject(map[
      "current_status" := JString(u.currentStatus),
      "recent_changes" := JArray(EncodeStrings(u.recentChanges)),
      "planned_next" := JArray(EncodeStrings(u.plannedNext))])
  }

  function TypedJson(m: MergeResult): Json {
    var base := map[
      "consensus" := JString(m.consensus),
      "confidence" := JString(ConfidenceName(m.confidence)),
      "consensus_strength" := JNumber(m.consensusStrength),
      "gpt_overall_confidence" := JString(ConfidenceName(m.gptOverallConfidence)),
      "claude_overall_confidence" := JString(ConfidenceName(m.claudeOverallConfidence)),
      "confidence_reasoning" := JString(m.confidenceReasoning),
      "deltas" := JArray(TypedDeltasJson(m.deltas)),
      "unverified_assumptions" := JArray(EncodeStrings(m.unverifiedAssumptions)),
      "next_steps" := JArray(EncodeStrings(m.nextSteps)),
      "decision_filter_notes" := JString(m.decisionFilterNotes)];
    match m.claudeMdUpdate
    case None => JObject(base)
    case Some(u) => JObject(base["claude_md_update" := UpdateJson(u)])
  }

  lemma TypedDeltaAccepted(d: Delta)
    ensures ValidDelta(TypedDeltaJson(d))
  {
    RecommendationRoundTrip(d.recommended);
    var f := TypedDeltaJson(d).fields;
    assert f["topic"] == JString(d.topic);
    assert f["gpt_position"] == JString(d.gptPosition);
    assert f["claude_position"] == JString(d.claudePosition);
    assert f["recommended"] == JString(RecommendationName(d.recommended));
    assert f["reasoning"] == JString(d.reasoning);
  }

  /**
   * Every value of the declared type is accepted, whatever its
   * `consensus_strength` and whether or not its optional fields are present.
   */
  lemma TypedResultAccepted(m: MergeResult)
    ensures ValidMergeResult(TypedJson(m))
    ensures Decode(TypedJson(m)).Some?
    ensures ConsensusOf(TypedJson(m)) == m.consensus
  {
    var items := TypedDeltasJson(m.deltas);
    TypedTextFields(m);
    TypedListFields(m);
    ConfidenceRoundTrip(m.confidence);
    forall k | 0 <= k < |items| ensures ValidDelta(items[k]) {
      TypedDeltaAccepted(m.deltas[k]);
    }
  }

  /** The string fields the validator reads, as the declared type lays them out. */
  lemma TypedTextFields(m: MergeResult)
    ensures var f := TypedJson(m).fields;
      && "consensus" in f && f["consensus"] == JString(m.consensus)
      && "decision_filter_notes" in f && f["decision_filter_notes"] == JString(m.decisionFilterNotes)
      && "confidence" in f && f["confidence"] == JString(ConfidenceName(m.confidence))
  {
  }

  /** The array fields the validator reads, as the declared type lays them out. */
  lemma TypedListFields(m: MergeResult)
    ensures var f := TypedJson(m).fields;
      && "deltas" in f && f["deltas"] == JArray(TypedDeltasJson(m.deltas))
      && "unverified_assumptions" in f && f["unverified_assumptions"] == JArray(EncodeStrings(m.unverifiedAssumptions))
      && "next_steps" in f && f["next_steps"] == JArray(EncodeStrings(m.nextSteps))
  {
  }

  /** `a` and `b` hold the same value, or both lack, `key`. */
  predicate AgreeOn(a: map<string, Json>, b: map<string, Json>, key: string) {
    (key in a <==> key in b) && (key in a ==> a[key] == b[key])
  }

  /** Two objects that agree on the six checked keys get the same verdict. */
  lemma OnlyCheckedFieldsMatter(a: map<string, Json>, b: map<string, Json>)
    requires AgreeOn(a, b, "consensus") && AgreeOn(a, b, "decision_filter_notes")
    requires AgreeOn(a, b, "confidence") && AgreeOn(a, b, "deltas")
    requires AgreeOn(a, b, "unverified_assumptions") && AgreeOn(a, b, "next_steps")
    ensures ValidMergeResult(JObject(a)) <==> ValidMergeResult(JObject(b))
  {
    var ja, jb := JObject(a), JObject(b);
    if HasArray(ja, "deltas") {
      assert ArrayAt(ja, "deltas") == ArrayAt(jb, "deltas");
    }
    if HasArray(ja, "unverified_assumptions") {
      assert ArrayAt(ja, "unverified_assumptions") == ArrayAt(jb, "unverified_assumptions");
    }
    if HasArray(ja, "next_steps") {
      assert ArrayAt(ja, "next_steps") == ArrayAt(jb, "next_steps");
    }
  }

  /** `consensus_strength` is never looked at: any value, e.g. 150 or -5, is accepted. */
  lemma ConsensusStrengthUnchecked(fields: map<string, Json>, v: Json)
    ensures ValidMergeResult(JObject(fields["consensus_strength" := v])) <==> ValidMergeResult(JObject(fields))
  {
    OnlyCheckedFieldsMatter(fields["consensus_strength" := v], fields);
  }

  /** A single rejected delta rejects the whole artifact. */
  lemma BadDeltaRejects(j: Json, k: nat)
    requires HasArray(j, "deltas") && k < |ArrayAt(j, "deltas")|
    requires !ValidDelta(ArrayAt(j, "deltas")[k])
    ensures !ValidMergeResult(j)
    ensures Decode(j).None?
  {
  }

  /** A single non-string assumption or next step rejects the whole artifact. */
  lemma NonStringItemRejects(j: Json, key: string, k: nat)
    requires key == "unverified_assumptions" || key == "next_steps"
    requires HasArray(j, key) && k < |ArrayAt(j, key)| && !ArrayAt(j, key)[k].JString?
    ensures !ValidMergeResult(j)
  {
  }

  /** Empty arrays are accepted: the smallest accepted artifact. */
  lemma EmptyArraysAccepted(consensus: string, level: ConfidenceLevel, notes: string)
    ensures ValidMergeResult(JObject(map[
      "consensus" := JString(consensus),
      "confidence" := JString(ConfidenceName(level)),
      "deltas" := JArray([]),
      "unverified_assumptions" := JArray([]),
      "next_steps" := JArray([]),
      "decision_filter_notes" := JString(notes)]))
  {
    ConfidenceRoundTrip(level);
  }
}
