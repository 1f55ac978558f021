/**
 * `extractVerdict` (app/components/ArbiterCard.tsx): the arbiter's verdict
 * token found in the upper-cased review, PROCEED before REVISE before
 * ESCALATE, or none.
 */
module Verdicts {
  import opened Options
  import opened Text

  datatype Verdict = Proceed | Revise | Escalate

  function VerdictName(v: Verdict): string {
    match v
    case Proceed => "PROCEED"
    case Revise => "REVISE"
    case Escalate => "ESCALATE"
  }

  /** The order in which the tokens are tried. */
  function Precedence(v: Verdict): nat {
    match v
    case Proceed => 0
    case Revise => 1
    case Escalate => 2
  }

  /** The review mentions the verdict's token, in any letter case. */
  predicate Mentions(review: string, v: Verdict) {
    Contains(ToUpper(review), VerdictName(v))
  }

  /**
   * The verdict reported is a mentioned one with no mentioned verdict of
   * higher precedence; there is none exactly when no token is mentioned.
   */
  function ExtractVerdict(review: string): (r: Option<Verdict>)
    ensures r.None? <==> forall v: Verdict :: !Mentions(review, v)
    ensures r.Some? ==> Mentions(review, r.value)
    ensures r.Some? ==> forall v: Verdict :: Precedence(v) < Precedence(r.value) ==> !Mentions(review, v)
  {
    if Mentions(review, Proceed) then Some(Proceed)
    else if Mentions(review, Revise) then Some(Revise)
    else if Mentions(review, Escalate) then Some(Escalate)
    else None
  }

  /** Matching ignores letter case: upper-casing the review first changes nothing. */
  lemma VerdictIgnoresCase(review: string)
    ensures ExtractVerdict(ToUpper(review)) == ExtractVerdict(review)
  {
    ToUpperIdempotent(review);
  }

  /** PROCEED, in any letter case and anywhere in the review, decides the verdict. */
  lemma ProceedAnywhere(before: string, word: string, after: string)
    requires ToUpper(word) == "PROCEED"
    ensures ExtractVerdict(before + word + after) == Some(Proceed)
  {
    ToUpperConcat(before + word, after);
    ToUpperConcat(before, word);
    ContainsMiddle(ToUpper(before), "PROCEED", ToUpper(after));
  }

  /** A review that mentions ESCALATE and REVISE but not PROCEED reads as REVISE. */
  lemma ReviseBeforeEscalate(review: string)
    requires Mentions(review, Revise) && Mentions(review, Escalate) && !Mentions(review, Proceed)
    ensures ExtractVerdict(review) == Some(Revise)
  {
  }
}
