/**
 * Consequences of `extractJSON`'s branches for the shapes of reply the
 * synthesis model produces: an object followed by commentary, a fenced
 * `json` block after prose, an object inside prose, plain text, and the
 * brace-in-string case the depth scan gets wrong.
 */
module ExtractLaws {
  import opened Options
  import opened Text
  import opened Extract

  /** A text starting with a non-space character keeps it first when trimmed. */
  lemma TrimKeepsFirst(s: string)
    requires |s| > 0 && !IsSpace(s[0])
    ensures |Trim(s)| > 0 && Trim(s)[0] == s[0]
  {
    assert LeadingSpaces(s) == 0;
    assert s[0..] == s;
  }

  /** Extending a prefix by one character adds that character's brace count. */
  lemma DepthStep(t: string, k: nat)
    requires 1 <= k <= |t|
    ensures Depth(t[..k]) == Depth(t[..k - 1]) + BraceDelta(t[k - 1])
  {
    assert t[..k][..k - 1] == t[..k - 1];
  }

  /** At most one prefix length is balanced with no shorter balanced prefix. */
  lemma ShortestBalancedUnique(t: string, m: nat, n: nat)
    requires 1 <= m <= |t| && 1 <= n <= |t|
    requires Depth(t[..m]) == 0 && Unbalanced(t, m - 1)
    requires Depth(t[..n]) == 0 && Unbalanced(t, n - 1)
    ensures m == n
  {
  }

  /** What the object branch returns is the shortest balanced prefix of the trimmed text. */
  lemma ObjectBranch(text: string, n: nat)
    requires StartsObject(Trim(text))
    requires 1 <= n <= |Trim(text)|
    requires Depth(Trim(text)[..n]) == 0 && Unbalanced(Trim(text), n - 1)
    ensures ExtractJson(text) == Trim(text)[..n]
  {
    var t := Trim(text);
    var r := ExtractJson(text);
    assert t[..n][..n] == t[..n];
    assert !Unbalanced(t, |t|);
    assert |r| != 0;
    forall k | 1 <= k <= |r| - 1 ensures Depth(t[..k]) != 0 {
      assert r[..k] == t[..k];
    }
    ShortestBalancedUnique(t, |r|, n);
  }

  /** Whitespace, a core ending in a non-space, and commentary trim to the core and the commentary's text. */
  lemma {:induction false} TrimAroundCore(lead: string, core: string, tail: string)
    requires AllSpace(lead)
    requires |core| >= 1 && !IsSpace(core[0]) && !IsSpace(core[|core| - 1])
    ensures Trim(lead + core + tail) == core + tail[..|tail| - TrailingSpaces(tail)]
  {
    var n := TrailingSpaces(tail);
    var inner := core + tail[..|tail| - n];
    var rest := tail[|tail| - n..];
    assert lead + core + tail == lead + inner + rest;
    assert tail[..|tail| - n] == [] || inner[|inner| - 1] == tail[|tail| - n - 1];
    TrimUnique(lead + core + tail, lead, inner, rest);
  }

  /**
   * An object, possibly after whitespace and followed by any commentary, is
   * returned alone, provided it balances only at its last character.
   */
  lemma {:induction false} TrailingCommentary(lead: string, obj: string, tail: string)
    requires AllSpace(lead)
    requires |obj| >= 1 && obj[0] == '{' && !IsSpace(obj[|obj| - 1])
    requires Depth(obj) == 0 && Unbalanced(obj, |obj| - 1)
    ensures ExtractJson(lead + obj + tail) == obj
  {
    var text := lead + obj + tail;
    TrimAroundCore(lead, obj, tail);
    var core := Trim(text);
    assert core[..|obj|] == obj;
    forall k | 1 <= k <= |obj| - 1 ensures Depth(core[..k]) != 0 {
      assert core[..k] == obj[..k];
    }
    ObjectBranch(text, |obj|);
  }

  /** The fences of prose + "```json" + body + "```" + rest, when prose and body have no backtick. */
  lemma JsonFenceSpan(pre: string, body: string, post: string)
    requires '`' !in pre && '`' !in body
    ensures var text := pre + "```json" + body + "```" + post;
      && FenceSpan(text) == Some((|pre|, |pre| + 7 + |body|))
      && IsAt(text, |pre| + 3, "json")
      && text[|pre| + 7..|pre| + 7 + |body|] == body
  {
    var text := pre + "```json" + body + "```" + post;
    var s, c := |pre|, |pre| + 7 + |body|;
    assert text[s..s + 3] == Fence;
    assert text[s + 3..s + 7] == "json";
    assert text[c..c + 3] == Fence;
    assert text[s + 7..c] == body;
    forall j | 0 <= j < s ensures !IsAt(text, j, Fence) {
      assert text[j] == pre[j];
    }
    forall j | s + 3 <= j < c ensures !IsAt(text, j, Fence) {
      if j < s + 7 {
        assert text[j] == "json"[j - s - 3];
      } else {
        assert text[j] == body[j - s - 7];
      }
    }
    assert IsAt(text, s, Fence) && IsAt(text, c, Fence);
    var span := FenceSpan(text);
    assert span.Some?;
    assert span.value.0 == s;
  }

  /** The fence branch, once the fences are located and the text does not start with `{`. */
  lemma FencedBranch(text: string, s: nat, c: nat)
    requires FenceSpan(text) == Some((s, c))
    requires !StartsObject(Trim(text))
    ensures IsAt(text, s, Fence) && s + 3 <= c && IsAt(text, c, Fence)
    ensures ExtractJson(text) == Trim(text[InteriorStart(text, s, c)..c])
  {
  }

  /**
   * Prose, then a block fenced with "```json", then anything: the block's
   * interior, trimmed, provided the prose has no backtick and does not
   * itself start with `{`.
   */
  lemma FencedJsonUnwrapped(pre: string, body: string, post: string)
    requires '`' !in pre && '`' !in body
    requires |pre| == 0 || (!IsSpace(pre[0]) && pre[0] != '{')
    ensures ExtractJson(pre + "```json" + body + "```" + post) == Trim(body)
  {
    var text := pre + "```json" + body + "```" + post;
    var s, c := |pre|, |pre| + 7 + |body|;
    JsonFenceSpan(pre, body, post);
    assert text[0] == if |pre| == 0 then '`' else pre[0];
    TrimKeepsFirst(text);
    FencedBranch(text, s, c);
    assert InteriorStart(text, s, c) == s + 7;
    assert text[InteriorStart(text, s, c)..c] == body;
    assert ExtractJson(text) == Trim(body);
  }

  /**
   * Without a fenced pair and without a leading `{`, a `{` before a `}` makes
   * the result the span from the first `{` to the last `}`.
   */
  lemma ObjectInProse(text: string, i: nat, j: nat)
    requires i < j < |text| && text[i] == '{' && text[j] == '}'
    requires FenceSpan(text).None?
    requires !StartsObject(Trim(text))
    ensures ExtractJson(text) == BraceSpan(text).value
  {
  }

  /**
   * Without a fenced pair, a leading `{`, or any `{` before a `}`, the text
   * comes back trimmed.
   */
  lemma PlainTextTrimmed(text: string)
    requires FenceSpan(text).None?
    requires !StartsObject(Trim(text))
    requires forall i, j :: 0 <= i < j < |text| && text[i] == '{' ==> text[j] != '}'
    ensures ExtractJson(text) == Trim(text)
  {
  }

  /** Brace depths of the prefixes of `{"a": "}"}`: first zero after eight characters. */
  lemma QuotedBraceDepths(text: string)
    requires text == "{\"a\": \"}\"}"
    ensures |text| == 10 && Depth(text[..8]) == 0 && Unbalanced(text, 7)
  {
    assert text[..0] == [];
    DepthStep(text, 1);
    DepthStep(text, 2);
    DepthStep(text, 3);
    DepthStep(text, 4);
    DepthStep(text, 5);
    DepthStep(text, 6);
    DepthStep(text, 7);
    DepthStep(text, 8);
    forall k | 1 <= k <= 7 ensures Depth(text[..k]) != 0 {
      assert k == 1 || k == 2 || k == 3 || k == 4 || k == 5 || k == 6 || k == 7;
    }
  }

  /**
   * The depth scan counts braces inside string literals: for the reply
   * `{"a": "}"}` it stops at the quoted brace and returns `{"a": "}`,
   * which is not JSON.
   */
  lemma BraceInStringTruncates()
    ensures ExtractJson("{\"a\": \"}\"}") == "{\"a\": \"}"
  {
    var text := "{\"a\": \"}\"}";
    assert text == [] + text + [];
    TrimUnique(text, [], text, []);
    QuotedBraceDepths(text);
    ObjectBranch(text, 8);
  }
}
