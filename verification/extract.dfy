/**
 * `extractJSON` (lib/merge/mergeCouncil.ts): pulls the JSON payload out of
 * the synthesis model's free text. Four ordered branches: a brace-depth scan
 * when the trimmed text starts with `{`, the first fenced code block, the
 * span from the first `{` to the last `}`, and finally the trimmed text.
 */
module Extract {
  import opened Options
  import opened Text

  const Fence: string := "```"

  function BraceDelta(c: char): int {
    if c == '{' then 1 else if c == '}' then -1 else 0
  }

  /**
   * Count of `{` minus count of `}` in `s`. Braces inside JSON string
   * literals count too: the scan does not know about strings.
   */
  function Depth(s: string): int {
    if |s| == 0 then 0 else Depth(s[..|s| - 1]) + BraceDelta(s[|s| - 1])
  }

  /** No non-empty prefix of `t` up to length `n` has depth zero. */
  predicate Unbalanced(t: string, n: nat)
    requires n <= |t|
  {
    forall k :: 1 <= k <= n ==> Depth(t[..k]) != 0
  }

  /** The scan loop from index `i` with running depth `depth`. */
  function ScanFrom(t: string, i: nat, depth: int): (end: nat)
    requires i <= |t|
    requires depth == Depth(t[..i])
    requires Unbalanced(t, i)
    ensures end == 0 ==> Unbalanced(t, |t|)
    ensures end != 0 ==> i < end <= |t| && Depth(t[..end]) == 0 && Unbalanced(t, end - 1)
    decreases |t| - i
  {
    if i == |t| then 0
    else
      var d := depth + BraceDelta(t[i]);
      assert t[..i + 1][..i] == t[..i];
      if d == 0 then i + 1 else ScanFrom(t, i + 1, d)
  }

  /**
   * Length of the shortest non-empty prefix of `t` whose braces balance,
   * or 0 when there is none.
   */
  function BalancedEnd(t: string): (end: nat)
    ensures end <= |t|
    ensures end == 0 <==> Unbalanced(t, |t|)
    ensures end != 0 ==> Depth(t[..end]) == 0 && Unbalanced(t, end - 1)
  {
    assert t[..0] == [];
    ScanFrom(t, 0, 0)
  }

  /**
   * Where the first fenced block lies: `s` is the first "```", `c` the
   * first "```" that starts at or after `s + 3`. `None` exactly when no two
   * non-overlapping fences exist, i.e. when the fence regex has no match.
   */
  function FenceSpan(text: string): (r: Option<(nat, nat)>)
    ensures r.Some? ==>
      && IsAt(text, r.value.0, Fence)
      && (forall j :: 0 <= j < r.value.0 ==> !IsAt(text, j, Fence))
      && r.value.0 + 3 <= r.value.1
      && IsAt(text, r.value.1, Fence)
      && (forall j :: r.value.0 + 3 <= j < r.value.1 ==> !IsAt(text, j, Fence))
    ensures r.None? ==>
      forall s, c :: IsAt(text, s, Fence) && IsAt(text, c, Fence) ==> c < s + 3
  {
    match FindFrom(text, Fence, 0)
    case None => None
    case Some(s) =>
      match FindFrom(text, Fence, s + 3)
      case None => None
      case Some(c) => Some((s, c))
  }

  /** Start of the block's interior: after the fence and an optional `json` tag. */
  function InteriorStart(text: string, s: nat, c: nat): (b: nat)
    requires IsAt(text, s, Fence) && s + 3 <= c && IsAt(text, c, Fence)
    ensures s + 3 <= b <= c
    ensures b == s + 7 <==> IsAt(text, s + 3, "json")
  {
    if IsAt(text, s + 3, "json") then
      assert c >= s + 7 by {
        assert text[c] == text[c..c + 3][0] == '`';
        forall j | s + 3 <= j < s + 7 ensures text[j] != '`' {
          assert text[j] == text[s + 3..s + 7][j - s - 3];
        }
      }
      s + 7
    else s + 3
  }

  /**
   * The match of /```(?:json)?\s*\n?([\s\S]*?)\n?```/, trimmed: the
   * whitespace the pattern's `\s*` and `\n?` absorb is exactly what
   * trimming removes, so the interior is trimmed directly.
   */
  function FencedBlock(text: string): (r: Option<string>)
    ensures r.Some? <==> FenceSpan(text).Some?
  {
    match FenceSpan(text)
    case None => None
    case Some((s, c)) => Some(Trim(text[InteriorStart(text, s, c)..c]))
  }

  /**
   * The match of /\{[\s\S]*\}/: from the first `{` to the last `}`, when
   * that `}` comes after that `{`.
   */
  function BraceSpan(text: string): (r: Option<string>)
    ensures r.None? <==> !exists i, j :: 0 <= i < j < |text| && text[i] == '{' && text[j] == '}'
    ensures r.Some? ==> |r.value| >= 2 && r.value[0] == '{' && r.value[|r.value| - 1] == '}'
    ensures r.Some? ==> exists i :: IsAt(text, i, r.value) && '{' !in text[..i] && '}' !in text[i + |r.value|..]
  {
    match IndexOf(text, '{')
    case None => None
    case Some(i) =>
      match LastIndexOf(text, '}')
      case None => None
      case Some(j) =>
        if i < j then
          assert IsAt(text, i, text[i..j + 1]);
          Some(text[i..j + 1])
        else
          assert forall a :: 0 <= a < i ==> text[a] != '{' by {
            forall a | 0 <= a < i ensures text[a] != '{' {
              assert text[a] == text[..i][a];
            }
          }
          assert forall b :: j < b < |text| ==> text[b] != '}' by {
            forall b | j < b < |text| ensures text[b] != '}' {
              assert text[b] == text[j + 1..][b - j - 1];
            }
          }
          None
  }

  /** The trimmed text starts with `{`. */
  predicate StartsObject(t: string) {
    |t| > 0 && t[0] == '{'
  }

  /** `extractJSON`. */
  function ExtractJson(text: string): (r: string)
    ensures var t := Trim(text);
      StartsObject(t) ==>
        && |r| <= |t| && r == t[..|r|]
        && (|r| == 0 <==> Unbalanced(t, |t|))
        && (|r| != 0 ==> Depth(r) == 0 && Unbalanced(r, |r| - 1))
  {
    var t := Trim(text);
    if StartsObject(t) then
      var end := BalancedEnd(t);
      assert forall k :: 1 <= k <= end ==> t[..end][..k] == t[..k];
      t[..end]
    else
      match FencedBlock(text)
      case Some(block) => block
      case None =>
        match BraceSpan(text)
        case Some(span) => span
        case None => t
  }
}
