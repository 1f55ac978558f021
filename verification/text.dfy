/**
 * String helpers shared by the extractor, the verdict sniffer and the
 * markdown serialiser. Strings are `seq<char>`; whitespace is the set of
 * code points JavaScript's `String.prototype.trim` removes and the regular
 * expression class `\s` matches.
 */
module Text {
  import opened Options

  /** JavaScript WhiteSpace and LineTerminator code points. */
  predicate IsSpace(c: char) {
    || c == ' ' || c == '\t' || c == '\n' || c == '\U{000B}' || c == '\U{000C}' || c == '\r'
    || c == '\U{00A0}' || c == '\U{1680}' || ('\U{2000}' <= c <= '\U{200A}')
    || c == '\U{2028}' || c == '\U{2029}' || c == '\U{202F}' || c == '\U{205F}'
    || c == '\U{3000}' || c == '\U{FEFF}'
  }

  predicate AllSpace(s: string) {
    forall k :: 0 <= k < |s| ==> IsSpace(s[k])
  }

  /** Number of whitespace characters at the start of `s`. */
  function LeadingSpaces(s: string): (n: nat)
    ensures n <= |s|
    ensures AllSpace(s[..n])
    ensures n < |s| ==> !IsSpace(s[n])
  {
    if |s| == 0 || !IsSpace(s[0]) then 0 else 1 + LeadingSpaces(s[1..])
  }

  /** Number of whitespace characters at the end of `s`. */
  function TrailingSpaces(s: string): (n: nat)
    ensures n <= |s|
    ensures AllSpace(s[|s| - n..])
    ensures n < |s| ==> !IsSpace(s[|s| - n - 1])
  {
    if |s| == 0 || !IsSpace(s[|s| - 1]) then 0
    else
      var init := s[..|s| - 1];
      var m := TrailingSpaces(init);
      assert s[|s| - (m + 1)..] == init[|init| - m..] + [s[|s| - 1]];
      1 + m
  }

  /**
   * `String.prototype.trim`: `s` is whitespace, then the result, then
   * whitespace, and the result neither starts nor ends with whitespace.
   */
  function Trim(s: string): (r: string)
    ensures |r| == 0 || (!IsSpace(r[0]) && !IsSpace(r[|r| - 1]))
    ensures LeadingSpaces(s) + |r| <= |s|
    ensures AllSpace(s[..LeadingSpaces(s)])
    ensures r == s[LeadingSpaces(s)..LeadingSpaces(s) + |r|]
    ensures AllSpace(s[LeadingSpaces(s) + |r|..])
  {
    var lo := LeadingSpaces(s);
    var t := s[lo..];
    var n := TrailingSpaces(t);
    assert AllSpace(s[lo + (|t| - n)..]) by {
      assert s[lo + (|t| - n)..] == t[|t| - n..];
    }
    t[..|t| - n]
  }

  /**
   * Trim is characterised by the decomposition above: any split of `s`
   * into whitespace, a core without whitespace ends, and whitespace
   * yields that core.
   */
  lemma {:induction false} TrimUnique(s: string, a: string, r: string, b: string)
    requires s == a + r + b
    requires AllSpace(a) && AllSpace(b)
    requires |r| == 0 || (!IsSpace(r[0]) && !IsSpace(r[|r| - 1]))
    ensures Trim(s) == r
  {
    var t := Trim(s);
    var lo := LeadingSpaces(s);
    if |r| == 0 {
      assert AllSpace(s) by {
        forall k | 0 <= k < |s| ensures IsSpace(s[k]) {
          if k < |a| { assert s[k] == a[k]; } else { assert s[k] == b[k - |a|]; }
        }
      }
      assert lo == |s|;
      assert |t| == 0;
    } else {
      assert s[|a|] == r[0];
      assert lo == |a|;
      assert s[|a| + |r| - 1] == r[|r| - 1];
      assert |t| == |r|;
      assert s[|a|..|a| + |r|] == r;
    }
  }

  /** Trimming twice is trimming once. */
  lemma TrimIdempotent(s: string)
    ensures Trim(Trim(s)) == Trim(s)
  {
    var r := Trim(s);
    assert r == [] + r + [];
    TrimUnique(r, [], r, []);
  }

  /** `p` occurs in `s` at index `i`. */
  predicate IsAt(s: string, i: int, p: string) {
    0 <= i && i + |p| <= |s| && s[i..i + |p|] == p
  }

  /** First index at or after `from` where `p` occurs (`indexOf(p, from)`). */
  function FindFrom(s: string, p: string, from: nat): (r: Option<nat>)
    ensures r.Some? ==> from <= r.value && IsAt(s, r.value, p)
    ensures r.Some? ==> forall j :: from <= j < r.value ==> !IsAt(s, j, p)
    ensures r.None? ==> forall j :: from <= j ==> !IsAt(s, j, p)
    decreases |s| - from
  {
    if from + |p| > |s| then None
    else if s[from..from + |p|] == p then Some(from)
    else FindFrom(s, p, from + 1)
  }

  /** `includes`: some occurrence of `p` in `s`. */
  predicate Contains(s: string, p: string)
  {
    FindFrom(s, p, 0).Some?
  }

  lemma ContainsIff(s: string, p: string)
    ensures Contains(s, p) <==> exists i :: IsAt(s, i, p)
  {
    if !Contains(s, p) {
      forall i | IsAt(s, i, p) ensures false {
      }
    }
  }

  /** An appended part occurs where the text before it ends. */
  lemma IsAtEnd(a: string, p: string)
    ensures IsAt(a + p, |a|, p)
  {
    assert (a + p)[|a|..|a| + |p|] == p;
  }

  /** Appending to a text keeps every occurrence in it. */
  lemma IsAtKept(s: string, t: string)
    ensures forall i, p :: IsAt(s, i, p) ==> IsAt(s + t, i, p)
  {
    forall i, p | IsAt(s, i, p) ensures IsAt(s + t, i, p) {
      assert (s + t)[i..i + |p|] == s[i..i + |p|];
    }
  }

  /** An occurrence inside a part is an occurrence in the whole. */
  lemma ContainsMiddle(a: string, p: string, b: string)
    ensures Contains(a + p + b, p)
  {
    IsAtEnd(a, p);
    IsAtKept(a + p, b);
    ContainsIff(a + p + b, p);
  }

  /** Index of the first `c` in `s`. */
  function IndexOf(s: string, c: char): (r: Option<nat>)
    ensures r.Some? ==> r.value < |s| && s[r.value] == c && c !in s[..r.value]
    ensures r.None? ==> c !in s
  {
    if |s| == 0 then None
    else if s[0] == c then Some(0)
    else match IndexOf(s[1..], c)
      case None => None
      case Some(k) =>
        assert s[..k + 1] == [s[0]] + s[1..][..k];
        Some(k + 1)
  }

  /** Index of the last `c` in `s`. */
  function LastIndexOf(s: string, c: char): (r: Option<nat>)
    ensures r.Some? ==> r.value < |s| && s[r.value] == c && c !in s[r.value + 1..]
    ensures r.None? ==> c !in s
  {
    if |s| == 0 then None
    else if s[|s| - 1] == c then Some(|s| - 1)
    else match LastIndexOf(s[..|s| - 1], c)
      case None => None
      case Some(k) =>
        assert s[k + 1..] == s[..|s| - 1][k + 1..] + [s[|s| - 1]];
        Some(k)
  }

  /** ASCII upper-casing of one character. */
  function UpperChar(c: char): char {
    if 'a' <= c <= 'z' then (c as int - 'a' as int + 'A' as int) as char else c
  }

  /** `toUpperCase`, restricted to ASCII letters. */
  function ToUpper(s: string): (r: string)
    ensures |r| == |s|
    ensures forall i :: 0 <= i < |s| ==> r[i] == UpperChar(s[i])
  {
    seq(|s|, i requires 0 <= i < |s| => UpperChar(s[i]))
  }

  lemma ToUpperConcat(a: string, b: string)
    ensures ToUpper(a + b) == ToUpper(a) + ToUpper(b)
  {
  }

  lemma ToUpperIdempotent(s: string)
    ensures ToUpper(ToUpper(s)) == ToUpper(s)
  {
  }

  /** `parts.join(sep)` for a one-character separator. */
  function Join(parts: seq<string>, sep: char): string
  {
    if |parts| == 0 then ""
    else if |parts| == 1 then parts[0]
    else parts[0] + [sep] + Join(parts[1..], sep)
  }

  /** `s.split(sep)` for a one-character separator. */
  function Split(s: string, sep: char): (r: seq<string>)
    ensures |r| > 0
    decreases |s|
  {
    match IndexOf(s, sep)
    case None => [s]
    case Some(i) => [s[..i]] + Split(s[i + 1..], sep)
  }

  /** Splitting undoes joining when no part contains the separator. */
  lemma {:induction false} SplitJoin(parts: seq<string>, sep: char)
    requires |parts| > 0
    requires forall k :: 0 <= k < |parts| ==> sep !in parts[k]
    ensures Split(Join(parts, sep), sep) == parts
  {
    if |parts| == 1 {
      assert Join(parts, sep) == parts[0];
    } else {
      var p := parts[0];
      var rest := Join(parts[1..], sep);
      var s := p + [sep] + rest;
      assert Join(parts, sep) == s;
      assert s[..|p|] == p;
      assert IndexOf(s, sep) == Some(|p|) by {
        assert s[|p|] == sep;
        assert s[..|p|] == p;
      }
      assert s[|p| + 1..] == rest;
      SplitJoin(parts[1..], sep);
      assert parts == [p] + parts[1..];
    }
  }
}
