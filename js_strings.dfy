/**
 * The JavaScript string built-ins the core relies on, on `seq<char>`:
 * `indexOf`, `replace` with a string pattern, `includes`, `trim`,
 * `toLowerCase` and `slice(-1)`.
 */
module JsStrings {
  import opened Wrappers

  /** `pat` occurs in `s` starting at index `j`. */
  predicate MatchAt(s: string, pat: string, j: nat)
  {
    j + |pat| <= |s| && s[j..j + |pat|] == pat
  }

  /** `s.indexOf(pat, i)`: the first index at or after `i` where `pat` occurs. */
  function IndexOfFrom(s: string, pat: string, i: nat): (r: Option<nat>)
    decreases |s| - i
    ensures r.Some? ==> i <= r.value && MatchAt(s, pat, r.value)
    ensures r.Some? ==> forall j :: i <= j < r.value ==> !MatchAt(s, pat, j)
    ensures r.None? ==> forall j :: i <= j ==> !MatchAt(s, pat, j)
  {
    if i + |pat| > |s| then None
    else if s[i..i + |pat|] == pat then Some(i)
    else IndexOfFrom(s, pat, i + 1)
  }

  function IndexOf(s: string, pat: string): Option<nat>
  {
    IndexOfFrom(s, pat, 0)
  }

  /**
   * `s.replace(pat, rep)` with a string pattern: only the first occurrence is
   * replaced, and `s` comes back unchanged when `pat` does not occur.
   */
  function ReplaceFirst(s: string, pat: string, rep: string): string
  {
    match IndexOf(s, pat)
    case None => s
    case Some(j) => s[..j] + rep + s[j + |pat|..]
  }

  /** `s.includes(t)`. */
  predicate Includes(s: string, t: string)
  {
    exists j :: 0 <= j <= |s| && MatchAt(s, t, j)
  }

  /** A string includes whatever is concatenated into it. */
  lemma IncludesMiddle(a: string, t: string, b: string)
    ensures Includes(a + t + b, t)
  {
    var s := a + t + b;
    assert s[|a|..|a| + |t|] == t;
    assert MatchAt(s, t, |a|);
  }

  /** No proper suffix of `pat` is also a prefix of it, so two occurrences never overlap. */
  predicate Unbordered(pat: string)
  {
    forall k :: 0 < k < |pat| ==> pat[k..] != pat[..|pat| - k]
  }

  /**
   * When the first character of an unbordered `pat` occurs nowhere in `h` or `t`,
   * `h + pat + t` contains `pat` exactly once, right after `h`.
   */
  lemma SoleOccurrence(h: string, pat: string, t: string)
    requires |pat| > 0 && pat[0] !in h && pat[0] !in t && Unbordered(pat)
    ensures forall j :: MatchAt(h + pat + t, pat, j) <==> j == |h|
    ensures IndexOf(h + pat + t, pat) == Some(|h|)
  {
    var s := h + pat + t;
    assert s[|h|..|h| + |pat|] == pat;
    forall j: nat | j != |h|
      ensures !MatchAt(s, pat, j)
    {
      if j < |h| {
        assert s[j] == h[j];
      } else if j >= |h| + |pat| {
        if j < |s| {
          assert s[j] == t[j - |h| - |pat|];
        }
      } else if j + |pat| <= |s| {
        var k := j - |h|;
        assert s[j..|h| + |pat|] == pat[k..];
        assert s[j..j + |pat|][..|pat| - k] == s[j..|h| + |pat|];
      }
    }
    assert MatchAt(s, pat, |h|);
  }

  /** Replacing a pattern that does not occur changes nothing. */
  lemma ReplaceAbsent(s: string, pat: string, rep: string)
    requires forall j :: !MatchAt(s, pat, j)
    ensures ReplaceFirst(s, pat, rep) == s
  {
  }

  /** Whitespace and line terminators as `String.prototype.trim` removes them. */
  predicate IsJsSpace(c: char)
  {
    var n := c as int;
    || (0x09 <= n <= 0x0D) || n == 0x20 || n == 0xA0 || n == 0x1680
    || (0x2000 <= n <= 0x200A) || n == 0x2028 || n == 0x2029 || n == 0x202F
    || n == 0x205F || n == 0x3000 || n == 0xFEFF
  }

  predicate IsBlank(s: string)
  {
    forall i :: 0 <= i < |s| ==> IsJsSpace(s[i])
  }

  function TrimStart(s: string): string
  {
    if s != [] && IsJsSpace(s[0]) then TrimStart(s[1..]) else s
  }

  function TrimEnd(s: string): string
  {
    if s != [] && IsJsSpace(s[|s| - 1]) then TrimEnd(s[..|s| - 1]) else s
  }

  /** `s.trim()`. */
  function Trim(s: string): string
  {
    TrimEnd(TrimStart(s))
  }

  lemma {:induction false} TrimStartEmptyIffBlank(s: string)
    ensures TrimStart(s) == [] <==> IsBlank(s)
    ensures TrimStart(s) != [] ==> !IsJsSpace(TrimStart(s)[0])
  {
    if s != [] && IsJsSpace(s[0]) {
      TrimStartEmptyIffBlank(s[1..]);
      if IsBlank(s[1..]) {
        forall i | 0 <= i < |s| ensures IsJsSpace(s[i]) {
          if i > 0 { assert s[i] == s[1..][i - 1]; }
        }
      }
    }
  }

  lemma {:induction false} TrimEndKeepsFirst(s: string)
    requires s != [] && !IsJsSpace(s[0])
    ensures TrimEnd(s) != []
  {
    if IsJsSpace(s[|s| - 1]) {
      assert |s| > 1;
      TrimEndKeepsFirst(s[..|s| - 1]);
    }
  }

  /** `s.trim() === ""` holds exactly when every character of `s` is whitespace. */
  lemma TrimEmptyIffBlank(s: string)
    ensures Trim(s) == [] <==> IsBlank(s)
  {
    TrimStartEmptyIffBlank(s);
    if TrimStart(s) != [] {
      TrimEndKeepsFirst(TrimStart(s));
    }
  }

  /** `c.toLowerCase()`; only the ASCII letters are mapped. */
  function LowerChar(c: char): char
  {
    if 'A' <= c <= 'Z' then (c as int + 32) as char else c
  }

  /** `s.toLowerCase()` on ASCII letters. */
  function ToLower(s: string): (r: string)
    ensures |r| == |s|
    ensures forall i :: 0 <= i < |s| ==> r[i] == LowerChar(s[i])
  {
    if s == [] then [] else [LowerChar(s[0])] + ToLower(s[1..])
  }

  /** `s.slice(-1)`: the last character, or the empty string. */
  function LastChar(s: string): (r: string)
    ensures |r| <= 1
    ensures s != [] <==> r != []
    ensures s != [] ==> r == [s[|s| - 1]]
  {
    if s == [] then [] else s[|s| - 1..]
  }
}
