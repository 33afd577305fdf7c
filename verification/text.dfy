/**
 * The string primitives the mail service relies on, as .NET defines them for
 * ordinal comparison: `String.Replace`, `String.Trim` and `String.ToUpper`.
 */
module Text {

  /** No curly brace anywhere in `s`: such text can never form or split a `{Name}` token. */
  predicate BraceFree(s: string) {
    '{' !in s && '}' !in s
  }

  /** Text that is brace free by its type; fixed texts of this type are checked once, where declared. */
  type Plain = s: string | BraceFree(s)

  /** `t` occurs somewhere in `s` (ordinal comparison). */
  predicate Contains(s: string, t: string) {
    exists i :: 0 <= i <= |s| && t <= s[i..]
  }

  /** A piece of a concatenation occurs in it. */
  lemma ContainsInfix(a: string, b: string, c: string)
    ensures Contains(a + b + c, b)
  {
    assert b <= (a + b + c)[|a|..];
  }

  // ---------------------------------------------------------------------------
  // String.Replace
  // ---------------------------------------------------------------------------

  /**
   * `s.Replace(pat, rep)`: scans left to right, replaces every occurrence of
   * `pat`, occurrences do not overlap, and the inserted `rep` is not rescanned.
   */
  function ReplaceAll(s: string, pat: string, rep: string): string
    requires |pat| > 0
    decreases |s|
  {
    if |s| < |pat| then s
    else if pat <= s then rep + ReplaceAll(s[|pat|..], pat, rep)
    else [s[0]] + ReplaceAll(s[1..], pat, rep)
  }

  /** A string that does not contain the pattern comes back unchanged. */
  lemma {:induction false} ReplaceAbsent(s: string, pat: string, rep: string)
    requires |pat| > 0
    requires !Contains(s, pat)
    ensures ReplaceAll(s, pat, rep) == s
    decreases |s|
  {
    if |s| >= |pat| {
      assert s[0..] == s;
      forall i | 0 <= i <= |s[1..]|
        ensures !(pat <= s[1..][i..])
      {
        assert s[1..][i..] == s[i + 1..];
      }
      ReplaceAbsent(s[1..], pat, rep);
    }
  }

  /**
   * Text in which the pattern's first character never appears cannot start an
   * occurrence, so it is copied through and the scan resumes after it.
   */
  lemma {:induction false} ReplaceSkipsPrefix(t: string, u: string, pat: string, rep: string)
    requires |pat| > 0
    requires pat[0] !in t
    ensures ReplaceAll(t + u, pat, rep) == t + ReplaceAll(u, pat, rep)
    decreases |t|
  {
    if |t| == 0 {
      assert t + u == u;
    } else {
      var s := t + u;
      if |s| >= |pat| {
        assert s[0] == t[0];
        assert s[0] != pat[0];
        assert !(pat <= s);
        assert s[1..] == t[1..] + u;
        assert pat[0] !in t[1..] by {
          assert forall k :: 0 <= k < |t[1..]| ==> t[1..][k] == t[k + 1];
        }
        ReplaceSkipsPrefix(t[1..], u, pat, rep);
        assert t == [t[0]] + t[1..];
      }
    }
  }

  /** An occurrence at the very start is replaced and the scan resumes after it. */
  lemma ReplaceAtStart(u: string, pat: string, rep: string)
    requires |pat| > 0
    ensures ReplaceAll(pat + u, pat, rep) == rep + ReplaceAll(u, pat, rep)
  {
    assert pat <= pat + u;
    assert (pat + u)[|pat|..] == u;
  }

  // ---------------------------------------------------------------------------
  // String.Trim
  // ---------------------------------------------------------------------------

  /** `char.IsWhiteSpace`: the Unicode space separators, line and paragraph separators, U+0009..U+000D and U+0085. */
  predicate IsWhiteSpace(c: char) {
    var n := c as int;
    || (0x09 <= n <= 0x0D) || n == 0x20 || n == 0x85 || n == 0xA0 || n == 0x1680
    || (0x2000 <= n <= 0x200A) || n == 0x2028 || n == 0x2029 || n == 0x202F
    || n == 0x205F || n == 0x3000
  }

  predicate AllWhiteSpace(s: string) {
    forall i :: 0 <= i < |s| ==> IsWhiteSpace(s[i])
  }

  /** Neither end of `s` is white space. */
  predicate Trimmed(s: string) {
    s == [] || (!IsWhiteSpace(s[0]) && !IsWhiteSpace(s[|s| - 1]))
  }

  /** `s.TrimStart()`: the suffix of `s` left after dropping the leading white space. */
  function TrimStart(s: string): (r: string)
    ensures |r| <= |s| && r == s[|s| - |r|..]
    ensures AllWhiteSpace(s[..|s| - |r|])
    ensures r == [] || !IsWhiteSpace(r[0])
    decreases |s|
  {
    if |s| > 0 && IsWhiteSpace(s[0]) then
      var r := TrimStart(s[1..]);
      assert s[..|s| - |r|] == [s[0]] + s[1..][..|s| - 1 - |r|];
      r
    else
      s
  }

  /** `s.TrimEnd()`: the prefix of `s` left after dropping the trailing white space. */
  function TrimEnd(s: string): (r: string)
    ensures |r| <= |s| && r == s[..|r|]
    ensures AllWhiteSpace(s[|r|..])
    ensures r == [] || !IsWhiteSpace(r[|r| - 1])
    decreases |s|
  {
    if |s| > 0 && IsWhiteSpace(s[|s| - 1]) then
      var r := TrimEnd(s[..|s| - 1]);
      assert s[|r|..] == s[..|s| - 1][|r|..] + [s[|s| - 1]];
      r
    else
      s
  }

  /** `s.Trim()`: drops white space at both ends; a whitespace-only string trims to "". */
  function Trim(s: string): (r: string)
    ensures |r| <= |s|
    ensures Trimmed(r)
    ensures r == [] <==> AllWhiteSpace(s)
  {
    var t := TrimStart(s);
    var r := TrimEnd(t);
    assert r == [] ==> AllWhiteSpace(s) by {
      if r == [] {
        assert t == t[|r|..];
        assert s == s[..|s| - |t|] + t;
      }
    }
    r
  }

  /** Trim characterised: surrounding white space goes, a trimmed core stays intact. */
  lemma TrimKeepsCore(w1: string, core: string, w2: string)
    requires AllWhiteSpace(w1) && AllWhiteSpace(w2) && Trimmed(core)
    ensures Trim(w1 + core + w2) == core
  {
    var s := w1 + core + w2;
    var t := TrimStart(s);
    if core == [] {
      assert AllWhiteSpace(s);
    } else {
      var k := |s| - |t|;
      assert forall j :: 0 <= j < k ==> IsWhiteSpace(s[j]) by {
        forall j | 0 <= j < k
          ensures IsWhiteSpace(s[j])
        {
          assert s[..k][j] == s[j];
        }
      }
      assert s[|w1|] == core[0];
      assert k <= |w1|;
      assert t[0] == s[k];
      assert k == |w1|;
      assert t == core + w2;
      var r := TrimEnd(t);
      assert forall j :: |r| <= j < |t| ==> IsWhiteSpace(t[j]) by {
        forall j | |r| <= j < |t|
          ensures IsWhiteSpace(t[j])
        {
          assert t[|r|..][j - |r|] == t[j];
        }
      }
      assert t[|core| - 1] == core[|core| - 1];
      assert |r| >= |core|;
      assert r[|r| - 1] == t[|r| - 1];
      assert |r| == |core|;
    }
  }

  /** A string with no white space at either end is its own trim. */
  lemma TrimOfTrimmed(t: string)
    requires Trimmed(t)
    ensures Trim(t) == t
  {
    TrimKeepsCore([], t, []);
    assert [] + t + [] == t;
  }

  /** Trimming twice is trimming once. */
  lemma TrimIdempotent(s: string)
    ensures Trim(Trim(s)) == Trim(s)
  {
    TrimOfTrimmed(Trim(s));
  }

  // ---------------------------------------------------------------------------
  // String.ToUpper (ASCII letters only)
  // ---------------------------------------------------------------------------

  predicate IsAsciiLower(c: char) {
    'a' <= c <= 'z'
  }

  function UpperChar(c: char): char {
    if IsAsciiLower(c) then (c as int - 32) as char else c
  }

  /** `s.ToUpper()` restricted to ASCII: every lower-case letter becomes its capital, nothing else moves. */
  function ToUpper(s: string): (r: string)
    ensures |r| == |s|
    ensures forall i :: 0 <= i < |s| ==> !IsAsciiLower(r[i])
    ensures forall i :: 0 <= i < |s| && !IsAsciiLower(s[i]) ==> r[i] == s[i]
    ensures forall i :: 0 <= i < |s| && IsAsciiLower(s[i]) ==> r[i] as int == s[i] as int - 32
    ensures forall i :: 0 <= i < |s| ==> (IsWhiteSpace(r[i]) <==> IsWhiteSpace(s[i]))
    decreases |s|
  {
    if |s| == 0 then [] else [UpperChar(s[0])] + ToUpper(s[1..])
  }

  /** A string without ASCII lower-case letters is its own upper-case form. */
  lemma ToUpperKeepsUpper(s: string)
    requires forall i :: 0 <= i < |s| ==> !IsAsciiLower(s[i])
    ensures ToUpper(s) == s
  {
    assert forall i :: 0 <= i < |s| ==> ToUpper(s)[i] == s[i];
  }

  /** Upper-casing is idempotent. */
  lemma ToUpperIdempotent(s: string)
    ensures ToUpper(ToUpper(s)) == ToUpper(s)
  {
  }

  /** Upper-casing leaves a trimmed string trimmed, so it commutes with Trim. */
  lemma TrimOfUpper(s: string)
    ensures Trim(ToUpper(Trim(s))) == ToUpper(Trim(s))
  {
    UpperKeepsTrimmed(Trim(s));
    TrimOfTrimmed(ToUpper(Trim(s)));
  }


  /** Upper-casing moves no white space, so a trimmed string stays trimmed. */
  lemma UpperKeepsTrimmed(t: string)
    requires Trimmed(t)
    ensures Trimmed(ToUpper(t))
  {
    var u := ToUpper(t);
    if |t| > 0 {
      assert IsWhiteSpace(u[0]) <==> IsWhiteSpace(t[0]);
      assert IsWhiteSpace(u[|u| - 1]) <==> IsWhiteSpace(t[|t| - 1]);
    }
  }
}
