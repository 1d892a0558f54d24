/**
 * String facts used by the scaffold: where a pattern occurs in a text, the
 * first occurrence (what `String.prototype.indexOf` and a string-pattern
 * `String.prototype.replace` look for), and ECMAScript `String.prototype.trim`.
 */
module Text {
  import opened Wrappers

  /** `p` occurs in `s` starting at index `j`. */
  predicate OccursAt(s: string, p: string, j: int)
  {
    0 <= j && j + |p| <= |s| && s[j..j + |p|] == p
  }

  /** `p` occurs nowhere in `s`. */
  predicate Absent(s: string, p: string)
  {
    forall j | 0 <= j <= |s| - |p| :: !OccursAt(s, p, j)
  }

  /** The first index at or after `k` where `p` occurs in `s`. */
  function IndexFrom(s: string, p: string, k: nat): (r: Option<nat>)
    ensures r.Some? ==> k <= r.value && OccursAt(s, p, r.value)
    ensures r.Some? ==> forall j | k <= j < r.value :: !OccursAt(s, p, j)
    ensures r.None? ==> forall j | k <= j :: !OccursAt(s, p, j)
    decreases |s| - k
  {
    if k + |p| > |s| then None
    else if s[k..k + |p|] == p then Some(k)
    else IndexFrom(s, p, k + 1)
  }

  /** `s.indexOf(p)`, with None for -1. */
  function IndexOf(s: string, p: string): (r: Option<nat>)
    ensures r.Some? ==> OccursAt(s, p, r.value) && forall j | 0 <= j < r.value :: !OccursAt(s, p, j)
    ensures r.None? <==> Absent(s, p)
  {
    IndexFrom(s, p, 0)
  }

  /** An occurrence with none before it is the one IndexOf finds. */
  lemma IndexOfIsFirst(s: string, p: string, i: nat)
    requires OccursAt(s, p, i)
    requires forall j | 0 <= j < i :: !OccursAt(s, p, j)
    ensures IndexOf(s, p) == Some(i)
  {
    assert !Absent(s, p);
  }

  // ---- Absence of a pattern, proved piece by piece ----

  lemma {:induction false} OccursAtChars(s: string, p: string, j: int, k: int)
    requires OccursAt(s, p, j) && 0 <= k < |p|
    ensures s[j + k] == p[k]
  {
    assert s[j..j + |p|][k] == p[k];
  }

  /** A text in which `p[0]` is never followed by `p[1]` does not contain `p`. */
  lemma AbsentByPair(s: string, p: string)
    requires |p| >= 2
    requires forall j | 0 <= j < |s| - 1 :: !(s[j] == p[0] && s[j + 1] == p[1])
    ensures Absent(s, p)
  {
    forall j | 0 <= j <= |s| - |p| ensures !OccursAt(s, p, j) {
      if OccursAt(s, p, j) {
        OccursAtChars(s, p, j, 0);
        OccursAtChars(s, p, j, 1);
      }
    }
  }

  /** A text that never holds the first four characters of `p` in a row does not contain `p`. */
  lemma AbsentByQuad(s: string, p: string)
    requires |p| >= 4
    requires forall j | 0 <= j < |s| - 3 ::
      !(s[j] == p[0] && s[j + 1] == p[1] && s[j + 2] == p[2] && s[j + 3] == p[3])
    ensures Absent(s, p)
  {
    forall j | 0 <= j <= |s| - |p| ensures !OccursAt(s, p, j) {
      if OccursAt(s, p, j) {
        OccursAtChars(s, p, j, 0);
        OccursAtChars(s, p, j, 1);
        OccursAtChars(s, p, j, 2);
        OccursAtChars(s, p, j, 3);
      }
    }
  }

  /** The two sides of a seam that no occurrence of `p` can cross. */
  predicate Seam(a: string, b: string, p: string)
  {
    (a != [] && a[|a| - 1] !in p) || (b != [] && b[0] !in p)
  }

  /**
   * An occurrence in `a + b` that starts in `a` and ends in `b` covers the last
   * character of `a` and the first of `b`.
   */
  lemma NoStraddle(a: string, b: string, p: string, j: int)
    requires Seam(a, b, p)
    requires 0 <= j < |a| < j + |p| <= |a| + |b|
    ensures !OccursAt(a + b, p, j)
  {
    assert p[|a| - 1 - j] in p;
    assert p[|a| - j] in p;
    if OccursAt(a + b, p, j) {
      OccursAtChars(a + b, p, j, |a| - 1 - j);
      OccursAtChars(a + b, p, j, |a| - j);
    }
  }

  /** Gluing two texts without the pattern at a character the pattern does not use. */
  lemma AbsentConcat(a: string, b: string, p: string)
    requires Absent(a, p) && Absent(b, p)
    requires Seam(a, b, p)
    ensures Absent(a + b, p)
  {
    var s := a + b;
    forall j | 0 <= j <= |s| - |p| ensures !OccursAt(s, p, j) {
      if j + |p| <= |a| {
        assert s[j..j + |p|] == a[j..j + |p|];
        assert !OccursAt(a, p, j);
      } else if j < |a| {
        NoStraddle(a, b, p, j);
      } else {
        assert s[j..j + |p|] == b[j - |a|..j - |a| + |p|];
        assert !OccursAt(b, p, j - |a|);
      }
    }
  }

  /** `p` placed after `a` occurs right after it. */
  lemma OccursBetween(a: string, p: string, b: string)
    ensures OccursAt(a + p + b, p, |a|)
  {
    assert (a + p + b)[|a|..|a| + |p|] == p;
  }

  /** Where `p` occurs in `b`, it occurs in `a + b` shifted by `|a|`. */
  lemma OccursShifted(a: string, b: string, p: string, j: int)
    requires 0 <= j
    ensures OccursAt(a + b, p, |a| + j) <==> OccursAt(b, p, j)
  {
    if j + |p| <= |b| {
      assert (a + b)[|a| + j..|a| + j + |p|] == b[j..j + |p|];
    }
  }

  /** Where `p` occurs in `a`, it occurs at the same place in `a + b`. */
  lemma OccursInPrefix(a: string, b: string, p: string, j: int)
    requires j + |p| <= |a|
    ensures OccursAt(a + b, p, j) <==> OccursAt(a, p, j)
  {
    if 0 <= j {
      assert (a + b)[j..j + |p|] == a[j..j + |p|];
    }
  }

  /**
   * `p` placed between two texts without it occurs exactly once, where it was
   * placed, when its first character does not come back in it: any other
   * occurrence starting before `p` would cover that first character of `p`
   * at a later position of its own.
   */
  lemma SoleOccurrence(a: string, p: string, b: string)
    requires p != [] && forall k | 0 < k < |p| :: p[k] != p[0]
    requires Absent(a, p) && Absent(b, p)
    ensures forall j :: OccursAt(a + p + b, p, j) <==> j == |a|
  {
    var s := a + p + b;
    assert s == a + (p + b);
    assert s[|a|] == p[0];
    forall j ensures OccursAt(s, p, j) <==> j == |a| {
      if j == |a| {
        assert s[j..j + |p|] == p;
      } else if 0 <= j < |a| && j + |p| <= |a| {
        OccursInPrefix(a, p + b, p, j);
      } else if 0 <= j < |a| {
        if OccursAt(s, p, j) { OccursAtChars(s, p, j, |a| - j); }
      } else if |a| < j < |a| + |p| {
        assert s[j] == p[j - |a|];
        if OccursAt(s, p, j) { OccursAtChars(s, p, j, 0); }
      } else if j >= |a| + |p| {
        OccursShifted(a + p, b, p, j - |a| - |p|);
      }
    }
  }

  /** The text before the first occurrence does not contain the pattern. */
  lemma AbsentBeforeFirst(s: string, p: string, i: nat)
    requires p != [] && IndexOf(s, p) == Some(i)
    ensures Absent(s[..i], p)
  {
    forall j | 0 <= j <= i - |p| ensures !OccursAt(s[..i], p, j) {
      assert s[..i][j..j + |p|] == s[j..j + |p|];
      assert !OccursAt(s, p, j);
    }
  }

  /** No occurrence in `x + rest` starts inside `x` when `x` lacks `p` and the seam cannot be crossed. */
  lemma NoneBefore(x: string, rest: string, p: string)
    requires Absent(x, p) && Seam(x, rest, p)
    ensures forall j | 0 <= j < |x| :: !OccursAt(x + rest, p, j)
  {
    forall j | 0 <= j < |x| ensures !OccursAt(x + rest, p, j) {
      if j + |p| <= |x| {
        OccursInPrefix(x, rest, p, j);
      } else if j + |p| <= |x| + |rest| {
        NoStraddle(x, rest, p, j);
      }
    }
  }

  /** A text without a prefix of `p` does not contain `p`. */
  lemma AbsentByPrefix(s: string, p: string, q: string)
    requires q <= p && Absent(s, q)
    ensures Absent(s, p)
  {
    forall j | 0 <= j <= |s| - |p| ensures OccursAt(s, p, j) ==> OccursAt(s, q, j) {
      if OccursAt(s, p, j) {
        assert s[j..j + |q|] == s[j..j + |p|][..|q|];
      }
    }
  }

  // ---- ECMAScript String.prototype.trim ----

  /**
   * The code points `trim` removes: the WhiteSpace and LineTerminator
   * productions of ECMAScript (tab, vertical tab, form feed, space, no-break
   * space, byte order mark, the Zs space separators, line feed, carriage
   * return, line and paragraph separators).
   */
  predicate IsSpace(c: char)
  {
    c == '\t' || c == '\U{000B}' || c == '\U{000C}' || c == ' ' || c == '\U{00A0}'
    || c == '\U{FEFF}' || c == '\U{1680}' || ('\U{2000}' <= c <= '\U{200A}')
    || c == '\U{202F}' || c == '\U{205F}' || c == '\U{3000}'
    || c == '\n' || c == '\r' || c == '\U{2028}' || c == '\U{2029}'
  }

  predicate AllSpace(s: string)
  {
    forall k | 0 <= k < |s| :: IsSpace(s[k])
  }

  /** `s` without its leading white space: a suffix of `s` whose dropped part is all white space. */
  function TrimStart(s: string): (r: string)
    ensures |r| <= |s| && r == s[|s| - |r|..]
    ensures AllSpace(s[..|s| - |r|])
    ensures r == [] || !IsSpace(r[0])
  {
    if |s| > 0 && IsSpace(s[0]) then TrimStart(s[1..]) else s
  }

  /** `s` without its trailing white space: a prefix of `s` whose dropped part is all white space. */
  function TrimEnd(s: string): (r: string)
    ensures |r| <= |s| && r == s[..|r|]
    ensures AllSpace(s[|r|..])
    ensures r == [] || !IsSpace(r[|r| - 1])
  {
    if |s| > 0 && IsSpace(s[|s| - 1]) then TrimEnd(s[..|s| - 1]) else s
  }

  /** `s.trim()`. */
  function Trim(s: string): (r: string)
    ensures r == [] || (!IsSpace(r[0]) && !IsSpace(r[|r| - 1]))
  {
    TrimEnd(TrimStart(s))
  }

  /**
   * `trim` cuts `s` into white space, the result, and white space: the result
   * is the slice `s[i..i + |r|]` for some `i`, everything outside it is white
   * space, and it neither starts nor ends with white space.
   */
  lemma TrimIsSlice(s: string)
    ensures exists i | 0 <= i <= |s| - |Trim(s)| ::
      s[i..i + |Trim(s)|] == Trim(s) && AllSpace(s[..i]) && AllSpace(s[i + |Trim(s)|..])
  {
    var t := TrimStart(s);
    var r := TrimEnd(t);
    var i := |s| - |t|;
    assert t == s[i..];
    assert s[i..i + |r|] == r by { assert s[i..i + |r|] == t[..|r|]; }
    assert AllSpace(s[i + |r|..]) by { assert s[i + |r|..] == t[|r|..]; }
    assert AllSpace(s[..i]);
  }

  /** `trim` gives the empty string exactly for a text made of white space only. */
  lemma TrimEmptyIffAllSpace(s: string)
    ensures Trim(s) == [] <==> AllSpace(s)
  {
    var t := TrimStart(s);
    if Trim(s) == [] {
      assert AllSpace(t[|t|..]);
      assert t == [] by { assert t[0..] == t; }
      assert s[..|s|] == s;
    }
  }

  /** Trimming twice is trimming once. */
  lemma TrimIdempotent(s: string)
    ensures Trim(Trim(s)) == Trim(s)
  {
    var r := Trim(s);
    if r != [] {
      assert TrimStart(r) == r;
      assert TrimEnd(r) == r;
    }
  }

  /** Leading white space before a text that does not start with white space is exactly what `trimStart` drops. */
  lemma {:induction false} TrimStartPadded(pre: string, rest: string)
    requires AllSpace(pre) && (rest == [] || !IsSpace(rest[0]))
    ensures TrimStart(pre + rest) == rest
  {
    if pre == [] {
      assert pre + rest == rest;
    } else {
      assert (pre + rest)[0] == pre[0];
      assert (pre + rest)[1..] == pre[1..] + rest;
      TrimStartPadded(pre[1..], rest);
    }
  }

  /** Trailing white space after a text that does not end with white space is exactly what `trimEnd` drops. */
  lemma {:induction false} TrimEndPadded(rest: string, post: string)
    requires AllSpace(post) && (rest == [] || !IsSpace(rest[|rest| - 1]))
    ensures TrimEnd(rest + post) == rest
  {
    if post == [] {
      assert rest + post == rest;
    } else {
      var s := rest + post;
      assert s[|s| - 1] == post[|post| - 1];
      assert s[..|s| - 1] == rest + post[..|post| - 1];
      TrimEndPadded(rest, post[..|post| - 1]);
    }
  }

  /** `trim` of a text padded with white space on both sides gives the text back. */
  lemma TrimPadded(pre: string, core: string, post: string)
    requires AllSpace(pre) && AllSpace(post)
    requires core != [] && !IsSpace(core[0]) && !IsSpace(core[|core| - 1])
    ensures Trim(pre + core + post) == core
  {
    assert pre + core + post == pre + (core + post);
    TrimStartPadded(pre, core + post);
    TrimEndPadded(core, post);
  }
}
