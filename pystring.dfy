/**
 * The Python `str` operations the orchestration code relies on, as functions on
 * `seq<char>`: `isspace`, `lower`/`upper` (ASCII letters only), `strip`, `split()`,
 * `replace`, the substring test `u in s`, slicing `s[:n]` and `sep.join(parts)`.
 */
module PyString {

  /** Python's `str.isspace()` for one character. */
  predicate IsSpace(c: char) {
    c == ' ' || ('\t' <= c <= '\r') || ('\U{1C}' <= c <= '\U{1F}')
    || c == '\U{85}' || c == '\U{A0}' || c == '\U{1680}'
    || ('\U{2000}' <= c <= '\U{200A}') || c == '\U{2028}' || c == '\U{2029}'
    || c == '\U{202F}' || c == '\U{205F}' || c == '\U{3000}'
  }

  function LowerChar(c: char): char {
    if 'A' <= c <= 'Z' then (c as int + 32) as char else c
  }

  function UpperChar(c: char): char {
    if 'a' <= c <= 'z' then (c as int - 32) as char else c
  }

  /** `s.lower()`, on ASCII letters. */
  function Lower(s: string): (r: string)
    ensures |r| == |s|
    ensures forall i :: 0 <= i < |s| ==> r[i] == LowerChar(s[i])
  {
    if s == [] then [] else [LowerChar(s[0])] + Lower(s[1..])
  }

  /** `s.upper()`, on ASCII letters. */
  function Upper(s: string): (r: string)
    ensures |r| == |s|
    ensures forall i :: 0 <= i < |s| ==> r[i] == UpperChar(s[i])
  {
    if s == [] then [] else [UpperChar(s[0])] + Upper(s[1..])
  }

  /** `s[:n]` for a non-negative `n`. */
  function Take(s: string, n: nat): (r: string)
    ensures |r| == if n < |s| then n else |s|
    ensures r <= s
  {
    if n < |s| then s[..n] else s
  }

  predicate StartsWith(s: string, p: string) {
    |p| <= |s| && s[..|p|] == p
  }

  /** Python's `u in s`: `u` is a contiguous substring of `s`. */
  predicate Occurs(s: string, u: string)
    decreases |s|
  {
    StartsWith(s, u) || (s != [] && Occurs(s[1..], u))
  }

  /** `s.replace(pat, sub)`: every non-overlapping occurrence, scanning left to right. */
  function Replace(s: string, pat: string, sub: string): string
    requires pat != []
    decreases |s|
  {
    if s == [] then []
    else if StartsWith(s, pat) then sub + Replace(s[|pat|..], pat, sub)
    else [s[0]] + Replace(s[1..], pat, sub)
  }

  /** `sep.join(parts)`. */
  function Join(sep: string, parts: seq<string>): string
    decreases |parts|
  {
    if parts == [] then []
    else if |parts| == 1 then parts[0]
    else parts[0] + sep + Join(sep, parts[1..])
  }

  function LStrip(s: string): string
    decreases |s|
  {
    if s != [] && IsSpace(s[0]) then LStrip(s[1..]) else s
  }

  function RStrip(s: string): string
    decreases |s|
  {
    if s != [] && IsSpace(s[|s| - 1]) then RStrip(s[..|s| - 1]) else s
  }

  /** `s.strip()`: whitespace removed from both ends. */
  function Strip(s: string): string {
    RStrip(LStrip(s))
  }

  /** Number of leading characters of `s` that are not whitespace. */
  function WordLength(s: string): (n: nat)
    ensures n <= |s|
    decreases |s|
  {
    if s == [] || IsSpace(s[0]) then 0 else 1 + WordLength(s[1..])
  }

  /** `s.split()` with no separator: the maximal runs of non-whitespace characters. */
  function Split(s: string): seq<string>
    decreases |s|
  {
    if s == [] then []
    else if IsSpace(s[0]) then Split(s[1..])
    else
      var n := WordLength(s);
      [s[..n]] + Split(s[n..])
  }

  predicate AllSpace(s: string) {
    forall i :: 0 <= i < |s| ==> IsSpace(s[i])
  }

  predicate NoSpace(s: string) {
    forall i :: 0 <= i < |s| ==> !IsSpace(s[i])
  }

  // ---------------------------------------------------------------------------
  // Substring occurrences

  lemma {:induction false} OccursInSuffix(s: string, u: string, k: nat)
    requires k <= |s|
    ensures Occurs(s[k..], u) ==> Occurs(s, u)
    decreases k
  {
    if k > 0 {
      assert s[1..][k - 1..] == s[k..];
      OccursInSuffix(s[1..], u, k - 1);
    }
  }

  lemma {:induction false} OccursInPrefix(s: string, u: string, k: nat)
    requires k <= |s|
    ensures Occurs(s[..k], u) ==> Occurs(s, u)
    decreases k
  {
    if StartsWith(s[..k], u) {
      assert s[..|u|] == s[..k][..|u|];
    } else if k > 0 {
      assert s[..k][1..] == s[1..][..k - 1];
      OccursInPrefix(s[1..], u, k - 1);
    }
  }

  /** An occurrence inside a slice is an occurrence in the whole string. */
  lemma OccursInSlice(s: string, u: string, i: nat, j: nat)
    requires i <= j <= |s|
    ensures Occurs(s[i..j], u) ==> Occurs(s, u)
  {
    assert s[i..j] == s[i..][..j - i];
    OccursInPrefix(s[i..], u, j - i);
    OccursInSuffix(s, u, i);
  }

  /** `u` occurs in any string that has it as a middle part. */
  lemma {:induction false} OccursInMiddle(a: string, u: string, b: string)
    ensures Occurs(a + u + b, u)
    decreases |a|
  {
    if a == [] {
      assert (a + u + b)[..|u|] == u;
    } else {
      assert (a + u + b)[1..] == a[1..] + u + b;
      OccursInMiddle(a[1..], u, b);
    }
  }

  /** An occurrence in `s` is an occurrence in any extension `s + t`. */
  lemma OccursExtend(s: string, t: string, u: string)
    ensures Occurs(s, u) ==> Occurs(s + t, u)
  {
    assert (s + t)[..|s|] == s;
    OccursInPrefix(s + t, u, |s|);
  }

  /** Each variable part of a template `a + x + b + y + c` occurs in the filled-in text. */
  lemma OccursInTemplate2(a: string, x: string, b: string, y: string, c: string)
    ensures Occurs(a + x + b + y + c, x)
    ensures Occurs(a + x + b + y + c, y)
  {
    OccursInMiddle(a, x, b + y + c);
    assert a + x + (b + y + c) == a + x + b + y + c;
    OccursInMiddle(a + x + b, y, c);
  }

  /** Each variable part of a template `a + x + b + y + c + z + d` occurs in the filled-in text. */
  lemma OccursInTemplate3(a: string, x: string, b: string, y: string, c: string, z: string, d: string)
    ensures Occurs(a + x + b + y + c + z + d, x)
    ensures Occurs(a + x + b + y + c + z + d, y)
    ensures Occurs(a + x + b + y + c + z + d, z)
  {
    OccursInTemplate2(a, x, b, y, c + z + d);
    assert a + x + b + y + (c + z + d) == a + x + b + y + c + z + d;
    OccursInMiddle(a + x + b + y + c, z, d);
  }

  /**
   * An occurrence of `u` in `a + b` lies in `a`, lies in `b`, or straddles the seam
   * and so uses the last character of `a`.
   */
  lemma {:induction false} OccursAcrossSeam(a: string, b: string, u: string)
    ensures Occurs(a + b, u) ==> Occurs(a, u) || Occurs(b, u) || (a != [] && a[|a| - 1] in u)
    decreases |a|
  {
    if a == [] {
      assert a + b == b;
    } else {
      if StartsWith(a + b, u) {
        if |u| <= |a| {
          assert a[..|u|] == (a + b)[..|u|];
        } else {
          assert u[|a| - 1] == (a + b)[..|u|][|a| - 1] == a[|a| - 1];
        }
      }
      assert (a + b)[1..] == a[1..] + b;
      OccursAcrossSeam(a[1..], b, u);
      if a[1..] != [] {
        assert a[1..][|a[1..]| - 1] == a[|a| - 1];
      }
    }
  }

  // ---------------------------------------------------------------------------
  // replace

  /**
   * Up to the first character of a replacement, `Replace(t, w, rep)` agrees with `t`.
   */
  lemma {:induction false} ReplaceKeepsPrefix(t: string, w: string, rep: string, m: nat)
    requires w != [] && rep != []
    ensures m <= |Replace(t, w, rep)| && rep[0] !in Replace(t, w, rep)[..m] ==>
              m <= |t| && Replace(t, w, rep)[..m] == t[..m]
    decreases |t|
  {
    if t != [] && m > 0 && !StartsWith(t, w) {
      var r := Replace(t[1..], w, rep);
      assert Replace(t, w, rep) == [t[0]] + r;
      if m <= |Replace(t, w, rep)| {
        assert r[..m - 1] == Replace(t, w, rep)[..m][1..];
      }
      ReplaceKeepsPrefix(t[1..], w, rep, m - 1);
    } else if t != [] && m > 0 {
      if m <= |Replace(t, w, rep)| {
        assert Replace(t, w, rep)[..m][0] == rep[0];
      }
    }
  }

  /**
   * A replacement that does not begin with a character of `u` cannot start an
   * occurrence of `u`: if `s[0]` followed by the rest of `s` with `w` replaced starts
   * with `u`, then `s` itself starts with `u`.
   */
  lemma StartAfterReplace(s: string, w: string, rep: string, u: string)
    requires s != [] && w != [] && u != [] && rep != []
    requires rep[0] !in u
    ensures StartsWith([s[0]] + Replace(s[1..], w, rep), u) ==> StartsWith(s, u)
  {
    var r := Replace(s[1..], w, rep);
    var m := |u| - 1;
    ReplaceKeepsPrefix(s[1..], w, rep, m);
    if StartsWith([s[0]] + r, u) {
      assert r[..m] == u[1..] by {
        assert ([s[0]] + r)[..|u|] == u;
      }
      forall i | 0 <= i < m ensures r[..m][i] != rep[0] {
        assert r[..m][i] == u[i + 1];
      }
      assert s[..|u|] == [s[0]] + s[1..][..m];
    }
  }

  /**
   * After `s.replace(w, rep)`, a string `u` occurs only where it could not be built:
   * if `rep` neither contains `u` nor shares its first or last character with `u`,
   * then `u` is absent from the result whenever it is `w` itself or was absent from `s`.
   */
  lemma {:induction false} ReplaceAvoids(s: string, w: string, rep: string, u: string)
    requires w != [] && u != [] && rep != []
    requires rep[0] !in u && rep[|rep| - 1] !in u
    requires !Occurs(rep, u)
    requires u == w || !Occurs(s, u)
    ensures !Occurs(Replace(s, w, rep), u)
    decreases |s|
  {
    if s == [] {
    } else if StartsWith(s, w) {
      var rest := s[|w|..];
      OccursInSuffix(s, u, |w|);
      ReplaceAvoids(rest, w, rep, u);
      OccursAcrossSeam(rep, Replace(rest, w, rep), u);
    } else {
      var r := Replace(s[1..], w, rep);
      assert Replace(s, w, rep) == [s[0]] + r;
      ReplaceAvoids(s[1..], w, rep, u);
      StartAfterReplace(s, w, rep, u);
      assert ([s[0]] + r)[1..] == r;
    }
  }

  /** Putting `a` in front keeps every occurrence in `b`, and the result starts with `a`. */
  lemma OccursAfterPrefix(a: string, b: string, u: string)
    ensures StartsWith(a + b, a)
    ensures Occurs(b, u) ==> Occurs(a + b, u)
  {
    assert (a + b)[..|a|] == a;
    assert (a + b)[|a|..] == b;
    OccursInSuffix(a + b, u, |a|);
  }

  /** A string lacking one character of `u` does not contain `u`. */
  lemma {:induction false} MissingCharNoOccurrence(s: string, u: string, c: char)
    ensures c in u && c !in s ==> !Occurs(s, u)
    decreases |s|
  {
    if c in u && c !in s && s != [] {
      MissingCharNoOccurrence(s[1..], u, c);
      assert forall x :: x in s[1..] ==> x in s;
    }
  }

  /** `any(w in text for w in words)`. */
  predicate AnyOccurs(text: string, words: seq<string>) {
    exists i :: 0 <= i < |words| && Occurs(text, words[i])
  }

  /** `s.replace(w, rep)` leaves a string without `w` untouched. */
  lemma {:induction false} ReplaceAbsent(s: string, w: string, rep: string)
    requires w != []
    requires !Occurs(s, w)
    ensures Replace(s, w, rep) == s
    decreases |s|
  {
    if s != [] {
      ReplaceAbsent(s[1..], w, rep);
    }
  }

  // ---------------------------------------------------------------------------
  // lower

  /** Lowering twice is lowering once. */
  lemma LowerIdempotent(s: string)
    ensures Lower(Lower(s)) == Lower(s)
  {
  }

  /** The occurrence test `u in s` survives lowering both strings. */
  lemma {:induction false} LowerKeepsOccurrence(s: string, u: string)
    requires Occurs(s, u)
    ensures Occurs(Lower(s), Lower(u))
    decreases |s|
  {
    if StartsWith(s, u) {
      assert Lower(s)[..|u|] == Lower(u);
    } else {
      assert Lower(s)[1..] == Lower(s[1..]);
      LowerKeepsOccurrence(s[1..], u);
    }
  }

  // ---------------------------------------------------------------------------
  // strip

  lemma {:induction false} LStripShape(s: string)
    ensures |LStrip(s)| <= |s| && LStrip(s) == s[|s| - |LStrip(s)|..]
    ensures LStrip(s) == [] || !IsSpace(LStrip(s)[0])
    decreases |s|
  {
    if s != [] && IsSpace(s[0]) {
      LStripShape(s[1..]);
    }
  }

  lemma {:induction false} RStripShape(s: string)
    ensures |RStrip(s)| <= |s| && RStrip(s) == s[..|RStrip(s)|]
    ensures RStrip(s) == [] || !IsSpace(RStrip(s)[|RStrip(s)| - 1])
    decreases |s|
  {
    if s != [] && IsSpace(s[|s| - 1]) {
      RStripShape(s[..|s| - 1]);
    }
  }

  /** `s.strip()` is a slice of `s` that neither starts nor ends with whitespace. */
  lemma StripShape(s: string)
    ensures exists i, j :: 0 <= i <= j <= |s| && Strip(s) == s[i..j]
    ensures Strip(s) == [] || (!IsSpace(Strip(s)[0]) && !IsSpace(Strip(s)[|Strip(s)| - 1]))
  {
    LStripShape(s);
    var t := LStrip(s);
    var i := |s| - |t|;
    RStripShape(t);
    var k := |RStrip(t)|;
    assert Strip(s) == s[i..i + k];
    if k > 0 {
      assert RStrip(t)[0] == t[0];
    }
  }

  /** A string with no whitespace at either end is its own `strip()`. */
  lemma StripUnchanged(s: string)
    requires s == [] || (!IsSpace(s[0]) && !IsSpace(s[|s| - 1]))
    ensures Strip(s) == s
  {
  }

  // ---------------------------------------------------------------------------
  // split

  lemma {:induction false} WordIsNotSpace(s: string)
    ensures NoSpace(s[..WordLength(s)])
    ensures WordLength(s) < |s| ==> IsSpace(s[WordLength(s)])
    decreases |s|
  {
    if s != [] && !IsSpace(s[0]) {
      WordIsNotSpace(s[1..]);
      var n := WordLength(s[1..]);
      assert s[..n + 1] == [s[0]] + s[1..][..n];
    }
  }

  /** Every token of `s.split()` is non-empty and free of whitespace. */
  lemma {:induction false} SplitTokens(s: string)
    ensures forall t :: t in Split(s) ==> t != [] && NoSpace(t)
    decreases |s|
  {
    if s == [] {
    } else if IsSpace(s[0]) {
      SplitTokens(s[1..]);
    } else {
      var n := WordLength(s);
      WordIsNotSpace(s);
      SplitTokens(s[n..]);
    }
  }

  /** A string made only of whitespace splits into no tokens at all. */
  lemma {:induction false} SplitAllSpace(s: string)
    requires AllSpace(s)
    ensures Split(s) == []
    decreases |s|
  {
    if s != [] {
      SplitAllSpace(s[1..]);
    }
  }
}
