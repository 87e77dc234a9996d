/**
 * Python string primitives used by the pipeline, over ASCII:
 * `str.strip()`, `str.lower()`, `str.isalpha()`, `str.isdigit()` and
 * `str.replace(old, new)` (every non-overlapping occurrence, left to right),
 * with the lemmas that let a replacement be computed piece by piece over a
 * template built by concatenation.
 */
module Text {

  // ---------------------------------------------------------------- whitespace

  /** Python's `str.isspace()` restricted to ASCII: tab, line feed, vertical tab,
      form feed, carriage return, the four separators 0x1C-0x1F and space. */
  predicate IsSpace(c: char) {
    (9 <= c as int <= 13) || (28 <= c as int <= 32)
  }

  predicate AllSpace(s: string) {
    forall k :: 0 <= k < |s| ==> IsSpace(s[k])
  }

  function TrimStart(s: string): (r: string)
    ensures |r| <= |s|
    ensures r == [] || !IsSpace(r[0])
  {
    if |s| > 0 && IsSpace(s[0]) then TrimStart(s[1..]) else s
  }

  function TrimEnd(s: string): (r: string)
    ensures |r| <= |s|
    ensures r == [] || !IsSpace(r[|r| - 1])
  {
    if |s| > 0 && IsSpace(s[|s| - 1]) then TrimEnd(s[..|s| - 1]) else s
  }

  /** What `TrimStart` removes is whitespace, and what it keeps is a suffix. */
  lemma {:induction false} TrimStartSlice(s: string)
    ensures TrimStart(s) == s[|s| - |TrimStart(s)|..]
    ensures AllSpace(s[..|s| - |TrimStart(s)|])
  {
    if |s| > 0 && IsSpace(s[0]) {
      TrimStartSlice(s[1..]);
      assert s[1..][..|s| - 1 - |TrimStart(s)|] == s[1..|s| - |TrimStart(s)|];
    }
  }

  /** What `TrimEnd` removes is whitespace, and what it keeps is a prefix. */
  lemma {:induction false} TrimEndSlice(s: string)
    ensures TrimEnd(s) == s[..|TrimEnd(s)|]
    ensures AllSpace(s[|TrimEnd(s)|..])
  {
    if |s| > 0 && IsSpace(s[|s| - 1]) {
      TrimEndSlice(s[..|s| - 1]);
      assert s[..|s| - 1][|TrimEnd(s)|..] == s[|TrimEnd(s)|..|s| - 1];
    }
  }

  /** Python's `s.strip()`: the input without its leading and trailing whitespace. */
  function Strip(s: string): (r: string)
    ensures |r| <= |s|
    ensures r == [] || (!IsSpace(r[0]) && !IsSpace(r[|r| - 1]))
  {
    var t := TrimStart(s);
    assert t != [] ==> TrimEnd(t) != [] && TrimEnd(t)[0] == t[0] by {
      if t != [] { TrimEndKeepsFirst(t); }
    }
    TrimEnd(t)
  }

  /** What `strip` keeps is a slice of the input with only whitespace around it. */
  lemma StripSlice(s: string)
    ensures exists i :: 0 <= i <= |s| - |Strip(s)| && Strip(s) == s[i..i + |Strip(s)|] &&
                        AllSpace(s[..i]) && AllSpace(s[i + |Strip(s)|..])
  {
    var t := TrimStart(s);
    var r := TrimEnd(t);
    var i := |s| - |t|;
    TrimStartSlice(s);
    TrimEndSlice(t);
    assert r == s[i..i + |r|];
    assert s[i + |r|..] == t[|r|..];
  }

  lemma TrimStartNoop(s: string)
    requires s == [] || !IsSpace(s[0])
    ensures TrimStart(s) == s
  {
  }

  lemma {:induction false} TrimEndKeepsFirst(s: string)
    requires s != [] && !IsSpace(s[0])
    ensures TrimEnd(s) != [] && TrimEnd(s)[0] == s[0]
  {
    if IsSpace(s[|s| - 1]) {
      TrimEndKeepsFirst(s[..|s| - 1]);
    }
  }

  /** A text without leading or trailing whitespace is its own strip. */
  lemma StripNoop(s: string)
    requires s == [] || (!IsSpace(s[0]) && !IsSpace(s[|s| - 1]))
    ensures Strip(s) == s
  {
    TrimStartNoop(s);
  }

  /** Stripping twice changes nothing more than stripping once. */
  lemma StripIdempotent(s: string)
    ensures Strip(Strip(s)) == Strip(s)
  {
    var r := Strip(s);
    if r != [] {
      TrimStartNoop(r);
      assert TrimEnd(r) == r;
    }
  }

  lemma {:induction false} TrimStartPadding(pre: string, s: string)
    requires AllSpace(pre)
    ensures TrimStart(pre + s) == TrimStart(s)
  {
    if pre != [] {
      assert (pre + s)[1..] == pre[1..] + s;
      TrimStartPadding(pre[1..], s);
    } else {
      assert pre + s == s;
    }
  }

  lemma {:induction false} TrimEndPadding(s: string, post: string)
    requires AllSpace(post)
    ensures TrimEnd(s + post) == TrimEnd(s)
    decreases |post|
  {
    if post != [] {
      var n := |post| - 1;
      assert (s + post)[..|s + post| - 1] == s + post[..n];
      TrimEndPadding(s, post[..n]);
    } else {
      assert s + post == s;
    }
  }

  lemma {:induction false} TrimStartAppend(s: string, post: string)
    requires TrimStart(s) != []
    ensures TrimStart(s + post) == TrimStart(s) + post
  {
    if IsSpace(s[0]) {
      assert (s + post)[1..] == s[1..] + post;
      TrimStartAppend(s[1..], post);
    }
  }

  lemma {:induction false} TrimStartAllSpace(s: string)
    requires AllSpace(s)
    ensures TrimStart(s) == []
  {
    if s != [] {
      TrimStartAllSpace(s[1..]);
    }
  }

  /** Whitespace added on either side is removed again by `strip`. */
  lemma StripPadding(pre: string, s: string, post: string)
    requires AllSpace(pre) && AllSpace(post)
    ensures Strip(pre + s + post) == Strip(s)
  {
    var x := pre + s + post;
    assert x == pre + (s + post);
    TrimStartPadding(pre, s + post);
    assert TrimStart(x) == TrimStart(s + post);
    var t := TrimStart(s);
    if t == [] {
      assert AllSpace(s) by {
        TrimStartSlice(s);
        assert s[..|s| - |t|] == s;
      }
      assert AllSpace(s + post) by {
        forall k | 0 <= k < |s + post| ensures IsSpace((s + post)[k]) {
          if k >= |s| { assert (s + post)[k] == post[k - |s|]; }
        }
      }
      TrimStartAllSpace(s + post);
      assert Strip(x) == TrimEnd([]);
    } else {
      TrimStartAppend(s, post);
      TrimEndPadding(t, post);
      assert Strip(x) == TrimEnd(t + post);
    }
  }

  // ---------------------------------------------------------------- case and classes

  /** Python's `str.lower()` on one ASCII character. */
  function LowerChar(c: char): char {
    if 'A' <= c <= 'Z' then (c as int + 32) as char else c
  }

  /** Python's `s.lower()` over ASCII. */
  function Lower(s: string): (r: string)
    ensures |r| == |s|
    ensures forall k :: 0 <= k < |s| ==> r[k] == LowerChar(s[k])
  {
    if s == [] then [] else [LowerChar(s[0])] + Lower(s[1..])
  }

  /** Case-insensitive equality, character by character. */
  predicate EqualsIgnoreCase(a: string, b: string) {
    |a| == |b| && forall k :: 0 <= k < |a| ==> LowerChar(a[k]) == LowerChar(b[k])
  }

  predicate IsAsciiLetter(c: char) {
    ('a' <= c <= 'z') || ('A' <= c <= 'Z')
  }

  predicate IsAsciiDigit(c: char) {
    '0' <= c <= '9'
  }

  /** Python's `s.isalpha()` over ASCII: non-empty and letters only. */
  predicate IsAlpha(s: string) {
    |s| > 0 && forall k :: 0 <= k < |s| ==> IsAsciiLetter(s[k])
  }

  /** Python's `s.isdigit()` over ASCII: non-empty and digits only. */
  predicate IsDigits(s: string) {
    |s| > 0 && forall k :: 0 <= k < |s| ==> IsAsciiDigit(s[k])
  }

  // ---------------------------------------------------------------- replacement

  /** Sequence concatenation is associative. */
  lemma ConcatAssoc<T>(x: seq<T>, y: seq<T>, z: seq<T>)
    ensures (x + y) + z == x + (y + z)
  {
  }

  /** True when `pat` occurs in `s` starting at position `i`. */
  predicate OccursAt(s: string, pat: string, i: nat) {
    i + |pat| <= |s| && s[i..i + |pat|] == pat
  }

  /** Python's `s.replace(pat, rep)` for a non-empty `pat`: scanning left to right,
      each occurrence is replaced and scanning resumes after it. */
  function ReplaceAll(s: string, pat: string, rep: string): string
    requires |pat| > 0
    decreases |s|
  {
    if |s| < |pat| then s
    else if s[..|pat|] == pat then rep + ReplaceAll(s[|pat|..], pat, rep)
    else [s[0]] + ReplaceAll(s[1..], pat, rep)
  }

  /** Python's `s.count(pat)`: the number of occurrences `ReplaceAll` replaces. */
  function CountOccurrences(s: string, pat: string): nat
    requires |pat| > 0
    decreases |s|
  {
    if |s| < |pat| then 0
    else if s[..|pat|] == pat then 1 + CountOccurrences(s[|pat|..], pat)
    else CountOccurrences(s[1..], pat)
  }

  /** A prefix that does not contain the first character of `pat` is copied
      unchanged and contributes no occurrence. */
  lemma {:induction false} ReplaceSkip(p: string, b: string, pat: string, rep: string)
    requires |pat| > 0 && pat[0] !in p
    ensures ReplaceAll(p + b, pat, rep) == p + ReplaceAll(b, pat, rep)
    ensures CountOccurrences(p + b, pat) == CountOccurrences(b, pat)
  {
    if p != [] {
      var s := p + b;
      assert s[0] == p[0];
      assert s[1..] == p[1..] + b;
      ReplaceSkip(p[1..], b, pat, rep);
      if |s| >= |pat| {
        assert s[..|pat|][0] != pat[0];
        calc {
          ReplaceAll(s, pat, rep);
          [p[0]] + ReplaceAll(p[1..] + b, pat, rep);
          [p[0]] + (p[1..] + ReplaceAll(b, pat, rep));
          { assert [p[0]] + p[1..] == p; }
          p + ReplaceAll(b, pat, rep);
        }
      }
    } else {
      assert p + b == b;
    }
  }

  /** An occurrence at the front is replaced and counted once. */
  lemma ReplaceHit(b: string, pat: string, rep: string)
    requires |pat| > 0
    ensures ReplaceAll(pat + b, pat, rep) == rep + ReplaceAll(b, pat, rep)
    ensures CountOccurrences(pat + b, pat) == 1 + CountOccurrences(b, pat)
  {
    var s := pat + b;
    assert s[..|pat|] == pat;
    assert s[|pat|..] == b;
  }

  /** A piece that starts like `pat` but differs from it at position `i`, and holds
      no further copy of `pat`'s first character, is skipped as a whole. */
  lemma ReplaceOther(t: string, b: string, pat: string, rep: string, i: nat)
    requires |pat| > 0 && t != [] && pat[0] !in t[1..]
    requires 0 < i < |t| && i < |pat| && t[i] != pat[i]
    ensures ReplaceAll(t + b, pat, rep) == t + ReplaceAll(b, pat, rep)
    ensures CountOccurrences(t + b, pat) == CountOccurrences(b, pat)
  {
    var s := t + b;
    if |s| >= |pat| {
      assert s[..|pat|] != pat by {
        assert s[..|pat|][i] == t[i];
      }
      assert s[0] == t[0] && s[1..] == t[1..] + b;
      ReplaceSkip(t[1..], b, pat, rep);
      calc {
        ReplaceAll(s, pat, rep);
        [t[0]] + ReplaceAll(t[1..] + b, pat, rep);
        [t[0]] + (t[1..] + ReplaceAll(b, pat, rep));
        { ConcatAssoc([t[0]], t[1..], ReplaceAll(b, pat, rep)); assert [t[0]] + t[1..] == t; }
        t + ReplaceAll(b, pat, rep);
      }
    } else {
      assert ReplaceAll(b, pat, rep) == b;
    }
  }

  /** A text without the first character of `pat` is left unchanged. */
  lemma ReplaceAbsent(s: string, pat: string, rep: string)
    requires |pat| > 0 && pat[0] !in s
    ensures ReplaceAll(s, pat, rep) == s
    ensures CountOccurrences(s, pat) == 0
  {
    ReplaceSkip(s, [], pat, rep);
    assert s + [] == s;
  }

  /** Replacing in `a + b` is replacing in `a` and in `b` separately. */
  predicate Distributes(a: string, b: string, pat: string, rep: string)
    requires |pat| > 0
  {
    && ReplaceAll(a + b, pat, rep) == ReplaceAll(a, pat, rep) + ReplaceAll(b, pat, rep)
    && CountOccurrences(a + b, pat) == CountOccurrences(a, pat) + CountOccurrences(b, pat)
  }

  /** A window that runs past a short `a` would have to put `b[0]` inside `pat`. */
  lemma ShortFrontMisses(a: string, b: string, pat: string)
    requires |pat| > 0 && |a| < |pat| <= |a + b|
    requires b == [] || b[0] !in pat
    ensures (a + b)[..|pat|] != pat
  {
    assert (a + b)[..|pat|][|a|] == b[0];
  }

  /** The step of `ReplaceSplit` when `pat` is replaced at the front of `a`. */
  lemma DistributesAfterHit(a: string, b: string, pat: string, rep: string)
    requires |pat| > 0 && |pat| <= |a| && a[..|pat|] == pat
    requires Distributes(a[|pat|..], b, pat, rep)
    ensures Distributes(a, b, pat, rep)
  {
    assert (a + b)[..|pat|] == pat;
    assert (a + b)[|pat|..] == a[|pat|..] + b;
  }

  /** The step of `ReplaceSplit` when the front character of `a` is copied. */
  lemma DistributesAfterMiss(a: string, b: string, pat: string, rep: string)
    requires |pat| > 0 && a != [] && |pat| <= |a + b| && (a + b)[..|pat|] != pat
    requires Distributes(a[1..], b, pat, rep)
    ensures Distributes(a, b, pat, rep)
  {
    assert (a + b)[1..] == a[1..] + b;
    if |a| < |pat| {
      assert ReplaceAll(a[1..], pat, rep) == a[1..];
      assert CountOccurrences(a[1..], pat) == 0;
      assert [a[0]] + a[1..] == a;
    } else {
      assert a[..|pat|] == (a + b)[..|pat|];
    }
  }

  /** Replacement distributes over a concatenation whose right part starts with a
      character that `pat` does not contain: no occurrence can straddle the seam. */
  lemma {:induction false} ReplaceSplit(a: string, b: string, pat: string, rep: string)
    requires |pat| > 0
    requires b == [] || b[0] !in pat
    ensures ReplaceAll(a + b, pat, rep) == ReplaceAll(a, pat, rep) + ReplaceAll(b, pat, rep)
    ensures CountOccurrences(a + b, pat) == CountOccurrences(a, pat) + CountOccurrences(b, pat)
    decreases |a|
  {
    if a == [] {
      assert a + b == b;
    } else if |a + b| < |pat| {
      assert ReplaceAll(a, pat, rep) == a && ReplaceAll(b, pat, rep) == b;
    } else {
      if |a| < |pat| {
        ShortFrontMisses(a, b, pat);
      }
      if (a + b)[..|pat|] == pat {
        assert a[..|pat|] == pat;
        ReplaceSplit(a[|pat|..], b, pat, rep);
        DistributesAfterHit(a, b, pat, rep);
      } else {
        ReplaceSplit(a[1..], b, pat, rep);
        DistributesAfterMiss(a, b, pat, rep);
      }
    }
  }

  /** A text in which `pat` occurs nowhere is left unchanged. */
  lemma {:induction false} ReplaceNoOccurrence(s: string, pat: string, rep: string)
    requires |pat| > 0
    requires forall i: nat :: !OccursAt(s, pat, i)
    ensures ReplaceAll(s, pat, rep) == s
    ensures CountOccurrences(s, pat) == 0
    decreases |s|
  {
    if |s| >= |pat| {
      assert !OccursAt(s, pat, 0);
      forall i: nat ensures !OccursAt(s[1..], pat, i) {
        assert !OccursAt(s, pat, i + 1);
      }
      ReplaceNoOccurrence(s[1..], pat, rep);
    }
  }

  lemma MulDistributes(d: int, k: int)
    ensures d * (1 + k) == d + d * k
  {
  }

  /** Each replacement swaps the characters of `pat` for those of `rep`. */
  lemma {:induction false} ReplaceAllLength(s: string, pat: string, rep: string)
    requires |pat| > 0
    ensures |ReplaceAll(s, pat, rep)| == |s| + (|rep| - |pat|) * CountOccurrences(s, pat)
    decreases |s|
  {
    var d := |rep| - |pat|;
    if |s| < |pat| {
      assert CountOccurrences(s, pat) == 0;
    } else if s[..|pat|] == pat {
      var t := s[|pat|..];
      ReplaceAllLength(t, pat, rep);
      var k := CountOccurrences(t, pat);
      assert CountOccurrences(s, pat) == 1 + k;
      assert |ReplaceAll(s, pat, rep)| == |rep| + |t| + d * k;
      MulDistributes(d, k);
    } else {
      ReplaceAllLength(s[1..], pat, rep);
      assert CountOccurrences(s, pat) == CountOccurrences(s[1..], pat);
    }
  }
}
