/**
 * The Python string operations the backend uses, on `seq<char>`.
 * Case mapping and digit tests are ASCII; the whitespace set is the one
 * Python's `str.strip()` removes.
 */
module Text {

  /** The characters Python's `str.isspace()` accepts, which `str.strip()` removes. */
  predicate IsSpace(c: char) {
    || '\t' <= c <= '\r' || '\U{1C}' <= c <= ' '
    || c == '\U{85}' || c == '\U{A0}' || c == '\U{1680}'
    || '\U{2000}' <= c <= '\U{200A}'
    || c == '\U{2028}' || c == '\U{2029}' || c == '\U{202F}' || c == '\U{205F}' || c == '\U{3000}'
  }

  predicate StartsWith(s: string, prefix: string) {
    |prefix| <= |s| && s[..|prefix|] == prefix
  }

  /** `p in s` for strings: p occurs somewhere in s as a contiguous block. */
  predicate IsInfix(p: string, s: string)
    decreases |s|
  {
    StartsWith(s, p) || (s != [] && IsInfix(p, s[1..]))
  }

  /** `s.lstrip(cs)`: drops the longest prefix of characters satisfying cs. */
  function TrimStart(s: string, cs: char -> bool): (r: string)
    ensures |r| <= |s| && r == s[|s| - |r|..]
    ensures r != [] ==> !cs(r[0])
    decreases |s|
  {
    if s != [] && cs(s[0]) then TrimStart(s[1..], cs) else s
  }

  /** Only characters satisfying cs are dropped. */
  lemma {:induction false} TrimStartDropsOnly(s: string, cs: char -> bool)
    ensures forall k :: 0 <= k < |s| - |TrimStart(s, cs)| ==> cs(s[k])
    decreases |s|
  {
    if s != [] && cs(s[0]) {
      TrimStartDropsOnly(s[1..], cs);
      forall k | 1 <= k < |s| - |TrimStart(s, cs)| ensures cs(s[k]) {
        assert s[k] == s[1..][k - 1];
      }
    }
  }

  /** `s.rstrip(cs)`: drops the longest suffix of characters satisfying cs. */
  function TrimEnd(s: string, cs: char -> bool): (r: string)
    ensures |r| <= |s| && r == s[..|r|]
    ensures r != [] ==> !cs(r[|r| - 1])
    decreases |s|
  {
    if s != [] && cs(s[|s| - 1]) then TrimEnd(s[..|s| - 1], cs) else s
  }

  /** Only characters satisfying cs are dropped. */
  lemma {:induction false} TrimEndDropsOnly(s: string, cs: char -> bool)
    ensures forall k :: |TrimEnd(s, cs)| <= k < |s| ==> cs(s[k])
    decreases |s|
  {
    if s != [] && cs(s[|s| - 1]) {
      TrimEndDropsOnly(s[..|s| - 1], cs);
      forall k | |TrimEnd(s, cs)| <= k < |s| - 1 ensures cs(s[k]) {
        assert s[k] == s[..|s| - 1][k];
      }
    }
  }

  /** `s.strip(cs)`. */
  function Trim(s: string, cs: char -> bool): (r: string)
    ensures |r| <= |s|
    ensures r != [] ==> !cs(r[0]) && !cs(r[|r| - 1])
    ensures (s == [] || (!cs(s[0]) && !cs(s[|s| - 1]))) ==> r == s
  {
    TrimEnd(TrimStart(s, cs), cs)
  }

  /** Trimming never looks past a leading run of trimmed characters. */
  lemma {:induction false} TrimStartAfterRun(w: string, u: string, cs: char -> bool)
    requires forall k :: 0 <= k < |w| ==> cs(w[k])
    ensures TrimStart(w + u, cs) == TrimStart(u, cs)
    decreases |w|
  {
    if w == [] {
      assert w + u == u;
    } else {
      assert (w + u)[1..] == w[1..] + u;
      TrimStartAfterRun(w[1..], u, cs);
    }
  }

  /** Trimming never looks past a trailing run of trimmed characters. */
  lemma {:induction false} TrimEndBeforeRun(u: string, w: string, cs: char -> bool)
    requires forall k :: 0 <= k < |w| ==> cs(w[k])
    ensures TrimEnd(u + w, cs) == TrimEnd(u, cs)
    decreases |w|
  {
    if w == [] {
      assert u + w == u;
    } else {
      assert (u + w)[..|u + w| - 1] == u + w[..|w| - 1];
      TrimEndBeforeRun(u, w[..|w| - 1], cs);
    }
  }

  /** A string made only of trimmed characters trims to nothing. */
  lemma {:induction false} TrimStartAll(s: string, cs: char -> bool)
    requires forall k :: 0 <= k < |s| ==> cs(s[k])
    ensures TrimStart(s, cs) == []
    decreases |s|
  {
    if s != [] {
      TrimStartAll(s[1..], cs);
    }
  }

  /** `s.strip()` of an all-whitespace string is empty. */
  lemma StripBlank(s: string)
    requires forall k :: 0 <= k < |s| ==> IsSpace(s[k])
    ensures Strip(s) == []
  {
    TrimStartAll(s, IsSpace);
  }

  /** Trimming removes surrounding runs of trimmed characters and nothing else. */
  lemma TrimSurrounded(w1: string, u: string, w2: string, cs: char -> bool)
    requires forall k :: 0 <= k < |w1| ==> cs(w1[k])
    requires forall k :: 0 <= k < |w2| ==> cs(w2[k])
    requires u != [] && !cs(u[0]) && !cs(u[|u| - 1])
    ensures Trim(w1 + u + w2, cs) == u
  {
    TrimStartAfterRun(w1, u + w2, cs);
    assert w1 + u + w2 == w1 + (u + w2);
    assert TrimStart(u + w2, cs) == u + w2;
    TrimEndBeforeRun(u, w2, cs);
  }

  /** `s.strip()`. */
  function Strip(s: string): (r: string)
    ensures |r| <= |s|
    ensures r != [] ==> !IsSpace(r[0]) && !IsSpace(r[|r| - 1])
  {
    Trim(s, IsSpace)
  }

  predicate IsDigit(c: char) {
    '0' <= c <= '9'
  }

  /** `re.sub(r'[^\d]', '', s)`: the decimal digits of s, in order. */
  function DigitsOf(s: string): (r: string)
    ensures |r| <= |s|
    ensures forall k :: 0 <= k < |r| ==> IsDigit(r[k])
    decreases |s|
  {
    if s == [] then [] else (if IsDigit(s[0]) then [s[0]] else []) + DigitsOf(s[1..])
  }

  /** A string of digits only is kept whole. */
  lemma {:induction false} DigitsOfAllDigits(s: string)
    requires forall k :: 0 <= k < |s| ==> IsDigit(s[k])
    ensures DigitsOf(s) == s
    decreases |s|
  {
    if s != [] {
      DigitsOfAllDigits(s[1..]);
    }
  }

  /** A string without digits leaves nothing. */
  lemma {:induction false} DigitsOfNoDigits(s: string)
    requires forall k :: 0 <= k < |s| ==> !IsDigit(s[k])
    ensures DigitsOf(s) == []
    decreases |s|
  {
    if s != [] {
      DigitsOfNoDigits(s[1..]);
    }
  }

  lemma {:induction false} DigitsOfAppend(a: string, b: string)
    ensures DigitsOf(a + b) == DigitsOf(a) + DigitsOf(b)
    decreases |a|
  {
    if a != [] {
      assert (a + b)[1..] == a[1..] + b;
      DigitsOfAppend(a[1..], b);
    } else {
      assert a + b == b;
    }
  }

  function LowerChar(c: char): char {
    if 'A' <= c <= 'Z' then (c as int + 32) as char else c
  }

  /** `s.lower()` on ASCII letters. */
  function Lower(s: string): (r: string) {
    seq(|s|, i requires 0 <= i < |s| => LowerChar(s[i]))
  }

  lemma LowerAppend(a: string, b: string)
    ensures Lower(a + b) == Lower(a) + Lower(b)
  {
    assert forall i :: 0 <= i < |a + b| ==> Lower(a + b)[i] == (Lower(a) + Lower(b))[i];
  }

  /** `s.replace(a, b)` for single characters: every a becomes b. */
  function ReplaceChar(s: string, a: char, b: char): (r: string) {
    seq(|s|, i requires 0 <= i < |s| => if s[i] == a then b else s[i])
  }

  /** `s.replace(c, '')` for a single character. */
  function RemoveChar(s: string, c: char): (r: string)
    ensures |r| <= |s|
    decreases |s|
  {
    if s == [] then [] else (if s[0] == c then [] else [s[0]]) + RemoveChar(s[1..], c)
  }

  /** Removing c leaves no c behind and adds no character. */
  lemma {:induction false} RemoveCharOnly(s: string, c: char)
    ensures c !in RemoveChar(s, c)
    ensures forall x :: x in RemoveChar(s, c) ==> x in s
    decreases |s|
  {
    if s != [] {
      RemoveCharOnly(s[1..], c);
      var head: string := if s[0] == c then [] else [s[0]];
      assert RemoveChar(s, c) == head + RemoveChar(s[1..], c);
      forall x | x in RemoveChar(s, c) ensures x in s {
        if x in head {
          assert x == s[0];
        } else {
          assert x in s[1..];
        }
      }
    }
  }

  lemma {:induction false} RemoveCharAppend(a: string, b: string, c: char)
    ensures RemoveChar(a + b, c) == RemoveChar(a, c) + RemoveChar(b, c)
    decreases |a|
  {
    if a != [] {
      assert (a + b)[1..] == a[1..] + b;
      RemoveCharAppend(a[1..], b, c);
    } else {
      assert a + b == b;
    }
  }

  /** A string without the character c is left as it is by removing c. */
  lemma {:induction false} RemoveCharAbsent(s: string, c: char)
    requires c !in s
    ensures RemoveChar(s, c) == s
    decreases |s|
  {
    if s != [] {
      RemoveCharAbsent(s[1..], c);
    }
  }

  /**
   * `s.replace(pat, rep)` for a non-empty pattern: scanning left to right,
   * every occurrence that does not overlap an earlier replaced one becomes rep.
   */
  function ReplaceAll(s: string, pat: string, rep: string): (r: string)
    requires pat != []
    decreases |s|
  {
    if |s| < |pat| then s
    else if s[..|pat|] == pat then rep + ReplaceAll(s[|pat|..], pat, rep)
    else [s[0]] + ReplaceAll(s[1..], pat, rep)
  }

  /** A string without the pattern is left as it is. */
  lemma {:induction false} ReplaceAllAbsent(s: string, pat: string, rep: string)
    requires pat != [] && !IsInfix(pat, s)
    ensures ReplaceAll(s, pat, rep) == s
    decreases |s|
  {
    if |s| >= |pat| {
      assert s != [] && !StartsWith(s, pat);
      ReplaceAllAbsent(s[1..], pat, rep);
      assert [s[0]] + s[1..] == s;
    }
  }

  /** A leading occurrence is replaced, and the scan resumes right after it. */
  lemma ReplaceAllHead(pat: string, rep: string, rest: string)
    requires pat != []
    ensures ReplaceAll(pat + rest, pat, rep) == rep + ReplaceAll(rest, pat, rep)
  {
    var s := pat + rest;
    assert s[..|pat|] == pat && s[|pat|..] == rest;
  }

  /** A leading occurrence is replaced, and a rest without the pattern is kept as it is. */
  lemma ReplaceAllLeading(pat: string, rep: string, rest: string)
    requires pat != [] && !IsInfix(pat, rest)
    ensures ReplaceAll(pat + rest, pat, rep) == rep + rest
  {
    ReplaceAllHead(pat, rep, rest);
    ReplaceAllAbsent(rest, pat, rep);
  }

  /** A string can only contain p if it contains p's first character. */
  lemma {:induction false} InfixHead(p: string, s: string)
    requires p != [] && IsInfix(p, s)
    ensures p[0] in s
    decreases |s|
  {
    if StartsWith(s, p) {
      assert s[0] == p[0];
    } else {
      InfixHead(p, s[1..]);
    }
  }

  /** Where no occurrence starts, the first character is copied and the scan moves on. */
  lemma ReplaceAllStep(s: string, pat: string, rep: string)
    requires pat != [] && s != [] && !StartsWith(s, pat)
    ensures ReplaceAll(s, pat, rep) == [s[0]] + ReplaceAll(s[1..], pat, rep)
  {
  }

  /** An occurrence of pat starts at position k of s. */
  predicate MatchAt(s: string, k: nat, pat: string)
    requires k <= |s|
  {
    StartsWith(s[k..], pat)
  }

  /** No occurrence of pat starts at any of the first n positions of s. */
  predicate NoMatchBefore(s: string, n: nat, pat: string)
    requires n <= |s|
  {
    forall k :: 0 <= k < n ==> !MatchAt(s, k, pat)
  }

  lemma NoMatchBeforeTail(s: string, n: nat, pat: string)
    requires 0 < n <= |s| && NoMatchBefore(s, n, pat)
    ensures NoMatchBefore(s[1..], n - 1, pat)
  {
    var t := s[1..];
    forall k | 0 <= k < n - 1 ensures !MatchAt(t, k, pat) {
      assert !MatchAt(s, k + 1, pat);
      assert t[k..] == s[k + 1..];
    }
  }

  /** A stretch where no occurrence of the pattern starts is copied unchanged. */
  lemma {:induction false} ReplaceAllCopies(s: string, n: nat, pat: string, rep: string)
    requires pat != [] && n <= |s| && NoMatchBefore(s, n, pat)
    ensures ReplaceAll(s, pat, rep) == s[..n] + ReplaceAll(s[n..], pat, rep)
    decreases n
  {
    if n == 0 {
      assert s[..0] == [] && s[0..] == s;
    } else {
      var t := s[1..];
      assert ReplaceAll(s, pat, rep) == [s[0]] + ReplaceAll(t, pat, rep) by {
        assert !MatchAt(s, 0, pat);
        assert s[0..] == s;
        ReplaceAllStep(s, pat, rep);
      }
      NoMatchBeforeTail(s, n, pat);
      ReplaceAllCopies(t, n - 1, pat, rep);
      assert t[n - 1..] == s[n..];
      assert [s[0]] + t[..n - 1] == s[..n];
    }
  }

  /** A stretch that lacks the pattern's first character is copied unchanged. */
  lemma ReplaceAllCopiesPlain(u: string, rest: string, pat: string, rep: string)
    requires pat != [] && pat[0] !in u
    ensures ReplaceAll(u + rest, pat, rep) == u + ReplaceAll(rest, pat, rep)
  {
    var s := u + rest;
    assert NoMatchBefore(s, |u|, pat) by {
      forall k | 0 <= k < |u| ensures !MatchAt(s, k, pat) {
        assert s[k..][0] == u[k];
      }
    }
    ReplaceAllCopies(s, |u|, pat, rep);
    assert s[..|u|] == u && s[|u|..] == rest;
  }

  /** Text without the pattern's first character, then one occurrence, then more such text. */
  lemma ReplaceAllOnce(pat: string, rep: string, u: string, v: string)
    requires pat != [] && pat[0] !in u && pat[0] !in v
    ensures ReplaceAll(u + (pat + v), pat, rep) == u + (rep + v)
  {
    ReplaceAllCopiesPlain(u, pat + v, pat, rep);
    if IsInfix(pat, v) {
      InfixHead(pat, v);
    }
    ReplaceAllLeading(pat, rep, v);
  }
}
