/** Optional values: Python's `None` next to a present value. */
module Wrappers {
  datatype Option<+T> = None | Some(value: T)
}

/**
 * The string operations the calculators use on addresses and free-text
 * attributes: ASCII case mapping (`str.upper`, `str.lower`), substring
 * containment (`in` on strings), `any(k in s for k in keywords)`,
 * `str.replace`, and the first-match search over an ordered table.
 */
module Text {

  /** `c.upper()` for one ASCII character. */
  function UpperChar(c: char): char {
    if 'a' <= c <= 'z' then (c as int - 32) as char else c
  }

  /** `c.lower()` for one ASCII character. */
  function LowerChar(c: char): char {
    if 'A' <= c <= 'Z' then (c as int + 32) as char else c
  }

  function ToUpper(s: string): (u: string)
    ensures |u| == |s|
    ensures forall i :: 0 <= i < |s| ==> u[i] == UpperChar(s[i])
  {
    seq(|s|, i requires 0 <= i < |s| => UpperChar(s[i]))
  }

  function ToLower(s: string): (l: string)
    ensures |l| == |s|
    ensures forall i :: 0 <= i < |s| ==> l[i] == LowerChar(s[i])
  {
    seq(|s|, i requires 0 <= i < |s| => LowerChar(s[i]))
  }

  /** `sub` occurs in `s` starting at position `i`. */
  predicate OccursAt(s: string, sub: string, i: int) {
    0 <= i && i + |sub| <= |s| && s[i..i + |sub|] == sub
  }

  /** Python's `sub in s`: a scan from the left. */
  function Contains(s: string, sub: string): bool
    decreases |s|
  {
    if |sub| > |s| then false
    else if s[..|sub|] == sub then true
    else Contains(s[1..], sub)
  }

  /** An occurrence at any position makes `Contains` true. */
  lemma {:induction false} ContainsAt(s: string, sub: string, i: int)
    requires OccursAt(s, sub, i)
    ensures Contains(s, sub)
    decreases i
  {
    if i > 0 && s[..|sub|] != sub {
      assert s[1..][i - 1..i - 1 + |sub|] == s[i..i + |sub|];
      ContainsAt(s[1..], sub, i - 1);
    }
  }

  /** `Contains` is true only when some position holds an occurrence. */
  lemma {:induction false} ContainsWitness(s: string, sub: string) returns (i: int)
    requires Contains(s, sub)
    ensures OccursAt(s, sub, i)
    decreases |s|
  {
    if s[..|sub|] == sub {
      i := 0;
    } else {
      var j := ContainsWitness(s[1..], sub);
      assert s[1..][j..j + |sub|] == s[j + 1..j + 1 + |sub|];
      i := j + 1;
    }
  }

  /** The scan agrees with the positional definition of containment. */
  lemma ContainsIff(s: string, sub: string)
    ensures Contains(s, sub) <==> exists i :: OccursAt(s, sub, i)
  {
    if Contains(s, sub) {
      var i := ContainsWitness(s, sub);
    }
    if i :| OccursAt(s, sub, i) {
      ContainsAt(s, sub, i);
    }
  }

  /** A string that contains `sub` contains every piece of it. */
  lemma ContainsPiece(s: string, sub: string, i: int, j: int)
    requires Contains(s, sub) && 0 <= i <= j <= |sub|
    ensures Contains(s, sub[i..j])
  {
    var w := ContainsWitness(s, sub);
    assert forall k :: 0 <= k < j - i ==> sub[i..j][k] == s[w + i..w + j][k];
    ContainsAt(s, sub[i..j], w + i);
  }

  /** A keyword with a character that `s` lacks does not occur in `s`. */
  lemma {:induction false} MissingChar(s: string, sub: string, k: int)
    requires 0 <= k < |sub| && sub[k] !in s
    ensures !Contains(s, sub)
    decreases |s|
  {
    if |sub| <= |s| {
      assert s[..|sub|][k] == s[k];
      MissingChar(s[1..], sub, k);
    }
  }

  /** Python's `any(k in s for k in keywords)`. */
  function ContainsAny(s: string, keywords: seq<string>): bool {
    |keywords| > 0 && (Contains(s, keywords[0]) || ContainsAny(s, keywords[1..]))
  }

  lemma {:induction false} ContainsAnyIff(s: string, keywords: seq<string>)
    ensures ContainsAny(s, keywords) <==> exists j :: 0 <= j < |keywords| && Contains(s, keywords[j])
  {
    if |keywords| > 0 {
      ContainsAnyIff(s, keywords[1..]);
      if exists j :: 0 <= j < |keywords| && Contains(s, keywords[j]) {
        var j :| 0 <= j < |keywords| && Contains(s, keywords[j]);
        if j > 0 {
          assert keywords[1..][j - 1] == keywords[j];
        }
      }
    }
  }

  /** Python's `s.replace(pattern, replacement)`: left to right, non-overlapping. */
  function ReplaceAll(s: string, pattern: string, replacement: string): string
    requires |pattern| > 0
    decreases |s|
  {
    if |s| < |pattern| then s
    else if s[..|pattern|] == pattern then replacement + ReplaceAll(s[|pattern|..], pattern, replacement)
    else [s[0]] + ReplaceAll(s[1..], pattern, replacement)
  }

  /** A string in which the pattern does not occur is returned unchanged. */
  lemma {:induction false} ReplaceAllAbsent(s: string, pattern: string, replacement: string)
    requires |pattern| > 0 && !Contains(s, pattern)
    ensures ReplaceAll(s, pattern, replacement) == s
    decreases |s|
  {
    if |s| >= |pattern| {
      ReplaceAllAbsent(s[1..], pattern, replacement);
    }
  }
}
