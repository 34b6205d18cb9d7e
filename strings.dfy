/**
 * String helpers shared by the agent tools and the MCP server: ASCII case
 * folding, substring search (Python's `p in s` on strings), joining a list of
 * strings (Python's `"".join(parts)`) and counting a character.
 */
module Strings {

  /** Lower-cases one ASCII letter; every other character is left alone. */
  function LowerChar(c: char): (d: char)
    ensures !('A' <= d <= 'Z')
    ensures d == c || ('A' <= c <= 'Z' && d as int == c as int + 32)
  {
    if 'A' <= c <= 'Z' then (c as int + 32) as char else c
  }

  /** ASCII model of Python's `str.lower()`. */
  function Lower(s: string): (r: string)
  {
    seq(|s|, i requires 0 <= i < |s| => LowerChar(s[i]))
  }

  /** `p` occurs in `s` starting at index `i`. */
  ghost predicate OccursAt(p: string, s: string, i: int)
  {
    0 <= i && i + |p| <= |s| && s[i..i + |p|] == p
  }

  /** The meaning of Python's `p in s` for two strings. */
  ghost predicate IsSubstring(p: string, s: string)
  {
    exists i :: OccursAt(p, s, i)
  }

  /** Substring search, tried at each start position from left to right. */
  function Contains(p: string, s: string): bool
    decreases |s|
  {
    if |p| > |s| then false
    else if s[..|p|] == p then true
    else Contains(p, s[1..])
  }

  /** A slice of `s[1..]` is the slice of `s` one position further on. */
  lemma DropShift(s: string, from: int, to: int)
    requires 0 <= from <= to < |s|
    ensures s[1..][from..to] == s[from + 1..to + 1]
  {
    assert forall k | 0 <= k < to - from :: s[1..][from..to][k] == s[from + 1 + k];
  }

  /** The search finds `p` exactly when `p` occurs somewhere in `s`. */
  lemma {:induction false} ContainsIff(p: string, s: string)
    ensures Contains(p, s) <==> IsSubstring(p, s)
    decreases |s|
  {
    if |p| > |s| {
    } else if s[..|p|] == p {
      assert OccursAt(p, s, 0);
    } else {
      ContainsIff(p, s[1..]);
      if IsSubstring(p, s[1..]) {
        var j :| OccursAt(p, s[1..], j);
        DropShift(s, j, j + |p|);
        assert OccursAt(p, s, j + 1);
      }
      if IsSubstring(p, s) {
        var i :| OccursAt(p, s, i);
        assert i != 0;
        DropShift(s, i - 1, i - 1 + |p|);
        assert OccursAt(p, s[1..], i - 1);
      }
    }
  }

  /** Python's `"".join(parts)`: the parts glued together in order. */
  function Concat(parts: seq<string>): string
  {
    if parts == [] then "" else Concat(parts[..|parts| - 1]) + parts[|parts| - 1]
  }

  /** Joining distributes over concatenation of the lists of parts. */
  lemma {:induction false} ConcatAppend(a: seq<string>, b: seq<string>)
    ensures Concat(a + b) == Concat(a) + Concat(b)
    decreases |b|
  {
    if b == [] {
      assert a + b == a;
    } else {
      var b' := b[..|b| - 1];
      assert (a + b)[..|a + b| - 1] == a + b';
      ConcatAppend(a, b');
    }
  }

  /** Joining a list whose parts are all non-empty gives "" only for the empty list. */
  lemma {:induction false} ConcatEmptyIff(parts: seq<string>)
    requires forall k | 0 <= k < |parts| :: parts[k] != ""
    ensures Concat(parts) == "" <==> parts == []
  {
    if parts != [] {
      assert |Concat(parts)| >= |parts[|parts| - 1]| > 0;
    }
  }

  /** Joining any suffix of a list gives a suffix of the whole join. */
  lemma {:induction false} ConcatSuffix(parts: seq<string>, k: nat)
    requires k <= |parts|
    ensures |Concat(parts[k..])| <= |Concat(parts)|
    ensures Concat(parts[k..]) == Concat(parts)[|Concat(parts)| - |Concat(parts[k..])|..]
  {
    assert parts == parts[..k] + parts[k..];
    ConcatAppend(parts[..k], parts[k..]);
  }

  /** Number of occurrences of `c` in `s`. */
  function Count(s: string, c: char): (n: nat)
    ensures n <= |s|
  {
    if s == [] then 0 else Count(s[..|s| - 1], c) + (if s[|s| - 1] == c then 1 else 0)
  }

  /** Counting distributes over concatenation. */
  lemma {:induction false} CountAppend(a: string, b: string, c: char)
    ensures Count(a + b, c) == Count(a, c) + Count(b, c)
    decreases |b|
  {
    if b != [] {
      var b' := b[..|b| - 1];
      assert (a + b)[..|a + b| - 1] == a + b';
      CountAppend(a, b', c);
    } else {
      assert a + b == a;
    }
  }

  /** A character that does not occur is counted zero times. */
  lemma {:induction false} CountAbsent(s: string, c: char)
    requires c !in s
    ensures Count(s, c) == 0
  {
    if s != [] {
      assert c !in s[..|s| - 1];
      CountAbsent(s[..|s| - 1], c);
    }
  }
}
