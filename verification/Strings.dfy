/** The few string operations the modelled code takes from its standard libraries. */
module Strings {
  predicate StartsWith(s: string, prefix: string) {
    |prefix| <= |s| && s[..|prefix|] == prefix
  }

  lemma StartsChar(s: string, prefix: string, k: nat)
    ensures StartsWith(s, prefix) && k < |prefix| ==> s[k] == prefix[k]
  {
    assert StartsWith(s, prefix) && k < |prefix| ==> s[..|prefix|][k] == s[k];
  }

  /** Whose notion of white space is meant: Python counts the four separators below the space, Go does not. */
  datatype Runtime = Go | Python

  predicate IsSpace(rt: Runtime, c: char) {
    || c == ' ' || '\t' <= c <= '\r' || c == '\U{85}' || c == '\U{A0}' || c == '\U{1680}'
    || '\U{2000}' <= c <= '\U{200A}' || '\U{2028}' <= c <= '\U{2029}' || c == '\U{202F}' || c == '\U{205F}'
    || c == '\U{3000}' || (rt.Python? && '\U{1C}' <= c <= '\U{1F}')
  }

  function TrimLeft(rt: Runtime, s: string): string
    decreases |s|
  {
    if s != "" && IsSpace(rt, s[0]) then TrimLeft(rt, s[1..]) else s
  }

  function TrimRight(rt: Runtime, s: string): string
    decreases |s|
  {
    if s != "" && IsSpace(rt, s[|s| - 1]) then TrimRight(rt, s[..|s| - 1]) else s
  }

  function Trim(rt: Runtime, s: string): string { TrimRight(rt, TrimLeft(rt, s)) }

  /** The text before the first `c`, or all of it. */
  function Before(s: string, c: char): (head: string)
    ensures c !in head && StartsWith(s, head)
    ensures |head| < |s| ==> s[|head|] == c
  {
    if s == "" || s[0] == c then "" else [s[0]] + Before(s[1..], c)
  }

  lemma {:induction false} BeforeIs(a: string, c: char, rest: string)
    requires c !in a
    ensures Before(a + [c] + rest, c) == a && Before(a, c) == a
    decreases |a|
  {
    var s := a + [c] + rest;
    if a != "" {
      BeforeIs(a[1..], c, rest);
      assert s[1..] == a[1..] + [c] + rest;
    }
  }

  lemma {:induction false} BeforeStops(s: string, c: char)
    requires c in s
    ensures |Before(s, c)| < |s|
    decreases |s|
  {
    if s[0] != c {
      BeforeStops(s[1..], c);
    }
  }

  /** The text after the last `c`, or all of it. */
  function AfterLast(s: string, c: char): string {
    if s == "" || s[|s| - 1] == c then "" else AfterLast(s[..|s| - 1], c) + [s[|s| - 1]]
  }

  /** The pieces between the occurrences of `c`. */
  function Split(s: string, c: char): (parts: seq<string>)
    ensures parts != []
    decreases |s|
  {
    var head := Before(s, c);
    if |head| == |s| then [head] else [head] + Split(s[|head| + 1..], c)
  }
}
