/** Characters and strings as Python's `re` module and string operators see them. */
module Text {

  /** Python's `\d` on ASCII input. */
  predicate IsDigit(c: char) {
    '0' <= c <= '9'
  }

  /** Python's `\w` on ASCII input: letters, digits and the underscore. */
  predicate IsWordChar(c: char) {
    'a' <= c <= 'z' || 'A' <= c <= 'Z' || IsDigit(c) || c == '_'
  }

  /** Python's `\s` on `str`: the characters for which `str.isspace()` holds. */
  predicate IsSpace(c: char) {
    c == ' ' || ('\t' <= c <= '\r') || ('\U{1C}' <= c <= '\U{1F}')
    || c == '\U{85}' || c == '\U{A0}' || c == '\U{1680}'
    || ('\U{2000}' <= c <= '\U{200A}') || c == '\U{2028}' || c == '\U{2029}'
    || c == '\U{202F}' || c == '\U{205F}' || c == '\U{3000}'
  }

  /** What `.` matches when the pattern has no DOTALL flag. */
  predicate NotNewline(c: char) {
    c != '\n'
  }

  /** `t` occurs in `s` starting at index `i`. */
  predicate StartsAt(s: string, i: nat, t: string) {
    i + |t| <= |s| && s[i..i + |t|] == t
  }

  /** Every character of `s[i..j]` satisfies `P`. */
  predicate All(s: string, i: nat, j: nat, P: char -> bool) {
    i <= j <= |s| && forall k :: i <= k < j ==> P(s[k])
  }

  predicate NoNewline(v: string) {
    forall k :: 0 <= k < |v| ==> v[k] != '\n'
  }

  /** A captured value that stays on one line and is not empty (`.+` without DOTALL). */
  predicate IsLineValue(v: string) {
    |v| > 0 && NoNewline(v)
  }

  /** Index `i` is the end of a line: the end of `s` or a newline. */
  predicate EndsLine(s: string, i: nat) {
    i == |s| || (i < |s| && s[i] == '\n')
  }

  /** The end of the longest run of `P`-characters starting at `i`: what a greedy `P+` or `P*` takes first. */
  function RunEnd(s: string, i: nat, P: char -> bool): (e: nat)
    requires i <= |s|
    ensures i <= e <= |s| && All(s, i, e, P)
    ensures e == |s| || !P(s[e])
    decreases |s| - i
  {
    if i == |s| || !P(s[i]) then i else RunEnd(s, i + 1, P)
  }

  /** No run of `P`-characters from `i` reaches past `RunEnd`. */
  lemma RunEndCovers(s: string, i: nat, j: nat, P: char -> bool)
    requires All(s, i, j, P)
    ensures j <= RunEnd(s, i, P)
  {
  }

  /** A run of `P`-characters grows by one at its left end. */
  lemma AllStep(s: string, i: nat, j: nat, P: char -> bool)
    requires i < j <= |s| && P(s[i]) && All(s, i + 1, j, P)
    ensures All(s, i, j, P)
  {
  }

  /** A run of `P`-characters stops at the first character that is not one. */
  lemma AllStops(s: string, i: nat, j: nat, P: char -> bool, k: nat)
    requires All(s, i, j, P) && i <= k < |s| && !P(s[k])
    ensures j <= k
  {
  }

  /** The index of the first newline at or after `i`, or `|s|`. */
  function LineEnd(s: string, i: nat): (e: nat)
    requires i <= |s|
    ensures i <= e <= |s| && All(s, i, e, NotNewline)
    ensures e == |s| || s[e] == '\n'
  {
    RunEnd(s, i, NotNewline)
  }

  /** Python's `t in s` on strings: some index of `s` starts an occurrence of `t`. */
  function Contains(s: string, t: string): (r: bool)
    ensures r <==> exists i: nat :: StartsAt(s, i, t)
  {
    ContainsFrom(s, t, 0)
  }

  function ContainsFrom(s: string, t: string, i: nat): (r: bool)
    requires i <= |s|
    ensures r <==> exists k: nat :: i <= k && StartsAt(s, k, t)
    decreases |s| - i
  {
    if StartsAt(s, i, t) then true
    else if i == |s| then false
    else ContainsFrom(s, t, i + 1)
  }

  lemma StartsAtConcat(s: string, i: nat, a: string, b: string)
    ensures StartsAt(s, i, a + b) <==> StartsAt(s, i, a) && StartsAt(s, i + |a|, b)
  {
    if StartsAt(s, i, a) && StartsAt(s, i + |a|, b) {
      assert s[i..i + |a + b|] == s[i..i + |a|] + s[i + |a|..i + |a| + |b|];
    }
    if StartsAt(s, i, a + b) {
      assert s[i..i + |a|] == (a + b)[..|a|];
      assert s[i + |a|..i + |a| + |b|] == (a + b)[|a|..];
    }
  }

  /** The first line of `s` and the rest after its newline, as Python's `s.split('\n')` cuts them. */
  function Lines(s: string): (ls: seq<string>)
    ensures |ls| > 0
    decreases |s|
  {
    var e := LineEnd(s, 0);
    if e == |s| then [s] else [s[..e]] + Lines(s[e + 1..])
  }

  /** A newline-free value found at `i` and followed by a line end runs exactly to `LineEnd`. */
  lemma LineEndAfter(s: string, i: nat, v: string)
    requires StartsAt(s, i, v) && NoNewline(v) && EndsLine(s, i + |v|)
    ensures LineEnd(s, i) == i + |v|
  {
    forall k | i <= k < i + |v| ensures NotNewline(s[k]) {
      assert s[k] == v[k - i];
    }
    RunEndCovers(s, i, i + |v|, NotNewline);
  }

  /** The text between `i` and the line end found there is a newline-free value. */
  lemma LineSlice(s: string, i: nat)
    requires i <= |s|
    ensures StartsAt(s, i, s[i..LineEnd(s, i)]) && NoNewline(s[i..LineEnd(s, i)])
    ensures EndsLine(s, LineEnd(s, i))
  {
    var e := LineEnd(s, i);
    forall k | 0 <= k < e - i ensures s[i..e][k] != '\n' {
      assert s[i..e][k] == s[i + k];
    }
  }

  /** A newline-free first line splits off whole. */
  lemma LinesCons(a: string, rest: string)
    requires NoNewline(a)
    ensures Lines(a + "\n" + rest) == [a] + Lines(rest)
  {
    var s := a + "\n" + rest;
    assert s[..|a|] == a && s[|a|] == '\n' && s[|a| + 1..] == rest;
    LineEndAfter(s, 0, a);
  }

  /** A newline-free text is one line. */
  lemma LinesOne(a: string)
    requires NoNewline(a)
    ensures Lines(a) == [a]
  {
    LineEndAfter(a, 0, a);
  }

  /** Python's `s.endswith(t)`. */
  predicate EndsWith(s: string, t: string) {
    |t| <= |s| && s[|s| - |t|..] == t
  }

  /** A text has no newline exactly when neither of its two parts has one. */
  lemma NoNewlineConcat(a: string, b: string)
    ensures NoNewline(a + b) <==> NoNewline(a) && NoNewline(b)
  {
    if NoNewline(a + b) {
      forall k | 0 <= k < |a| ensures a[k] != '\n' {
        assert a[k] == (a + b)[k];
      }
      forall k | 0 <= k < |b| ensures b[k] != '\n' {
        assert b[k] == (a + b)[|a| + k];
      }
    }
  }

  lemma ConcatAssoc<T>(a: seq<T>, b: seq<T>, c: seq<T>)
    ensures a + (b + c) == a + b + c
  {
  }

  lemma EmptyPrefix<T>(t: seq<T>)
    ensures [] + t == t
  {
  }
}
