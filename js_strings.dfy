/**
 * The two string operations of JavaScript the proxy applies to names:
 * `String.prototype.trim` and `split(" ")` followed by `join(" ")`.
 */
module JsStrings {

  /**
   * The characters `trim` removes: WhiteSpace and LineTerminator of
   * ECMAScript (sections 12.2 and 12.3 of ECMA-262), the Unicode category
   * Zs included.
   */
  predicate IsJsWhitespace(c: char) {
    || c == '\t' || c == '\n' || c == '\U{000B}' || c == '\U{000C}' || c == '\r'
    || c == ' ' || c == '\U{00A0}' || c == '\U{1680}'
    || ('\U{2000}' <= c <= '\U{200A}')
    || c == '\U{2028}' || c == '\U{2029}' || c == '\U{202F}' || c == '\U{205F}'
    || c == '\U{3000}' || c == '\U{FEFF}'
  }

  predicate AllWhitespace(s: string) {
    forall k :: 0 <= k < |s| ==> IsJsWhitespace(s[k])
  }

  /** Neither starts nor ends with whitespace (the empty string qualifies). */
  predicate IsTrimmed(s: string) {
    s == [] || (!IsJsWhitespace(s[0]) && !IsJsWhitespace(s[|s| - 1]))
  }

  /** How many whitespace characters `s` starts with. */
  function LeadingWhitespace(s: string): (n: nat)
    ensures n <= |s|
    ensures forall k :: 0 <= k < n ==> IsJsWhitespace(s[k])
    ensures n < |s| ==> !IsJsWhitespace(s[n])
    decreases |s|
  {
    if |s| > 0 && IsJsWhitespace(s[0]) then
      var n := LeadingWhitespace(s[1..]);
      assert forall k :: 1 <= k < n + 1 ==> s[k] == s[1..][k - 1];
      n + 1
    else
      0
  }

  /** How many whitespace characters `s` ends with. */
  function TrailingWhitespace(s: string): (n: nat)
    ensures n <= |s|
    ensures forall k :: |s| - n <= k < |s| ==> IsJsWhitespace(s[k])
    ensures n < |s| ==> !IsJsWhitespace(s[|s| - n - 1])
    decreases |s|
  {
    if |s| > 0 && IsJsWhitespace(s[|s| - 1]) then
      var n := TrailingWhitespace(s[..|s| - 1]);
      assert forall k :: |s| - 1 - n <= k < |s| - 1 ==> s[k] == s[..|s| - 1][k];
      n + 1
    else
      0
  }

  /** Any whitespace-only string followed by a non-whitespace character (or nothing) fixes the count. */
  lemma LeadingWhitespaceIs(s: string, i: nat)
    requires i <= |s| && AllWhitespace(s[..i]) && (i < |s| ==> !IsJsWhitespace(s[i]))
    ensures LeadingWhitespace(s) == i
  {
  }

  lemma TrailingWhitespaceIs(s: string, j: nat)
    requires j <= |s| && AllWhitespace(s[|s| - j..]) && (j < |s| ==> !IsJsWhitespace(s[|s| - j - 1]))
    ensures TrailingWhitespace(s) == j
  {
  }

  /** `s.trim()`: what lies between the leading and the trailing whitespace. */
  function Trim(s: string): (r: string)
    ensures IsTrimmed(r)
    ensures |r| <= |s|
  {
    var i := LeadingWhitespace(s);
    if i == |s| then
      []
    else
      var j := |s| - TrailingWhitespace(s);
      assert i < j;
      s[i..j]
  }

  /** The whitespace `trim` removes from the front of `s`. */
  function LeadingPadding(s: string): string {
    if LeadingWhitespace(s) == |s| then s else s[..LeadingWhitespace(s)]
  }

  /** The whitespace `trim` removes from the back of `s`. */
  function TrailingPadding(s: string): string {
    if LeadingWhitespace(s) == |s| then [] else s[|s| - TrailingWhitespace(s)..]
  }

  /** `trim` removes whitespace only, and only at the ends. */
  lemma TrimDecomposes(s: string)
    ensures s == LeadingPadding(s) + Trim(s) + TrailingPadding(s)
    ensures AllWhitespace(LeadingPadding(s)) && AllWhitespace(TrailingPadding(s))
  {
    var i := LeadingWhitespace(s);
    if i == |s| {
      assert s == s + [] + [];
    } else {
      var j := |s| - TrailingWhitespace(s);
      SliceIntoThree(s, i, j);
      PaddingIsWhitespace(s, i, j);
    }
  }

  lemma SliceIntoThree(s: string, i: nat, j: nat)
    requires i <= j <= |s|
    ensures s == s[..i] + s[i..j] + s[j..]
  {
  }

  lemma PaddingIsWhitespace(s: string, i: nat, j: nat)
    requires i <= j <= |s|
    requires forall k :: 0 <= k < i ==> IsJsWhitespace(s[k])
    requires forall k :: j <= k < |s| ==> IsJsWhitespace(s[k])
    ensures AllWhitespace(s[..i]) && AllWhitespace(s[j..])
  {
    assert forall k :: 0 <= k < |s| - j ==> s[j..][k] == s[j + k];
  }

  /**
   * `trim` is determined by the decomposition: whatever whitespace surrounds
   * a trimmed string, trimming gives that string back.
   */
  lemma TrimUnique(p: string, m: string, q: string)
    requires AllWhitespace(p) && IsTrimmed(m) && AllWhitespace(q)
    ensures Trim(p + m + q) == m
  {
    var s := p + m + q;
    if m == [] {
      assert s == p + q;
      assert AllWhitespace(s[..|s|]);
      LeadingWhitespaceIs(s, |s|);
    } else {
      assert s[..|p|] == p && s[|p|] == m[0];
      LeadingWhitespaceIs(s, |p|);
      assert s[|s| - |q|..] == q && s[|s| - |q| - 1] == m[|m| - 1];
      TrailingWhitespaceIs(s, |q|);
      assert s[|p|..|s| - |q|] == m;
    }
  }

  lemma AllWhitespaceConcat(a: string, b: string)
    requires AllWhitespace(a) && AllWhitespace(b)
    ensures AllWhitespace(a + b)
  {
  }

  /** Whitespace added at either end does not change the trimmed result. */
  lemma TrimIgnoresPadding(a: string, s: string, b: string)
    requires AllWhitespace(a) && AllWhitespace(b)
    ensures Trim(a + s + b) == Trim(s)
  {
    TrimDecomposes(s);
    var lead, r, trail := LeadingPadding(s), Trim(s), TrailingPadding(s);
    Regroup(a, s, lead, r, trail, b);
    AllWhitespaceConcat(a, lead);
    AllWhitespaceConcat(trail, b);
    TrimUnique(a + lead, r, trail + b);
  }

  lemma SeqAssoc3(a: string, b: string, c: string)
    ensures a + (b + c) == a + b + c
  {
  }

  lemma Regroup(a: string, s: string, lead: string, r: string, trail: string, b: string)
    requires s == lead + r + trail
    ensures a + s + b == (a + lead) + r + (trail + b)
  {
  }

  /** Trimming twice is trimming once. */
  lemma TrimIdempotent(s: string)
    ensures Trim(Trim(s)) == Trim(s)
  {
    TrimUnique([], Trim(s), []);
    assert [] + Trim(s) + [] == Trim(s);
  }

  /** `s.split(sep)`: the pieces between occurrences of `sep`, at least one. */
  function Split(s: string, sep: char): (parts: seq<string>)
    ensures |parts| >= 1
    ensures forall i :: 0 <= i < |parts| ==> sep !in parts[i]
    ensures |parts| == 1 <==> sep !in s
    decreases |s|
  {
    if s == [] then
      [[]]
    else
      var rest := Split(s[1..], sep);
      assert s == [s[0]] + s[1..];
      if s[0] == sep then [[]] + rest else [[s[0]] + rest[0]] + rest[1..]
  }

  /** `parts.join(sep)`; `[].join(sep)` is the empty string. */
  function Join(parts: seq<string>, sep: char): (r: string)
    ensures |parts| >= 1 ==> |r| >= |parts[0]| && r[..|parts[0]|] == parts[0]
    ensures |parts| >= 2 ==> |r| > |parts[0]| && r[|parts[0]|] == sep
    decreases |parts|
  {
    if |parts| == 0 then []
    else if |parts| == 1 then parts[0]
    else parts[0] + [sep] + Join(parts[1..], sep)
  }

  lemma JoinCons(x: string, parts: seq<string>, sep: char)
    requires |parts| >= 1
    ensures Join([x] + parts, sep) == x + [sep] + Join(parts, sep)
  {
    assert ([x] + parts)[1..] == parts;
  }

  /** Gluing a prefix onto the first piece glues it onto the join. */
  lemma JoinGlueFirst(x: string, parts: seq<string>, sep: char)
    requires |parts| >= 1
    ensures Join([x + parts[0]] + parts[1..], sep) == x + Join(parts, sep)
  {
    if |parts| > 1 {
      JoinCons(x + parts[0], parts[1..], sep);
      JoinCons(parts[0], parts[1..], sep);
      assert parts == [parts[0]] + parts[1..];
    }
  }

  /** Joining the pieces of a split restores the string. */
  lemma {:induction false} JoinSplit(s: string, sep: char)
    ensures Join(Split(s, sep), sep) == s
    decreases |s|
  {
    if s != [] {
      var rest := Split(s[1..], sep);
      JoinSplit(s[1..], sep);
      assert s == [s[0]] + s[1..];
      if s[0] == sep {
        JoinCons([], rest, sep);
      } else {
        JoinGlueFirst([s[0]], rest, sep);
      }
    }
  }

  lemma SplitCons(c: char, u: string, sep: char)
    requires c != sep
    ensures Split([c] + u, sep) == [[c] + Split(u, sep)[0]] + Split(u, sep)[1..]
  {
    assert ([c] + u)[0] == c && ([c] + u)[1..] == u;
  }

  lemma {:induction false} SplitAfterPrefix(p: string, t: string, sep: char)
    requires sep !in p
    ensures Split(p + t, sep) == [p + Split(t, sep)[0]] + Split(t, sep)[1..]
    decreases |p|
  {
    var tail := Split(t, sep);
    if p == [] {
      assert p + t == t;
      assert p + tail[0] == tail[0];
      assert [tail[0]] + tail[1..] == tail;
    } else {
      var u := p[1..] + t;
      assert p + t == [p[0]] + u;
      SplitCons(p[0], u, sep);
      SplitAfterPrefix(p[1..], t, sep);
      var rest := Split(u, sep);
      assert rest[0] == p[1..] + tail[0];
      assert rest[1..] == tail[1..];
      assert p == [p[0]] + p[1..];
      SeqAssoc3([p[0]], p[1..], tail[0]);
    }
  }

  /** Splitting the join of separator-free pieces gives the pieces back. */
  lemma {:induction false} SplitJoin(parts: seq<string>, sep: char)
    requires |parts| >= 1
    requires forall i :: 0 <= i < |parts| ==> sep !in parts[i]
    ensures Split(Join(parts, sep), sep) == parts
    decreases |parts|
  {
    if |parts| == 1 {
      SplitAfterPrefix(parts[0], [], sep);
      assert parts[0] + [] == parts[0];
    } else {
      var tail := Join(parts[1..], sep);
      SplitJoin(parts[1..], sep);
      assert Split([sep] + tail, sep) == [[]] + Split(tail, sep) by {
        assert ([sep] + tail)[1..] == tail;
      }
      assert parts[0] + [sep] + tail == parts[0] + ([sep] + tail);
      SplitAfterPrefix(parts[0], [sep] + tail, sep);
      assert parts[0] + [] == parts[0];
      assert parts == [parts[0]] + parts[1..];
    }
  }
}
