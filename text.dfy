/** The JavaScript string operations the quote pages rely on: `trim`, `join`,
    `split`, `includes`, `startsWith`, `toLowerCase`. Strings are sequences of
    Unicode scalar values. */
module Text {
  import opened Wrappers

  /** ECMAScript WhiteSpace and LineTerminator code points: what `String.prototype.trim` strips. */
  predicate IsWhitespace(c: char) {
    || c == '\t' || c == '\n' || c == '\U{000B}' || c == '\U{000C}' || c == '\r' || c == ' '
    || c == '\U{00A0}' || c == '\U{1680}' || ('\U{2000}' <= c <= '\U{200A}')
    || c == '\U{2028}' || c == '\U{2029}' || c == '\U{202F}' || c == '\U{205F}'
    || c == '\U{3000}' || c == '\U{FEFF}'
  }

  predicate AllWhitespace(s: string) {
    forall i :: 0 <= i < |s| ==> IsWhitespace(s[i])
  }

  /** Number of whitespace characters at the start of `s`. */
  function LeadingWhitespace(s: string): (k: nat)
    ensures k <= |s|
    ensures AllWhitespace(s[..k])
    ensures k < |s| ==> !IsWhitespace(s[k])
  {
    if s == [] || !IsWhitespace(s[0]) then 0
    else
      var k := 1 + LeadingWhitespace(s[1..]);
      assert s[..k] == [s[0]] + s[1..][..k - 1];
      k
  }

  /** Number of whitespace characters at the end of `s`. */
  function TrailingWhitespace(s: string): (k: nat)
    ensures k <= |s|
    ensures AllWhitespace(s[|s| - k..])
    ensures k < |s| ==> !IsWhitespace(s[|s| - 1 - k])
  {
    if s == [] || !IsWhitespace(s[|s| - 1]) then 0
    else
      var init := s[..|s| - 1];
      var k := 1 + TrailingWhitespace(init);
      assert s[|s| - k..] == init[|init| - (k - 1)..] + [s[|s| - 1]];
      k
  }

  /** `s.trim()`: the text between the leading and the trailing whitespace. */
  function Trim(s: string): (r: string)
    ensures exists a, b :: 0 <= a <= b <= |s| && r == s[a..b]
                           && AllWhitespace(s[..a]) && AllWhitespace(s[b..])
    ensures r != [] ==> !IsWhitespace(r[0]) && !IsWhitespace(r[|r| - 1])
    ensures r == [] <==> AllWhitespace(s)
  {
    var a := LeadingWhitespace(s);
    if a == |s| then
      assert s[a..] == [];
      assert s[..a] == s;
      s[a..a]
    else
      var b := |s| - TrailingWhitespace(s);
      assert !IsWhitespace(s[a]);
      s[a..b]
  }

  /** Trimming twice trims no more than trimming once. */
  lemma TrimIdempotent(s: string)
    ensures Trim(Trim(s)) == Trim(s)
  {
    var t := Trim(s);
    if t != [] {
      assert LeadingWhitespace(t) == 0;
      assert TrailingWhitespace(t) == 0;
      assert t[0..|t|] == t;
    }
  }

  /** A string JavaScript treats as empty once trimmed: `!s.trim()`. */
  predicate IsBlank(s: string) {
    Trim(s) == []
  }

  /** `parts.join(sep)`. */
  function Join(parts: seq<string>, sep: string): string
  {
    if |parts| == 0 then ""
    else if |parts| == 1 then parts[0]
    else parts[0] + sep + Join(parts[1..], sep)
  }

  /** `s.startsWith(prefix)`. */
  predicate StartsWith(s: string, prefix: string) {
    |prefix| <= |s| && s[..|prefix|] == prefix
  }

  predicate OccursAt(s: string, sub: string, i: nat) {
    i + |sub| <= |s| && s[i..i + |sub|] == sub
  }

  /** The first position at or after `from` where `sub` occurs in `s`. */
  function IndexFrom(s: string, sub: string, from: nat): (r: Option<nat>)
    ensures r.Some? ==> from <= r.value && OccursAt(s, sub, r.value)
    ensures forall j :: from <= j && (r.None? || j < r.value) ==> !OccursAt(s, sub, j)
    decreases |s| - from
  {
    if from + |sub| > |s| then None
    else if s[from..from + |sub|] == sub then Some(from)
    else IndexFrom(s, sub, from + 1)
  }

  /** `s.indexOf(sub)`, with `None` for -1. */
  function IndexOf(s: string, sub: string): Option<nat> {
    IndexFrom(s, sub, 0)
  }

  /** `s.includes(sub)`. */
  predicate Contains(s: string, sub: string) {
    IndexOf(s, sub).Some?
  }

  lemma ContainsIffOccurs(s: string, sub: string)
    ensures Contains(s, sub) <==> exists i: nat :: OccursAt(s, sub, i)
  {
  }

  /** `s || d` for a string: the empty string is falsy. */
  function OrDefault(s: string, d: string): string {
    if s == "" then d else s
  }

  /** The middle of a concatenation occurs in it. */
  lemma ContainsMiddle(a: string, b: string, c: string)
    ensures Contains(a + b + c, b)
  {
    var s := a + b + c;
    assert s[|a|..|a| + |b|] == b;
    assert OccursAt(s, b, |a|);
    ContainsIffOccurs(s, b);
  }

  lemma StartsWithPrefix(a: string, b: string)
    ensures StartsWith(a + b, a)
  {
    assert (a + b)[..|a|] == a;
  }

  lemma StartsWithLonger(h: string, a: string, b: string, c: string)
    ensures StartsWith(h + a + b + c, h)
  {
    assert (h + a + b + c)[..|h|] == h;
  }

  lemma EndsWithSuffix(a: string, b: string)
    ensures (a + b)[|a + b| - |b|..] == b
  {
  }

  /** Every part of a join sits between the text before it and the text after it. */
  lemma {:induction false} JoinAround(parts: seq<string>, sep: string, k: nat) returns (pre: string, post: string)
    requires k < |parts|
    ensures Join(parts, sep) == pre + parts[k] + post
    decreases k
  {
    if |parts| == 1 {
      pre, post := "", "";
    } else if k == 0 {
      pre, post := "", sep + Join(parts[1..], sep);
    } else {
      var p, q := JoinAround(parts[1..], sep, k - 1);
      pre, post := parts[0] + sep + p, q;
    }
  }

  /** `c` does not occur in `s`. */
  predicate Free(s: string, c: char) {
    forall i :: 0 <= i < |s| ==> s[i] != c
  }

  lemma FreeHasNoIndex(s: string, sub: string)
    requires |sub| >= 1 && Free(s, sub[0])
    ensures IndexOf(s, sub) == None
  {
    forall j: nat | j < |s| ensures !OccursAt(s, sub, j) {
      if j + |sub| <= |s| {
        assert s[j..j + |sub|][0] == s[j];
      }
    }
  }

  lemma FreeIndexAfter(p: string, sep: string, rest: string)
    requires |sep| >= 1 && Free(p, sep[0])
    ensures IndexOf(p + sep + rest, sep) == Some(|p|)
  {
    var s := p + sep + rest;
    assert s[|p|..|p| + |sep|] == sep;
    assert OccursAt(s, sep, |p|);
    forall j: nat | j < |p| ensures !OccursAt(s, sep, j) {
      if j + |sep| <= |s| {
        assert s[j..j + |sep|][0] == p[j];
      }
    }
  }

  /** Splitting a join gives the parts back when no part contains the separator's first
      character. */
  lemma {:induction false} SplitJoin(parts: seq<string>, sep: string)
    requires |parts| >= 1 && |sep| >= 1
    requires forall k :: 0 <= k < |parts| ==> Free(parts[k], sep[0])
    ensures Split(Join(parts, sep), sep) == parts
    decreases |parts|
  {
    var s := Join(parts, sep);
    if |parts| == 1 {
      FreeHasNoIndex(parts[0], sep);
    } else {
      var rest := Join(parts[1..], sep);
      assert s == parts[0] + sep + rest;
      FreeIndexAfter(parts[0], sep, rest);
      assert s[..|parts[0]|] == parts[0];
      assert s[|parts[0]| + |sep|..] == rest;
      SplitJoin(parts[1..], sep);
      assert parts == [parts[0]] + parts[1..];
    }
  }

  /** `s.replace(pattern, with)` for a string pattern: only the first occurrence. */
  function ReplaceFirst(s: string, pattern: string, with: string): string {
    match IndexOf(s, pattern)
    case None => s
    case Some(i) => s[..i] + with + s[i + |pattern|..]
  }

  /** Removing a prefix the string starts with leaves the rest. */
  lemma ReplacePrefix(s: string, prefix: string)
    requires StartsWith(s, prefix)
    ensures ReplaceFirst(s, prefix, "") == s[|prefix|..]
  {
    assert OccursAt(s, prefix, 0);
  }

  /** Trimming a string that is already trimmed, behind one space, gives it back. */
  lemma TrimAfterSpace(t: string)
    requires Trim(t) == t
    ensures Trim(" " + t) == t
  {
    var s := " " + t;
    if t == [] {
      assert AllWhitespace(s);
    } else {
      assert !IsWhitespace(t[0]) && !IsWhitespace(t[|t| - 1]);
      assert s[1..] == t;
      assert LeadingWhitespace(s) == 1;
      assert TrailingWhitespace(s) == 0;
      assert s[1..|s|] == t;
    }
  }

  /** `s.split(sep)` for a non-empty separator: cut at each occurrence, left to right. */
  function Split(s: string, sep: string): (parts: seq<string>)
    requires |sep| > 0
    ensures |parts| >= 1
    ensures Join(parts, sep) == s
    ensures forall k :: 0 <= k < |parts| ==> !Contains(parts[k], sep)
    decreases |s|
  {
    match IndexOf(s, sep)
    case None => [s]
    case Some(i) =>
      var head := s[..i];
      var rest := Split(s[i + |sep|..], sep);
      PrefixOccurrences(s, sep, i);
      ContainsIffOccurs(head, sep);
      assert s == head + sep + s[i + |sep|..];
      [head] + rest
  }

  /** An occurrence in a prefix of `s` is an occurrence in `s` that ends within the prefix. */
  lemma PrefixOccurrences(s: string, sub: string, n: nat)
    requires n <= |s|
    ensures forall j: nat :: OccursAt(s[..n], sub, j) ==> j + |sub| <= n && OccursAt(s, sub, j)
  {
    forall j: nat | OccursAt(s[..n], sub, j) ensures j + |sub| <= n && OccursAt(s, sub, j) {
      assert s[..n][j..j + |sub|] == s[j..j + |sub|];
    }
  }

  /** The first occurrence at `i` leaves no occurrence that starts before `i`, so none
      fits in the text up to the last character of that first occurrence. */
  lemma NoEarlierOccurrence(s: string, sub: string, i: nat)
    requires |sub| > 0 && IndexOf(s, sub) == Some(i)
    ensures !Contains(s[..i + |sub| - 1], sub)
  {
    PrefixOccurrences(s, sub, i + |sub| - 1);
    ContainsIffOccurs(s[..i + |sub| - 1], sub);
  }

  lemma ThroughCut(s: string, sub: string, i: nat)
    requires |sub| > 0 && OccursAt(s, sub, i)
    ensures s[..i] + sub[..|sub| - 1] == s[..i + |sub| - 1]
  {
    assert s[i..i + |sub|] == sub;
  }

  /** No part but the last holds an occurrence of `sep` starting inside it, even one that
      would run on into the separator that follows it. */
  predicate CutsLeftmost(parts: seq<string>, sep: string)
    requires |sep| > 0
  {
    forall k :: 0 <= k < |parts| - 1 ==> !Contains(parts[k] + sep[..|sep| - 1], sep)
  }

  lemma CutsLeftmostCons(head: string, rest: seq<string>, sep: string)
    requires |sep| > 0 && !Contains(head + sep[..|sep| - 1], sep) && CutsLeftmost(rest, sep)
    ensures CutsLeftmost([head] + rest, sep)
  {
    var parts := [head] + rest;
    forall k | 0 <= k < |parts| - 1 ensures !Contains(parts[k] + sep[..|sep| - 1], sep) {
      if k > 0 {
        assert parts[k] == rest[k - 1];
      }
    }
  }

  /** Unfolding `Split` once, at the first occurrence `i`. */
  lemma SplitAtFirst(s: string, sep: string, i: nat)
    requires |sep| > 0 && IndexOf(s, sep) == Some(i)
    ensures i + |sep| <= |s|
    ensures Split(s, sep) == [s[..i]] + Split(s[i + |sep|..], sep)
    ensures !Contains(s[..i] + sep[..|sep| - 1], sep)
  {
    NoEarlierOccurrence(s, sep, i);
    ThroughCut(s, sep, i);
  }

  /** `split` cuts at the leftmost occurrence each time, so where occurrences overlap
      (`"\n\n\n"` for `"\n\n"`) the parts are the ones JavaScript returns. */
  lemma {:induction false} SplitLeftmost(s: string, sep: string)
    requires |sep| > 0
    ensures CutsLeftmost(Split(s, sep), sep)
    decreases |s|
  {
    match IndexOf(s, sep)
    case None =>
      assert Split(s, sep) == [s];
    case Some(i) =>
      SplitAtFirst(s, sep, i);
      SplitLeftmost(s[i + |sep|..], sep);
      CutsLeftmostCons(s[..i], Split(s[i + |sep|..], sep), sep);
  }

  /** `c.toLowerCase()` on the Basic Latin and Latin-1 letters (which cover Spanish text):
      `A`–`Z` and `À`–`Þ` but `×` move up by 32; everything else is kept. */
  function LowerChar(c: char): (r: char)
    ensures 'A' <= c <= 'Z' ==> r as int == c as int + 32
    ensures '\U{00C0}' <= c <= '\U{00DE}' && c != '\U{00D7}' ==> r as int == c as int + 32
    ensures !('A' <= c <= 'Z') && !('\U{00C0}' <= c <= '\U{00DE}') ==> r == c
    ensures c == '\U{00D7}' ==> r == c
  {
    if 'A' <= c <= 'Z' || ('\U{00C0}' <= c <= '\U{00DE}' && c != '\U{00D7}') then
      (c as int + 32) as char
    else c
  }

  /** `s.toLowerCase()`, character by character. */
  function ToLower(s: string): (r: string)
    ensures |r| == |s|
    ensures forall i :: 0 <= i < |s| ==> r[i] == LowerChar(s[i])
  {
    seq(|s|, i requires 0 <= i < |s| => LowerChar(s[i]))
  }

  /** Lower-casing twice lower-cases no more than once. */
  lemma ToLowerIdempotent(s: string)
    ensures ToLower(ToLower(s)) == ToLower(s)
  {
    forall i | 0 <= i < |s| ensures LowerChar(LowerChar(s[i])) == LowerChar(s[i]) {
      var c := s[i];
      if 'A' <= c <= 'Z' {
        assert 'a' <= LowerChar(c) <= 'z';
      }
    }
  }
}
