/**
 * The functions of Go's `strings` package that the service relies on, stated
 * on sequences of Unicode code points, with the facts about them that the
 * rest of the model uses.
 */
module GoStrings {

  /** unicode.IsSpace: the code points with the Unicode White_Space property. */
  predicate IsSpace(c: char) {
    || c == ' ' || c == '\t' || c == '\n' || c == '\U{000B}' || c == '\U{000C}' || c == '\r'
    || c == '\U{0085}' || c == '\U{00A0}' || c == '\U{1680}'
    || ('\U{2000}' <= c <= '\U{200A}')
    || c == '\U{2028}' || c == '\U{2029}' || c == '\U{202F}' || c == '\U{205F}' || c == '\U{3000}'
  }

  /** `s` has no leading and no trailing white space. */
  predicate Trimmed(s: string) {
    s == [] || (!IsSpace(s[0]) && !IsSpace(s[|s| - 1]))
  }

  /** `sub` occurs in `s` starting at index `i`. */
  predicate OccursAt(s: string, sub: string, i: int) {
    0 <= i && i + |sub| <= |s| && s[i..i + |sub|] == sub
  }

  /** strings.Index: the first index at which `sub` occurs in `s`, or -1. */
  function Index(s: string, sub: string): (r: int)
    ensures -1 <= r <= |s|
    ensures r >= 0 ==> OccursAt(s, sub, r)
    ensures forall j :: 0 <= j && (r < 0 || j < r) ==> !OccursAt(s, sub, j)
    decreases |s|
  {
    if |s| < |sub| then -1
    else if s[..|sub|] == sub then 0
    else
      var j := Index(s[1..], sub);
      assert forall k :: 1 <= k ==> (OccursAt(s, sub, k) <==> OccursAt(s[1..], sub, k - 1)) by {
        forall k | 1 <= k ensures OccursAt(s, sub, k) <==> OccursAt(s[1..], sub, k - 1) {
          OccursInTail(s, sub, k);
        }
      }
      if j < 0 then -1 else j + 1
  }

  /** An occurrence at `k >= 1` is an occurrence at `k - 1` in the tail. */
  lemma OccursInTail(s: string, sub: string, k: int)
    requires 1 <= k && |s| > 0
    ensures OccursAt(s, sub, k) <==> OccursAt(s[1..], sub, k - 1)
  {
    if k + |sub| <= |s| {
      var a, b := s[k..k + |sub|], s[1..][k - 1..k - 1 + |sub|];
      assert |a| == |b|;
      assert forall m :: 0 <= m < |a| ==> a[m] == s[k + m] == b[m];
      assert a == b;
    }
  }

  /** strings.Contains */
  predicate Contains(s: string, sub: string)
    ensures Contains(s, sub) <==> exists i :: OccursAt(s, sub, i)
  {
    Index(s, sub) >= 0
  }

  /** strings.HasPrefix */
  predicate HasPrefix(s: string, prefix: string) {
    |prefix| <= |s| && s[..|prefix|] == prefix
  }

  /** strings.HasSuffix */
  predicate HasSuffix(s: string, suffix: string) {
    |suffix| <= |s| && s[|s| - |suffix|..] == suffix
  }

  /** strings.TrimPrefix */
  function TrimPrefix(s: string, prefix: string): (r: string)
    ensures HasPrefix(s, prefix) ==> s == prefix + r
    ensures !HasPrefix(s, prefix) ==> r == s
  {
    if HasPrefix(s, prefix) then s[|prefix|..] else s
  }

  /** strings.Split for a non-empty separator: the pieces between the leftmost non-overlapping occurrences. */
  function Split(s: string, sep: string): (parts: seq<string>)
    requires |sep| > 0
    ensures |parts| >= 1
    decreases |s|
  {
    var i := Index(s, sep);
    if i < 0 then [s] else [s[..i]] + Split(s[i + |sep|..], sep)
  }

  /** strings.Join */
  function Join(parts: seq<string>, sep: string): string {
    if |parts| == 0 then ""
    else if |parts| == 1 then parts[0]
    else parts[0] + sep + Join(parts[1..], sep)
  }

  /** Joining the pieces of a split with the same separator gives back the original text. */
  lemma {:induction false} JoinSplit(s: string, sep: string)
    requires |sep| > 0
    ensures Join(Split(s, sep), sep) == s
    decreases |s|
  {
    var i := Index(s, sep);
    if i >= 0 {
      JoinSplit(s[i + |sep|..], sep);
      SplitStep(s, sep);
      JoinCons(s[..i], Split(s[i + |sep|..], sep), sep);
    }
  }

  /** One step of a split: the text before the first separator, then the split of the rest. */
  lemma SplitStep(s: string, sep: string)
    requires |sep| > 0 && Index(s, sep) >= 0
    ensures var i := Index(s, sep);
            && Split(s, sep) == [s[..i]] + Split(s[i + |sep|..], sep)
            && s == s[..i] + sep + s[i + |sep|..]
  {
    CutAround(s, sep, Index(s, sep));
  }

  /** A text is what comes before an occurrence, the occurrence, and what comes after it. */
  lemma CutAround(s: string, sub: string, i: int)
    requires OccursAt(s, sub, i)
    ensures s == s[..i] + sub + s[i + |sub|..]
  {
    assert s == s[..i] + s[i..i + |sub|] + s[i + |sub|..];
  }

  /** Joining a list with a first element in front puts one separator between them. */
  lemma JoinCons(head: string, tail: seq<string>, sep: string)
    requires |tail| > 0
    ensures Join([head] + tail, sep) == head + sep + Join(tail, sep)
  {
    assert ([head] + tail)[1..] == tail;
  }

  /** Join distributes over concatenation of two non-empty lists. */
  lemma {:induction false} JoinAppend(a: seq<string>, b: seq<string>, sep: string)
    requires |a| > 0 && |b| > 0
    ensures Join(a + b, sep) == Join(a, sep) + sep + Join(b, sep)
    decreases |a|
  {
    if |a| == 1 {
      assert (a + b)[1..] == b;
    } else {
      assert (a + b)[1..] == a[1..] + b;
      JoinAppend(a[1..], b, sep);
    }
  }

  /** Cutting the pieces of a split anywhere and joining both sides around one separator gives back the text. */
  lemma SplitCutJoin(s: string, sep: string, k: nat)
    requires |sep| > 0 && 0 < k < |Split(s, sep)|
    ensures Join(Split(s, sep)[..k], sep) + sep + Join(Split(s, sep)[k..], sep) == s
  {
    var parts := Split(s, sep);
    assert parts[..k] + parts[k..] == parts;
    JoinAppend(parts[..k], parts[k..], sep);
    JoinSplit(s, sep);
  }

  /** Joining non-empty trimmed texts gives a non-empty trimmed text, whatever the separator. */
  lemma {:induction false} JoinTrimmed(parts: seq<string>, sep: string)
    requires |parts| > 0
    requires forall k :: 0 <= k < |parts| ==> parts[k] != "" && Trimmed(parts[k])
    ensures Join(parts, sep) != "" && Trimmed(Join(parts, sep))
    decreases |parts|
  {
    if |parts| > 1 {
      JoinTrimmed(parts[1..], sep);
      var rest := Join(parts[1..], sep);
      var whole := parts[0] + sep + rest;
      assert whole[0] == parts[0][0];
      assert whole[|whole| - 1] == rest[|rest| - 1];
    }
  }

  /** strings.TrimLeftFunc(s, unicode.IsSpace) */
  function TrimLeft(s: string): (r: string)
    ensures |r| <= |s| && r == s[|s| - |r|..]
    ensures forall k :: 0 <= k < |s| - |r| ==> IsSpace(s[k])
    ensures r != [] ==> !IsSpace(r[0])
    decreases |s|
  {
    if |s| > 0 && IsSpace(s[0]) then TrimLeft(s[1..]) else s
  }

  /** strings.TrimRightFunc(s, unicode.IsSpace) */
  function TrimRight(s: string): (r: string)
    ensures |r| <= |s| && r == s[..|r|]
    ensures forall k :: |r| <= k < |s| ==> IsSpace(s[k])
    ensures r != [] ==> !IsSpace(r[|r| - 1])
    decreases |s|
  {
    if |s| > 0 && IsSpace(s[|s| - 1]) then TrimRight(s[..|s| - 1]) else s
  }

  /** Every character of `t` is white space. */
  predicate AllSpace(t: string) {
    forall k :: 0 <= k < |t| ==> IsSpace(t[k])
  }

  /** strings.TrimSpace: the input without its leading and trailing white space. */
  function TrimSpace(s: string): (r: string)
    ensures Trimmed(r)
    ensures r == [] <==> forall k :: 0 <= k < |s| ==> IsSpace(s[k])
    ensures Trimmed(s) ==> r == s
  {
    var left := TrimLeft(s);
    var r := TrimRight(left);
    assert r != [] ==> r[0] == left[0];
    assert r == [] ==> left == [];
    r
  }

  /**
   * What TrimSpace returns: the slice of its input between the white space
   * it removes at the front and the white space it removes at the back.
   */
  lemma TrimSpaceIsSlice(s: string)
    ensures exists i, j :: 0 <= i <= j <= |s| && TrimSpace(s) == s[i..j] && AllSpace(s[..i]) && AllSpace(s[j..])
  {
    var left := TrimLeft(s);
    TrimLeftRemovesSpace(s);
    TrimRightRemovesSpace(left);
    TrimBothIsSlice(s, left, TrimRight(left));
  }

  lemma TrimLeftRemovesSpace(s: string)
    ensures AllSpace(s[..|s| - |TrimLeft(s)|])
  {
    var n := |s| - |TrimLeft(s)|;
    assert forall k :: 0 <= k < n ==> s[..n][k] == s[k];
  }

  lemma TrimRightRemovesSpace(s: string)
    ensures AllSpace(s[|TrimRight(s)|..])
  {
    var n := |TrimRight(s)|;
    assert forall k :: 0 <= k < |s| - n ==> s[n..][k] == s[n + k];
  }

  /** A trimmed prefix of a trimmed suffix is the slice between the white space removed at each end. */
  lemma TrimBothIsSlice(s: string, left: string, r: string)
    requires |left| <= |s| && left == s[|s| - |left|..] && AllSpace(s[..|s| - |left|])
    requires |r| <= |left| && r == left[..|r|] && AllSpace(left[|r|..])
    ensures exists i, j :: 0 <= i <= j <= |s| && r == s[i..j] && AllSpace(s[..i]) && AllSpace(s[j..])
  {
    var i := |s| - |left|;
    assert s[i + |r|..] == left[|r|..];
    assert r == s[i..i + |r|];
  }

  /** The number of bytes a code point takes in UTF-8. */
  function Utf8Width(c: char): (w: nat)
    ensures 1 <= w <= 4
    ensures w == 1 <==> (c as int) < 0x80
  {
    if (c as int) < 0x80 then 1
    else if (c as int) < 0x800 then 2
    else if (c as int) < 0x1_0000 then 3
    else 4
  }

  /** len(s) in Go: the number of bytes of the UTF-8 encoding of `s`. */
  function Utf8Length(s: string): (n: nat)
    ensures |s| <= n <= 4 * |s|
    ensures n == |s| <==> forall k :: 0 <= k < |s| ==> (s[k] as int) < 0x80
  {
    if s == [] then 0 else Utf8Width(s[0]) + Utf8Length(s[1..])
  }

  /** strings.ReplaceAll for a non-empty pattern: leftmost non-overlapping occurrences, left to right. */
  function ReplaceAll(s: string, pattern: string, replacement: string): string
    requires |pattern| > 0
    decreases |s|
  {
    if |s| < |pattern| then s
    else if s[..|pattern|] == pattern then replacement + ReplaceAll(s[|pattern|..], pattern, replacement)
    else [s[0]] + ReplaceAll(s[1..], pattern, replacement)
  }

  /** The upper-case letters that strings.ToLower maps here: Latin A-Z and the basic Cyrillic capitals. */
  function LowerChar(c: char): char {
    if 'A' <= c <= 'Z' then (c as int + 32) as char
    else if '\U{0410}' <= c <= '\U{042F}' then (c as int + 32) as char
    else if '\U{0400}' <= c <= '\U{040F}' then (c as int + 80) as char
    else c
  }

  /** strings.ToLower, code point by code point. */
  function ToLower(s: string): (r: string)
    ensures |r| == |s|
    ensures forall i :: 0 <= i < |s| ==> r[i] == LowerChar(s[i])
  {
    seq(|s|, i requires 0 <= i < |s| => LowerChar(s[i]))
  }
}
