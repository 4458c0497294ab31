/** The few string operations that several components share, on ASCII. */
module Text {
  /** The ASCII characters that strings.TrimSpace removes. */
  predicate IsSpace(c: char) {
    c == ' ' || c == '\t' || c == '\n' || c == '\r' || c == '\U{0B}' || c == '\U{0C}'
  }

  /** strings.TrimSpace */
  function Trim(s: string): string {
    if s == [] then s
    else if IsSpace(s[0]) then Trim(s[1..])
    else if IsSpace(s[|s| - 1]) then Trim(s[..|s| - 1])
    else s
  }

  /** strings.ToLower on one ASCII character; it keeps positions. */
  function LowerChar(c: char): char {
    if 'A' <= c <= 'Z' then c - 'A' + 'a' else c
  }

  /** strings.HasPrefix(s[i:], p) */
  predicate HasAt(s: string, i: nat, p: string)
    decreases |s| - i
  {
    p == [] || (i < |s| && s[i] == p[0] && HasAt(s, i + 1, p[1..]))
  }

  /** strings.HasPrefix(strings.ToLower(s)[i:], p) */
  predicate HasFoldAt(s: string, i: nat, p: string)
    decreases |s| - i
  {
    p == [] || (i < |s| && LowerChar(s[i]) == p[0] && HasFoldAt(s, i + 1, p[1..]))
  }

  lemma {:induction false} HasFoldFits(s: string, i: nat, p: string)
    requires HasFoldAt(s, i, p)
    ensures p == [] || i + |p| <= |s|
    decreases |s| - i
  {
    if p != [] {
      HasFoldFits(s, i + 1, p[1..]);
    }
  }

  /** The first position from i on where p occurs, or -1: i + strings.Index(s[i:], p). */
  function FindFrom(s: string, i: nat, p: string): (r: int)
    ensures r == -1 || i <= r <= |s| - |p|
    decreases |s| - i
  {
    if i + |p| > |s| then -1
    else if HasAt(s, i, p) then i
    else FindFrom(s, i + 1, p)
  }

  lemma {:induction false} HasFits(s: string, i: nat, p: string)
    requires HasAt(s, i, p)
    ensures p == [] || i + |p| <= |s|
    decreases |s| - i
  {
    if p != [] {
      HasFits(s, i + 1, p[1..]);
    }
  }

  /** strings.HasSuffix */
  predicate EndsWith(s: string, p: string) {
    |s| >= |p| && HasAt(s, |s| - |p|, p)
  }

  /** strings.TrimLeft(s, chars) */
  function TrimLeft(s: string, chars: string): (t: string)
    ensures |t| <= |s| && s[|s| - |t|..] == t
  {
    if s != [] && s[0] in chars then TrimLeft(s[1..], chars) else s
  }

  /** strings.TrimRight(s, chars) */
  function TrimRight(s: string, chars: string): (t: string)
    ensures t <= s
  {
    if s != [] && s[|s| - 1] in chars then TrimRight(s[..|s| - 1], chars) else s
  }

  /** strings.ToLower */
  function Lower(s: string): string {
    seq(|s|, i requires 0 <= i < |s| => LowerChar(s[i]))
  }

  /** The first position from i on where p occurs in the lower-cased text, or -1. */
  function FindFoldFrom(s: string, i: nat, p: string): (r: int)
    ensures r == -1 || i <= r <= |s| - |p|
    decreases |s| - i
  {
    if i + |p| > |s| then -1
    else if HasFoldAt(s, i, p) then i
    else FindFoldFrom(s, i + 1, p)
  }

  lemma {:induction false} FoldFound(s: string, i: nat, p: string)
    requires FindFoldFrom(s, i, p) >= 0
    ensures HasFoldAt(s, FindFoldFrom(s, i, p), p)
    decreases |s| - i
  {
    if !HasFoldAt(s, i, p) {
      FoldFound(s, i + 1, p);
    }
  }

  /** strings.LastIndex(s[:n], p) with n = i + |p|: the last occurrence at or before i, or -1. */
  function FindLast(s: string, i: int, p: string): (r: int)
    requires i <= |s| - |p|
    ensures -1 <= r <= |s| - |p| || r == -1
  {
    if i < 0 then -1 else if HasAt(s, i, p) then i else FindLast(s, i - 1, p)
  }

  /** strings.Count(s[i:], p) for a non-empty p. */
  function CountFrom(s: string, i: nat, p: string): nat
    decreases |s| - i
  {
    if i >= |s| then 0
    else if p != "" && HasAt(s, i, p) then 1 + CountFrom(s, i + |p|, p)
    else CountFrom(s, i + 1, p)
  }

  /** The start of the line that position i is on. */
  function LineStart(s: string, i: nat): (r: nat)
    requires i <= |s|
    ensures r <= i
  {
    if i == 0 || s[i - 1] == '\r' || s[i - 1] == '\n' then i else LineStart(s, i - 1)
  }

  /** The first line break from i on, or the end. */
  function LineEnd(s: string, i: nat): (r: nat)
    requires i <= |s|
    ensures i <= r <= |s|
    decreases |s| - i
  {
    if i == |s| || s[i] == '\r' || s[i] == '\n' then i else LineEnd(s, i + 1)
  }

  /** Trimming twice is trimming once. */
  lemma {:induction false} TrimTwice(s: string)
    ensures Trim(Trim(s)) == Trim(s)
    decreases |s|
  {
    if s != "" {
      if IsSpace(s[0]) {
        TrimTwice(s[1..]);
      } else if IsSpace(s[|s| - 1]) {
        TrimTwice(s[..|s| - 1]);
      }
    }
  }

  /** The first line of a non-empty text with its newline, as strings.SplitAfter cuts it. */
  function LineLength(s: string): (n: nat)
    requires s != []
    ensures 0 < n <= |s|
  {
    var k := FindFrom(s, 0, "\n");
    if k == -1 then |s| else k + 1
  }

  function Concat(texts: seq<string>): string {
    if texts == [] then "" else Concat(texts[..|texts| - 1]) + texts[|texts| - 1]
  }

  function ConcatFront(texts: seq<string>): string {
    if texts == [] then "" else texts[0] + ConcatFront(texts[1..])
  }

  lemma {:induction false} ConcatAppend(a: seq<string>, b: seq<string>)
    ensures Concat(a + b) == Concat(a) + Concat(b)
    decreases |b|
  {
    if b == [] {
      assert a + b == a;
    } else {
      assert (a + b)[..|a + b| - 1] == a + b[..|b| - 1];
      ConcatAppend(a, b[..|b| - 1]);
    }
  }

  lemma {:induction false} FrontIsConcat(texts: seq<string>)
    ensures ConcatFront(texts) == Concat(texts)
  {
    if texts != [] {
      FrontIsConcat(texts[1..]);
      ConcatAppend([texts[0]], texts[1..]);
      assert [texts[0]] + texts[1..] == texts;
      assert Concat([texts[0]]) == texts[0] by { assert [texts[0]][..0] == []; }
    }
  }
}
