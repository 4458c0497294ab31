/** How tags are read: where one ends, which names are known, and what comments hide. */
module MarkupReads {
  import opened Options
  import opened Text
  import opened Markup
  import B = SieveTwoBlocks

  // ---- the end of a tag

  /** The quote that is open after reading from i to j, if any. */
  function OpenQuote(text: string, i: nat, j: nat): Option<char>
    requires i <= j <= |text|
  {
    if i == j then None
    else
      match OpenQuote(text, i, j - 1)
      case Some(q) => if text[j - 1] == q then None else Some(q)
      case None => if text[j - 1] == '"' || text[j - 1] == '\'' then Some(text[j - 1]) else None
  }

  predicate EndsAt(text: string, i: nat, j: nat)
    requires i <= j < |text|
  {
    text[j] == '>' && OpenQuote(text, i, j).None?
  }

  lemma {:induction false} EndFrom(text: string, i: nat, k: nat)
    requires i <= k <= |text| && forall j :: i <= j < k ==> !EndsAt(text, i, j)
    ensures var end := TagEnd(text, k, OpenQuote(text, i, k));
      if end < 0 then forall j :: i <= j < |text| ==> !EndsAt(text, i, j)
      else i <= end < |text| && EndsAt(text, i, end) && forall j :: i <= j < end ==> !EndsAt(text, i, j)
    decreases |text| - k
  {
    if k < |text| && !EndsAt(text, i, k) {
      EndFrom(text, i, k + 1);
    }
  }

  /** A tag ends at the first closing bracket that is outside single and double quotes. */
  lemma EndIsFirst(text: string, i: nat)
    requires i <= |text|
    ensures var end := TagEnd(text, i, None);
      if end < 0 then forall j :: i <= j < |text| ==> !EndsAt(text, i, j)
      else i <= end < |text| && EndsAt(text, i, end) && forall j :: i <= j < end ==> !EndsAt(text, i, j)
  {
    hide EndsAt, TagEnd;
    EndFrom(text, i, i);
  }

  // ---- names

  lemma AliasHere(text: string, i: nat, names: seq<Alias>)
    requires names != [] && !names[0].dsmlOnly && HasFoldAt(text, i, names[0].raw)
    ensures MatchName(text, i, false, names) == (names[0].canonical, |names[0].raw|)
  {
  }

  lemma AliasNotHere(text: string, i: nat, names: seq<Alias>)
    requires names != [] && (names[0].dsmlOnly || !HasFoldAt(text, i, names[0].raw))
    ensures MatchName(text, i, false, names) == MatchName(text, i, false, names[1..])
  {
  }

  lemma NamesFrom(k: nat)
    requires k < 9
    ensures |Names()| == 9 && Names()[k..] == [Names()[k]] + Names()[k + 1..]
    ensures Names()[2] == Alias("tool_calls", "tool_calls", false)
    ensures Names()[3] == Alias("tool_call", "tool_calls", false)
    ensures Names()[5] == Alias("invoke", "invoke", false) && Names()[7] == Alias("parameter", "parameter", false)
    ensures Names()[0].dsmlOnly && Names()[1].dsmlOnly && Names()[4].dsmlOnly && Names()[6].dsmlOnly
  {
  }

  lemma {:induction false} SkipNames(text: string, i: nat, k: nat, n: nat)
    requires k <= n < 9
    requires forall j :: k <= j < n ==> Names()[j].dsmlOnly || !HasFoldAt(text, i, Names()[j].raw)
    ensures MatchName(text, i, false, Names()[k..]) == MatchName(text, i, false, Names()[n..])
    decreases n - k
  {
    hide HasFoldAt, MatchName, Names;
    if k < n {
      NamesFrom(k);
      assert Names()[k..][0] == Names()[k] && Names()[k..][1..] == Names()[k + 1..];
      AliasNotHere(text, i, Names()[k..]);
      SkipNames(text, i, k + 1, n);
    }
  }

  /** The n-th known name is read where it stands, if no name before it does. */
  lemma NameRead(text: string, i: nat, n: nat)
    requires n < 9 && !Names()[n].dsmlOnly && HasFoldAt(text, i, Names()[n].raw)
    requires forall j :: 0 <= j < n ==> Names()[j].dsmlOnly || !HasFoldAt(text, i, Names()[j].raw)
    ensures MatchName(text, i, false, Names()) == (Names()[n].canonical, |Names()[n].raw|)
  {
    hide HasFoldAt, MatchName, Names;
    NamesFrom(n);
    SkipNames(text, i, 0, n);
    assert Names()[0..] == Names();
    assert Names()[n..][0] == Names()[n];
    AliasHere(text, i, Names()[n..]);
  }

  lemma NoDialectAt(s: string, i: nat)
    requires i < |s| && (s[i] == 't' || s[i] == 'i' || s[i] == 'p')
    ensures PrefixOnce(s, i) == i
  {
    assert LowerChar(s[i]) == s[i];
    assert !HasFoldAt(s, i, "dsml") && !HasFoldAt(s, i, "zjml") && !HasFoldAt(s, i, "qnml");
  }

  lemma EndsHere(s: string, canonical: string, n: nat)
    requires 2 <= n && |s| == n + 2 && s[0] == '<' && s[n + 1] == '>' && s[n] != '/'
    ensures EndTag(s, 0, n + 1, Pipes(canonical, false, false, false))
         == Some(Tag(0, n + 1, canonical, false, false, false))
  {
    NotSelf(s);
    hide Trim, EndsWith, FindFrom;
    assert TagEnd(s, n + 1, None) == n + 1;
    assert s[0..n + 2] == s;
  }

  lemma ScannedAs(s: string, canonical: string, n: nat)
    requires 2 <= n && |s| == n + 2 && s[0] == '<' && (s[1] == 't' || s[1] == 'i' || s[1] == 'p')
    requires s[n + 1] == '>' && s[n] != '/' && MatchName(s, 1, false, Names()) == (canonical, n)
    ensures FindTag(s, 0) == Some(Tag(0, n + 1, canonical, false, false, false))
  {
    NoDialectAt(s, 1);
    EndsHere(s, canonical, n);
    B.NoSkip(s, 0);
    var ph := Pipes(canonical, false, false, false);
    hide PrefixOnce, MatchName, Names, EndTag, SkipAt;
    assert Scan(s, 0, n + 1, ph) == EndTag(s, 0, n + 1, ph);
    assert Scan(s, 0, 1, Noise(false, false)) == Scan(s, 0, n + 1, ph);
    assert ScanTag(s, 0) == Scan(s, 0, 1, Angles) == Scan(s, 0, 1, Noise(false, false));
  }

  lemma NotSelf(s: string)
    requires |s| >= 3 && s[0] == '<' && s[|s| - 1] == '>' && s[|s| - 2] != '/'
    ensures !EndsWith(Trim(s), "/>")
  {
    assert Trim(s) == s;
    assert !HasAt(s, |s| - 2, "/>");
  }

  /** The opening tags that are known in plain form, and what they are called: both spellings of the wrapper count as
      the wrapper. */
  lemma KnownTags()
    ensures FindTag("<tool_calls>", 0) == Some(Tag(0, 11, "tool_calls", false, false, false))
    ensures FindTag("<tool_call>", 0) == Some(Tag(0, 10, "tool_calls", false, false, false))
    ensures FindTag("<invoke>", 0) == Some(Tag(0, 7, "invoke", false, false, false))
    ensures FindTag("<parameter>", 0) == Some(Tag(0, 10, "parameter", false, false, false))
  {
    hide *;
    KnownWrapper();
    KnownShort();
    KnownInvoke();
    KnownParameter();
  }

  lemma Here(s: string, raw: string)
    requires s == "<" + raw + ">" && forall k :: 0 <= k < |raw| ==> LowerChar(raw[k]) == raw[k]
    ensures HasFoldAt(s, 1, raw) && |s| == |raw| + 2 && s[0] == '<' && s[|raw| + 1] == '>'
    ensures forall k :: 0 <= k < |raw| ==> s[k + 1] == raw[k]
  {
    assert s[1..1 + |raw|] == raw;
    B.FoldHere(s, 1, raw);
  }

  lemma OtherStart(s: string, raw: string)
    requires |s| > 1 && raw != "" && LowerChar(s[1]) != raw[0]
    ensures !HasFoldAt(s, 1, raw)
  {
  }

  lemma KnownWrapper()
    ensures FindTag("<tool_calls>", 0) == Some(Tag(0, 11, "tool_calls", false, false, false))
  {
    B.OpenFound(B.OPENING);
    hide FindTag;
  }

  lemma KnownShort()
    ensures FindTag("<tool_call>", 0) == Some(Tag(0, 10, "tool_calls", false, false, false))
  {
    var raw := "tool_call";
    var s := "<" + raw + ">";
    assert s == "<tool_call>";
    Here(s, raw);
    NoLonger(s);
    NamesFrom(3);
    hide FindTag, MatchName, Names, HasFoldAt;
    NameRead(s, 1, 3);
    ScannedAs(s, "tool_calls", 9);
  }

  lemma NoLonger(s: string)
    requires |s| == 11 && s[10] == '>'
    ensures !HasFoldAt(s, 1, "tool_calls")
  {
    if HasFoldAt(s, 1, "tool_calls") {
      LastFold(s, 1, "tool_calls");
      assert false;
    }
  }

  lemma {:induction false} LastFold(s: string, i: nat, p: string)
    requires p != "" && HasFoldAt(s, i, p)
    ensures i + |p| <= |s| && LowerChar(s[i + |p| - 1]) == p[|p| - 1]
    decreases |p|
  {
    if |p| > 1 {
      LastFold(s, i + 1, p[1..]);
    }
  }

  lemma KnownInvoke()
    ensures FindTag("<invoke>", 0) == Some(Tag(0, 7, "invoke", false, false, false))
  {
    var raw := "invoke";
    var s := "<" + raw + ">";
    assert s == "<invoke>";
    Here(s, raw);
    assert s[1] == 'i';
    OtherStart(s, "tool_calls");
    OtherStart(s, "tool_call");
    NamesFrom(5);
    hide FindTag, MatchName, Names, HasFoldAt;
    NameRead(s, 1, 5);
    ScannedAs(s, "invoke", 6);
  }

  lemma KnownParameter()
    ensures FindTag("<parameter>", 0) == Some(Tag(0, 10, "parameter", false, false, false))
  {
    var raw := "parameter";
    var s := "<" + raw + ">";
    assert s == "<parameter>";
    Here(s, raw);
    assert s[1] == 'p';
    OtherStart(s, "tool_calls");
    OtherStart(s, "tool_call");
    OtherStart(s, "invoke");
    NamesFrom(7);
    hide FindTag, MatchName, Names, HasFoldAt;
    NameRead(s, 1, 7);
    ScannedAs(s, "parameter", 9);
  }

  // ---- comments

  lemma {:induction false} FirstAt(s: string, i: nat, k: nat, p: string)
    requires i <= k && k + |p| <= |s| && HasAt(s, k, p) && forall j :: i <= j < k ==> !HasAt(s, j, p)
    ensures FindFrom(s, i, p) == k
    decreases k - i
  {
    if i < k {
      FirstAt(s, i + 1, k, p);
    }
  }

  lemma {:induction false} NeverFrom(s: string, i: nat, p: string)
    requires p != "" && forall j :: i <= j < |s| ==> !HasAt(s, j, p)
    ensures FindFrom(s, i, p) == -1
    decreases |s| - i
  {
    if i + |p| <= |s| {
      NeverFrom(s, i + 1, p);
    }
  }

  lemma NoCdata(s: string, i: nat)
    requires HasAt(s, i, "<!--")
    ensures !HasFoldAt(s, i, "<![cdata[")
  {
    assert "<!--"[1..] == "!--" && "!--"[1..] == "--";
    assert HasAt(s, i + 1, "!--");
    assert HasAt(s, i + 2, "--");
    assert LowerChar(s[i + 2]) != '[';
    assert "<![cdata["[1..] == "![cdata[" && "![cdata["[1..] == "[cdata[";
    assert !HasFoldAt(s, i + 2, "[cdata[");
    assert !HasFoldAt(s, i + 1, "![cdata[");
  }

  /** Whatever a comment holds is not looked at: the search goes on behind it. */
  lemma CommentHides(s: string, i: nat, end: nat)
    requires HasAt(s, i, "<!--") && i + 4 <= end && end + 3 <= |s| && HasAt(s, end, "-->")
    requires forall j :: i + 4 <= j < end ==> !HasAt(s, j, "-->")
    ensures FindTag(s, i) == FindTag(s, end + 3)
  {
    FirstAt(s, i + 4, end, "-->");
    NoCdata(s, i);
    hide HasAt, HasFoldAt, FindFrom;
  }

  /** A comment that is not closed hides the rest. */
  lemma OpenCommentHides(s: string, i: nat)
    requires HasAt(s, i, "<!--") && forall j :: i + 4 <= j < |s| ==> !HasAt(s, j, "-->")
    ensures FindTag(s, i) == None
  {
    HasFits(s, i, "<!--");
    NeverFrom(s, i + 4, "-->");
    NoCdata(s, i);
    hide HasAt, HasFoldAt, FindFrom;
  }

  // ---- CDATA sections

  predicate SectionAt(s: string, i: nat) {
    HasFoldAt(s, i, "<![cdata[")
  }

  /** The close marker at k is the first from i on. */
  ghost predicate FirstClose(s: string, i: nat, k: nat) {
    i <= k && k + 3 <= |s| && HasAt(s, k, "]]>") && forall j :: i <= j < k ==> !HasAt(s, j, "]]>")
  }

  predicate InFence(s: string, from: nat, end: nat)
    requires from <= end <= |s|
  {
    FenceAfter(s[from..end], None).Some?
  }

  /** A closing tag comes next, blanks aside. */
  predicate ClosingFollows(s: string, i: nat)
    requires i <= |s|
  {
    HasAt(TrimLeft(s[i..], " \t\r\n"), 0, "</")
  }

  lemma FindsClose(s: string, i: nat, k: nat)
    requires FirstClose(s, i, k)
    ensures FindFrom(s, i, "]]>") == k
  {
    FirstAt(s, i, k, "]]>");
  }

  lemma SkipsTo(s: string, i: nat, end: nat)
    requires i + 9 <= |s| && SectionAt(s, i) && CDATAEnd(s, i + 9, i + 9, -1) == end
    ensures end + 3 <= |s| && FindTag(s, i) == FindTag(s, end + 3)
  {
    hide CDATAEnd, HasFoldAt;
  }

  lemma CloseStep(s: string, from: nat, at: nat, first: int, end: nat)
    requires from <= at <= |s| && (first == -1 || from <= first <= |s| - 3) && FirstClose(s, at, end)
    ensures CDATAEnd(s, from, at, first) ==
      if InFence(s, from, end) then CDATAEnd(s, from, end + 3, first)
      else if ClosingFollows(s, end + 3) then end
      else CDATAEnd(s, from, end + 3, if first < 0 then end else first)
  {
    hide *;
    CloseIsIn(s, at, end);
    FindsClose(s, at, end);
    StructuralIs(s, end + 3);
    FoundStep(s, from, at, first, end);
  }

  lemma FoundStep(s: string, from: nat, at: nat, first: int, end: nat)
    requires from <= at <= end <= |s| - 3 && (first == -1 || from <= first <= |s| - 3)
    requires FindFrom(s, at, "]]>") == end
    ensures CDATAEnd(s, from, at, first) ==
      if InFence(s, from, end) then CDATAEnd(s, from, end + 3, first)
      else if LooksStructural(s, end + 3) then end
      else CDATAEnd(s, from, end + 3, if first < 0 then end else first)
  {
    hide FenceAfter, FindFrom, LooksStructural;
  }

  lemma StructuralIs(s: string, i: nat)
    requires i <= |s|
    ensures LooksStructural(s, i) <==> ClosingFollows(s, i)
  {
    hide TrimLeft, HasAt;
  }

  lemma NoCloseLeft(s: string, from: nat, at: nat, first: int)
    requires from <= at <= |s| && (first == -1 || from <= first <= |s| - 3)
    requires forall j :: at <= j < |s| ==> !HasAt(s, j, "]]>")
    ensures CDATAEnd(s, from, at, first) == first
  {
    NeverFrom(s, at, "]]>");
    hide FindFrom, HasAt;
  }

  lemma CloseIsIn(s: string, i: nat, k: nat)
    requires FirstClose(s, i, k)
    ensures i <= k && k + 3 <= |s|
  {
  }

  /** A section ends at its first close marker, if that is outside Markdown fences and a closing tag follows. */
  lemma SectionEnds(s: string, i: nat, end: nat)
    requires SectionAt(s, i) && FirstClose(s, i + 9, end)
    requires !InFence(s, i + 9, end) && ClosingFollows(s, end + 3)
    ensures FindTag(s, i) == FindTag(s, end + 3)
  {
    hide *;
    CloseIsIn(s, i + 9, end);
    CloseStep(s, i + 9, i + 9, -1, end);
    SkipsTo(s, i, end);
  }

  /** A close marker inside a fence does not end it. */
  lemma FenceInSection(s: string, i: nat, inner: nat, end: nat)
    requires SectionAt(s, i) && FirstClose(s, i + 9, inner) && InFence(s, i + 9, inner)
    requires FirstClose(s, inner + 3, end) && !InFence(s, i + 9, end) && ClosingFollows(s, end + 3)
    ensures FindTag(s, i) == FindTag(s, end + 3)
  {
    hide *;
    CloseIsIn(s, i + 9, inner);
    CloseIsIn(s, inner + 3, end);
    CloseStep(s, i + 9, i + 9, -1, inner);
    CloseStep(s, i + 9, inner + 3, -1, end);
    SkipsTo(s, i, end);
  }

  /** One that no closing tag follows does not end it either, if a later one is followed by one. */
  lemma LaterCloseCounts(s: string, i: nat, inner: nat, end: nat)
    requires SectionAt(s, i) && FirstClose(s, i + 9, inner)
    requires !InFence(s, i + 9, inner) && !ClosingFollows(s, inner + 3)
    requires FirstClose(s, inner + 3, end) && !InFence(s, i + 9, end) && ClosingFollows(s, end + 3)
    ensures FindTag(s, i) == FindTag(s, end + 3)
  {
    hide *;
    CloseIsIn(s, i + 9, inner);
    CloseIsIn(s, inner + 3, end);
    CloseStep(s, i + 9, i + 9, -1, inner);
    CloseStep(s, i + 9, inner + 3, inner, end);
    SkipsTo(s, i, end);
  }

  /** But the first one outside fences does when there is no other. */
  lemma OnlyCloseCounts(s: string, i: nat, end: nat)
    requires SectionAt(s, i) && FirstClose(s, i + 9, end) && !InFence(s, i + 9, end)
    requires forall j :: end + 3 <= j < |s| ==> !HasAt(s, j, "]]>")
    ensures FindTag(s, i) == FindTag(s, end + 3)
  {
    hide *;
    CloseIsIn(s, i + 9, end);
    CloseStep(s, i + 9, i + 9, -1, end);
    NoCloseLeft(s, i + 9, end + 3, end);
    SkipsTo(s, i, end);
  }

  /** A section without a close marker hides the rest. */
  lemma OpenSectionHides(s: string, i: nat)
    requires SectionAt(s, i) && i + 9 <= |s| && forall j :: i + 9 <= j < |s| ==> !HasAt(s, j, "]]>")
    ensures FindTag(s, i) == None
  {
    NeverFrom(s, i + 9, "]]>");
    hide HasFoldAt, FindFrom, HasAt;
  }
}
