/** Chunks that the sieve can receive and that finish two blocks: the calls of the first are lost. */
module SieveTwoBlocks {
  import opened Options
  import opened Text
  import opened Fence
  import opened SieveScan
  import opened SievePieces
  import opened SieveXml
  import opened Sieve
  import opened SieveBlocks
  import M = Markup

  // The parser is a parameter, so that a block parses into calls is an assumption of the two theorems. For tools
  // that include Bash the parser of the program finds a call in the wrapper around {"tool":"Bash"}, which it
  // reads as JSON, and in the shell fence.

  const OPENING := "<tool_calls>"
  const CLOSING := "</tool_calls>"

  /** A closed shell fence. */
  const FENCE := "```bash\nls\n```"

  const OPEN := M.Tag(0, 11, "tool_calls", false, false, false)

  /** What a wrapper may hold here: a line without tags, such as a JSON object. */
  predicate Body(body: string) {
    forall i :: 0 <= i < |body| ==> body[i] != '<' && body[i] != '\r' && body[i] != '\n'
  }

  function Block(body: string): string {
    OPENING + body + CLOSING
  }

  function CloseAt(k: nat): M.Tag {
    M.Tag(k, k + 12, "tool_calls", true, false, false)
  }

  /** The text begins with a wrapper whose closing tag is at k. */
  predicate StartsWithBlock(s: string, k: nat) {
    && 12 <= k && k + 13 <= |s| && s[..12] == OPENING && s[k..k + 13] == CLOSING && Body(s[12..k])
  }

  lemma TagParts()
    ensures OPENING[1..11] == "tool_calls" && CLOSING[2..12] == "tool_calls"
  {
    var name := "tool_calls";
    assert OPENING == "<" + name + ">" && ("<" + name + ">")[1..11] == name;
    assert CLOSING == "</" + name + ">" && ("</" + name + ">")[2..12] == name;
  }

  lemma OpenChars(s: string)
    requires |s| >= 12 && s[..12] == OPENING
    ensures s[0] == '<' && s[1] == 't' && s[1..11] == "tool_calls" && s[11] == '>'
    ensures forall i :: 0 < i < 12 ==> s[i] != '<' && s[i] != '\r' && s[i] != '\n'
  {
    TagParts();
    assert forall i :: 0 <= i < 12 ==> s[i] == s[..12][i];
    assert s[1..11] == s[..12][1..11];
  }

  lemma CloseChars(s: string, k: nat)
    requires k + 13 <= |s| && s[k..k + 13] == CLOSING
    ensures s[k] == '<' && s[k + 1] == '/' && s[k + 2] == 't' && s[k + 2..k + 12] == "tool_calls" && s[k + 12] == '>'
    ensures forall i :: k < i < k + 13 ==> s[i] != '<' && s[i] != '\r' && s[i] != '\n'
  {
    TagParts();
    assert forall i :: k <= i < k + 13 ==> s[i] == s[k..k + 13][i - k];
    assert s[k + 2..k + 12] == s[k..k + 13][2..12];
  }

  /** A block at the start of a text, and its characters. */
  lemma BlockFirst(body: string, rest: string)
    requires Body(body)
    ensures var s := Block(body) + rest;
      && StartsWithBlock(s, 12 + |body|) && s[..25 + |body|] == Block(body) && s[25 + |body|..] == rest
  {
    var s := Block(body) + rest;
    assert s == OPENING + (body + (CLOSING + rest));
    assert s[12..] == body + (CLOSING + rest);
    assert s[12..12 + |body|] == body;
    assert s[12 + |body|..] == CLOSING + rest;
  }

  lemma BlockAlone(body: string)
    requires Body(body)
    ensures StartsWithBlock(Block(body), 12 + |body|) && |Block(body)| == 25 + |body|
    ensures Block(body)[..25 + |body|] == Block(body)
  {
    BlockFirst(body, "");
    assert Block(body) + "" == Block(body);
  }

  /** Blocks are lines. */
  lemma NoBreaks(a: string, b: string)
    requires Body(a) && Body(b)
    ensures forall i :: 0 <= i < |Block(b)| ==> Block(b)[i] != '\r' && Block(b)[i] != '\n'
    ensures var s := Block(a) + Block(b); forall i :: 0 <= i < |s| ==> s[i] != '\r' && s[i] != '\n'
  {
    BlockAlone(a);
    BlockAlone(b);
    BlockChars(Block(a), 12 + |a|);
    BlockChars(Block(b), 12 + |b|);
    hide Block, Body, StartsWithBlock;
  }

  lemma BlockChars(s: string, k: nat)
    requires StartsWithBlock(s, k)
    ensures s[0] == '<' && s[k] == '<' && forall i :: 0 < i < k + 13 && i != k ==> s[i] != '<'
    ensures forall i :: 0 <= i < k + 13 ==> s[i] != '\r' && s[i] != '\n'
  {
    OpenChars(s);
    CloseChars(s, k);
    assert forall i :: 12 <= i < k ==> s[i] == s[12..k][i - 12];
  }

  // ---- the two tags

  lemma {:induction false} FoldHere(s: string, i: nat, p: string)
    requires i + |p| <= |s| && s[i..i + |p|] == p && forall k :: 0 <= k < |p| ==> LowerChar(p[k]) == p[k]
    ensures HasFoldAt(s, i, p)
    decreases |p|
  {
    if p != "" {
      assert s[i] == s[i..i + |p|][0];
      assert s[i + 1..i + 1 + |p[1..]|] == s[i..i + |p|][1..];
      FoldHere(s, i + 1, p[1..]);
    }
  }

  lemma NoDialect(s: string, i: nat)
    requires i < |s| && s[i] == 't'
    ensures M.PrefixOnce(s, i) == i
  {
    assert LowerChar(s[i]) == 't';
    assert !HasFoldAt(s, i, "dsml") && !HasFoldAt(s, i, "zjml") && !HasFoldAt(s, i, "qnml");
  }

  lemma NameHere(s: string, i: nat)
    requires i + 10 <= |s| && s[i..i + 10] == "tool_calls"
    ensures M.MatchName(s, i, false, M.Names()) == ("tool_calls", 10)
  {
    FoldHere(s, i, "tool_calls");
    hide HasFoldAt;
    var names := M.Names();
    assert names[1..][0] == names[1] && names[1..][1..] == names[2..] && names[2..][0] == names[2];
    assert M.MatchName(s, i, false, names) == M.MatchName(s, i, false, names[1..]);
    assert M.MatchName(s, i, false, names[1..]) == M.MatchName(s, i, false, names[2..]);
  }

  lemma NotSelfClosing(s: string, start: nat, end: nat)
    requires start + 2 <= end < |s| && s[start] == '<' && s[end] == '>' && s[end - 1] == 's'
    ensures !EndsWith(Trim(s[start..end + 1]), "/>")
  {
    var x := s[start..end + 1];
    assert x[0] == '<' && x[|x| - 1] == '>' && x[|x| - 2] == 's';
    assert Trim(x) == x;
    assert !HasAt(x, |x| - 2, "/>");
  }

  lemma TagFromName(s: string, start: nat, i: nat, closing: bool)
    requires start < i && i + 10 < |s| && s[start] == '<' && s[i..i + 10] == "tool_calls" && s[i + 10] == '>'
    ensures M.Scan(s, start, i, M.Noise(closing, false))
         == Some(M.Tag(start, i + 10, "tool_calls", closing, false, false))
  {
    assert s[i] == s[i..i + 10][0] && s[i + 9] == s[i..i + 10][9];
    NoDialect(s, i);
    NameHere(s, i);
    NotSelfClosing(s, start, i + 10);
    var ph := M.Pipes("tool_calls", closing, false, false);
    hide M.PrefixOnce, M.MatchName, M.Names, Trim, EndsWith, FindFrom;
    assert M.TagEnd(s, i + 10, None) == i + 10;
    assert M.EndTag(s, start, i + 10, ph) == Some(M.Tag(start, i + 10, "tool_calls", closing, false, false));
    assert M.Scan(s, start, i + 10, ph) == M.EndTag(s, start, i + 10, ph);
  }

  lemma NoSkip(s: string, i: nat)
    requires i + 1 < |s| && s[i] == '<' && s[i + 1] != '!'
    ensures M.SkipAt(s, i) == M.Stay
  {
    assert LowerChar(s[i + 1]) != '!';
    assert !HasFoldAt(s, i + 1, "![cdata[") && !HasAt(s, i + 1, "!--");
    assert "<![cdata["[1..] == "![cdata[" && "<!--"[1..] == "!--";
    assert !HasFoldAt(s, i, "<![cdata[") && !HasAt(s, i, "<!--");
  }

  lemma OpenFound(s: string)
    requires |s| >= 12 && s[..12] == OPENING
    ensures M.ScanTag(s, 0) == M.FindTag(s, 0) == Some(OPEN)
  {
    OpenChars(s);
    NoSkip(s, 0);
    TagFromName(s, 0, 1, false);
    hide M.SkipAt, M.PrefixOnce, M.MatchName, M.Names, M.EndTag;
    assert M.ScanTag(s, 0) == M.Scan(s, 0, 1, M.Angles) == M.Scan(s, 0, 1, M.Noise(false, false));
  }

  lemma CloseFound(s: string, k: nat)
    requires k + 13 <= |s| && s[k..k + 13] == CLOSING
    ensures M.ScanTag(s, k) == M.FindTag(s, k) == Some(CloseAt(k))
  {
    CloseChars(s, k);
    NoSkip(s, k);
    TagFromName(s, k, k + 2, true);
    hide M.SkipAt, M.PrefixOnce, M.MatchName, M.Names, M.EndTag;
    assert M.ScanTag(s, k) == M.Scan(s, k, k + 1, M.Angles) == M.Scan(s, k, k + 2, M.Noise(true, false));
  }

  lemma NoTagHere(s: string, i: nat)
    requires i < |s| && s[i] != '<'
    ensures M.FindTag(s, i) == M.FindTag(s, i + 1)
  {
    assert LowerChar(s[i]) != '<';
    assert !HasFoldAt(s, i, "<![cdata[") && !HasAt(s, i, "<!--");
  }

  lemma {:induction false} Onward(s: string, i: nat, j: nat)
    requires i <= j <= |s| && forall k :: i <= k < j ==> s[k] != '<'
    ensures M.FindTag(s, i) == M.FindTag(s, j)
    decreases j - i
  {
    hide M.FindTag;
    if i < j {
      NoTagHere(s, i);
      Onward(s, i + 1, j);
    }
  }

  lemma Matched(s: string, k: nat)
    requires StartsWithBlock(s, k)
    ensures M.FindTag(s, 0) == Some(OPEN) && M.MatchingClose(s, OPEN) == Some(CloseAt(k))
  {
    BlockChars(s, k);
    OpenFound(s);
    CloseFound(s, k);
    Onward(s, 12, k);
    hide M.FindTag;
    M.CloseEnds(s, "tool_calls", 12, 1, Some(CloseAt(k)));
  }

  // ---- a capture starts at once

  lemma {:induction false} NoFold(s: string, i: nat, p: string)
    requires p != "" && forall k :: 0 <= k < |s| ==> LowerChar(s[k]) != p[0]
    ensures FindFoldFrom(s, i, p) == -1
    decreases |s| - i
  {
    if i + |p| <= |s| {
      NoFold(s, i + 1, p);
    }
  }

  lemma {:induction false} FirstLine(s: string, i: nat)
    requires i <= |s| && forall k :: 0 <= k < i ==> s[k] != '\r' && s[k] != '\n'
    ensures LineStart(s, i) == 0
  {
    if i > 0 {
      FirstLine(s, i - 1);
    }
  }

  lemma {:induction false} LineEndsAt(s: string, i: nat, end: nat)
    requires i <= end <= |s| && (end < |s| ==> s[end] == '\n')
    requires forall k :: i <= k < end ==> s[k] != '\r' && s[k] != '\n'
    ensures LineEnd(s, i) == end
    decreases end - i
  {
    if i < end {
      LineEndsAt(s, i + 1, end);
    }
  }

  /** In its first line a text that begins with a bracket has no marker at the start of the line. */
  lemma {:induction false} NoMinimax(f: Fences, s: string, offset: nat, n: nat)
    requires n <= |s| && s != "" && s[0] == '<' && forall k :: 0 <= k < n ==> s[k] != '\r' && s[k] != '\n'
    requires forall k :: n <= k < |s| ==> LowerChar(s[k]) != 'm'
    ensures MinimaxStart(f, s, offset) == -1
    decreases |s| - offset
  {
    var i := FindFoldFrom(s, offset, MINIMAX);
    if 0 <= i < |s| {
      FoldFound(s, offset, MINIMAX);
      assert LowerChar(s[i]) == MINIMAX[0];
      FirstLine(s, i);
      BlankTrims(s[0..i]);
      assert s[0..i][0] == '<';
      NoMinimax(f, s, i + |MINIMAX|, n);
    }
  }

  lemma NotShell(line: string)
    requires line != "" && line[0] != '`' && line[0] != '~' && line[0] != ' ' && line[0] != '\t'
    ensures !IsShellFenceOpen(line)
  {
    NoIndent(line);
    hide TrimLeft;
  }

  lemma NextLine(f: Fences, s: string, i: nat, end: nat)
    requires i < end <= |s| && (end < |s| ==> s[end] == '\n') && !IsShellFenceOpen(s[i..end])
    requires forall k :: i <= k < end ==> s[k] != '\r' && s[k] != '\n'
    ensures ShellFenceStart(f, s, i) == if end == |s| then -1 else ShellFenceStart(f, s, end + 1)
  {
    hide LineEnd, IsShellFenceOpen, Inside;
    LineEndsAt(s, i, end);
    assert LineEnd(s, i) == end;
    if end < |s| {
      assert s[end] == '\n';
    }
  }

  lemma ShortNotShell(line: string)
    requires |line| < 4
    ensures !IsShellFenceOpen(line)
  {
  }

  lemma SegmentAtOnce(tools: Tools, f: Fences, s: string, n: nat)
    requires |s| >= 12 && s[..12] == OPENING && n <= |s| && f.stack == [] && ShellFenceStart(f, s, 0) == -1
    requires forall k :: 0 <= k < n ==> s[k] != '\r' && s[k] != '\n'
    requires forall k :: n <= k < |s| ==> LowerChar(s[k]) != 'm'
    ensures SegmentStart(tools, f, s) == 0
  {
    OpenChars(s);
    OpenFound(s);
    NoMinimax(f, s, 0, n);
    hide M.FindTag, ShellFenceStart, MinimaxStart;
    assert s[..0] == "" && After(f, "") == f;
    assert TagStart(f, s, 0) == 0;
  }

  /** A text of one line that begins with a block. */
  lemma OneLine(tools: Tools, f: Fences, s: string, k: nat)
    requires StartsWithBlock(s, k) && f.stack == [] && forall i :: 0 <= i < |s| ==> s[i] != '\r' && s[i] != '\n'
    ensures SegmentStart(tools, f, s) == 0
  {
    BlockChars(s, k);
    FirstNotShell(f, s, |s|);
    SegmentAtOnce(tools, f, s, |s|);
  }

  lemma FenceChars(s: string, n: nat)
    requires n + 14 == |s| && s[n..] == FENCE
    ensures forall i :: n <= i < n + 7 ==> s[i] != '\r' && s[i] != '\n'
    ensures forall i :: n <= i < |s| ==> LowerChar(s[i]) != 'm' && s[i] != '<'
    ensures s[n + 7] == '\n' && s[n + 10] == '\n'
    ensures forall i :: n + 8 <= i < n + 14 && i != n + 10 ==> s[i] != '\r' && s[i] != '\n'
  {
    assert forall i :: n <= i < |s| ==> s[i] == s[n..][i - n];
  }

  /** The lines of the fence after its first one. */
  lemma FenceLines(f: Fences, s: string, n: nat)
    requires n + 14 == |s| && s[n..] == FENCE
    ensures ShellFenceStart(f, s, n + 8) == -1
  {
    hide *;
    FenceChars(s, n);
    ShortNotShell(s[n + 8..n + 10]);
    ShortNotShell(s[n + 11..n + 14]);
    NextLine(f, s, n + 8, n + 10);
    NextLine(f, s, n + 11, n + 14);
  }

  lemma LongFirstLine(s: string, k: nat)
    requires StartsWithBlock(s, k) && |s| == k + 27 && s[k + 13..] == FENCE
    ensures s[..12] == OPENING && s[0] == '<' && s[k + 20] == '\n'
    ensures forall i :: 0 <= i < k + 20 ==> s[i] != '\r' && s[i] != '\n'
    ensures forall i :: k + 20 <= i < |s| ==> LowerChar(s[i]) != 'm'
  {
    BlockChars(s, k);
    FenceChars(s, k + 13);
    assert s[..12] == OPENING;
    hide *;
  }

  /** A block and a fence behind it: no line of that text opens a shell fence. */
  lemma BlockThenFence(tools: Tools, f: Fences, s: string, k: nat)
    requires StartsWithBlock(s, k) && f.stack == [] && |s| == k + 27 && s[k + 13..] == FENCE
    ensures SegmentStart(tools, f, s) == 0
  {
    hide *;
    LongFirstLine(s, k);
    FenceLines(f, s, k + 13);
    FirstNotShell(f, s, k + 20);
    SegmentAtOnce(tools, f, s, k + 20);
  }

  lemma FirstNotShell(f: Fences, s: string, end: nat)
    requires 0 < end <= |s| && s[0] == '<' && forall i :: 0 <= i < end ==> s[i] != '\r' && s[i] != '\n'
    requires end < |s| ==> s[end] == '\n'
    ensures ShellFenceStart(f, s, 0) == if end == |s| then -1 else ShellFenceStart(f, s, end + 1)
  {
    hide *;
    assert s[0..end][0] == '<';
    NotShell(s[0..end]);
    NextLine(f, s, 0, end);
  }

  lemma BashRun()
    ensures M.LeadingRun("```bash", '`') == 3 && "```bash"[3..] == "bash"
  {
    var line := "```bash";
    assert line[1..] == "``bash" && "``bash"[1..] == "`bash" && "`bash"[1..] == "bash";
    assert M.LeadingRun("bash", '`') == 0;
    assert M.LeadingRun("`bash", '`') == 1;
    assert M.LeadingRun("``bash", '`') == 2;
  }

  lemma BashField()
    ensures Trim("bash") == "bash" && FirstField("bash") == "bash"
  {
    assert "bash"[1..] == "ash" && "ash"[1..] == "sh" && "sh"[1..] == "h" && "h"[1..] == "";
    assert FirstField("h") == "h";
    assert FirstField("sh") == "sh";
    assert FirstField("ash") == "ash";
  }

  lemma BashLanguage()
    ensures IsShellLanguage("bash")
  {
    BashField();
    BashTrimmed();
    hide Trim, TrimLeft, TrimRight, Lower;
  }

  lemma BashTrimmed()
    ensures TrimLeft("bash", "{}") == "bash" && TrimRight("bash", "{}") == "bash" && Lower("bash") == "bash"
  {
    BashLower();
    hide Lower;
    NoBrace("bash"[0]);
    NoBrace("bash"[3]);
  }

  lemma NoBrace(c: char)
    requires c != '{' && c != '}'
    ensures c !in "{}"
  {
  }

  lemma BashLower()
    ensures Lower("bash") == "bash"
  {
    var lang := "bash";
    assert lang[0] == 'b' && lang[1] == 'a' && lang[2] == 's' && lang[3] == 'h';
    assert forall i :: 0 <= i < |lang| ==> Lower(lang)[i] == lang[i];
  }

  lemma BashOpens()
    ensures IsShellFenceOpen("```bash")
  {
    hide *;
    BashRun();
    BashField();
    BashLanguage();
    ShellOpens("```bash", "bash");
  }

  lemma ShellOpens(line: string, lang: string)
    requires |line| >= 4 && line[0] == '`' && M.LeadingRun(line, '`') == 3 && line[3..] == lang && lang != ""
    requires Trim(lang) == lang && FirstField(lang) == lang && IsShellLanguage(lang)
    ensures IsShellFenceOpen(line)
  {
    hide Trim, FirstField, IsShellLanguage, M.LeadingRun;
    NoIndent(line);
    hide TrimLeft;
    assert line[0] == '`';
  }

  lemma NoIndent(line: string)
    requires line != "" && line[0] != ' ' && line[0] != '\t'
    ensures TrimLeft(line, " \t") == line
  {
  }

  lemma FenceStarts(f: Fences)
    requires f.stack == []
    ensures ShellFenceStart(f, FENCE, 0) == 0
  {
    FenceHead();
    BashOpens();
    assert After(f, "") == f;
    hide LineEnd, IsShellFenceOpen, After;
    assert FENCE[..0] == "";
  }

  lemma FenceHead()
    ensures LineEnd(FENCE, 0) == 7 && FENCE[0..7] == "```bash"
  {
    FenceChars(FENCE, 0);
    hide LineEnd;
    LineEndsAt(FENCE, 0, 7);
  }

  lemma FenceAtOnce(tools: Tools, f: Fences)
    requires f.stack == []
    ensures SegmentStart(tools, f, FENCE) == 0
  {
    FenceChars(FENCE, 0);
    NoFold(FENCE, 0, MINIMAX);
    FenceStarts(f);
    hide FindFoldFrom, ShellFenceStart;
    assert MinimaxStart(f, FENCE, 0) == -1;
  }

  // ---- and ends with the first wrapper, or with a whole that parses

  lemma Decided(env: Env, s: string, k: nat)
    requires StartsWithBlock(s, k) && env.parse(s[..k + 13]).calls != []
    ensures Consume(env, s) == Accepted(0, k + 13, env.parse(s[..k + 13]).calls)
  {
    Matched(s, k);
    hide M.FindTag, M.MatchingClose, Walk, BareVerdict, StartsWithBlock;
    WalkBlock(env, s, 0, false, Undecided, OPEN, CloseAt(k));
    assert s[0..k + 13] == s[..k + 13];
  }

  /** A text without tags is judged as a whole. */
  lemma FenceDecided(env: Env)
    requires env.parse(FENCE).calls != []
    ensures Consume(env, FENCE) == Accepted(0, 14, env.parse(FENCE).calls)
  {
    FenceChars(FENCE, 0);
    Onward(FENCE, 0, 14);
    assert M.FindTag(FENCE, 14) == None;
    hide M.FindTag, Walk;
    assert BareVerdict(env, FENCE) == Undecided;
    WalkEnd(env, FENCE, 0, false, Undecided);
  }

  lemma NothingToTrim(suffix: string)
    ensures TrimFence("", suffix) == ("", suffix)
  {
    hide FindLast, CountFrom;
    assert TrimRight("", BLANKS) == "";
  }

  lemma Opens(parse: string -> Parsed, tools: Tools, t: Run)
    requires t.view.pending != "" && SegmentStart(tools, t.view.fences, t.view.pending) == 0
    requires !t.view.capturing && t.view.capture == ""
    ensures EnvOk(Standard(parse, tools))
    ensures var turned := Turn(Standard(parse, tools), t);
      && turned.again && turned.run.view == t.view.(pending := "", capture := t.view.pending, capturing := true)
      && turned.run.overwritten == t.overwritten && turned.run.events == t.events
  {
    var pending := t.view.pending;
    StandardOk(parse, tools);
    hide SegmentStart, KeepBuffering, HoldStart;
    assert pending[..0] == "" && "" + pending[0..] == pending;
  }

  lemma Ends(parse: string -> Parsed, tools: Tools, t: Run, n: nat, calls: seq<Call>)
    requires t.view.capturing && t.view.pending == "" && n <= |t.view.capture| && calls != []
    requires Consume(Standard(parse, tools), t.view.capture) == Accepted(0, n, calls)
    ensures EnvOk(Standard(parse, tools))
    ensures var turned := Turn(Standard(parse, tools), t);
      && turned.again
      && turned.run.view == View(t.view.capture[n..], "", false, t.view.fences, calls)
      && turned.run.overwritten == t.overwritten + (if t.view.calls != [] then 1 else 0)
      && turned.run.events == t.events
  {
    var s := t.view.capture;
    var env := Standard(parse, tools);
    StandardOk(parse, tools);
    NothingToTrim(s[n..]);
    hide Consume, TrimFence, SegmentStart, KeepBuffering, HoldStart, Pieces;
    assert s + "" == s && s[..0] == "";
  }

  /** One turn opens the capture, the next one ends it. */
  lemma TwoTurns(parse: string -> Parsed, tools: Tools, t: Run, n: nat, rest: string, calls: seq<Call>)
    requires t.view.pending != "" && SegmentStart(tools, t.view.fences, t.view.pending) == 0
    requires n <= |t.view.pending| && t.view.pending[n..] == rest && calls != []
    requires Consume(Standard(parse, tools), t.view.pending) == Accepted(0, n, calls)
    requires !t.view.capturing && t.view.capture == ""
    ensures EnvOk(Standard(parse, tools))
    ensures var env := Standard(parse, tools);
      var u := Turn(env, Turn(env, t).run).run;
      && Settle(env, t) == Settle(env, u)
      && u.view == View(rest, "", false, t.view.fences, calls)
      && u.overwritten == t.overwritten + (if t.view.calls != [] then 1 else 0) && u.events == t.events
  {
    var env := Standard(parse, tools);
    StandardOk(parse, tools);
    Opens(parse, tools, t);
    Ends(parse, tools, Turn(env, t).run, n, calls);
    hide Turn, SegmentStart, KeepBuffering, HoldStart, Consume;
    assert Settle(env, Turn(env, t).run) == Settle(env, Turn(env, Turn(env, t).run).run);
  }

  lemma Rests(env: Env, t: Run)
    requires EnvOk(env) && t.view.pending == "" && !t.view.capturing
    ensures Settle(env, t) == t
  {
    assert Turn(env, t) == Turned(t, false);
    hide Turn;
  }

  lemma FedAtStart(chunk: string)
    ensures Fed(EMPTY, chunk) == EMPTY.(view := EMPTY.view.(pending := chunk))
  {
    assert "" + chunk == chunk;
  }

  /** Two blocks, the second of which uses up the chunk. */
  lemma BothEnd(parse: string -> Parsed, tools: Tools, chunk: string, n: nat, first: seq<Call>, second: seq<Call>)
    requires chunk != "" && n < |chunk| && first != [] && second != []
    requires SegmentStart(tools, START, chunk) == 0 && SegmentStart(tools, START, chunk[n..]) == 0
    requires Consume(Standard(parse, tools), chunk) == Accepted(0, n, first)
    requires Consume(Standard(parse, tools), chunk[n..]) == Accepted(0, |chunk| - n, second)
    ensures EnvOk(Standard(parse, tools))
    ensures var t := Feed(Standard(parse, tools), EMPTY, chunk);
      t.overwritten == 1 && t.events == [] && t.view == View("", "", false, START, second)
    ensures WholeRun(Standard(parse, tools), [chunk]).events == [ToolCalls(second)]
  {
    var env := Standard(parse, tools);
    StandardOk(parse, tools);
    hide Turn, Settle, SegmentStart, KeepBuffering, HoldStart, Consume;
    var t0 := Fed(EMPTY, chunk);
    FedAtStart(chunk);
    TwoTurns(parse, tools, t0, n, chunk[n..], first);
    var t1 := Turn(env, Turn(env, t0).run).run;
    TwoTurns(parse, tools, t1, |chunk| - n, "", second);
    Rests(env, Turn(env, Turn(env, t1).run).run);
    LastSent(env, chunk, Feed(env, EMPTY, chunk));
  }

  /** Waiting calls are sent at the end of the stream, and nothing else. */
  lemma LastSent(env: Env, chunk: string, t: Run)
    requires EnvOk(env) && t == Feed(env, EMPTY, chunk) && t.events == [] && t.view.calls != []
    requires t.view.pending == "" && t.view.capture == "" && !t.view.capturing
    ensures WholeRun(env, [chunk]).events == [ToolCalls(t.view.calls)]
  {
    hide Turn, Settle;
    assert [chunk][..0] == [];
    assert FeedAll(env, []) == EMPTY;
    assert FeedAll(env, [chunk]) == t;
    assert "" + "" == "";
    Rests(env, Fed(t, ""));
  }

  /** Two complete wrappers in one chunk: the calls of the first are overwritten and never sent. */
  lemma TwoBlocksInOneChunk(parse: string -> Parsed, tools: Tools, a: string, b: string)
    requires Body(a) && Body(b) && parse(Block(a)).calls != [] && parse(Block(b)).calls != []
    ensures EnvOk(Standard(parse, tools))
    ensures Feed(Standard(parse, tools), EMPTY, Block(a) + Block(b)).overwritten == 1
    ensures WholeRun(Standard(parse, tools), [Block(a) + Block(b)]).events == [ToolCalls(parse(Block(b)).calls)]
  {
    var env, chunk, n := Standard(parse, tools), Block(a) + Block(b), 25 + |a|;
    BlockFirst(a, Block(b));
    BlockAlone(b);
    NoBreaks(a, b);
    hide Block, Body, StartsWithBlock, SegmentStart, Consume, Feed, WholeRun, Standard;
    OneLine(tools, START, chunk, 12 + |a|);
    OneLine(tools, START, Block(b), 12 + |b|);
    Decided(env, chunk, 12 + |a|);
    Decided(env, Block(b), 12 + |b|);
    BothEnd(parse, tools, chunk, n, parse(Block(a)).calls, parse(Block(b)).calls);
  }

  // ---- one closing tag and two blocks

  lemma NotHere(s: string)
    requires s == "" || s[0] != '<'
    ensures !ClosesHere(s)
  {
  }

  lemma {:induction false} Skipped(s: string, k: nat)
    requires k <= |s| && forall i :: 0 <= i < k ==> !ClosesHere(s[i..])
    ensures Closings(s) == Closings(s[k..])
    decreases k
  {
    hide ClosesHere;
    if k == 0 {
      assert s[0..] == s;
    } else {
      assert s[0..] == s && s != "";
      assert forall i :: 0 <= i < k - 1 ==> s[1..][i..] == s[i + 1..];
      Skipped(s[1..], k - 1);
      assert s[1..][k - 1..] == s[k..];
    }
  }

  /** From an opening bracket that closes nothing to the end of its tag. */
  lemma PlainSkipped(s: string, k: nat)
    requires 0 < k <= |s| && !ClosesHere(s) && forall i :: 0 < i < k ==> s[i] != '<'
    ensures Closings(s) == Closings(s[k..])
  {
    forall i | 0 <= i < k ensures !ClosesHere(s[i..]) {
      if i == 0 {
        assert s[0..] == s;
      } else {
        NotHere(s[i..]);
      }
    }
    hide ClosesHere, Closings;
    Skipped(s, k);
  }

  lemma {:induction false} NoBrackets(s: string)
    requires forall i :: 0 <= i < |s| ==> s[i] != '<'
    ensures Closings(s) == 0
  {
    NotHere(s);
    hide ClosesHere;
    if s != "" {
      NoBrackets(s[1..]);
    }
  }

  lemma OpenNotClose(s: string)
    requires |s| >= 12 && s[..12] == OPENING
    ensures !ClosesHere(s)
  {
    OpenFound(s);
    hide M.ScanTag, M.FindTag;
  }

  lemma CloseIsClose(s: string, k: nat)
    requires k + 13 <= |s| && s[k..k + 13] == CLOSING
    ensures ClosesHere(s[k..])
  {
    CloseFound(s, k);
    hide M.ScanTag, M.FindTag;
    TagShift(s, k);
  }

  lemma OneClosing(s: string, k: nat)
    requires StartsWithBlock(s, k) && forall i :: k + 13 <= i < |s| ==> s[i] != '<'
    ensures Closings(s) == 1
  {
    BlockChars(s, k);
    OpenNotClose(s);
    CloseIsClose(s, k);
    hide ClosesHere, StartsWithBlock;
    PlainSkipped(s, k);
    var rest := s[k..];
    assert forall i :: 0 <= i < |rest[1..]| ==> rest[1..][i] == s[k + 1 + i];
    NoBrackets(rest[1..]);
  }

  /** One closing tag does not rule out a second block: a rest that parses as it stands is one too. */
  lemma OneClosingTag(parse: string -> Parsed, tools: Tools, body: string)
    requires Body(body) && parse(Block(body)).calls != [] && parse(FENCE).calls != []
    ensures EnvOk(Standard(parse, tools)) && Closings(Block(body) + FENCE) == 1
    ensures Feed(Standard(parse, tools), EMPTY, Block(body) + FENCE).overwritten == 1
    ensures WholeRun(Standard(parse, tools), [Block(body) + FENCE]).events == [ToolCalls(parse(FENCE).calls)]
  {
    var env, chunk, k := Standard(parse, tools), Block(body) + FENCE, 12 + |body|;
    BlockFirst(body, FENCE);
    FenceChars(chunk, k + 13);
    hide Block, Body, StartsWithBlock, SegmentStart, Consume, Feed, WholeRun, Closings;
    OneClosing(chunk, k);
    BlockThenFence(tools, START, chunk, k);
    FenceAtOnce(tools, START);
    Decided(env, chunk, k);
    FenceDecided(env);
    BothEnd(parse, tools, chunk, k + 13, parse(Block(body)).calls, parse(FENCE).calls);
  }
}
