/** Wrappers and shell fences that arrive in pieces, with the detectors of the source; and what a capture that is let
    go as text does not hold. */
module SievePieceByPiece {
  import opened Options
  import opened Text
  import opened Fence
  import opened SieveScan
  import opened SievePieces
  import opened SieveXml
  import opened Sieve
  import opened SieveTwoBlocks
  import opened SieveCuts
  import M = Markup

  // ---- a beginning of a tag is no tag

  lemma NoEndTag(s: string, start: nat, i: nat, ph: M.Phase)
    requires ph.Pipes? && !ph.trailing && start + 1 < i <= |s| && forall k :: i <= k < |s| ==> s[k] != '>'
    ensures M.EndTag(s, start, i, ph) == None
  {
    assert M.TagEnd(s, i, None) == -1;
  }

  lemma {:induction false} NoScan(s: string, start: nat, i: nat, ph: M.Phase)
    requires start < i <= |s| && (ph.Pipes? ==> start + 1 < i && !ph.trailing)
    requires forall k :: i <= k < |s| ==> s[k] != '>' && !M.PipeAt(s, k)
    ensures M.Scan(s, start, i, ph) == None
    decreases |s| - i, if ph.Angles? then 2 else if ph.Noise? then 1 else 0
  {
    hide M.EndTag, M.PrefixOnce, M.MatchName, M.Names, M.PipeAt;
    match ph
    case Angles =>
      if i < |s| && s[i] == '<' {
        NoScan(s, start, i + 1, M.Angles);
      } else if i < |s| && s[i] == '/' {
        NoScan(s, start, i + 1, M.Noise(true, false));
      } else {
        NoScan(s, start, i, M.Noise(false, false));
      }
    case Noise(closing, dsmlLike) =>
      var next := M.PrefixOnce(s, i);
      if next > i {
        NoScan(s, start, next, M.Noise(closing, true));
      } else {
        var (name, n) := M.MatchName(s, i, dsmlLike, M.Names());
        if n > 0 {
          NoScan(s, start, i + n, M.Pipes(name, closing, dsmlLike, false));
        }
      }
    case Pipes(_, _, _, _) =>
      NoPipe(s, i);
      NoEndTag(s, start, i, ph);
  }

  lemma NoPipe(s: string, i: nat)
    requires i < |s| ==> !M.PipeAt(s, i)
    ensures !M.PipeAt(s, i)
  {
  }

  /** An opening bracket that starts no ignored section, and behind which nothing ends a tag. */
  lemma NoTagFrom(s: string, i: nat)
    requires i < |s| && s[i] == '<' && (i + 1 < |s| ==> s[i + 1] != '!')
    requires forall k :: i < k < |s| ==> s[k] != '<' && s[k] != '>' && !M.PipeAt(s, k)
    ensures M.FindTag(s, i) == None
  {
    hide M.PipeAt, M.Scan;
    NoScan(s, i, i + 1, M.Angles);
    StaysAt(s, i);
    Onward(s, i + 1, |s|);
    assert M.FindTag(s, |s|) == None;
    hide M.SkipAt;
  }

  lemma StaysAt(s: string, i: nat)
    requires i < |s| && s[i] == '<' && (i + 1 < |s| ==> s[i + 1] != '!')
    ensures M.SkipAt(s, i) == M.Stay
  {
    if i + 1 < |s| {
      NoSkip(s, i);
    } else {
      assert "<![cdata["[1..] == "![cdata[" && "<!--"[1..] == "!--";
      assert !HasFoldAt(s, i + 1, "![cdata[") && !HasAt(s, i + 1, "!--");
    }
  }

  // ---- beginnings of a wrapper

  /** A text of one line that starts with a bracket has no fence or marker at a line start. */
  lemma NoMarkers(f: Fences, s: string)
    requires s != "" && s[0] == '<' && forall i :: 0 <= i < |s| ==> s[i] != '\r' && s[i] != '\n'
    ensures MinimaxStart(f, s, 0) == -1 && ShellFenceStart(f, s, 0) == -1
  {
    NoMinimax(f, s, 0, |s|);
    FirstNotShell(f, s, |s|);
  }

  lemma {:induction false} NoChar(s: string, i: nat, c: char)
    requires forall k :: i <= k < |s| ==> s[k] != c
    ensures FindFrom(s, i, [c]) == -1
    decreases |s| - i
  {
    if i < |s| {
      assert !HasAt(s, i, [c]);
      NoChar(s, i + 1, c);
    }
  }

  lemma {:induction false} NoBareName(tools: Tools, f: Fences, s: string, i: nat)
    requires forall k :: 0 <= k < |s| ==> s[k] != '>'
    ensures BareNameStart(tools, f, s, i) == -1
    decreases |s| - i
  {
    hide Inside, NameEnd;
    if i < |s| {
      NoChar(s, NameEnd(s, i + 1), '>');
      NoBareName(tools, f, s, i + 1);
    }
  }

  lemma NoSegment(tools: Tools, f: Fences, s: string)
    requires MinimaxStart(f, s, 0) == -1 && ShellFenceStart(f, s, 0) == -1 && M.FindTag(s, 0) == None
    requires forall k :: 0 <= k < |s| ==> s[k] != '>'
    ensures SegmentStart(tools, f, s) == -1
  {
    hide MinimaxStart, ShellFenceStart, M.FindTag, BareNameStart;
    NoBareName(tools, f, s, 0);
    assert TagStart(f, s, 0) == -1;
  }

  lemma {:induction false} OnlyFirst(s: string, i: nat)
    requires i < |s| && s[0] == '<' && forall k :: 0 < k < |s| ==> s[k] != '<'
    ensures FindLast(s, i, "<") == 0
  {
    assert HasAt(s, i, "<") <==> s[i] == '<';
    if i > 0 {
      OnlyFirst(s, i - 1);
    }
  }

  lemma {:induction false} HasBeginning(p: string, i: nat, n: nat)
    requires i <= n <= |p|
    ensures HasAt(p, i, p[i..n])
    decreases n - i
  {
    if i < n {
      assert p[i..n][1..] == p[i + 1..n];
      HasBeginning(p, i + 1, n);
    }
  }

  /** The characters of an unfinished opening tag. */
  lemma OpeningChars(n: nat)
    requires 0 < n < 12
    ensures var s := OPENING[..n];
      && s[0] == '<' && (n > 1 ==> s[1] == 't') && (n < 12 ==> s[1..] == "tool_calls"[..n - 1])
      && (forall k :: 0 < k < n ==> s[k] != '<' && s[k] != '>' && !M.PipeAt(s, k) && LowerChar(s[k]) == s[k])
      && (forall k :: 0 < k < n ==> s[k] != '!' && s[k] != '/')
      && (forall k :: 0 <= k < n ==> s[k] != '\r' && s[k] != '\n')
  {
    var s := OPENING[..n];
    OpeningLetters();
    assert forall k :: 0 <= k < n ==> s[k] == OPENING[k];
    TagParts();
    assert s[1..] == OPENING[1..11][..n - 1];
  }

  lemma OpeningLetters()
    ensures OPENING[0] == '<' && OPENING[1] == 't'
    ensures forall k :: 0 < k < 11 ==> OPENING[k] == '_' || 'a' <= OPENING[k] <= 'z'
  {
  }

  lemma TouchesName(text: string, n: nat)
    requires 0 < n <= 10 && |text| == n + 1 && text[1..] == "tool_calls"[..n]
    requires forall k :: 0 < k < |text| ==> LowerChar(text[k]) == text[k]
    ensures AliasTouches(text, 1, M.Names())
  {
    var names := M.Names();
    assert names[2].raw == "tool_calls";
    HasBeginning("tool_calls", 0, n);
    assert "tool_calls"[0..n] == "tool_calls"[..n];
    assert Lower(text[1..]) == text[1..] by {
      assert forall k :: 0 <= k < |text[1..]| ==> text[1..][k] == text[k + 1];
    }
    hide HasAt, HasFoldAt, Lower;
    assert names[1..][1..] == names[2..] && names[2..][0] == names[2];
    assert AliasTouches(text, 1, names[2..]);
    assert AliasTouches(text, 1, names[1..]);
  }

  /** An unfinished opening tag is held back. */
  lemma OpeningHeld(tools: Tools, n: nat)
    requires 0 < n < 12
    ensures SegmentStart(tools, START, OPENING[..n]) == -1 && HoldStart(tools, OPENING[..n]) == 0
  {
    var s := OPENING[..n];
    OpeningChars(n);
    NoMarkers(START, s);
    NoTagFrom(s, 0);
    NoSegment(tools, START, s);
    OnlyFirst(s, n - 1);
    NoChar(s, 0, '>');
    if n > 1 {
      TouchesName(s, n - 1);
    }
    hide SegmentStart, FindLast, FindFrom, AliasTouches, M.PipeAt;
    assert s[0..] == s;
    assert n > 1 ==> s[1..][0] == 't';
    assert NoiseStart(s) == 1;
    assert PartialFrom(s, 1);
    assert OpenAngle(s) == 0;
  }

  /** What a beginning of a block that has its opening tag looks like. */
  lemma BeginningChars(body: string, n: nat)
    requires Body(body) && 12 <= n < 25 + |body|
    ensures var s, k := Block(body)[..n], 12 + |body|;
      && s[..12] == OPENING && (forall i :: 0 <= i < n ==> s[i] != '\r' && s[i] != '\n')
      && (forall i :: 12 <= i < n && i != k ==> s[i] != '<')
      && (k < n ==> s[k] == '<' && (k + 1 < n ==> s[k + 1] == '/'))
      && (forall i :: k < i < n ==> s[i] != '>' && !M.PipeAt(s, i))
  {
    var whole, k := Block(body), 12 + |body|;
    BlockAlone(body);
    BlockChars(whole, k);
    CloseChars(whole, k);
    ClosingPlain(whole, k);
    hide Block, Body;
    var s := whole[..n];
    assert s[..12] == whole[..12];
    assert forall i :: 0 <= i < n ==> s[i] == whole[i];
  }

  lemma ClosingPlain(s: string, k: nat)
    requires k + 13 <= |s| && s[k..k + 13] == CLOSING
    ensures forall i :: k < i < k + 12 ==> s[i] != '>' && s[i] != '|' && s[i] != '\U{FF5C}'
  {
    assert forall i :: k <= i < k + 13 ==> s[i] == s[k..k + 13][i - k];
  }

  /** No tag follows the opening one. */
  lemma OpenAlone(body: string, n: nat)
    requires Body(body) && 12 <= n < 25 + |body|
    ensures var s := Block(body)[..n];
      && M.FindTag(s, 0) == Some(OPEN) && M.FindTag(s, 12) == None && M.MatchingClose(s, OPEN) == None
  {
    var s, k := Block(body)[..n], 12 + |body|;
    BeginningChars(body, n);
    OpenFound(s);
    hide Block, Body;
    var end := if k < n then k else n;
    Onward(s, 12, end);
    if k < n {
      NoTagFrom(s, k);
    } else {
      assert M.FindTag(s, n) == None;
    }
    hide M.FindTag;
    if 12 < n {
      M.CloseEnds(s, "tool_calls", 12, 1, None);
    }
  }

  /** A beginning of a block that parses into nothing is kept. */
  lemma BeginningKept(parse: string -> Parsed, tools: Tools, body: string, n: nat)
    requires Body(body) && 12 <= n < 25 + |body| && parse(Block(body)[..n]).calls == []
    ensures SegmentStart(tools, START, Block(body)[..n]) == 0
    ensures Consume(Standard(parse, tools), Block(body)[..n]) == Undecided
  {
    var s, env := Block(body)[..n], Standard(parse, tools);
    BeginningChars(body, n);
    OpenAlone(body, n);
    hide Block, Body;
    OpenChars(s);
    NoMarkers(START, s);
    SegmentAtOnce(tools, START, s, n);
    hide M.FindTag, M.MatchingClose, Walk, BareVerdict, SegmentStart, ShellFenceAfter, KeepBareInvoke, Malformed;
    WalkNext(env, s, 0, false, Undecided, OPEN);
    WalkEnd(env, s, 12, true, Undecided);
    assert HasOpenTag(s, 0);
    assert KeepBuffering(tools, s);
  }

  lemma BlockWhole(parse: string -> Parsed, tools: Tools, body: string)
    requires Body(body) && parse(Block(body)).calls != []
    ensures |Block(body)| == 25 + |body| && SegmentStart(tools, START, Block(body)) == 0
    ensures Consume(Standard(parse, tools), Block(body))
         == Accepted(0, |Block(body)|, parse(Block(body)).calls)
  {
    BlockAlone(body);
    NoBreaks(body, body);
    hide Block, Body, StartsWithBlock, SegmentStart, Consume;
    OneLine(tools, START, Block(body), 12 + |body|);
    Decided(Standard(parse, tools), Block(body), 12 + |body|);
  }

  lemma StandardIs(parse: string -> Parsed, tools: Tools, f: Fences, s: string)
    ensures var env := Standard(parse, tools);
      && EnvOk(env) && env.segmentStart(f, s) == SegmentStart(tools, f, s) && env.holdStart(s) == HoldStart(tools, s)
  {
    StandardOk(parse, tools);
    hide SegmentStart, HoldStart, KeepBuffering;
  }

  lemma BlockSeen(parse: string -> Parsed, tools: Tools, body: string)
    requires Body(body) && parse(Block(body)).calls != []
    requires forall n :: 12 <= n < |Block(body)| ==> parse(Block(body)[..n]).calls == []
    ensures SeenThrough(Standard(parse, tools), Block(body), 12, parse(Block(body)).calls)
  {
    hide *;
    var env, whole := Standard(parse, tools), Block(body);
    BlockWhole(parse, tools, body);
    StandardIs(parse, tools, START, whole);
    forall n | 0 < n < 12
      ensures env.segmentStart(START, whole[..n]) == -1 && env.holdStart(whole[..n]) == 0
    {
      OpeningHeld(tools, n);
      BlockStart(body, n);
      StandardIs(parse, tools, START, whole[..n]);
    }
    forall n | 12 <= n < |whole|
      ensures env.segmentStart(START, whole[..n]) == 0 && Consume(env, whole[..n]) == Undecided
    {
      BeginningKept(parse, tools, body, n);
      StandardIs(parse, tools, START, whole[..n]);
    }
    SeenIf(env, whole, 12, parse(Block(body)).calls);
  }

  lemma BlockStart(body: string, n: nat)
    requires n <= 12
    ensures n <= |Block(body)| && Block(body)[..n] == OPENING[..n]
  {
    assert Block(body) == OPENING + (body + CLOSING);
  }

  /** A one-line wrapper that parses into calls, no beginning of which does: however it is cut into chunks, no text
      is sent, and exactly its calls are, once. */
  lemma BlockInPieces(parse: string -> Parsed, tools: Tools, body: string, chunks: seq<string>)
    requires Body(body) && parse(Block(body)).calls != []
    requires forall n :: 12 <= n < |Block(body)| ==> parse(Block(body)[..n]).calls == []
    requires Concat(chunks) == Block(body)
    ensures EnvOk(Standard(parse, tools))
    ensures WholeRun(Standard(parse, tools), chunks).events == [ToolCalls(parse(Block(body)).calls)]
  {
    StandardOk(parse, tools);
    BlockSeen(parse, tools, body);
    hide Block, SeenThrough, WholeRun;
    AnyCutting(Standard(parse, tools), Block(body), 12, parse(Block(body)).calls, chunks);
  }

  // ---- captures that are let go

  /** Every tag outside ignored sections from a position on. */
  ghost function Tags(s: string, from: nat): seq<M.Tag>
    decreases |s| - from
  {
    match M.FindTag(s, from)
    case None => []
    case Some(tag) => [tag] + Tags(s, tag.end + 1)
  }

  predicate OpensWrapper(tag: M.Tag) {
    !tag.closing && tag.name == "tool_calls"
  }

  lemma {:induction false} NoOpenTag(s: string, from: nat, tag: M.Tag)
    requires !HasOpenTag(s, from) && tag in Tags(s, from) && OpensWrapper(tag)
    ensures M.MatchingClose(s, tag).Some?
    decreases |s| - from
  {
    hide M.FindTag, M.MatchingClose;
    var first := M.FindTag(s, from).value;
    if tag != first {
      NoOpenTag(s, first.end + 1, tag);
    }
  }

  /** The walk over wrappers rejects a block only if every wrapper from there on is closed. */
  lemma {:induction false} WalkRejects(env: Env, s: string, from: nat, anyOpen: bool, rejected: Verdict, tag: M.Tag)
    requires Fits(s, rejected) && !rejected.Accepted?
    requires var v := Walk(env, s, from, anyOpen, rejected); !v.Undecided? && !v.Accepted?
    requires tag in Tags(s, from) && OpensWrapper(tag)
    ensures M.MatchingClose(s, tag).Some?
    decreases |s| - from
  {
    hide M.FindTag, M.MatchingClose, BareVerdict, Walk;
    var first := M.FindTag(s, from).value;
    WalkNext(env, s, from, anyOpen, rejected, first);
    match M.MatchingClose(s, first)
    case None =>
      if OpensWrapper(first) {
        StaysOpen(env, s, first.end + 1, rejected);
      } else if tag != first {
        WalkRejects(env, s, first.end + 1, anyOpen, rejected, tag);
      }
    case Some(close) =>
      if tag != first {
        if OpensWrapper(first) {
          WalkBlock(env, s, from, anyOpen, rejected, first, close);
          var v := Judge(env.parse(s[first.start..close.end + 1]), first.start, close.end + 1);
          WalkRejects(env, s, first.end + 1, anyOpen, if rejected.Undecided? then v else rejected, tag);
        } else {
          WalkRejects(env, s, first.end + 1, anyOpen, rejected, tag);
        }
      }
  }

  /** Once a wrapper is open, nothing is rejected. */
  lemma {:induction false} StaysOpen(env: Env, s: string, from: nat, rejected: Verdict)
    requires Fits(s, rejected) && !rejected.Accepted?
    ensures var v := Walk(env, s, from, true, rejected); v.Undecided? || v.Accepted?
    decreases |s| - from
  {
    hide M.FindTag, M.MatchingClose, BareVerdict, Walk;
    match M.FindTag(s, from)
    case None => WalkEnd(env, s, from, true, rejected);
    case Some(tag) =>
      WalkNext(env, s, from, true, rejected, tag);
      match M.MatchingClose(s, tag)
      case None => StaysOpen(env, s, tag.end + 1, rejected);
      case Some(close) =>
        if OpensWrapper(tag) {
          WalkBlock(env, s, from, true, rejected, tag, close);
          var v := Judge(env.parse(s[tag.start..close.end + 1]), tag.start, close.end + 1);
          if !v.Accepted? {
            StaysOpen(env, s, tag.end + 1, if rejected.Undecided? then v else rejected);
          }
        } else {
          StaysOpen(env, s, tag.end + 1, rejected);
        }
  }

  /** A capture that is let go, as text or with a block dropped from it, holds no wrapper that is still open. */
  lemma LetGoHoldsNoOpenWrapper(parse: string -> Parsed, tools: Tools, s: string, tag: M.Tag)
    requires var v := Consume(Standard(parse, tools), s); !v.Undecided? && !v.Accepted?
    requires tag in Tags(s, 0) && OpensWrapper(tag)
    ensures M.MatchingClose(s, tag).Some?
  {
    var env := Standard(parse, tools);
    hide Walk, Tags, HasOpenTag, M.MatchingClose, ShellFenceAfter, KeepBareInvoke, Malformed;
    if !XmlVerdict(env, s).Undecided? {
      WalkRejects(env, s, 0, false, Undecided, tag);
    } else {
      NoOpenTag(s, 0, tag);
    }
  }
}
