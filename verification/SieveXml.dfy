/** internal/toolstream/tool_sieve_xml.go and tool_sieve_jsonscan.go: what a capture is resolved into. */
module SieveXml {
  import opened Options
  import opened Text
  import opened SieveScan
  import opened SievePieces
  import M = Markup

  // ---- the wrapping fence

  /** trimWrappingJSONFence */
  function TrimFence(prefix: string, suffix: string): (r: (string, string))
    ensures r.0 <= prefix && |r.1| <= |suffix| && suffix[|suffix| - |r.1|..] == r.1
  {
    var p := TrimRight(prefix, BLANKS);
    var fence := if |p| < 3 then -1 else FindLast(p, |p| - 3, "```");
    if fence < 0 || CountFrom(p[..fence + 3], 0, "```") % 2 == 0 then (prefix, suffix)
    else
      var header := Trim(p[fence + 3..]);
      var s := TrimLeft(suffix, BLANKS);
      if (header != "" && Lower(header) != "json") || !HasAt(s, 0, "```") then (prefix, suffix)
      else
        HasFits(s, 0, "```");
        (p[..fence], s[3..])
  }

  lemma {:induction false} HasMeans(s: string, i: nat, p: string)
    requires HasAt(s, i, p) && p != ""
    ensures i + |p| <= |s| && s[i..i + |p|] == p
    decreases |p|
  {
    if |p| > 1 {
      HasMeans(s, i + 1, p[1..]);
      assert s[i..i + |p|] == [s[i]] + s[i + 1..i + |p|];
    }
  }

  lemma {:induction false} TrimRightTail(s: string, chars: string, k: nat)
    requires k < |TrimRight(s, chars)|
    ensures TrimRight(s[k..], chars) == TrimRight(s, chars)[k..]
  {
    if s[|s| - 1] in chars {
      TrimRightTail(s[..|s| - 1], chars, k);
      assert s[k..][..|s[k..]| - 1] == s[..|s| - 1][k..];
    }
  }

  /** Where trimming stops: k leading characters are trimmed and no more can be. */
  predicate TrimsAt(s: string, chars: string, k: nat) {
    && k <= |s| && (k < |s| ==> s[k] !in chars)
    && forall i :: 0 <= i < k ==> s[i] in chars
  }

  lemma TrimsOneMore(s: string, chars: string, k: nat)
    requires s != "" && s[0] in chars && TrimsAt(s[1..], chars, k)
    ensures TrimsAt(s, chars, k + 1) && s[1..][k..] == s[k + 1..]
  {
    assert forall i :: 0 < i < k + 1 ==> s[i] == s[1..][i - 1];
  }

  lemma {:induction false} TrimLeftShape(s: string, chars: string) returns (k: nat)
    ensures TrimsAt(s, chars, k) && TrimLeft(s, chars) == s[k..]
    decreases |s|
  {
    if s == "" || s[0] !in chars {
      k := 0;
    } else {
      hide TrimsAt;
      k := TrimLeftShape(s[1..], chars);
      TrimsOneMore(s, chars, k);
      k := k + 1;
    }
  }

  lemma OnePlace(s: string, chars: string, j: nat, k: nat)
    requires TrimsAt(s, chars, j) && TrimsAt(s, chars, k)
    ensures j == k
  {
  }

  /** What is trimmed off a text is trimmed off its longer beginnings. */
  lemma TrimLeftHead(s: string, chars: string, n: nat)
    requires 0 < n <= |TrimLeft(s, chars)|
    ensures TrimLeft(s[..|s| - |TrimLeft(s, chars)| + n], chars) == TrimLeft(s, chars)[..n]
  {
    hide TrimLeft;
    var k := TrimLeftShape(s, chars);
    var head := s[..k + n];
    var j := TrimLeftShape(head, chars);
    assert TrimsAt(head, chars, k);
    OnePlace(head, chars, j, k);
    assert head[k..] == s[k..][..n];
  }

  lemma {:induction false} FindLastFound(s: string, i: int, p: string)
    requires i <= |s| - |p| && FindLast(s, i, p) >= 0
    ensures FindLast(s, i, p) <= i && HasAt(s, FindLast(s, i, p), p)
  {
    if !HasAt(s, i, p) {
      FindLastFound(s, i - 1, p);
    }
  }

  lemma OpenerCut(prefix: string, fence: nat)
    requires var p := TrimRight(prefix, BLANKS);
      && fence + 3 <= |p| && HasAt(p, fence, "```")
      && (Trim(p[fence + 3..]) == "" || Lower(Trim(p[fence + 3..])) == "json")
    ensures fence <= |prefix| && IsFenceOpener(prefix[fence..])
  {
    hide TrimRight, HasAt, Trim, Lower;
    var p := TrimRight(prefix, BLANKS);
    HasMeans(p, fence, "```");
    TrimRightTail(prefix, BLANKS, fence);
    assert p[fence..][..3] == p[fence..fence + 3] == "```";
    assert p[fence..][3..] == p[fence + 3..];
  }

  lemma CloserCut(suffix: string)
    requires HasAt(TrimLeft(suffix, BLANKS), 0, "```")
    ensures 3 <= |TrimLeft(suffix, BLANKS)| <= |suffix|
    ensures IsFenceCloser(suffix[..|suffix| - |TrimLeft(suffix, BLANKS)| + 3])
  {
    hide TrimLeft, HasAt;
    HasMeans(TrimLeft(suffix, BLANKS), 0, "```");
    TrimLeftHead(suffix, BLANKS, 3);
  }

  /** What is cut off is nothing at all, or an opening fence on the left and a closing one on the right. */
  lemma TrimFenceCuts(prefix: string, suffix: string)
    ensures var (p, s) := TrimFence(prefix, suffix);
      IsFenceOpener(prefix[|p|..]) && IsFenceCloser(suffix[..|suffix| - |s|])
  {
    hide FindLast, CountFrom, TrimRight, TrimLeft, HasAt, Trim, Lower;
    var trimmed := TrimRight(prefix, BLANKS);
    var fence := FindLast(trimmed, |trimmed| - 3, "```");
    if TrimFence(prefix, suffix) == (prefix, suffix) {
      NothingCut(prefix, suffix);
    } else {
      FindLastFound(trimmed, |trimmed| - 3, "```");
      OpenerCut(prefix, fence);
      CloserCut(suffix);
      hide IsFenceOpener, IsFenceCloser;
    }
  }

  lemma NothingCut(prefix: string, suffix: string)
    ensures IsFenceOpener(prefix[|prefix|..]) && IsFenceCloser(suffix[..|suffix| - |suffix|])
  {
  }

  /** A block of the capture is accepted as calls, refused as a broken call, or passed on as text. */
  datatype Verdict =
    | Undecided
    | Accepted(start: nat, end: nat, calls: seq<Call>)
    | Refused(start: nat, end: nat)
    | Passed(start: nat, end: nat)

  predicate Fits(s: string, v: Verdict) {
    v.Undecided? || v.start < v.end <= |s|
  }

  ghost predicate VerdictOk(env: Env, s: string, v: Verdict) {
    && Fits(s, v)
    && (v.Accepted? ==> v.calls != [])
    && (v.Accepted? ==>
          v.calls == env.parse(s[v.start..v.end]).calls ||
            v.calls == env.parse("<tool_calls>" + s[v.start..v.end]).calls)
    && (v.Refused? ==>
          env.parse(s[v.start..v.end]).sawSyntax || env.parse("<tool_calls>" + s[v.start..v.end]).sawSyntax)
  }

  function Prefix(s: string, v: Verdict): string
    requires !v.Undecided? && Fits(s, v)
  {
    match v
    case Accepted(start, end, _) => TrimFence(s[..start], s[end..]).0
    case Refused(start, _) => s[..start]
    case Passed(_, end) => s[..end]
  }

  function Suffix(s: string, v: Verdict): (r: string)
    requires !v.Undecided? && Fits(s, v)
    ensures |r| < |s|
  {
    if v.Accepted? then TrimFence(s[..v.start], s[v.end..]).1 else s[v.end..]
  }

  function CallsOf(v: Verdict): seq<Call> {
    if v.Accepted? then v.calls else []
  }

  /** What becomes of the capture up to its suffix. */
  function Pieces(s: string, v: Verdict): seq<Piece>
    requires !v.Undecided? && Fits(s, v)
  {
    match v
    case Accepted(start, end, calls) =>
      var (p, t) := TrimFence(s[..start], s[end..]);
      [Kept(p), Dropped(s[|p|..start], FenceOpener, -1)]
      + [Dropped(s[start..end], ToolBlock(calls), -1), Dropped(s[end..|s| - |t|], FenceCloser, -1)]
    case Refused(start, end) => [Kept(s[..start]), Dropped(s[start..end], RejectedBlock, -1)]
    case Passed(start, end) => [Kept(s[..end])]
  }

  lemma Two(a: Piece, b: Piece)
    ensures Flatten([a, b]) == a.text + b.text
    ensures Emitted([a, b]) == (if a.Kept? then a.text else "") + (if b.Kept? then b.text else "")
    ensures Batches([a, b]) == Batches([a]) + Batches([b])
  {
    One(a);
    One(b);
    Joined([a], [b]);
    assert [a] + [b] == [a, b];
  }

  lemma TwoPieces(s: string, a: Piece, b: Piece, i: nat, j: nat, k: nat)
    requires i <= j <= k <= |s| && a.text == s[i..j] && b.text == s[j..k]
    ensures Flatten([a, b]) == s[i..k]
  {
    hide Flatten, Emitted, Batches;
    Two(a, b);
  }

  lemma FourPieces(s: string, p: nat, start: nat, end: nat, q: nat, calls: seq<Call>)
    requires p <= start < end <= q <= |s|
    ensures var pieces := [Kept(s[..p]), Dropped(s[p..start], FenceOpener, -1)]
        + [Dropped(s[start..end], ToolBlock(calls), -1), Dropped(s[end..q], FenceCloser, -1)];
      Flatten(pieces) == s[..q] && Emitted(pieces) == s[..p] && Batches(pieces) == [calls]
  {
    hide Flatten, Emitted, Batches;
    var a, b := Kept(s[..p]), Dropped(s[p..start], FenceOpener, -1);
    var c, d := Dropped(s[start..end], ToolBlock(calls), -1), Dropped(s[end..q], FenceCloser, -1);
    assert Flatten([a, b]) == s[..start] by { TwoPieces(s, a, b, 0, p, start); }
    assert Flatten([c, d]) == s[start..q] by { TwoPieces(s, c, d, start, end, q); }
    assert Emitted([a, b]) == s[..p] && Emitted([c, d]) == "" by { Two(a, b); Two(c, d); }
    assert Batches([a, b]) == [] && Batches([c, d]) == [calls] by {
      Two(a, b);
      Two(c, d);
      One(a);
      One(b);
      One(c);
      One(d);
    }
    Joined([a, b], [c, d]);
    assert s[..start] + s[start..q] == s[..q];
  }

  lemma AcceptedAccounts(s: string, v: Verdict)
    requires v.Accepted? && Fits(s, v)
    ensures Flatten(Pieces(s, v)) + Suffix(s, v) == s && Emitted(Pieces(s, v)) == Prefix(s, v)
    ensures Batches(Pieces(s, v)) == [v.calls]
  {
    hide TrimFence, Flatten, Emitted, Batches;
    var (p, t) := TrimFence(s[..v.start], s[v.end..]);
    var q := |s| - |t|;
    FourPieces(s, |p|, v.start, v.end, q, v.calls);
    assert p == s[..|p|];
    assert t == s[v.end..][|s[v.end..]| - |t|..] == s[q..];
    assert s[..q] + s[q..] == s;
  }

  lemma RefusedAccounts(s: string, start: nat, end: nat)
    requires start < end <= |s|
    ensures var pieces := [Kept(s[..start]), Dropped(s[start..end], RejectedBlock, -1)];
      Flatten(pieces) + s[end..] == s && Emitted(pieces) == s[..start] && Batches(pieces) == []
  {
    hide Flatten, Emitted, Batches;
    var a, b := Kept(s[..start]), Dropped(s[start..end], RejectedBlock, -1);
    One(a);
    One(b);
    Two(a, b);
    assert Flatten([a, b]) == s[..end] by { TwoPieces(s, a, b, 0, start, end); }
    assert s[..end] + s[end..] == s;
  }

  /** Prefix, dropped pieces and suffix make up the capture, and only the prefix is emitted. */
  lemma Accounts(s: string, v: Verdict)
    requires !v.Undecided? && Fits(s, v)
    ensures Flatten(Pieces(s, v)) + Suffix(s, v) == s && Emitted(Pieces(s, v)) == Prefix(s, v)
    ensures Batches(Pieces(s, v)) == if v.Accepted? then [v.calls] else []
  {
    hide TrimFence, Flatten, Emitted, Batches;
    match v
    case Accepted(_, _, _) => AcceptedAccounts(s, v);
    case Refused(start, end) => RefusedAccounts(s, start, end);
    case Passed(_, end) =>
      One(Kept(s[..end]));
  }

  /** Every dropped piece of a sound verdict has its reason. */
  lemma VerdictJustified(env: Env, s: string, v: Verdict)
    requires !v.Undecided? && VerdictOk(env, s, v)
    ensures AllJustified(env, Pieces(s, v)) && Whole(Pieces(s, v))
  {
    hide TrimFence, IsFenceOpener, IsFenceCloser;
    if v.Accepted? {
      var (p, t) := TrimFence(s[..v.start], s[v.end..]);
      TrimFenceCuts(s[..v.start], s[v.end..]);
      assert s[..v.start][|p|..] == s[|p|..v.start];
      assert s[v.end..][..|s[v.end..]| - |t|] == s[v.end..|s| - |t|];
    }
  }

  // ---- the blocks of a capture

  function Judge(parsed: Parsed, start: nat, end: nat): Verdict {
    if parsed.calls != [] then Accepted(start, end, parsed.calls)
    else if parsed.sawSyntax then Refused(start, end)
    else Passed(start, end)
  }

  /** A bare invoke whose wrapper was lost: its opening tag is put back before parsing. */
  function BareVerdict(env: Env, s: string): (v: Verdict)
    ensures Fits(s, v)
  {
    match M.FirstNamed(s, 0, "invoke", false)
    case None => Undecided
    case Some(invoke) =>
      var wrapper := M.FirstNamed(s, 0, "tool_calls", false);
      if wrapper.Some? && wrapper.value.start <= invoke.start then Undecided
      else
        match M.FirstNamed(s, invoke.start + 1, "tool_calls", true)
        case None => Undecided
        case Some(close) =>
          Judge(env.parse("<tool_calls>" + s[invoke.start..close.end + 1]), invoke.start, close.end + 1)
  }

  /** From a position on: the first wrapper that parses wins; failing that, an unclosed wrapper means
      waiting; failing that, the first closed wrapper is rejected. */
  function Walk(env: Env, s: string, from: nat, anyOpen: bool, rejected: Verdict): (v: Verdict)
    requires Fits(s, rejected)
    ensures Fits(s, v)
    decreases |s| - from
  {
    match M.FindTag(s, from)
    case None => if anyOpen then Undecided else if !rejected.Undecided? then rejected else BareVerdict(env, s)
    case Some(tag) =>
      if tag.closing || tag.name != "tool_calls" then Walk(env, s, tag.end + 1, anyOpen, rejected)
      else
        match M.MatchingClose(s, tag)
        case None => Walk(env, s, tag.end + 1, true, rejected)
        case Some(close) =>
          var v := Judge(env.parse(s[tag.start..close.end + 1]), tag.start, close.end + 1);
          if v.Accepted? then v
          else Walk(env, s, tag.end + 1, anyOpen, if rejected.Undecided? then v else rejected)
  }

  function XmlVerdict(env: Env, s: string): (v: Verdict)
    ensures Fits(s, v)
  {
    Walk(env, s, 0, false, Undecided)
  }

  lemma WalkNext(env: Env, s: string, from: nat, anyOpen: bool, rejected: Verdict, tag: M.Tag)
    requires Fits(s, rejected) && M.FindTag(s, from) == Some(tag)
    ensures tag.closing || tag.name != "tool_calls" ==>
      Walk(env, s, from, anyOpen, rejected) == Walk(env, s, tag.end + 1, anyOpen, rejected)
    ensures !tag.closing && tag.name == "tool_calls" && M.MatchingClose(s, tag).None? ==>
      Walk(env, s, from, anyOpen, rejected) == Walk(env, s, tag.end + 1, true, rejected)
  {
    hide M.FindTag, M.MatchingClose, BareVerdict;
  }

  lemma WalkBlock(env: Env, s: string, from: nat, anyOpen: bool, rejected: Verdict, tag: M.Tag, close: M.Tag)
    requires Fits(s, rejected) && M.FindTag(s, from) == Some(tag)
    requires !tag.closing && tag.name == "tool_calls" && M.MatchingClose(s, tag) == Some(close)
    ensures var v := Judge(env.parse(s[tag.start..close.end + 1]), tag.start, close.end + 1);
      Walk(env, s, from, anyOpen, rejected) ==
        if v.Accepted? then v
        else Walk(env, s, tag.end + 1, anyOpen, if rejected.Undecided? then v else rejected)
  {
    hide M.FindTag, M.MatchingClose, BareVerdict;
  }

  lemma WalkEnd(env: Env, s: string, from: nat, anyOpen: bool, rejected: Verdict)
    requires Fits(s, rejected) && (from >= |s| || M.FindTag(s, from).None?)
    ensures Walk(env, s, from, anyOpen, rejected) ==
      if anyOpen then Undecided else if !rejected.Undecided? then rejected else BareVerdict(env, s)
  {
    hide BareVerdict;
  }

  lemma UndecidedOk(env: Env, s: string)
    ensures VerdictOk(env, s, Undecided)
  {
  }

  lemma BareOk(env: Env, s: string)
    ensures VerdictOk(env, s, BareVerdict(env, s))
  {
    hide M.FirstNamed;
  }

  lemma JudgeOk(env: Env, s: string, start: nat, end: nat)
    requires start < end <= |s|
    ensures VerdictOk(env, s, Judge(env.parse(s[start..end]), start, end))
    ensures Fits(s, Judge(env.parse(s[start..end]), start, end))
  {
  }

  lemma {:induction false} WalkOk(env: Env, s: string, from: nat, anyOpen: bool, rejected: Verdict)
    requires Fits(s, rejected) && VerdictOk(env, s, rejected)
    ensures VerdictOk(env, s, Walk(env, s, from, anyOpen, rejected))
    decreases |s| - from
  {
    UndecidedOk(env, s);
    BareOk(env, s);
    hide M.FindTag, M.MatchingClose, BareVerdict, Judge, VerdictOk, Walk;
    match M.FindTag(s, from)
    case None => WalkEnd(env, s, from, anyOpen, rejected);
    case Some(tag) =>
      WalkNext(env, s, from, anyOpen, rejected, tag);
      if tag.closing || tag.name != "tool_calls" {
        WalkOk(env, s, tag.end + 1, anyOpen, rejected);
      } else {
        match M.MatchingClose(s, tag)
        case None => WalkOk(env, s, tag.end + 1, true, rejected);
        case Some(close) =>
          WalkBlock(env, s, from, anyOpen, rejected, tag, close);
          JudgeOk(env, s, tag.start, close.end + 1);
          var v := Judge(env.parse(s[tag.start..close.end + 1]), tag.start, close.end + 1);
          if !v.Accepted? {
            WalkOk(env, s, tag.end + 1, anyOpen, if rejected.Undecided? then v else rejected);
          }
      }
  }

  /** consumeToolCapture: the XML blocks, then the whole capture as calls, then either waiting or
      letting everything go as text. */
  function Consume(env: Env, s: string): (v: Verdict)
    ensures Fits(s, v)
  {
    if s == "" then Undecided
    else
      var xml := XmlVerdict(env, s);
      if !xml.Undecided? then xml
      else if env.parse(s).calls != [] then Accepted(0, |s|, env.parse(s).calls)
      else if env.keepBuffering(s) then Undecided
      else Passed(0, |s|)
  }

  lemma ConsumeOk(env: Env, s: string)
    ensures VerdictOk(env, s, Consume(env, s)) && VerdictOk(env, s, XmlVerdict(env, s))
  {
    WalkOk(env, s, 0, false, Undecided);
    assert s[0..|s|] == s;
  }

  // ---- the loops

  /** The scan of consumeXMLToolCapture over wrapper tags, with its candidate, rejected block and
      open-wrapper flag. */
  method ScanWrappers(env: Env, s: string) returns (best: Verdict, rejected: Verdict, anyOpen: bool)
    ensures Fits(s, best) && Fits(s, rejected) && (best.Undecided? || best.Accepted?) && !rejected.Accepted?
    ensures XmlVerdict(env, s) ==
      if !best.Undecided? then best
      else if anyOpen then Undecided
      else if !rejected.Undecided? then rejected
      else BareVerdict(env, s)
  {
    hide M.FindTag, M.MatchingClose, BareVerdict, Walk;
    best, rejected, anyOpen := Undecided, Undecided, false;
    ghost var goal := XmlVerdict(env, s);
    var from := 0;
    while from < |s|
      invariant Fits(s, rejected) && (rejected.Undecided? || rejected.start < from) && !rejected.Accepted?
      invariant Walk(env, s, from, anyOpen, rejected) == goal && best.Undecided?
      decreases |s| - from
    {
      var found := M.FindToolMarkupTag(s, from);
      if found.None? {
        WalkEnd(env, s, from, anyOpen, rejected);
        return;
      }
      var tag := found.value;
      WalkNext(env, s, from, anyOpen, rejected, tag);
      if tag.closing || tag.name != "tool_calls" {
        from := tag.end + 1;
        continue;
      }
      var close := M.FindMatchingClose(s, tag);
      if close.None? {
        anyOpen := true;
        from := tag.end + 1;
        continue;
      }
      WalkBlock(env, s, from, anyOpen, rejected, tag, close.value);
      var end := close.value.end + 1;
      var parsed := env.parse(s[tag.start..end]);
      if parsed.calls != [] {
        best := Accepted(tag.start, end, parsed.calls);
        return;
      }
      if rejected.Undecided? || tag.start < rejected.start {
        rejected := if parsed.sawSyntax then Refused(tag.start, end) else Passed(tag.start, end);
      }
      from := tag.end + 1;
    }
    WalkEnd(env, s, from, anyOpen, rejected);
  }

  /** consumeXMLToolCapture */
  method ConsumeXmlToolCapture(env: Env, captured: string)
    returns (prefix: string, calls: seq<Call>, suffix: string, ready: bool)
    ensures ready == !XmlVerdict(env, captured).Undecided?
    ensures ready ==> prefix == Prefix(captured, XmlVerdict(env, captured))
    ensures ready ==> suffix == Suffix(captured, XmlVerdict(env, captured))
    ensures calls == CallsOf(XmlVerdict(env, captured))
  {
    hide BareVerdict, Walk, TrimFence;
    var best, rejected, anyOpen := ScanWrappers(env, captured);
    if best.Accepted? {
      var parts := TrimFence(captured[..best.start], captured[best.end..]);
      return parts.0, best.calls, parts.1, true;
    }
    if anyOpen {
      return "", [], "", false;
    }
    if rejected.Refused? {
      return captured[..rejected.start], [], captured[rejected.end..], true;
    }
    if rejected.Passed? {
      assert captured[..rejected.start] + captured[rejected.start..rejected.end] == captured[..rejected.end];
      return captured[..rejected.start] + captured[rejected.start..rejected.end], [], captured[rejected.end..], true;
    }
    prefix, calls, suffix, ready := ConsumeBareInvoke(env, captured);
  }

  /** The repair at the end of consumeXMLToolCapture. */
  method ConsumeBareInvoke(env: Env, captured: string)
    returns (prefix: string, calls: seq<Call>, suffix: string, ready: bool)
    ensures ready == !BareVerdict(env, captured).Undecided?
    ensures ready ==> prefix == Prefix(captured, BareVerdict(env, captured))
    ensures ready ==> suffix == Suffix(captured, BareVerdict(env, captured))
    ensures calls == CallsOf(BareVerdict(env, captured))
  {
    hide M.FirstNamed, Prefix, Suffix, Judge;
    prefix, calls, suffix, ready := "", [], "", false;
    var invoke := M.FindFirstNamed(captured, 0, "invoke", false);
    if invoke.Some? {
      var wrapper := M.FindFirstNamed(captured, 0, "tool_calls", false);
      if wrapper.None? || wrapper.value.start > invoke.value.start {
        var close := M.FindFirstNamed(captured, invoke.value.start + 1, "tool_calls", true);
        if close.Some? && close.value.start > invoke.value.start {
          ready := true;
          prefix, calls, suffix := BareBlock(env, captured, invoke.value.start, close.value.end + 1);
        }
      }
    }
  }

  method BareBlock(env: Env, captured: string, start: nat, end: nat)
    returns (prefix: string, calls: seq<Call>, suffix: string)
    requires start < end <= |captured|
    ensures var v := Judge(env.parse("<tool_calls>" + captured[start..end]), start, end);
      !v.Undecided? && prefix == Prefix(captured, v) && suffix == Suffix(captured, v) && calls == CallsOf(v)
  {
    var parsed := env.parse("<tool_calls>" + captured[start..end]);
    prefix, calls, suffix := captured[..start], [], captured[end..];
    if parsed.calls != [] {
      var parts := TrimFence(prefix, suffix);
      return parts.0, parsed.calls, parts.1;
    }
    if !parsed.sawSyntax {
      prefix := prefix + captured[start..end];
      assert prefix == captured[..end];
    }
  }

  /** consumeToolCapture */
  method ConsumeToolCapture(env: Env, captured: string)
    returns (prefix: string, calls: seq<Call>, suffix: string, ready: bool)
    ensures ready == !Consume(env, captured).Undecided?
    ensures ready ==> prefix == Prefix(captured, Consume(env, captured))
    ensures ready ==> suffix == Suffix(captured, Consume(env, captured))
    ensures calls == CallsOf(Consume(env, captured))
  {
    if captured == "" {
      return "", [], "", false;
    }
    prefix, calls, suffix, ready := ConsumeXmlToolCapture(env, captured);
    if ready {
      return;
    }
    var parsed := env.parse(captured);
    if parsed.calls != [] {
      return "", parsed.calls, "", true;
    }
    if env.keepBuffering(captured) {
      return "", [], "", false;
    }
    return captured, [], "", true;
  }
}
