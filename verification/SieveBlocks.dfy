/** How many blocks of calls one chunk can finish, told from the text before the chunk is processed. */
module SieveBlocks {
  import opened Options
  import opened Text
  import opened Fence
  import opened SieveScan
  import opened SievePieces
  import opened SieveXml
  import opened Sieve
  import M = Markup

  // ---- a tag is read from its own start on

  lemma {:induction false} FoldShift(s: string, k: nat, i: nat, p: string)
    requires k <= |s|
    ensures HasFoldAt(s[k..], i, p) == HasFoldAt(s, k + i, p)
    decreases |p|
  {
    if p != "" && k + i < |s| {
      FoldShift(s, k, i + 1, p[1..]);
    }
  }

  lemma PrefixShift(s: string, k: nat, i: nat)
    requires k + i <= |s|
    ensures M.PrefixOnce(s[k..], i) + k == M.PrefixOnce(s, k + i)
  {
    FoldShift(s, k, i, "dsml");
    FoldShift(s, k, i, "zjml");
    FoldShift(s, k, i, "qnml");
    M.DialectFits(s, k + i);
    M.DialectFits(s[k..], i);
    hide HasFoldAt;
  }

  lemma {:induction false} NameShift(s: string, k: nat, i: nat, dsmlLike: bool, names: seq<M.Alias>)
    requires k <= |s|
    ensures M.MatchName(s[k..], i, dsmlLike, names) == M.MatchName(s, k + i, dsmlLike, names)
  {
    hide HasFoldAt;
    if names != [] {
      FoldShift(s, k, i, names[0].raw);
      NameShift(s, k, i, dsmlLike, names[1..]);
    }
  }

  lemma {:induction false} EndShift(s: string, k: nat, i: nat, quote: Option<char>)
    requires k <= |s|
    ensures M.TagEnd(s[k..], i, quote) < 0 <==> M.TagEnd(s, k + i, quote) < 0
    decreases |s| - i
  {
    if k + i < |s| {
      var c := s[k + i];
      assert s[k..][i] == c;
      match quote
      case Some(q) => EndShift(s, k, i + 1, if c == q then None else quote);
      case None =>
        if c == '"' || c == '\'' {
          EndShift(s, k, i + 1, Some(c));
        } else {
          EndShift(s, k, i + 1, None);
        }
    }
  }

  /** Both readings find a tag, of one name and direction, or neither does. */
  predicate Alike(a: Option<M.Tag>, b: Option<M.Tag>) {
    a.Some? == b.Some? && (a.Some? ==> a.value.name == b.value.name && a.value.closing == b.value.closing)
  }

  lemma EndTagShift(s: string, k: nat, nameEnd: nat, ph: M.Phase)
    requires ph.Pipes? && 1 < nameEnd && k + nameEnd <= |s|
    ensures Alike(M.EndTag(s[k..], 0, nameEnd, ph), M.EndTag(s, k, k + nameEnd, ph))
  {
    hide Trim, FindFrom, EndsWith, M.TagEnd;
    EndShift(s, k, nameEnd, None);
  }

  lemma {:induction false} ScanShift(s: string, k: nat, i: nat, ph: M.Phase)
    requires 0 < i && k + i <= |s| && (ph.Pipes? ==> 1 < i)
    ensures Alike(M.Scan(s[k..], 0, i, ph), M.Scan(s, k, k + i, ph))
    decreases |s| - i, if ph.Angles? then 2 else if ph.Noise? then 1 else 0
  {
    hide M.EndTag, M.PrefixOnce, M.MatchName, M.Names;
    match ph
    case Angles =>
      if k + i < |s| && s[k + i] == '<' {
        ScanShift(s, k, i + 1, M.Angles);
      } else if k + i < |s| && s[k + i] == '/' {
        ScanShift(s, k, i + 1, M.Noise(true, false));
      } else {
        ScanShift(s, k, i, M.Noise(false, false));
      }
    case Noise(closing, dsmlLike) =>
      PrefixShift(s, k, i);
      var next := M.PrefixOnce(s[k..], i);
      if next > i {
        ScanShift(s, k, next, M.Noise(closing, true));
      } else {
        NameShift(s, k, i, dsmlLike, M.Names());
        var (name, n) := M.MatchName(s[k..], i, dsmlLike, M.Names());
        if n > 0 {
          ScanShift(s, k, i + n, M.Pipes(name, closing, dsmlLike, false));
        }
      }
    case Pipes(name, closing, dsmlLike, _) =>
      if M.PipeAt(s, k + i) {
        ScanShift(s, k, i + 1, M.Pipes(name, closing, dsmlLike, true));
      } else {
        EndTagShift(s, k, i, ph);
      }
  }

  lemma TagShift(s: string, k: nat)
    requires k <= |s|
    ensures Alike(M.ScanTag(s[k..], 0), M.ScanTag(s, k))
  {
    if k < |s| && s[k] == '<' {
      hide M.Scan;
      ScanShift(s, k, 1, M.Angles);
    }
  }

  // ---- closing tags

  /** The text begins with a closing tool_calls tag. */
  predicate ClosesHere(s: string) {
    var tag := M.ScanTag(s, 0);
    tag.Some? && tag.value.closing && tag.value.name == "tool_calls"
  }

  /** The closing tool_calls tags of a text, inside ignored sections or not. */
  function Closings(s: string): nat {
    if s == "" then 0 else (if ClosesHere(s) then 1 else 0) + Closings(s[1..])
  }

  lemma {:induction false} FewerLater(s: string, k: nat)
    requires k <= |s|
    ensures Closings(s[k..]) <= Closings(s)
    decreases |s|
  {
    hide ClosesHere;
    if k == 0 {
      assert s[k..] == s;
    } else {
      FewerLater(s[1..], k - 1);
      assert s[1..][k - 1..] == s[k..];
    }
  }

  lemma OnePassed(s: string, p: nat, q: nat)
    requires p < q <= |s| && ClosesHere(s[p..])
    ensures Closings(s) >= 1 + Closings(s[q..])
  {
    FewerLater(s, p);
    FewerLater(s[p..][1..], q - p - 1);
    assert s[p..][1..][q - p - 1..] == s[q..];
    hide ClosesHere;
    assert s[p..] != "";
  }

  /** A closing tool_calls tag lies in this stretch of the text. */
  ghost predicate ClosedWithin(s: string, start: nat, end: nat) {
    exists p: nat :: start <= p < end <= |s| && ClosesHere(s[p..])
  }

  lemma ScannedCloses(s: string, tag: M.Tag)
    requires tag.start < tag.end < |s| && M.ScanTag(s, tag.start) == Some(tag) && tag.closing &&
      tag.name == "tool_calls"
    ensures ClosesHere(s[tag.start..])
  {
    hide M.ScanTag;
    TagShift(s, tag.start);
  }

  lemma {:induction false} CloseScanned(s: string, name: string, pos: nat, depth: nat)
    requires depth > 0
    ensures var r := M.CloseFrom(s, name, pos, depth); r.Some? ==> M.ScanTag(s, r.value.start) == r
    decreases |s| - pos
  {
    hide M.ScanTag, M.FindTag;
    if pos < |s| {
      match M.FindTag(s, pos)
      case None =>
      case Some(tag) =>
        if tag.name != name {
          CloseScanned(s, name, tag.end + 1, depth);
        } else if tag.closing {
          if depth > 1 {
            CloseScanned(s, name, tag.end + 1, depth - 1);
          }
        } else {
          CloseScanned(s, name, tag.end + 1, if tag.selfClosing then depth else depth + 1);
        }
    }
  }

  lemma {:induction false} NamedScanned(s: string, pos: nat, name: string, closing: bool)
    ensures var r := M.FirstNamed(s, pos, name, closing); r.Some? ==> M.ScanTag(s, r.value.start) == r
    decreases |s| - pos
  {
    hide M.ScanTag, M.FindTag;
    if pos < |s| {
      match M.FindTag(s, pos)
      case None =>
      case Some(tag) =>
        if !(tag.name == name && tag.closing == closing) {
          NamedScanned(s, tag.end + 1, name, closing);
        }
    }
  }

  lemma MatchedCloses(s: string, tag: M.Tag, close: M.Tag)
    requires M.MatchingClose(s, tag) == Some(close) && tag.name == "tool_calls" && tag.start <= tag.end
    ensures ClosedWithin(s, tag.start, close.end + 1)
  {
    CloseScanned(s, tag.name, tag.end + 1, 1);
    hide M.ScanTag, M.CloseFrom;
    ScannedCloses(s, close);
  }

  lemma BareCloses(env: Env, s: string)
    ensures var v := BareVerdict(env, s); v.Accepted? ==> ClosedWithin(s, v.start, v.end)
  {
    hide M.ScanTag, M.FirstNamed, ClosesHere;
    var invoke := M.FirstNamed(s, 0, "invoke", false);
    if invoke.Some? {
      var close := M.FirstNamed(s, invoke.value.start + 1, "tool_calls", true);
      NamedScanned(s, invoke.value.start + 1, "tool_calls", true);
      if close.Some? {
        ScannedCloses(s, close.value);
      }
    }
  }

  /** Every block that is accepted by its wrapper holds a closing tag. */
  lemma {:induction false} WalkCloses(env: Env, s: string, from: nat, anyOpen: bool, rejected: Verdict)
    requires Fits(s, rejected) && !rejected.Accepted?
    ensures var v := Walk(env, s, from, anyOpen, rejected); v.Accepted? ==> ClosedWithin(s, v.start, v.end)
    decreases |s| - from
  {
    BareCloses(env, s);
    hide M.FindTag, M.MatchingClose, BareVerdict, Walk, ClosedWithin;
    match M.FindTag(s, from)
    case None => WalkEnd(env, s, from, anyOpen, rejected);
    case Some(tag) =>
      WalkNext(env, s, from, anyOpen, rejected, tag);
      if tag.closing || tag.name != "tool_calls" {
        WalkCloses(env, s, tag.end + 1, anyOpen, rejected);
      } else {
        match M.MatchingClose(s, tag)
        case None => WalkCloses(env, s, tag.end + 1, true, rejected);
        case Some(close) =>
          WalkBlock(env, s, from, anyOpen, rejected, tag, close);
          MatchedCloses(s, tag, close);
          var v := Judge(env.parse(s[tag.start..close.end + 1]), tag.start, close.end + 1);
          if !v.Accepted? {
            WalkCloses(env, s, tag.end + 1, anyOpen, if rejected.Undecided? then v else rejected);
          }
      }
  }

  // ---- blocks and closing tags

  /** Some rest of the text parses into calls as it stands. */
  ghost predicate RestParses(env: Env, s: string) {
    exists k: nat :: k < |s| && env.parse(s[k..]).calls != []
  }

  /** A bound on the blocks that a text can finish: its closing tool_calls tags, and one more if a rest of
      it parses as a whole. */
  ghost function Most(env: Env, s: string): nat {
    Closings(s) + if RestParses(env, s) then 1 else 0
  }

  lemma RestOfRest(env: Env, s: string, q: nat)
    requires q <= |s|
    ensures RestParses(env, s[q..]) ==> RestParses(env, s)
  {
    if RestParses(env, s[q..]) {
      var k: nat :| k < |s[q..]| && env.parse(s[q..][k..]).calls != [];
      assert s[q..][k..] == s[q + k..];
    }
  }

  lemma MostLater(env: Env, s: string, q: nat)
    requires q <= |s|
    ensures Most(env, s[q..]) <= Most(env, s)
  {
    hide RestParses, Closings;
    FewerLater(s, q);
    RestOfRest(env, s, q);
  }

  lemma SuffixAt(s: string, v: Verdict) returns (q: nat)
    requires !v.Undecided? && Fits(s, v)
    ensures v.end <= q <= |s| && Suffix(s, v) == s[q..]
  {
    hide TrimFence;
    q := |s| - |Suffix(s, v)|;
    if v.Accepted? {
      var t := s[v.end..];
      var r := TrimFence(s[..v.start], t).1;
      assert t[|t| - |r|..] == r;
      assert t[|t| - |r|..] == s[|s| - |r|..];
    }
  }

  /** Each block that is finished uses up a closing tag, or is a whole rest and leaves nothing. */
  lemma ConsumePays(env: Env, s: string)
    requires !Consume(env, s).Undecided?
    ensures var v := Consume(env, s);
      Most(env, Suffix(s, v)) + (if v.Accepted? then 1 else 0) <= Most(env, s)
  {
    var v, xml := Consume(env, s), XmlVerdict(env, s);
    var q := SuffixAt(s, v);
    if v.Accepted? {
      WalkCloses(env, s, 0, false, Undecided);
      if !xml.Undecided? {
        assert v == xml;
        BlockPays(env, s, v, q);
      } else {
        assert v.start == 0 && v.end == |s|;
        WholePays(env, s);
        assert s[q..] == "";
      }
    } else {
      hide Suffix, Consume;
      MostLater(env, s, q);
    }
  }

  lemma BlockPays(env: Env, s: string, v: Verdict, q: nat)
    requires v.Accepted? && v.end <= q <= |s| && ClosedWithin(s, v.start, v.end)
    ensures Most(env, s[q..]) + 1 <= Most(env, s)
  {
    hide ClosesHere, RestParses, Closings;
    var p: nat :| v.start <= p < v.end <= |s| && ClosesHere(s[p..]);
    OnePassed(s, p, q);
    RestOfRest(env, s, q);
  }

  lemma WholePays(env: Env, s: string)
    requires s != "" && env.parse(s).calls != []
    ensures Most(env, "") == 0 && Most(env, s) >= 1
  {
    hide Closings;
    assert Closings("") == 0 by { NoClosings(); }
    assert s[0..] == s;
  }

  lemma NoClosings()
    ensures Closings("") == 0
  {
  }

  // ---- one chunk

  function AtHand(v: View): string {
    v.capture + v.pending
  }

  /** Blocks finished so far, and those that the text at hand can still finish. */
  ghost function Reach(env: Env, t: Run): nat {
    |Batches(t.pieces)| + Most(env, AtHand(t.view))
  }

  lemma SaidReach(t: Run, text: string)
    ensures Batches(Said(t, text, [Kept(text)]).pieces) == Batches(t.pieces)
  {
    hide Batches;
    One(Kept(text));
    JoinedBatches(t.pieces, [Kept(text)]);
    assert Batches(t.pieces) + [] == Batches(t.pieces);
  }

  lemma ResolvedReach(env: Env, t: Run, s: string, v: Verdict)
    requires !v.Undecided? && Fits(s, v)
    requires Most(env, Suffix(s, v)) + (if v.Accepted? then 1 else 0) <= Most(env, s)
    ensures Reach(env, Resolved(t, s, v)) <= |Batches(t.pieces)| + Most(env, s)
  {
    hide Batches, Most, Pieces, Prefix, Suffix, TrimFence, Noted, Flatten, Emitted;
    Accounts(s, v);
    JoinedBatches(t.pieces, Pieces(s, v));
    assert "" + Suffix(s, v) == Suffix(s, v);
  }

  lemma TurnReach(env: Env, t: Run)
    requires EnvOk(env) && (t.view.capturing || t.view.capture == "")
    ensures var u := Turn(env, t).run;
      Reach(env, u) <= Reach(env, t) && (u.view.capturing || u.view.capture == "")
  {
    hide Consume, Most, Batches, Resolved, Said, SplitSafe;
    var v := t.view;
    var w := AtHand(v);
    if v.capturing {
      var merged := t.(view := v.(pending := "", capture := w));
      var verdict := Consume(env, w);
      assert w + "" == w;
      if !verdict.Undecided? {
        ConsumePays(env, w);
        ResolvedReach(env, merged, w, verdict);
        ResolvedInput(merged, w, verdict);
      }
    } else if v.pending != "" {
      var start := env.segmentStart(v.fences, v.pending);
      assert InRange(start, v.pending);
      var text := if start >= 0 then v.pending[..start] else SplitSafe(env, v.fences, v.pending).0;
      var rest := if start >= 0 then v.pending[start..] else SplitSafe(env, v.fences, v.pending).1;
      assert text + rest == v.pending && w == v.pending;
      SaidReach(t, text);
      SaidView(t, text, [Kept(text)]);
      MostLater(env, w, |text|);
      assert w[|text|..] == rest;
      assert "" + rest == rest && rest + "" == rest;
    }
  }

  lemma {:induction false} SettleReach(env: Env, t: Run)
    requires EnvOk(env) && (t.view.capturing || t.view.capture == "")
    ensures |Batches(Settle(env, t).pieces)| <= Reach(env, t)
    decreases Size(t.view), if t.view.capturing then 0 else 1
  {
    hide Turn, Batches, Most;
    TurnReach(env, t);
    if Turn(env, t).again {
      SettleReach(env, Turn(env, t).run);
    }
  }

  /** A chunk finishes no more blocks than its text, behind what is still buffered, holds closing tags,
      and one more if a rest of that text parses as a whole. */
  lemma BlocksOfChunk(env: Env, input: string, t: Run, chunk: string)
    requires EnvOk(env) && Books(env, input, t)
    ensures |Batches(Feed(env, t, chunk).pieces)| <= |Batches(t.pieces)| + Most(env, AtHand(t.view) + chunk)
  {
    hide Settle, Batches, Most, TextBooks, CallBooks;
    var fed := Fed(t, chunk);
    assert AtHand(fed.view) == t.view.capture + (t.view.pending + chunk) == AtHand(t.view) + chunk;
    SettleReach(env, fed);
  }

  /** So a chunk that leaves room for at most one block overwrites no calls. */
  lemma NothingOverwritten(env: Env, input: string, t: Run, chunk: string)
    requires EnvOk(env) && Books(env, input, t) && Most(env, AtHand(t.view) + chunk) <= 1
    ensures Feed(env, t, chunk).overwritten == t.overwritten
  {
    hide Feed, Books, Batches, Most;
    BlocksOfChunk(env, input, t, chunk);
    OverwritesExactly(env, input, t, chunk);
    FeedOverwrites(env, t, chunk);
  }

  lemma FeedOverwrites(env: Env, t: Run, chunk: string)
    requires EnvOk(env)
    ensures Feed(env, t, chunk).overwritten >= t.overwritten
  {
    hide Settle;
    SettleSends(env, Fed(t, chunk));
  }

  // ---- whole runs

  /** Each chunk, and the end of the stream, leaves room for at most one block. */
  ghost predicate OneAtATime(env: Env, chunks: seq<string>)
    requires EnvOk(env)
  {
    && (forall k :: 0 <= k < |chunks| ==> Most(env, AtHand(FeedAll(env, chunks[..k]).view) + chunks[k]) <= 1)
    && Most(env, AtHand(FeedAll(env, chunks).view) + "") <= 1
  }

  lemma {:induction false} FeedsOverwriteNothing(env: Env, chunks: seq<string>)
    requires EnvOk(env)
    requires forall k :: 0 <= k < |chunks| ==> Most(env, AtHand(FeedAll(env, chunks[..k]).view) + chunks[k]) <= 1
    ensures FeedAll(env, chunks).overwritten == 0
  {
    hide Feed, Most, Books;
    if chunks != [] {
      var init, last := chunks[..|chunks| - 1], chunks[|chunks| - 1];
      assert forall k :: 0 <= k < |init| ==> init[..k] == chunks[..k] && init[k] == chunks[k];
      FeedsOverwriteNothing(env, init);
      FeedAllBooks(env, init);
      NothingOverwritten(env, Concat(init), FeedAll(env, init), last);
    }
  }

  lemma FinishOverwrites(env: Env, t: Run)
    requires EnvOk(env)
    ensures Finish(env, t).overwritten == Feed(env, t, "").overwritten
  {
    hide Feed, Consume, XmlVerdict, Said, Ended, EndPieces, WithOpener, Flatten, Malformed, LooseOpener;
    var sent := CallsSent(Feed(env, t, ""));
    var s := sent.view.capture;
    if sent.view.capturing {
      if !Consume(env, s).Undecided? {
        EndedEvents(sent, s, Consume(env, s), EndPieces(s, Consume(env, s)));
      } else {
        SalvagedOverwrites(env, sent, s);
      }
    }
    var ended := if sent.view.capturing then FlushCapture(env, sent) else sent;
    ReleasedOverwrites(ended, ended.view.pending);
  }

  lemma ReleasedOverwrites(t: Run, content: string)
    ensures Released(t, content).overwritten == t.overwritten
  {
    hide Malformed, Said;
    SaidView(t, content, [Kept(content)]);
  }

  lemma SalvagedOverwrites(env: Env, t: Run, s: string)
    ensures Salvaged(env, t, s).overwritten == t.overwritten
  {
    hide XmlVerdict, Ended, EndPieces, WithOpener, Flatten, Released, LooseOpener;
    var (k, text) := (LooseOpener(s, 0), Recovered(s));
    var v := XmlVerdict(env, text);
    ReleasedOverwrites(t, s);
    if k >= 0 && v.Accepted? {
      EndPiecesFlatten(text, v);
      EndedEvents(t, text, v, WithOpener(EndPieces(text, v), s[k..k + 9], k));
    }
  }

  /** When no chunk has room for two blocks, every finished block's calls are sent. */
  lemma AllCallsDelivered(env: Env, chunks: seq<string>)
    requires EnvOk(env) && OneAtATime(env, chunks)
    ensures Sent(WholeRun(env, chunks).events) == Batches(WholeRun(env, chunks).pieces)
  {
    FeedsOverwriteNothing(env, chunks);
    hide Feed, FeedAll, Finish, Most, Books;
    var t := FeedAll(env, chunks);
    FeedAllBooks(env, chunks);
    NothingOverwritten(env, Concat(chunks), t, "");
    FinishOverwrites(env, t);
    CallsDelivered(env, chunks);
  }
}
