/** internal/toolstream/tool_sieve_core.go: the chunk-fed machine that separates text from tool calls. */
module Sieve {
  import opened Text
  import opened Fence
  import opened SieveScan
  import opened SievePieces
  import opened SieveXml

  datatype Event = Content(text: string) | ToolCalls(calls: seq<Call>)

  datatype View = View(pending: string, capture: string, capturing: bool, fences: Fences, calls: seq<Call>)

  /** A run so far: the machine, everything it sent, what became of the input it has dealt with, how
      many finished blocks were overwritten before they were sent, and whether a capture ever opened. */
  datatype Run = Run(view: View, events: seq<Event>, pieces: seq<Piece>, overwritten: nat, everOpened: bool)

  const EMPTY := Run(View("", "", false, START, []), [], [], 0, false)

  // ---- one turn of the loop

  function Said(t: Run, text: string, pieces: seq<Piece>): Run {
    if text == "" then t.(pieces := t.pieces + pieces)
    else t.(view := t.view.(fences := Noted(t.view.fences, text)), events := t.events + [Content(text)],
            pieces := t.pieces + pieces)
  }

  function CallsSent(t: Run): Run {
    if t.view.calls == [] then t
    else t.(view := t.view.(calls := []), events := t.events + [ToolCalls(t.view.calls)])
  }

  /** A capture that is decided: its prefix is sent, its suffix goes back to the pending text. */
  function Resolved(t: Run, s: string, v: Verdict): Run
    requires !v.Undecided? && Fits(s, v)
  {
    var said := Said(t, Prefix(s, v), Pieces(s, v));
    var next := said.view.(pending := Suffix(s, v), capture := "", capturing := false);
    if v.Accepted? then
      said.(view := next.(calls := v.calls), overwritten := said.overwritten + if next.calls != [] then 1 else 0)
    else said.(view := next)
  }

  datatype Turned = Turned(run: Run, again: bool)

  function Size(v: View): nat {
    |v.pending| + |v.capture|
  }

  predicate Smaller(a: View, b: View) {
    Size(a) < Size(b) || (Size(a) == Size(b) && a.capturing && !b.capturing)
  }

  function Turn(env: Env, t: Run): (r: Turned)
    requires EnvOk(env)
    ensures r.again ==> Smaller(r.run.view, t.view)
  {
    var v := t.view;
    if v.capturing then
      var s := v.capture + v.pending;
      var merged := t.(view := v.(pending := "", capture := s));
      var verdict := Consume(env, s);
      if verdict.Undecided? then Turned(merged, false) else Turned(Resolved(merged, s, verdict), true)
    else if v.pending == "" then Turned(t, false)
    else
      var start := env.segmentStart(v.fences, v.pending);
      assert InRange(start, v.pending);
      if start >= 0 then
        var said := Said(t, v.pending[..start], [Kept(v.pending[..start])]);
        Turned(said.(view := said.view.(pending := "", capture := v.capture + v.pending[start..], capturing := true),
                     everOpened := true), true)
      else
        var (safe, hold) := SplitSafe(env, v.fences, v.pending);
        if safe == "" then Turned(t, false)
        else
          var said := Said(t, safe, [Kept(safe)]);
          Turned(said.(view := said.view.(pending := hold)), true)
  }

  function Settle(env: Env, t: Run): Run
    requires EnvOk(env)
    decreases Size(t.view), if t.view.capturing then 0 else 1
  {
    var turned := Turn(env, t);
    if turned.again then Settle(env, turned.run) else turned.run
  }

  function Fed(t: Run, chunk: string): Run {
    CallsSent(t.(view := t.view.(pending := t.view.pending + chunk)))
  }

  /** ProcessChunk */
  function Feed(env: Env, t: Run, chunk: string): Run
    requires EnvOk(env)
  {
    Settle(env, Fed(t, chunk))
  }

  function FeedAll(env: Env, chunks: seq<string>): Run
    requires EnvOk(env)
  {
    if chunks == [] then EMPTY else Feed(env, FeedAll(env, chunks[..|chunks| - 1]), chunks[|chunks| - 1])
  }

  // ---- the end of the stream

  /** The opener that SanitizeLooseCDATA strips: the first one without a close after it, or -1. */
  function LooseOpener(s: string, pos: nat): (r: int)
    ensures r == -1 || pos <= r <= |s| - 9
    decreases |s| - pos
  {
    var start := FindFoldFrom(s, pos, "<![cdata[");
    if start < 0 then -1
    else
      var end := FindFrom(s, start + 9, "]]>");
      if end < 0 then start else LooseOpener(s, end + 3)
  }

  function WithoutOpener(s: string, k: int): string
    requires k == -1 || 0 <= k <= |s| - 9
  {
    if k < 0 then s else s[..k] + s[k + 9..]
  }

  /** Text that never became a call is released, or dropped when it holds a malformed call. */
  function Released(t: Run, content: string): Run {
    if content == "" then t
    else if Malformed(content) then t.(pieces := t.pieces + [Dropped(content, MalformedTail, -1)])
    else Said(t, content, [Kept(content)])
  }

  function Called(t: Run, v: Verdict): Run {
    if v.Accepted? then t.(events := t.events + [ToolCalls(v.calls)]) else t
  }

  /** A capture that is decided at the end: prefix, calls and suffix are all sent. */
  function Ended(t: Run, s: string, v: Verdict, pieces: seq<Piece>): Run
    requires !v.Undecided? && Fits(s, v)
  {
    var said := Said(t, Prefix(s, v), pieces);
    Said(Called(said, v), Suffix(s, v), [])
  }

  function EndPieces(s: string, v: Verdict): seq<Piece>
    requires !v.Undecided? && Fits(s, v)
  {
    Pieces(s, v) + [Kept(Suffix(s, v))]
  }

  function Recovered(s: string): string {
    WithoutOpener(s, LooseOpener(s, 0))
  }

  lemma EndPiecesFlatten(s: string, v: Verdict)
    requires !v.Undecided? && Fits(s, v)
    ensures Flatten(EndPieces(s, v)) == s && Emitted(EndPieces(s, v)) == Prefix(s, v) + Suffix(s, v)
    ensures Batches(EndPieces(s, v)) == if v.Accepted? then [v.calls] else []
  {
    hide Flatten, Emitted, Batches, TrimFence, Pieces, Prefix, Suffix;
    Accounts(s, v);
    One(Kept(Suffix(s, v)));
    Joined(Pieces(s, v), [Kept(Suffix(s, v))]);
  }

  function Salvaged(env: Env, t: Run, s: string): Run {
    var (k, text) := (LooseOpener(s, 0), Recovered(s));
    var v := XmlVerdict(env, text);
    if k >= 0 && v.Accepted? then
      EndPiecesFlatten(text, v);
      Ended(t, text, v, WithOpener(EndPieces(text, v), s[k..k + 9], k))
    else Released(t, s)
  }

  function FlushCapture(env: Env, t: Run): Run {
    var s := t.view.capture;
    var v := Consume(env, s);
    var u := if !v.Undecided? then Ended(t, s, v, EndPieces(s, v)) else Salvaged(env, t, s);
    u.(view := u.view.(capture := "", capturing := false))
  }

  /** Flush */
  function Finish(env: Env, t: Run): Run
    requires EnvOk(env)
  {
    var sent := CallsSent(Feed(env, t, ""));
    var ended := if sent.view.capturing then FlushCapture(env, sent) else sent;
    var u := Released(ended, ended.view.pending);
    u.(view := u.view.(pending := ""))
  }

  // ---- what was sent

  function ContentOf(events: seq<Event>): string {
    if events == [] then ""
    else
      var last := events[|events| - 1];
      ContentOf(events[..|events| - 1]) + (if last.Content? then last.text else "")
  }

  function Texts(events: seq<Event>): seq<string> {
    if events == [] then []
    else
      var last := events[|events| - 1];
      Texts(events[..|events| - 1]) + (if last.Content? then [last.text] else [])
  }

  function Sent(events: seq<Event>): seq<seq<Call>> {
    if events == [] then []
    else
      var last := events[|events| - 1];
      Sent(events[..|events| - 1]) + (if last.ToolCalls? then [last.calls] else [])
  }

  lemma OneMore(events: seq<Event>, e: Event)
    ensures ContentOf(events + [e]) == ContentOf(events) + (if e.Content? then e.text else "")
    ensures Texts(events + [e]) == Texts(events) + (if e.Content? then [e.text] else [])
    ensures Sent(events + [e]) == Sent(events) + (if e.ToolCalls? then [e.calls] else [])
  {
    assert (events + [e])[..|events + [e]| - 1] == events;
  }

  function Waiting(calls: seq<Call>): seq<seq<Call>> {
    if calls == [] then [] else [calls]
  }

  // ---- the books of a run

  predicate OnlyTails(pieces: seq<Piece>) {
    forall i :: 0 <= i < |pieces| ==> pieces[i].Dropped? ==> pieces[i].reason.MalformedTail?
  }

  /** Every dropped piece has its reason, the emitted pieces are the content sent, the fences are those
      of the content sent, and without a capture only malformed tails are dropped. */
  ghost predicate TextBooks(env: Env, t: Run) {
    && AllJustified(env, t.pieces)
    && Emitted(t.pieces) == ContentOf(t.events)
    && t.view.fences == NotedAll(START, Texts(t.events))
    && (t.everOpened || OnlyTails(t.pieces))
  }

  /** The calls sent and waiting are those of the consumed blocks, in order, less the overwritten ones. */
  ghost predicate CallBooks(t: Run) {
    && Subsequence(Sent(t.events) + Waiting(t.view.calls), Batches(t.pieces))
    && |Batches(t.pieces)| == |Sent(t.events)| + |Waiting(t.view.calls)| + t.overwritten
  }

  /** The input is what was dealt with, then what is captured, then what is pending. */
  predicate InputBooks(input: string, t: Run) {
    && Flatten(t.pieces) + (t.view.capture + t.view.pending) == input
    && (t.view.capturing || t.view.capture == "")
    && (t.everOpened || !t.view.capturing)
  }

  ghost predicate Books(env: Env, input: string, t: Run) {
    TextBooks(env, t) && CallBooks(t) && InputBooks(input, t)
  }

  lemma NotedOne(f: Fences, texts: seq<string>, text: string)
    ensures NotedAll(f, texts + [text]) == Noted(NotedAll(f, texts), text)
  {
    assert (texts + [text])[..|texts + [text]| - 1] == texts;
  }

  lemma SaidText(env: Env, t: Run, text: string, pieces: seq<Piece>)
    requires TextBooks(env, t) && AllJustified(env, pieces) && Emitted(pieces) == text
    requires t.everOpened || OnlyTails(pieces)
    ensures TextBooks(env, Said(t, text, pieces))
  {
    hide Emitted, Justified, ContentOf, Texts, NotedAll, Noted;
    Joined(t.pieces, pieces);
    OneMore(t.events, Content(text));
    NotedOne(START, Texts(t.events), text);
    assert Emitted(t.pieces) + "" == Emitted(t.pieces);
  }

  lemma SaidCalls(t: Run, text: string, pieces: seq<Piece>)
    requires CallBooks(t) && Batches(pieces) == []
    ensures CallBooks(Said(t, text, pieces))
  {
    hide Batches, Sent, Subsequence, Noted;
    Joined(t.pieces, pieces);
    OneMore(t.events, Content(text));
    assert Batches(t.pieces) + [] == Batches(t.pieces);
    assert Sent(t.events) + [] == Sent(t.events);
  }

  lemma CallsSentBooks(env: Env, input: string, t: Run)
    requires Books(env, input, t)
    ensures Books(env, input, CallsSent(t))
  {
    hide Emitted, Justified, ContentOf, Texts, NotedAll, Batches, Sent, Subsequence;
    if t.view.calls != [] {
      OneMore(t.events, ToolCalls(t.view.calls));
      assert Sent(t.events) + Waiting(t.view.calls) == Sent(CallsSent(t).events) + [];
      assert ContentOf(t.events) + "" == ContentOf(t.events);
      assert Texts(t.events) + [] == Texts(t.events);
    }
  }

  lemma KeptBooks(env: Env, text: string)
    ensures AllJustified(env, [Kept(text)]) && OnlyTails([Kept(text)])
    ensures Flatten([Kept(text)]) == text && Emitted([Kept(text)]) == text && Batches([Kept(text)]) == []
  {
    One(Kept(text));
  }

  /** One more finished block: it is waiting, and whatever waited before is overwritten. */
  lemma Overwrite(sent: seq<seq<Call>>, before: seq<Call>, calls: seq<Call>, batches: seq<seq<Call>>)
    requires Subsequence(sent + Waiting(before), batches) && calls != []
    ensures Subsequence(sent + Waiting(calls), batches + [calls])
  {
    if before == [] {
      SubsequenceAppend(sent, batches, [calls]) by { assert sent + [] == sent; }
    } else {
      SubsequenceInit(sent, before, batches);
      SubsequenceAppend(sent, batches, [calls]);
    }
  }

  lemma {:induction false} SubsequenceInit<T>(a: seq<T>, x: T, b: seq<T>)
    requires Subsequence(a + [x], b)
    ensures Subsequence(a, b)
    decreases |b|
  {
    var init := b[..|b| - 1];
    if Subsequence(a + [x], init) {
      SubsequenceInit(a, x, init);
    } else {
      assert (a + [x])[..|a + [x]| - 1] == a;
    }
    assert init + [b[|b| - 1]] == b;
    SubsequenceAppend(a, init, [b[|b| - 1]]);
  }

  // ---- every turn keeps the books

  lemma SaidInput(t: Run, text: string, pieces: seq<Piece>, rest: string, whole: string)
    requires Flatten(pieces) + rest == whole
    ensures Flatten(Said(t, text, pieces).pieces) + rest == Flatten(t.pieces) + whole
  {
    hide Flatten;
    JoinedText(t.pieces, pieces);
    assert Flatten(t.pieces) + Flatten(pieces) + rest == Flatten(t.pieces) + (Flatten(pieces) + rest);
  }

  lemma ResolvedCalls(t: Run, s: string, v: Verdict)
    requires CallBooks(t) && !v.Undecided? && Fits(s, v) && (v.Accepted? ==> v.calls != [])
    ensures CallBooks(Resolved(t, s, v))
  {
    hide Batches, Sent, Subsequence, Pieces, Prefix, Suffix, TrimFence, Noted, Flatten, Emitted;
    Accounts(s, v);
    var pieces := Pieces(s, v);
    Joined(t.pieces, pieces);
    OneMore(t.events, Content(Prefix(s, v)));
    assert Sent(t.events) + [] == Sent(t.events);
    if v.Accepted? {
      Overwrite(Sent(t.events), t.view.calls, v.calls, Batches(t.pieces));
    } else {
      assert Batches(t.pieces) + [] == Batches(t.pieces);
    }
  }

  lemma ResolvedText(env: Env, t: Run, s: string, v: Verdict)
    requires TextBooks(env, t) && t.everOpened && !v.Undecided? && VerdictOk(env, s, v)
    ensures TextBooks(env, Resolved(t, s, v))
  {
    VerdictJustified(env, s, v);
    Accounts(s, v);
    hide Emitted, Justified, ContentOf, Texts, NotedAll, Noted, Prefix, Suffix, Pieces, TrimFence, VerdictOk;
    SaidText(env, t, Prefix(s, v), Pieces(s, v));
  }

  lemma CapturedBooks(env: Env, input: string, t: Run)
    requires EnvOk(env) && Books(env, input, t) && t.view.capturing
    ensures Books(env, input, Turn(env, t).run)
  {
    hide Consume, TextBooks, CallBooks, Prefix, Suffix, Pieces, TrimFence, Flatten, Resolved;
    var s := t.view.capture + t.view.pending;
    var merged := t.(view := t.view.(pending := "", capture := s));
    var v := Consume(env, s);
    assert s + "" == s;
    MergedBooks(env, t, merged);
    if !v.Undecided? {
      ConsumeOk(env, s);
      ResolvedText(env, merged, s, v);
      ResolvedCalls(merged, s, v);
      ResolvedInput(merged, s, v);
      assert Flatten(t.pieces) + s == input;
    }
  }

  lemma MergedBooks(env: Env, t: Run, u: Run)
    requires u == t.(view := t.view.(pending := u.view.pending, capture := u.view.capture,
      capturing := u.view.capturing))
    ensures TextBooks(env, t) ==> TextBooks(env, u)
    ensures CallBooks(t) ==> CallBooks(u)
  {
  }

  lemma ResolvedInput(t: Run, s: string, v: Verdict)
    requires !v.Undecided? && Fits(s, v)
    ensures var u := Resolved(t, s, v);
      Flatten(u.pieces) + (u.view.capture + u.view.pending) == Flatten(t.pieces) + s
      && u.view.capture == "" && !u.view.capturing && u.everOpened == t.everOpened
  {
    hide Pieces, Prefix, Suffix, TrimFence, Flatten, Noted;
    Accounts(s, v);
    SaidInput(t, Prefix(s, v), Pieces(s, v), Suffix(s, v), s);
    assert "" + Suffix(s, v) == Suffix(s, v);
  }

  lemma FreeBooks(env: Env, input: string, t: Run)
    requires EnvOk(env) && Books(env, input, t) && !t.view.capturing
    ensures Books(env, input, Turn(env, t).run)
  {
    hide TextBooks, CallBooks, Flatten, Emitted, Batches, Justified, SplitSafe, Noted, Said;
    var pending := t.view.pending;
    if pending != "" {
      var start := env.segmentStart(t.view.fences, pending);
      assert InRange(start, pending);
      var text := if start >= 0 then pending[..start] else SplitSafe(env, t.view.fences, pending).0;
      var rest := if start >= 0 then pending[start..] else SplitSafe(env, t.view.fences, pending).1;
      var said := Said(t, text, [Kept(text)]);
      KeptBooks(env, text);
      SaidText(env, t, text, [Kept(text)]);
      SaidCalls(t, text, [Kept(text)]);
      SaidInput(t, text, [Kept(text)], rest, pending);
      SaidView(t, text, [Kept(text)]);
      assert "" + pending == pending && "" + rest == rest && rest + "" == rest;
      var u := Turn(env, t).run;
      if start >= 0 {
        MovedBooks(env, said, u);
      } else if text != "" {
        MovedBooks(env, said, u);
      }
    }
  }

  lemma SaidView(t: Run, text: string, pieces: seq<Piece>)
    ensures var u := Said(t, text, pieces);
      u.view == t.view.(fences := u.view.fences) && u.everOpened == t.everOpened && u.overwritten == t.overwritten
  {
  }

  lemma MovedBooks(env: Env, t: Run, u: Run)
    requires u == t.(view := t.view.(pending := u.view.pending, capture := u.view.capture,
                                    capturing := u.view.capturing),
                     everOpened := u.everOpened)
    requires t.everOpened ==> u.everOpened
    ensures TextBooks(env, t) ==> TextBooks(env, u)
    ensures CallBooks(t) ==> CallBooks(u)
  {
  }

  lemma {:induction false} SettleBooks(env: Env, input: string, t: Run)
    requires EnvOk(env) && Books(env, input, t)
    ensures Books(env, input, Settle(env, t))
    decreases Size(t.view), if t.view.capturing then 0 else 1
  {
    hide Books, Turn;
    if t.view.capturing {
      CapturedBooks(env, input, t);
    } else {
      FreeBooks(env, input, t);
    }
    var turned := Turn(env, t);
    if turned.again {
      SettleBooks(env, input, turned.run);
    }
  }

  lemma FedBooks(env: Env, input: string, t: Run, chunk: string)
    requires Books(env, input, t)
    ensures Books(env, input + chunk, Fed(t, chunk))
  {
    hide Flatten, TextBooks, CallBooks, CallsSent;
    var fed := t.(view := t.view.(pending := t.view.pending + chunk));
    MovedBooks(env, t, fed);
    assert Flatten(t.pieces) + (t.view.capture + (t.view.pending + chunk))
        == Flatten(t.pieces) + (t.view.capture + t.view.pending) + chunk;
    CallsSentBooks(env, input + chunk, fed);
  }

  lemma FeedBooks(env: Env, input: string, t: Run, chunk: string)
    requires EnvOk(env) && Books(env, input, t)
    ensures Books(env, input + chunk, Feed(env, t, chunk))
  {
    hide Books, Settle, Fed;
    FedBooks(env, input, t, chunk);
    SettleBooks(env, input + chunk, Fed(t, chunk));
  }

  // ---- the end of the stream

  lemma ReleasedBooks(env: Env, input: string, t: Run, content: string, rest: string)
    requires TextBooks(env, t) && CallBooks(t)
    requires Flatten(t.pieces) + (content + rest) == input
    ensures var u := Released(t, content);
      TextBooks(env, u) && CallBooks(u) && Flatten(u.pieces) + rest == input
      && u.view == t.view.(fences := u.view.fences) && u.everOpened == t.everOpened
  {
    hide TextBooks, CallBooks, Flatten, Emitted, Batches, Justified, Noted, Said, Malformed;
    if content == "" {
      assert content + rest == rest;
    } else if Malformed(content) {
      DroppedTail(env, t, content);
      SaidInput(t, "", [Dropped(content, MalformedTail, -1)], rest, content + rest) by {
        One(Dropped(content, MalformedTail, -1));
      }
      SaidNothing(t, [Dropped(content, MalformedTail, -1)]);
    } else {
      KeptBooks(env, content);
      SaidText(env, t, content, [Kept(content)]);
      SaidCalls(t, content, [Kept(content)]);
      SaidInput(t, content, [Kept(content)], rest, content + rest);
      SaidView(t, content, [Kept(content)]);
    }
  }

  lemma SaidNothing(t: Run, pieces: seq<Piece>)
    ensures Said(t, "", pieces) == t.(pieces := t.pieces + pieces)
  {
  }

  lemma DroppedTail(env: Env, t: Run, content: string)
    requires TextBooks(env, t) && CallBooks(t) && Malformed(content)
    ensures var u := t.(pieces := t.pieces + [Dropped(content, MalformedTail, -1)]); TextBooks(env, u) && CallBooks(u)
  {
    var piece := Dropped(content, MalformedTail, -1);
    One(piece);
    TailJustified(env, content);
    hide Malformed, TextBooks, CallBooks, Flatten, Emitted, Batches, Justified;
    SaidText(env, t, "", [piece]);
    SaidCalls(t, "", [piece]);
  }

  lemma TailJustified(env: Env, content: string)
    requires Malformed(content)
    ensures AllJustified(env, [Dropped(content, MalformedTail, -1)]) && OnlyTails([Dropped(content, MalformedTail, -1)])
  {
    hide Malformed;
  }

  ghost predicate FencesTrue(t: Run) {
    t.view.fences == NotedAll(START, Texts(t.events))
  }

  lemma SaidEvents(t: Run, text: string, pieces: seq<Piece>)
    ensures var u := Said(t, text, pieces);
      ContentOf(u.events) == ContentOf(t.events) + text && Sent(u.events) == Sent(t.events)
      && u.pieces == t.pieces + pieces && (FencesTrue(t) ==> FencesTrue(u))
  {
    hide ContentOf, Sent, Texts, NotedAll, Noted;
    OneMore(t.events, Content(text));
    NotedOne(START, Texts(t.events), text);
    assert ContentOf(t.events) + "" == ContentOf(t.events) && Sent(t.events) + [] == Sent(t.events);
  }

  lemma CalledEvents(t: Run, v: Verdict)
    ensures var u := Called(t, v);
      ContentOf(u.events) == ContentOf(t.events) && u == t.(events := u.events) && (FencesTrue(t) ==> FencesTrue(u))
      && Sent(u.events) == Sent(t.events) + (if v.Accepted? then [v.calls] else [])
  {
    hide ContentOf, Sent, Texts, NotedAll;
    OneMore(t.events, ToolCalls(CallsOf(v)));
    assert ContentOf(t.events) + "" == ContentOf(t.events) && Texts(t.events) + [] == Texts(t.events);
    assert Sent(t.events) + [] == Sent(t.events);
  }

  lemma EndedEvents(t: Run, s: string, v: Verdict, pieces: seq<Piece>)
    requires !v.Undecided? && Fits(s, v)
    ensures var u := Ended(t, s, v, pieces);
      && ContentOf(u.events) == ContentOf(t.events) + (Prefix(s, v) + Suffix(s, v))
      && Sent(u.events) == Sent(t.events) + (if v.Accepted? then [v.calls] else [])
      && u.pieces == t.pieces + pieces && (FencesTrue(t) ==> FencesTrue(u))
      && u.view == t.view.(fences := u.view.fences) && u.everOpened == t.everOpened && u.overwritten == t.overwritten
  {
    hide ContentOf, Sent, FencesTrue, Prefix, Suffix, TrimFence, Said, Called;
    var said := Said(t, Prefix(s, v), pieces);
    var called := Called(said, v);
    SaidEvents(t, Prefix(s, v), pieces);
    SaidView(t, Prefix(s, v), pieces);
    CalledEvents(said, v);
    SaidEvents(called, Suffix(s, v), []);
    SaidView(called, Suffix(s, v), []);
    assert t.pieces + pieces + [] == t.pieces + pieces;
    assert ContentOf(t.events) + Prefix(s, v) + Suffix(s, v) == ContentOf(t.events) + (Prefix(s, v) + Suffix(s, v));
  }

  /** Prefix, calls and suffix are sent at once, for pieces that emit just them. */
  lemma EndedText(env: Env, t: Run, s: string, v: Verdict, pieces: seq<Piece>)
    requires TextBooks(env, t) && t.everOpened && !v.Undecided? && Fits(s, v)
    requires AllJustified(env, pieces) && Emitted(pieces) == Prefix(s, v) + Suffix(s, v)
    ensures TextBooks(env, Ended(t, s, v, pieces))
  {
    hide Emitted, Justified, ContentOf, Texts, NotedAll, Prefix, Suffix, Ended;
    EndedEvents(t, s, v, pieces);
    Joined(t.pieces, pieces);
  }

  /** The books of calls when none is waiting. */
  lemma NoneWaiting(t: Run)
    requires t.view.calls == []
    ensures CallBooks(t) <==>
      && Subsequence(Sent(t.events), Batches(t.pieces))
      && |Batches(t.pieces)| == |Sent(t.events)| + t.overwritten
  {
    hide Sent, Batches, Subsequence;
    assert Sent(t.events) + [] == Sent(t.events);
  }

  lemma OneMoreBatch(sent: seq<seq<Call>>, batches: seq<seq<Call>>, calls: seq<Call>)
    requires Subsequence(sent, batches)
    ensures Subsequence(sent + [calls], batches + [calls])
  {
    hide Subsequence;
    SubsequenceAppend(sent, batches, [calls]);
  }

  lemma EndedCalls(t: Run, s: string, v: Verdict, pieces: seq<Piece>)
    requires CallBooks(t) && t.view.calls == [] && !v.Undecided? && Fits(s, v)
    requires Batches(pieces) == if v.Accepted? then [v.calls] else []
    ensures CallBooks(Ended(t, s, v, pieces))
  {
    hide *;
    var u := Ended(t, s, v, pieces);
    EndedEvents(t, s, v, pieces);
    JoinedBatches(t.pieces, pieces);
    NoneWaiting(t);
    NoneWaiting(u);
    if v.Accepted? {
      OneMoreBatch(Sent(t.events), Batches(t.pieces), v.calls);
    } else {
      assert Sent(t.events) + [] == Sent(t.events) && Batches(t.pieces) + [] == Batches(t.pieces);
    }
  }

  lemma DecidedBooks(env: Env, t: Run, s: string, v: Verdict)
    requires TextBooks(env, t) && CallBooks(t) && t.everOpened && t.view.calls == []
    requires !v.Undecided? && VerdictOk(env, s, v)
    ensures var u := Ended(t, s, v, EndPieces(s, v));
      TextBooks(env, u) && CallBooks(u) && Flatten(u.pieces) == Flatten(t.pieces) + s
      && u.view == t.view.(fences := u.view.fences) && u.everOpened
  {
    EndPiecesFlatten(s, v);
    EndPiecesJustified(env, s, v);
    hide TextBooks, CallBooks, Ended, Prefix, Suffix, EndPieces, Flatten, Emitted, Batches, VerdictOk;
    EndedEvents(t, s, v, EndPieces(s, v));
    EndedText(env, t, s, v, EndPieces(s, v));
    EndedCalls(t, s, v, EndPieces(s, v));
    JoinedText(t.pieces, EndPieces(s, v));
  }

  lemma EndPiecesJustified(env: Env, s: string, v: Verdict)
    requires !v.Undecided? && VerdictOk(env, s, v)
    ensures AllJustified(env, EndPieces(s, v)) && Whole(EndPieces(s, v))
  {
    VerdictJustified(env, s, v);
    KeptBooks(env, Suffix(s, v));
    hide Pieces, Suffix, VerdictOk;
  }

  lemma {:induction false} LooseOpenerIs(s: string, pos: nat)
    requires LooseOpener(s, pos) >= 0
    ensures IsOpener(s[LooseOpener(s, pos)..LooseOpener(s, pos) + 9])
    decreases |s| - pos
  {
    var start := FindFoldFrom(s, pos, "<![cdata[");
    if FindFrom(s, start + 9, "]]>") < 0 {
      FoldFound(s, pos, "<![cdata[");
      FoldMeans(s, start, "<![cdata[");
    } else {
      LooseOpenerIs(s, FindFrom(s, start + 9, "]]>") + 3);
    }
  }

  lemma {:induction false} FoldMeans(s: string, i: nat, p: string)
    requires HasFoldAt(s, i, p) && p != ""
    ensures i + |p| <= |s| && Lower(s[i..i + |p|]) == p
    decreases |p|
  {
    if |p| > 1 {
      FoldMeans(s, i + 1, p[1..]);
      assert s[i..i + |p|] == [s[i]] + s[i + 1..i + |p|];
    }
  }

  /** A capture whose loose opener was stripped: the ledger has the opener back. */
  lemma SalvagedBooks(env: Env, t: Run, s: string)
    requires TextBooks(env, t) && CallBooks(t) && t.everOpened && t.view.calls == []
    ensures var u := Salvaged(env, t, s);
      TextBooks(env, u) && CallBooks(u) && Flatten(u.pieces) == Flatten(t.pieces) + s
      && u.view == t.view.(fences := u.view.fences) && u.everOpened
  {
    var (k, text) := (LooseOpener(s, 0), Recovered(s));
    var v := XmlVerdict(env, text);
    if k >= 0 && v.Accepted? {
      ConsumeOk(env, text);
      RecoveredBooks(env, t, s, k, text, v);
    } else {
      hide TextBooks, CallBooks, Flatten, Released;
      assert s + "" == s;
      ReleasedBooks(env, Flatten(t.pieces) + s, t, s, "");
      assert Flatten(Released(t, s).pieces) + "" == Flatten(Released(t, s).pieces);
    }
  }

  lemma OpenerRestored(s: string, k: nat)
    requires k <= |s| - 9
    ensures WithoutOpener(s, k)[..k] + s[k..k + 9] + WithoutOpener(s, k)[k..] == s
  {
    assert WithoutOpener(s, k)[..k] == s[..k] && WithoutOpener(s, k)[k..] == s[k + 9..];
  }

  lemma RecoveredBooks(env: Env, t: Run, s: string, k: nat, text: string, v: Verdict)
    requires TextBooks(env, t) && CallBooks(t) && t.everOpened && t.view.calls == []
    requires k == LooseOpener(s, 0) && text == Recovered(s) && v.Accepted? && Fits(text, v) && VerdictOk(env, text, v)
    ensures |Flatten(EndPieces(text, v))| >= k
    ensures var u := Ended(t, text, v, WithOpener(EndPieces(text, v), s[k..k + 9], k));
      TextBooks(env, u) && CallBooks(u) && Flatten(u.pieces) == Flatten(t.pieces) + s
      && u.view == t.view.(fences := u.view.fences) && u.everOpened
  {
    hide TextBooks, CallBooks, Ended, Prefix, Suffix, EndPieces, Flatten, Emitted, Batches, VerdictOk, WithOpener,
      LooseOpener, AllJustified, Whole, IsOpener;
    var opener := s[k..k + 9];
    assert |text| == |s| - 9;
    EndPiecesFlatten(text, v);
    EndPiecesJustified(env, text, v);
    LooseOpenerIs(s, 0);
    OpenerRestored(s, k);
    var pieces := WithOpener(EndPieces(text, v), opener, k);
    OpenerBack(EndPieces(text, v), opener, k);
    OpenerBackJustified(env, EndPieces(text, v), opener, k);
    EndedEvents(t, text, v, pieces);
    EndedText(env, t, text, v, pieces);
    EndedCalls(t, text, v, pieces);
    JoinedText(t.pieces, pieces);
  }

  lemma FlushCaptureBooks(env: Env, input: string, t: Run)
    requires Books(env, input, t) && t.view.capturing && t.view.calls == []
    ensures var u := FlushCapture(env, t); Books(env, input, u) && !u.view.capturing && u.view.calls == []
  {
    hide TextBooks, CallBooks, Ended, Salvaged, Flatten, EndPieces, VerdictOk;
    var s := t.view.capture;
    ConsumeOk(env, s);
    var v := Consume(env, s);
    if v.Undecided? {
      SalvagedBooks(env, t, s);
    } else {
      DecidedBooks(env, t, s, v);
    }
    var u := if !v.Undecided? then Ended(t, s, v, EndPieces(s, v)) else Salvaged(env, t, s);
    assert Flatten(t.pieces) + (s + t.view.pending) == Flatten(t.pieces) + s + t.view.pending;
    assert "" + t.view.pending == t.view.pending;
    MovedBooks(env, u, FlushCapture(env, t));
  }

  lemma FlushBooks(env: Env, input: string, t: Run)
    requires EnvOk(env) && Books(env, input, t)
    ensures var u := Finish(env, t);
      Books(env, input, u) && u.view.pending == "" && u.view.capture == "" && !u.view.capturing && u.view.calls == []
  {
    hide TextBooks, CallBooks, Flatten, Feed, FlushCapture, Released;
    assert input + "" == input;
    FeedBooks(env, input, t, "");
    var fed := Feed(env, t, "");
    CallsSentBooks(env, input, fed);
    var sent := CallsSent(fed);
    if sent.view.capturing {
      FlushCaptureBooks(env, input, sent);
    }
    var ended := if sent.view.capturing then FlushCapture(env, sent) else sent;
    var pending := ended.view.pending;
    assert "" + pending == pending && pending + "" == pending;
    ReleasedBooks(env, input, ended, pending, "");
    var u := Released(ended, pending);
    MovedBooks(env, u, Finish(env, t));
    assert Flatten(u.pieces) + ("" + "") == Flatten(u.pieces) + "";
  }

  // ---- whole runs

  lemma {:induction false} FeedAllBooks(env: Env, chunks: seq<string>)
    requires EnvOk(env)
    ensures Books(env, Concat(chunks), FeedAll(env, chunks))
  {
    if chunks != [] {
      FeedAllBooks(env, chunks[..|chunks| - 1]);
      FeedBooks(env, Concat(chunks[..|chunks| - 1]), FeedAll(env, chunks[..|chunks| - 1]), chunks[|chunks| - 1]);
    }
  }

  function WholeRun(env: Env, chunks: seq<string>): Run
    requires EnvOk(env)
  {
    Finish(env, FeedAll(env, chunks))
  }

  /** However the input is cut into chunks, after Flush every piece of it was sent as text in order or
      was dropped for a stated reason, and both buffers are empty. */
  lemma InputAccounted(env: Env, chunks: seq<string>)
    requires EnvOk(env)
    ensures var t := WholeRun(env, chunks);
      && t.view.pending == "" && t.view.capture == "" && !t.view.capturing
      && Flatten(t.pieces) == Concat(chunks)
      && Emitted(t.pieces) == ContentOf(t.events)
      && AllJustified(env, t.pieces)
      && Subsequence(ContentOf(t.events), Concat(chunks))
  {
    FeedAllBooks(env, chunks);
    FlushBooks(env, Concat(chunks), FeedAll(env, chunks));
    var t := WholeRun(env, chunks);
    assert Flatten(t.pieces) + ("" + "") == Flatten(t.pieces);
    EmittedInOrder(t.pieces);
  }

  predicate TailDropped(pieces: seq<Piece>) {
    exists i :: 0 <= i < |pieces| && pieces[i].Dropped? && pieces[i].reason.MalformedTail?
  }

  /** Text without a capture and without a malformed tail comes through unchanged. */
  lemma PlainTextUnchanged(env: Env, chunks: seq<string>)
    requires EnvOk(env)
    ensures var t := WholeRun(env, chunks);
      !t.everOpened && !TailDropped(t.pieces) ==> ContentOf(t.events) == Concat(chunks)
  {
    FeedAllBooks(env, chunks);
    FlushBooks(env, Concat(chunks), FeedAll(env, chunks));
    var t := WholeRun(env, chunks);
    assert Flatten(t.pieces) + ("" + "") == Flatten(t.pieces);
    NothingDropped(t.pieces);
  }

  /** The call events carry the calls of the finished blocks in order, and all of them exactly when no
      chunk finished a second block while the first was still waiting to be sent. */
  lemma CallsDelivered(env: Env, chunks: seq<string>)
    requires EnvOk(env)
    ensures var t := WholeRun(env, chunks);
      && t.view.calls == []
      && Subsequence(Sent(t.events), Batches(t.pieces))
      && |Batches(t.pieces)| == |Sent(t.events)| + t.overwritten
      && (Sent(t.events) == Batches(t.pieces) <==> t.overwritten == 0)
  {
    FeedAllBooks(env, chunks);
    FlushBooks(env, Concat(chunks), FeedAll(env, chunks));
    var t := WholeRun(env, chunks);
    assert Sent(t.events) + [] == Sent(t.events);
    SubsequenceLength(Sent(t.events), Batches(t.pieces));
  }

  lemma SaidSent(t: Run, text: string, pieces: seq<Piece>)
    ensures var u := Said(t, text, pieces);
      Sent(u.events) == Sent(t.events) && u.view.calls == t.view.calls && u.overwritten == t.overwritten
  {
    hide Sent, Noted;
    OneMore(t.events, Content(text));
    assert Sent(t.events) + [] == Sent(t.events);
  }

  /** A turn sends no calls; it overwrites calls only by putting others in their place. */
  lemma TurnSends(env: Env, t: Run)
    requires EnvOk(env)
    ensures var u := Turn(env, t).run;
      && Sent(u.events) == Sent(t.events) && u.overwritten >= t.overwritten
      && (t.view.calls != [] || u.overwritten > t.overwritten ==> u.view.calls != [])
  {
    hide Sent, Said, Consume, TrimFence, Prefix, Suffix, Pieces, VerdictOk;
    var v := t.view;
    if v.capturing {
      var s := v.capture + v.pending;
      var merged := t.(view := v.(pending := "", capture := s));
      var verdict := Consume(env, s);
      if !verdict.Undecided? {
        SaidSent(merged, Prefix(s, verdict), Pieces(s, verdict));
        SaidView(merged, Prefix(s, verdict), Pieces(s, verdict));
        AcceptedHasCalls(env, s);
      }
    } else if v.pending != "" {
      var start := env.segmentStart(v.fences, v.pending);
      assert InRange(start, v.pending);
      var text := if start >= 0 then v.pending[..start] else SplitSafe(env, v.fences, v.pending).0;
      SaidSent(t, text, [Kept(text)]);
      SaidView(t, text, [Kept(text)]);
    }
  }

  lemma AcceptedHasCalls(env: Env, s: string)
    ensures Consume(env, s).Accepted? ==> Consume(env, s).calls != []
  {
    ConsumeOk(env, s);
    hide Consume;
  }

  lemma {:induction false} SettleSends(env: Env, t: Run)
    requires EnvOk(env)
    ensures var u := Settle(env, t);
      && Sent(u.events) == Sent(t.events) && u.overwritten >= t.overwritten
      && (t.view.calls != [] || u.overwritten > t.overwritten ==> u.view.calls != [])
    decreases Size(t.view), if t.view.capturing then 0 else 1
  {
    hide Turn, Sent;
    TurnSends(env, t);
    if Turn(env, t).again {
      SettleSends(env, Turn(env, t).run);
    }
  }

  /** A chunk overwrites calls exactly when it finishes more than one block. */
  lemma OverwritesExactly(env: Env, input: string, t: Run, chunk: string)
    requires EnvOk(env) && Books(env, input, t)
    ensures var u := Feed(env, t, chunk);
      u.overwritten > t.overwritten <==> |Batches(u.pieces)| > |Batches(t.pieces)| + 1
  {
    FeedBooks(env, input, t, chunk);
    SettleSends(env, Fed(t, chunk));
    hide Settle, TextBooks, InputBooks, Subsequence, Batches, Sent;
    OneMore(t.events, ToolCalls(t.view.calls));
  }

  /** The carried fence state is that of the texts sent so far; where every blank text that was skipped is
      inert, it is the state of the content sent, however that was cut into pieces. */
  lemma FencesFollowContent(env: Env, chunks: seq<string>)
    requires EnvOk(env)
    ensures var t := FeedAll(env, chunks);
      && t.view.fences == NotedAll(START, Texts(t.events)) && Reachable(t.view.fences)
      && (SkipsAreInert(START, Texts(t.events)) ==> t.view.fences == After(START, ContentOf(t.events)))
  {
    hide FeedAll, Books, NotedAll, After, Texts, ContentOf, SkipsAreInert;
    var t := FeedAll(env, chunks);
    FeedAllBooks(env, chunks);
    BooksFences(env, Concat(chunks), t);
    NotedReachable(START, Texts(t.events));
    TextsJoin(t.events);
    if SkipsAreInert(START, Texts(t.events)) {
      AgreesAtEnd(START, Texts(t.events));
    }
  }

  lemma BooksFences(env: Env, input: string, t: Run)
    requires Books(env, input, t)
    ensures t.view.fences == NotedAll(START, Texts(t.events))
  {
    hide CallBooks, InputBooks;
  }

  lemma {:induction false} TextsJoin(events: seq<Event>)
    ensures Concat(Texts(events)) == ContentOf(events)
  {
    if events != [] {
      var init, last := events[..|events| - 1], events[|events| - 1];
      TextsJoin(init);
      assert Texts(init) + [] == Texts(init) && ContentOf(init) + "" == ContentOf(init);
      if last.Content? {
        ConcatAppend(Texts(init), [last.text]);
        assert [last.text][..0] == [];
      }
    }
  }

  // ---- the machine

  /** SanitizeLooseCDATA */
  method SanitizeLooseCdata(text: string) returns (r: string)
    ensures r == Recovered(text)
  {
    hide Lower, HasAt, HasFoldAt;
    var pos, built, changed := 0, "", false;
    while pos < |text|
      invariant pos <= |text| && built == text[..pos] && LooseOpener(text, pos) == LooseOpener(text, 0)
    {
      var start := FindFoldFrom(text, pos, "<![cdata[");
      if start < 0 {
        return built + text[pos..];
      }
      var end := FindFrom(text, start + 9, "]]>");
      if end < 0 {
        return built + text[pos..start] + text[start + 9..];
      }
      built := built + text[pos..start] + text[start..end + 3];
      pos := end + 3;
    }
    return built;
  }

  class State {
    var pending: string
    var capture: string
    var capturing: bool
    var fences: Fences
    var pendingToolCalls: seq<Call>
    /** Everything since the machine was made. */
    ghost var run: Run

    ghost predicate Valid()
      reads this
    {
      run.view == View(pending, capture, capturing, fences, pendingToolCalls)
    }

    constructor ()
      ensures Valid() && run == EMPTY
    {
      pending, capture, capturing, fences, pendingToolCalls := "", "", false, START, [];
      run := EMPTY;
    }

    /** noteText and a content event, unless the text is empty. */
    method Say(text: string, ghost pieces: seq<Piece>) returns (events: seq<Event>)
      requires Valid()
      modifies this`fences, this`run
      ensures Valid() && run == Said(old(run), text, pieces) && run.events == old(run.events) + events
    {
      events := [];
      if text != "" {
        fences := Noted(fences, text);
        events := [Content(text)];
      }
      run := Said(run, text, pieces);
    }

    method SendCalls() returns (events: seq<Event>)
      requires Valid()
      modifies this`pendingToolCalls, this`run
      ensures Valid() && run == CallsSent(old(run)) && run.events == old(run.events) + events
    {
      events := [];
      if pendingToolCalls != [] {
        events := [ToolCalls(pendingToolCalls)];
        pendingToolCalls := [];
      }
      run := CallsSent(run);
    }

    /** The loop body of ProcessChunk while capturing. */
    method TryCapture(env: Env) returns (events: seq<Event>, again: bool)
      requires Valid() && EnvOk(env) && capturing
      modifies this
      ensures Valid() && Turned(run, again) == Turn(env, old(run)) && run.events == old(run.events) + events
    {
      hide Consume, TrimFence, Prefix, Suffix, Pieces, Said;
      events := [];
      ghost var before := run;
      if |pending| > 0 {
        capture := capture + pending;
        pending := "";
      }
      assert before.view.capture + before.view.pending == capture;
      run := run.(view := View(pending, capture, capturing, fences, pendingToolCalls));
      var captured := capture;
      ghost var verdict := Consume(env, captured);
      var prefix, calls, suffix, ready := ConsumeToolCapture(env, captured);
      if !ready {
        return [], false;
      }
      ghost var merged := run;
      SaidView(merged, prefix, Pieces(captured, verdict));
      events := Say(prefix, Pieces(captured, verdict));
      capture, capturing := "", false;
      pending := suffix;
      ConsumeOk(env, captured);
      if |calls| > 0 {
        pendingToolCalls := calls;
      }
      run := Resolved(merged, captured, verdict);
      again := true;
    }

    /** The loop body of ProcessChunk outside a capture. */
    method TryRelease(env: Env) returns (events: seq<Event>, again: bool)
      requires Valid() && EnvOk(env) && !capturing
      modifies this
      ensures Valid() && Turned(run, again) == Turn(env, old(run)) && run.events == old(run.events) + events
    {
      hide Said;
      events := [];
      if pending == "" {
        return [], false;
      }
      var start := env.segmentStart(fences, pending);
      assert InRange(start, pending);
      if start >= 0 {
        var text := pending[..start];
        SaidView(run, text, [Kept(text)]);
        events := Say(text, [Kept(text)]);
        capture := capture + pending[start..];
        pending, capturing := "", true;
        run := run.(view := View(pending, capture, capturing, fences, pendingToolCalls), everOpened := true);
        return events, true;
      }
      var parts := SplitSafe(env, fences, pending);
      if parts.0 == "" {
        return [], false;
      }
      SaidView(run, parts.0, [Kept(parts.0)]);
      events := Say(parts.0, [Kept(parts.0)]);
      pending := parts.1;
      run := run.(view := run.view.(pending := pending));
      again := true;
    }

    method ProcessChunk(env: Env, chunk: string) returns (events: seq<Event>)
      requires Valid() && EnvOk(env)
      modifies this
      ensures Valid() && run == Feed(env, old(run), chunk) && run.events == old(run.events) + events
    {
      hide Turn, CallsSent;
      pending := pending + chunk;
      run := run.(view := run.view.(pending := pending));
      events := SendCalls();
      ghost var goal := Settle(env, run);
      var again := true;
      while again
        invariant Valid() && run.events == old(run.events) + events
        invariant if again then Settle(env, run) == goal else run == goal
        decreases again, Size(run.view), if run.view.capturing then 0 else 1
      {
        var more;
        if capturing {
          more, again := TryCapture(env);
        } else {
          more, again := TryRelease(env);
        }
        events := events + more;
      }
    }

    /** Release or drop what never became a call. */
    method Release(content: string) returns (events: seq<Event>)
      requires Valid()
      modifies this`fences, this`run
      ensures Valid() && run == Released(old(run), content) && run.events == old(run.events) + events
    {
      hide Said, Malformed;
      events := [];
      if content != "" {
        if !Malformed(content) {
          events := Say(content, [Kept(content)]);
        } else {
          run := run.(pieces := run.pieces + [Dropped(content, MalformedTail, -1)]);
        }
      }
    }

    /** Send prefix, calls and suffix of a capture that is decided at the end. */
    method End(prefix: string, calls: seq<Call>, suffix: string, ghost s: string, ghost v: Verdict,
      ghost pieces: seq<Piece>)
      returns (events: seq<Event>)
      requires Valid() && !v.Undecided? && Fits(s, v) && (v.Accepted? ==> v.calls != [])
      requires prefix == Prefix(s, v) && calls == CallsOf(v) && suffix == Suffix(s, v)
      modifies this`fences, this`run
      ensures Valid() && run == Ended(old(run), s, v, pieces) && run.events == old(run.events) + events
    {
      hide Said, Prefix, Suffix;
      SaidView(run, prefix, pieces);
      events := Say(prefix, pieces);
      if |calls| > 0 {
        events := events + [ToolCalls(calls)];
      }
      run := Called(run, v);
      SaidView(run, suffix, []);
      var more := Say(suffix, []);
      events := events + more;
    }

    /** The part of Flush for a capture that is still open. */
    method EndCapture(env: Env) returns (events: seq<Event>)
      requires Valid() && capturing
      modifies this
      ensures Valid() && run == FlushCapture(env, old(run)) && run.events == old(run.events) + events
    {
      hide Consume, XmlVerdict, Prefix, Suffix, EndPieces, Ended, Released, Flatten, WithOpener;
      ghost var before := run;
      ghost var v := Consume(env, capture);
      ConsumeOk(env, capture);
      var prefix, calls, suffix, ready := ConsumeToolCapture(env, capture);
      if ready {
        EndedEvents(run, capture, v, EndPieces(capture, v));
        events := End(prefix, calls, suffix, capture, v, EndPieces(capture, v));
      } else {
        events := Salvage(env);
      }
      capture, capturing := "", false;
      run := run.(view := run.view.(capture := "", capturing := false));
    }

    method Salvage(env: Env) returns (events: seq<Event>)
      requires Valid()
      modifies this`fences, this`run
      ensures Valid() && run == Salvaged(env, old(run), capture) && run.events == old(run.events) + events
    {
      hide XmlVerdict, Prefix, Suffix, EndPieces, Ended, Released, Flatten, WithOpener, LooseOpener;
      var content := capture;
      var recovered := SanitizeLooseCdata(content);
      if recovered != content {
        var prefix, calls, suffix, ready := ConsumeXmlToolCapture(env, recovered);
        ghost var v := XmlVerdict(env, recovered);
        if ready && |calls| > 0 {
          EndPiecesFlatten(recovered, v);
          ghost var k := LooseOpener(content, 0);
          events := End(prefix, calls, suffix, recovered, v, WithOpener(EndPieces(recovered, v), content[k..k + 9], k));
        } else {
          ConsumeOk(env, recovered);
          events := Release(content);
        }
      } else {
        assert LooseOpener(content, 0) < 0;
        events := Release(content);
      }
    }

    method Flush(env: Env) returns (events: seq<Event>)
      requires Valid() && EnvOk(env)
      modifies this
      ensures Valid() && run == Finish(env, old(run)) && run.events == old(run.events) + events
      ensures pending == ""
    {
      hide Feed, FlushCapture, Released;
      events := ProcessChunk(env, "");
      var more := SendCalls();
      events := events + more;
      if capturing {
        more := EndCapture(env);
        events := events + more;
      }
      more := Release(pending);
      events := events + more;
      pending := "";
      run := run.(view := run.view.(pending := ""));
    }
  }
}
