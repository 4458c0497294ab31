/** Ordinary text passes the sieve at once. */
module SievePlain {
  import opened Options
  import opened Text
  import opened Fence
  import opened SieveScan
  import opened SievePieces
  import opened SieveXml
  import opened Sieve
  import opened SieveTwoBlocks
  import opened SievePieceByPiece
  import opened SieveFencePieces
  import M = Markup

  /** Text without angle brackets, fence marks, or anything that could begin the MiniMax marker. */
  predicate Ordinary(s: string) {
    && (forall i :: 0 <= i < |s| ==> s[i] != '<' && s[i] != '`' && s[i] != '~')
    && (forall i :: 0 <= i < |s| ==> !HasFoldAt(s, i, "mini"))
  }

  // ---- nothing starts in it

  lemma MarkerBeginsMini(s: string, i: nat)
    requires HasFoldAt(s, i, MINIMAX)
    ensures i < |s| && HasFoldAt(s, i, "mini")
  {
    assert "mini" + "maxtool_call" == MINIMAX;
    FoldBeginning(s, i, "mini", "maxtool_call");
  }

  lemma {:induction false} FoldBeginning(s: string, i: nat, a: string, b: string)
    requires HasFoldAt(s, i, a + b)
    ensures HasFoldAt(s, i, a)
    decreases |a|
  {
    if a != "" {
      assert (a + b)[1..] == a[1..] + b;
      FoldBeginning(s, i + 1, a[1..], b);
    }
  }

  lemma NoMarkerStart(f: Fences, s: string)
    requires Ordinary(s)
    ensures MinimaxStart(f, s, 0) == -1
  {
    var i := FindFoldFrom(s, 0, MINIMAX);
    if i >= 0 {
      FoldFound(s, 0, MINIMAX);
      MarkerBeginsMini(s, i);
      assert false;
    }
  }

  lemma NoShellLine(line: string)
    requires forall i :: 0 <= i < |line| ==> line[i] != '`' && line[i] != '~'
    ensures !IsShellFenceOpen(line)
  {
    var trimmed := TrimLeft(line, " \t");
    if trimmed != "" {
      assert trimmed[0] == line[|line| - |trimmed|];
    }
    hide TrimLeft;
  }

  lemma {:induction false} NoShellStart(f: Fences, s: string, i: nat)
    requires forall k :: 0 <= k < |s| ==> s[k] != '`' && s[k] != '~'
    ensures ShellFenceStart(f, s, i) == -1
    decreases |s| - i
  {
    hide IsShellFenceOpen, Inside, LineEnd;
    if i < |s| {
      var end := LineEnd(s, i);
      NoShellLine(s[i..end]);
      if end < |s| {
        NoShellStart(f, s, if end + 1 < |s| && s[end] == '\r' && s[end + 1] == '\n' then end + 2 else end + 1);
      }
    }
  }

  lemma {:induction false} NoBracketName(tools: Tools, f: Fences, s: string, i: nat)
    requires forall k :: 0 <= k < |s| ==> s[k] != '<'
    ensures BareNameStart(tools, f, s, i) == -1
    decreases |s| - i
  {
    hide Inside, NameEnd, FindFrom;
    if i < |s| {
      NoBracketName(tools, f, s, i + 1);
    }
  }

  lemma NothingStarts(tools: Tools, f: Fences, s: string)
    requires Ordinary(s)
    ensures SegmentStart(tools, f, s) == -1
  {
    NoMarkerStart(f, s);
    NoShellStart(f, s, 0);
    NoTags(s);
    NoBracketName(tools, f, s, 0);
    hide MinimaxStart, ShellFenceStart, M.FindTag, BareNameStart, Ordinary;
    assert TagStart(f, s, 0) == -1;
  }

  // ---- nothing is held back

  lemma {:induction false} LowerMini(s: string, i: nat, p: string, q: string)
    requires i + |p| <= |s| && |q| >= |p| && p + q[|p|..] == q
    requires HasAt(q, 0, Lower(s[i..]))
    requires |p| <= |s| - i
    ensures HasFoldAt(s, i, p)
  {
    LowerFold(s, i, q, 0, |p|);
    assert q[0..|p|] == p;
  }

  lemma {:induction false} LowerFold(s: string, i: nat, q: string, j: nat, n: nat)
    requires i + n <= |s| && j + n <= |q| && HasAt(q, j, Lower(s[i..]))
    ensures HasFoldAt(s, i, q[j..j + n])
    decreases n
  {
    if n > 0 {
      var lower := Lower(s[i..]);
      assert lower[0] == LowerChar(s[i]) && q[j] == lower[0];
      assert lower[1..] == Lower(s[i + 1..]);
      LowerFold(s, i + 1, q, j + 1, n - 1);
      assert q[j..j + n][1..] == q[j + 1..j + n] && q[j..j + n][0] == q[j];
    }
  }

  lemma {:induction false} NoPartialMini(s: string, n: nat)
    requires n <= |s| && Ordinary(s)
    ensures PartialMinimaxStart(s, n) == -1
  {
    if n >= 4 {
      var start := |s| - n;
      if HasAt(MINIMAX, 0, Lower(s[start..])) {
        assert "mini" + MINIMAX[4..] == MINIMAX;
        LowerMini(s, start, "mini", MINIMAX);
        assert false;
      }
      hide Ordinary;
      NoPartialMini(s, n - 1);
    }
  }

  lemma {:induction false} NoFenceBegins(lower: string, languages: seq<string>)
    requires lower != "" && lower[0] != '`' && lower[0] != '~'
    ensures !StartsShellFence(lower, languages)
  {
    if languages != [] {
      assert ("```" + languages[0])[0] == '`' && ("~~~" + languages[0])[0] == '~';
      assert !HasAt("```" + languages[0], 0, lower) && !HasAt("~~~" + languages[0], 0, lower);
      NoFenceBegins(lower, languages[1..]);
    }
  }

  lemma NoPartialFence(s: string)
    requires forall k :: 0 <= k < |s| ==> s[k] != '`' && s[k] != '~'
    ensures PartialShellStart(s) == -1
  {
    var line := s[LineStart(s, |s|)..];
    var trimmed := TrimLeft(line, " \t");
    if trimmed != "" {
      assert trimmed[0] == line[|line| - |trimmed|];
      assert trimmed[0] != '`' && trimmed[0] != '~';
      hide TrimLeft, LineStart;
      assert Lower(trimmed)[0] == LowerChar(trimmed[0]);
      NoFenceBegins(Lower(trimmed),
        ["powershell", "pwsh", "ps1", "shell", "bash", "sh", "zsh", "cmd", "bat", "terminal"]);
    }
  }

  lemma NoPartialTag(tools: Tools, s: string)
    requires forall k :: 0 <= k < |s| ==> s[k] != '<'
    ensures PartialTagStart(s) == -1 && PartialBareStart(tools, s) == -1
  {
    NoAngle(s, |s| - 1);
    hide FindLast, IsPartialTag, NameEnd, DuplicateStart, FindFrom;
    assert OpenAngle(s) == -1;
    hide OpenAngle;
  }

  lemma NothingHeld(tools: Tools, s: string)
    requires Ordinary(s)
    ensures HoldStart(tools, s) == -1
  {
    NoPartialMini(s, if |s| < |MINIMAX| - 1 then |s| else |MINIMAX| - 1);
    NoPartialFence(s);
    NoPartialTag(tools, s);
    hide PartialMinimaxStart, PartialShellStart, PartialTagStart, PartialBareStart, Ordinary;
  }

  // ---- the run

  function Contents(chunks: seq<string>): seq<Event> {
    if chunks == [] then []
    else
      Contents(chunks[..|chunks| - 1])
      + (if chunks[|chunks| - 1] == "" then [] else [Content(chunks[|chunks| - 1])])
  }

  ghost predicate Idle(t: Run) {
    !t.view.capturing && t.view.pending == "" && t.view.capture == "" && t.view.calls == []
  }

  lemma ChunkPasses(parse: string -> Parsed, tools: Tools, t: Run, chunk: string)
    requires Idle(t) && Ordinary(chunk)
    ensures EnvOk(Standard(parse, tools))
    ensures var u := Feed(Standard(parse, tools), t, chunk);
      Idle(u) && u.events == t.events + (if chunk == "" then [] else [Content(chunk)])
  {
    var env := Standard(parse, tools);
    StandardOk(parse, tools);
    StandardIs(parse, tools, t.view.fences, chunk);
    NothingStarts(tools, t.view.fences, chunk);
    NothingHeld(tools, chunk);
    hide Standard, Ordinary;
    assert "" + chunk == chunk;
    var fed := Fed(t, chunk);
    if chunk == "" {
      Rests(env, fed);
    } else {
      Passes(env, fed);
      var u := Turn(env, fed).run;
      hide Turn;
      Rests(env, u);
    }
  }

  lemma Passes(env: Env, t: Run)
    requires EnvOk(env) && Idle(t.(view := t.view.(pending := ""))) && t.view.pending != ""
    requires env.segmentStart(t.view.fences, t.view.pending) == -1 && env.holdStart(t.view.pending) == -1
    ensures var u := Turn(env, t).run;
      Settle(env, t) == Settle(env, u) && Idle(u) && u.events == t.events + [Content(t.view.pending)]
  {
    assert SplitSafe(env, t.view.fences, t.view.pending) == (t.view.pending, "");
    assert Turn(env, t).again;
    hide Turn;
  }

  lemma {:induction false} ChunksPass(parse: string -> Parsed, tools: Tools, chunks: seq<string>)
    requires forall k :: 0 <= k < |chunks| ==> Ordinary(chunks[k])
    ensures EnvOk(Standard(parse, tools))
    ensures var t := FeedAll(Standard(parse, tools), chunks); Idle(t) && t.events == Contents(chunks)
  {
    StandardOk(parse, tools);
    hide Ordinary, Feed, Standard;
    if chunks != [] {
      var init := chunks[..|chunks| - 1];
      ChunksPass(parse, tools, init);
      ChunkPasses(parse, tools, FeedAll(Standard(parse, tools), init), chunks[|chunks| - 1]);
    }
  }

  /** Ordinary chunks are each sent as they arrive, unchanged, and nothing else is sent. */
  lemma OrdinaryTextAtOnce(parse: string -> Parsed, tools: Tools, chunks: seq<string>)
    requires forall k :: 0 <= k < |chunks| ==> Ordinary(chunks[k])
    ensures EnvOk(Standard(parse, tools))
    ensures FeedAll(Standard(parse, tools), chunks).events == Contents(chunks)
    ensures WholeRun(Standard(parse, tools), chunks).events == Contents(chunks)
  {
    hide *;
    ChunksPass(parse, tools, chunks);
    NothingLeft(Standard(parse, tools), chunks);
  }

  lemma NothingLeft(env: Env, chunks: seq<string>)
    requires EnvOk(env) && Idle(FeedAll(env, chunks))
    ensures WholeRun(env, chunks).events == FeedAll(env, chunks).events
  {
    var t := FeedAll(env, chunks);
    hide FeedAll, Settle;
    assert "" + "" == "";
    Rests(env, Fed(t, ""));
  }
}
