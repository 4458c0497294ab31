/** One block that arrives in pieces: however it is cut, no text is sent and its calls are sent once. */
module SieveCuts {
  import opened Options
  import opened Text
  import opened Fence
  import opened SieveScan
  import opened SievePieces
  import opened SieveXml
  import opened Sieve
  import opened SieveTwoBlocks

  // ---- what the detectors must find

  /** The detectors see this text through: its first few characters are held back, from the m-th on a capture starts
      at its beginning, no capture of a proper beginning is decided, and the whole is accepted with these calls. */
  ghost predicate SeenThrough(env: Env, whole: string, m: nat, calls: seq<Call>) {
    && EnvOk(env) && 0 < m <= |whole| && calls != []
    && (forall n :: 0 < n < m ==> env.segmentStart(START, whole[..n]) == -1 && env.holdStart(whole[..n]) == 0)
    && (forall n :: m <= n <= |whole| ==> env.segmentStart(START, whole[..n]) == 0)
    && (forall n :: m <= n < |whole| ==> Consume(env, whole[..n]) == Undecided)
    && Consume(env, whole) == Accepted(0, |whole|, calls)
  }

  lemma SeenIf(env: Env, whole: string, m: nat, calls: seq<Call>)
    requires EnvOk(env) && 0 < m <= |whole| && calls != [] && Consume(env, whole) == Accepted(0, |whole|, calls)
    requires forall n :: 0 < n < m ==> env.segmentStart(START, whole[..n]) == -1 && env.holdStart(whole[..n]) == 0
    requires forall n :: m <= n < |whole| ==>
      env.segmentStart(START, whole[..n]) == 0 && Consume(env, whole[..n]) == Undecided
    requires env.segmentStart(START, whole) == 0
    ensures SeenThrough(env, whole, m, calls)
  {
    hide Consume, EnvOk;
    assert whole[..|whole|] == whole;
  }

  /** After the first n characters: held back, captured, or decided. */
  ghost predicate SoFar(t: Run, whole: string, m: nat, calls: seq<Call>, n: nat)
    requires n <= |whole|
  {
    && t.view.fences == START
    && if n < |whole| then
         && t.events == [] && t.view.calls == [] && t.view.capturing == (n >= m)
         && t.view.pending == (if n < m then whole[..n] else "")
         && t.view.capture == (if n < m then "" else whole[..n])
       else
         && !t.view.capturing && t.view.pending == "" && t.view.capture == ""
         && ((t.events == [] && t.view.calls == calls) || (t.events == [ToolCalls(calls)] && t.view.calls == []))
  }

  // ---- the turns

  /** Nothing can be released yet. */
  lemma Holds(env: Env, t: Run)
    requires EnvOk(env) && !t.view.capturing && t.view.fences == START && t.view.pending != ""
    requires env.segmentStart(START, t.view.pending) == -1 && env.holdStart(t.view.pending) == 0
    ensures Settle(env, t) == t
  {
    assert t.view.pending[..0] == "" && !Inside(START, "");
    assert SplitSafe(env, START, t.view.pending).0 == "";
    assert Turn(env, t) == Turned(t, false);
    hide Turn;
  }

  lemma Starts(env: Env, t: Run)
    requires EnvOk(env) && !t.view.capturing && t.view.capture == "" && t.view.fences == START && t.view.pending != ""
    requires env.segmentStart(START, t.view.pending) == 0
    ensures var u := Turn(env, t).run;
      && Settle(env, t) == Settle(env, u) && u.events == t.events
      && u.view == t.view.(pending := "", capture := t.view.pending, capturing := true)
  {
    var pending := t.view.pending;
    assert pending[..0] == "" && "" + pending[0..] == pending;
    assert Turn(env, t).again;
    hide Turn;
  }

  lemma Keeps(env: Env, t: Run)
    requires EnvOk(env) && t.view.capturing && Consume(env, t.view.capture + t.view.pending).Undecided?
    ensures Settle(env, t) == t.(view := t.view.(pending := "", capture := t.view.capture + t.view.pending))
  {
    hide Consume;
    assert !Turn(env, t).again;
    hide Turn;
  }

  lemma Decides(env: Env, t: Run, calls: seq<Call>)
    requires EnvOk(env) && t.view.capturing && t.view.calls == []
    requires var s := t.view.capture + t.view.pending; Consume(env, s) == Accepted(0, |s|, calls)
    ensures Settle(env, t).events == t.events
    ensures Settle(env, t).view == View("", "", false, t.view.fences, calls)
  {
    var s := t.view.capture + t.view.pending;
    NothingToTrim(s[|s|..]);
    hide Consume, TrimFence, Pieces;
    assert s[..0] == "" && s[|s|..] == "";
    var u := Turn(env, t).run;
    assert Turn(env, t).again && u.view == View("", "", false, t.view.fences, calls) && u.events == t.events;
    hide Turn;
    Rests(env, u);
  }

  lemma CapturedPart(env: Env, t: Run, whole: string, m: nat, calls: seq<Call>, n: nat)
    requires EnvOk(env) && m <= n < |whole| && Consume(env, whole[..n]) == Undecided
    requires t.view.capturing && t.view.capture + t.view.pending == whole[..n]
    requires t.view.fences == START && t.events == [] && t.view.calls == []
    ensures SoFar(Settle(env, t), whole, m, calls, n)
  {
    hide Consume, Settle, EnvOk;
    Keeps(env, t);
  }

  lemma CapturedWhole(env: Env, t: Run, whole: string, m: nat, calls: seq<Call>)
    requires EnvOk(env) && Consume(env, whole) == Accepted(0, |whole|, calls)
    requires t.view.capturing && t.view.capture + t.view.pending == whole
    requires t.view.fences == START && t.events == [] && t.view.calls == []
    ensures SoFar(Settle(env, t), whole, m, calls, |whole|)
  {
    hide Consume, Settle, EnvOk;
    Decides(env, t, calls);
  }

  lemma SeenGives(env: Env, whole: string, m: nat, calls: seq<Call>, n: nat)
    requires SeenThrough(env, whole, m, calls) && m <= n <= |whole|
    ensures EnvOk(env) && Consume(env, whole) == Accepted(0, |whole|, calls)
    ensures n < |whole| ==> Consume(env, whole[..n]) == Undecided
    ensures n == |whole| ==> whole[..n] == whole
  {
    hide Consume, EnvOk;
  }

  /** A capture that holds the first n characters, some of them still pending. */
  lemma Captured(env: Env, t: Run, whole: string, m: nat, calls: seq<Call>, n: nat)
    requires SeenThrough(env, whole, m, calls) && m <= n <= |whole|
    requires t.view.capturing && t.view.capture + t.view.pending == whole[..n]
    requires t.view.fences == START && t.events == [] && t.view.calls == []
    ensures SoFar(Settle(env, t), whole, m, calls, n)
  {
    hide *;
    SeenGives(env, whole, m, calls, n);
    if n < |whole| {
      CapturedPart(env, t, whole, m, calls, n);
    } else {
      CapturedWhole(env, t, whole, m, calls);
    }
  }

  // ---- a chunk

  lemma FedView(t: Run, chunk: string)
    requires t.view.calls == []
    ensures Fed(t, chunk) == t.(view := t.view.(pending := t.view.pending + chunk))
  {
  }

  lemma Fresh(env: Env, t: Run, whole: string, m: nat, calls: seq<Call>, n: nat)
    requires SeenThrough(env, whole, m, calls) && n <= |whole|
    requires !t.view.capturing && t.view.capture == "" && t.view.pending == whole[..n]
    requires t.view.fences == START && t.events == [] && t.view.calls == []
    ensures SoFar(Settle(env, t), whole, m, calls, n)
  {
    hide Consume, Settle;
    if n == 0 {
      Rests(env, t);
    } else if n < m {
      Holds(env, t);
    } else {
      Starts(env, t);
      var u := Turn(env, t).run;
      hide Turn;
      assert whole[..n] + "" == whole[..n];
      Captured(env, u, whole, m, calls, n);
    }
  }

  lemma ChunkSeen(env: Env, t: Run, whole: string, m: nat, calls: seq<Call>, n: nat, chunk: string)
    requires SeenThrough(env, whole, m, calls) && n <= |whole| && SoFar(t, whole, m, calls, n)
    requires n + |chunk| <= |whole| && whole[n..n + |chunk|] == chunk
    ensures SoFar(Feed(env, t, chunk), whole, m, calls, n + |chunk|)
  {
    hide Consume, Settle, SeenThrough;
    var k := n + |chunk|;
    assert whole[..n] + chunk == whole[..k];
    if n < |whole| {
      FedView(t, chunk);
      var fed := Fed(t, chunk);
      if n < m {
        Fresh(env, fed, whole, m, calls, k);
      } else {
        assert fed.view.capture + fed.view.pending == whole[..k];
        Captured(env, fed, whole, m, calls, k);
      }
    } else {
      Later(env, t, whole, m, calls);
    }
  }

  /** Nothing more arrives. */
  lemma Later(env: Env, t: Run, whole: string, m: nat, calls: seq<Call>)
    requires SeenThrough(env, whole, m, calls) && SoFar(t, whole, m, calls, |whole|)
    ensures SoFar(Feed(env, t, ""), whole, m, calls, |whole|)
    ensures Finish(env, t).events == [ToolCalls(calls)]
  {
    hide Consume, Settle;
    assert t.view.pending + "" == "";
    Rests(env, Fed(t, ""));
  }

  // ---- the run

  lemma {:induction false} Seen(env: Env, whole: string, m: nat, calls: seq<Call>, chunks: seq<string>, n: nat)
    requires SeenThrough(env, whole, m, calls) && n <= |whole| && Concat(chunks) == whole[..n]
    ensures SoFar(FeedAll(env, chunks), whole, m, calls, n)
  {
    hide Consume, Feed;
    if chunks == [] {
      assert whole[..0] == "";
    } else {
      var init, last := chunks[..|chunks| - 1], chunks[|chunks| - 1];
      var k := n - |last|;
      assert Concat(chunks) == Concat(init) + last;
      assert whole[..n][..k] == whole[..k] == Concat(init) && whole[..n][k..] == whole[k..n] == last;
      hide SeenThrough, SoFar;
      Seen(env, whole, m, calls, init, k);
      ChunkSeen(env, FeedAll(env, init), whole, m, calls, k, last);
    }
  }

  /** However the text is cut into chunks, the run sends its calls and nothing else. */
  lemma AnyCutting(env: Env, whole: string, m: nat, calls: seq<Call>, chunks: seq<string>)
    requires SeenThrough(env, whole, m, calls) && Concat(chunks) == whole
    ensures WholeRun(env, chunks).events == [ToolCalls(calls)]
  {
    assert whole[..|whole|] == whole;
    hide Consume, SeenThrough, SoFar, FeedAll, Finish;
    Seen(env, whole, m, calls, chunks, |whole|);
    Later(env, FeedAll(env, chunks), whole, m, calls);
  }
}
