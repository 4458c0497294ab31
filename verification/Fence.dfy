/** internal/toolstream/tool_sieve_state.go: the Markdown fence automaton carried across chunks. */
module Fence {
  import opened Text

  /** Positive markers are backtick fences, negative ones tilde fences; the top is at the end. */
  datatype Fences = Fences(stack: seq<int>, ticks: nat, tildes: nat, lineStart: bool)

  const START := Fences([], 0, 0, true)

  function Abs(x: int): nat {
    if x < 0 then -x else x
  }

  predicate SameType(a: int, b: int) {
    (a > 0 && b > 0) || (a < 0 && b < 0)
  }

  /** applyFenceMarker */
  function Marked(stack: seq<int>, marker: int): seq<int> {
    if marker == 0 then stack
    else if stack == [] then [marker]
    else
      var top := stack[|stack| - 1];
      if !SameType(top, marker) then stack + [marker]
      else if Abs(marker) >= Abs(top) then stack[..|stack| - 1]
      else stack + [marker]
  }

  function FlushTicks(f: Fences): Fences {
    if f.ticks > 0 then
      Fences(if f.lineStart && f.ticks >= 3 then Marked(f.stack, f.ticks) else f.stack, 0, f.tildes, false)
    else f
  }

  function FlushTildes(f: Fences): Fences {
    if f.tildes > 0 then
      Fences(if f.lineStart && f.tildes >= 3 then Marked(f.stack, -(f.tildes as int)) else f.stack, f.ticks, 0, false)
    else f
  }

  function FlushPending(f: Fences): Fences {
    FlushTildes(FlushTicks(f))
  }

  function Next(f: Fences, ch: char): Fences {
    if ch == '`' then
      if f.tildes > 0 then FlushPending(f).(ticks := FlushPending(f).ticks + 1) else f.(ticks := f.ticks + 1)
    else if ch == '~' then
      if f.ticks > 0 then FlushPending(f).(tildes := FlushPending(f).tildes + 1) else f.(tildes := f.tildes + 1)
    else
      var g := FlushPending(f);
      if ch == '\n' || ch == '\r' then g.(lineStart := true)
      else if (ch == ' ' || ch == '\t') && g.lineStart then g
      else g.(lineStart := false)
  }

  /** The automaton after a text: a left fold over its characters. */
  function After(f: Fences, text: string): Fences {
    if text == "" then f else Next(After(f, text[..|text| - 1]), text[|text| - 1])
  }

  /** simulateCodeFenceState */
  method Simulate(stack: seq<int>, pendingTicks: nat, pendingTildes: nat, lineStart: bool, text: string)
    returns (f: Fences)
    ensures f == After(Fences(stack, pendingTicks, pendingTildes, lineStart), text)
  {
    var nextStack, ticks, tildes, atLineStart := stack, pendingTicks, pendingTildes, lineStart;
    for i := 0 to |text|
      invariant Fences(nextStack, ticks, tildes, atLineStart)
             == After(Fences(stack, pendingTicks, pendingTildes, lineStart), text[..i])
    {
      assert text[..i + 1][..i] == text[..i];
      var ch := text[i];
      if (ch != '`' && ch != '~') || (ch == '`' && tildes > 0) || (ch == '~' && ticks > 0) {
        if ticks > 0 {
          if atLineStart && ticks >= 3 {
            nextStack := Marked(nextStack, ticks);
          }
          atLineStart := false;
          ticks := 0;
        }
        if tildes > 0 {
          if atLineStart && tildes >= 3 {
            nextStack := Marked(nextStack, -(tildes as int));
          }
          atLineStart := false;
          tildes := 0;
        }
      }
      if ch == '`' {
        ticks := ticks + 1;
      } else if ch == '~' {
        tildes := tildes + 1;
      } else if ch == '\n' || ch == '\r' {
        atLineStart := true;
      } else if !((ch == ' ' || ch == '\t') && atLineStart) {
        atLineStart := false;
      }
    }
    assert text[..|text|] == text;
    f := Fences(nextStack, ticks, tildes, atLineStart);
  }

  predicate Inside(f: Fences, text: string) {
    After(f, text).stack != []
  }

  predicate Meaningful(text: string) {
    Trim(text) != ""
  }

  /** noteText: blank text is not fed to the automaton. */
  function Noted(f: Fences, text: string): Fences {
    if Meaningful(text) then After(f, text) else f
  }

  /** Simulating two texts in a row is simulating their concatenation, at every split. */
  lemma {:induction false} AfterAppend(f: Fences, a: string, b: string)
    ensures After(f, a + b) == After(After(f, a), b)
    decreases |b|
  {
    if b == "" {
      assert a + b == a;
    } else {
      assert (a + b)[..|a + b| - 1] == a + b[..|b| - 1];
      AfterAppend(f, a, b[..|b| - 1]);
    }
  }

  // ---- reachable states

  predicate Adjacent(lower: int, upper: int) {
    SameType(lower, upper) ==> Abs(upper) < Abs(lower)
  }

  /** Every marker has size at least three, and next to a marker of its own type it is smaller. */
  predicate StackOk(stack: seq<int>) {
    && (forall i :: 0 <= i < |stack| ==> Abs(stack[i]) >= 3)
    && (forall i :: 0 < i < |stack| ==> Adjacent(stack[i - 1], stack[i]))
  }

  predicate Reachable(f: Fences) {
    StackOk(f.stack) && (f.ticks == 0 || f.tildes == 0)
  }

  lemma MarkedOk(stack: seq<int>, marker: int)
    requires StackOk(stack) && Abs(marker) >= 3
    ensures StackOk(Marked(stack, marker))
  {
  }

  lemma NextReachable(f: Fences, ch: char)
    requires Reachable(f)
    ensures Reachable(Next(f, ch))
  {
    if f.ticks >= 3 {
      MarkedOk(f.stack, f.ticks);
    }
    if f.tildes >= 3 {
      MarkedOk(f.stack, -(f.tildes as int));
    }
  }

  lemma {:induction false} AfterReachable(f: Fences, text: string)
    requires Reachable(f)
    ensures Reachable(After(f, text))
  {
    if text != "" {
      AfterReachable(f, text[..|text| - 1]);
      NextReachable(After(f, text[..|text| - 1]), text[|text| - 1]);
    }
  }

  /** Whatever is noted, in whatever pieces, the carried state stays reachable. */
  lemma {:induction false} NotedReachable(f: Fences, texts: seq<string>)
    requires Reachable(f)
    ensures Reachable(NotedAll(f, texts))
  {
    if texts != [] {
      NotedReachable(f, texts[..|texts| - 1]);
      AfterReachable(NotedAll(f, texts[..|texts| - 1]), texts[|texts| - 1]);
    }
  }

  function NotedAll(f: Fences, texts: seq<string>): Fences {
    if texts == [] then f else Noted(NotedAll(f, texts[..|texts| - 1]), texts[|texts| - 1])
  }

  // ---- what skipping blank text costs

  /** Whether a blank text read from a position at the start of a line, or not, ends at the start of one:
      spaces and tabs do not matter, a line break makes it so, a vertical tab or form feed unmakes it. */
  predicate EndsAtLineStart(text: string, lineStart: bool) {
    if text == "" then lineStart
    else
      var last := text[|text| - 1];
      if last == ' ' || last == '\t' then EndsAtLineStart(text[..|text| - 1], lineStart)
      else last == '\n' || last == '\r'
  }

  /** Feeding this blank text would leave the automaton alone: there is nothing to feed, or no fence marks
      are pending and the text ends at the start of a line exactly if it began there. */
  predicate Inert(f: Fences, text: string) {
    text == "" || (f.ticks == 0 && f.tildes == 0 && EndsAtLineStart(text, f.lineStart) == f.lineStart)
  }

  lemma NextBlank(f: Fences, c: char)
    requires IsSpace(c)
    ensures Next(f, c).ticks == 0 && Next(f, c).tildes == 0
    ensures f.ticks == 0 && f.tildes == 0 ==>
      Next(f, c) == f.(lineStart := if c == ' ' || c == '\t' then f.lineStart else c == '\n' || c == '\r')
  {
  }

  lemma {:induction false} BlankAfter(f: Fences, text: string)
    requires forall i :: 0 <= i < |text| ==> IsSpace(text[i])
    ensures text != "" ==> After(f, text).ticks == 0 && After(f, text).tildes == 0
    ensures f.ticks == 0 && f.tildes == 0 ==> After(f, text) == f.(lineStart := EndsAtLineStart(text, f.lineStart))
  {
    hide Next, IsSpace;
    if text != "" {
      var init, last := text[..|text| - 1], text[|text| - 1];
      BlankAfter(f, init);
      NextBlank(After(f, init), last);
    }
  }

  /** noteText skips exactly the texts made of the characters that TrimSpace removes. */
  lemma {:induction false} BlankTrims(text: string)
    ensures !Meaningful(text) <==> forall i :: 0 <= i < |text| ==> IsSpace(text[i])
    decreases |text|
  {
    hide IsSpace;
    if text != "" && IsSpace(text[0]) {
      BlankTrims(text[1..]);
      assert forall i :: 0 < i < |text| ==> text[i] == text[1..][i - 1];
    } else if text != "" && IsSpace(text[|text| - 1]) {
      BlankTrims(text[..|text| - 1]);
      assert text[..|text| - 1][0] == text[0];
    }
  }

  /** Skipping a blank text leaves the automaton where feeding it would, exactly when the text is inert. */
  lemma NotedExact(f: Fences, text: string)
    requires !Meaningful(text)
    ensures Noted(f, text) == After(f, text) <==> Inert(f, text)
  {
    BlankTrims(text);
    BlankAfter(f, text);
  }

  /** Every text that is skipped is inert in the state it is skipped in. */
  ghost predicate SkipsAreInert(f: Fences, texts: seq<string>) {
    forall k :: 0 <= k < |texts| && !Meaningful(texts[k]) ==> Inert(NotedAll(f, texts[..k]), texts[k])
  }

  /** The carried state is that of the texts so far, and was after each of them. */
  ghost predicate AgreesThroughout(f: Fences, texts: seq<string>) {
    forall k :: 0 <= k <= |texts| ==> NotedAll(f, texts[..k]) == After(f, Concat(texts[..k]))
  }

  lemma InertOneMore(f: Fences, texts: seq<string>, last: string)
    ensures SkipsAreInert(f, texts + [last]) <==>
      SkipsAreInert(f, texts) && (!Meaningful(last) ==> Inert(NotedAll(f, texts), last))
  {
    hide NotedAll, Inert, Meaningful;
    var all := texts + [last];
    assert all[..|texts|] == texts && all[|texts|] == last;
    assert forall k :: 0 <= k < |texts| ==> all[..k] == texts[..k] && all[k] == texts[k];
  }

  lemma AgreesOneMore(f: Fences, texts: seq<string>, last: string)
    ensures AgreesThroughout(f, texts + [last]) <==>
      AgreesThroughout(f, texts) && NotedAll(f, texts + [last]) == After(f, Concat(texts + [last]))
  {
    hide NotedAll, After, Concat;
    var all := texts + [last];
    assert all[..|all|] == all;
    assert forall k :: 0 <= k <= |texts| ==> all[..k] == texts[..k];
  }

  lemma OneMoreNoted(f: Fences, texts: seq<string>, last: string)
    ensures NotedAll(f, texts + [last]) == Noted(NotedAll(f, texts), last)
    ensures Concat(texts + [last]) == Concat(texts) + last
  {
    assert (texts + [last])[..|texts + [last]| - 1] == texts;
  }

  /** Over a whole run, the carried state agrees after every text with an automaton fed everything exactly
      when every skipped text is inert. */
  lemma {:induction false} RunExact(f: Fences, texts: seq<string>)
    ensures AgreesThroughout(f, texts) <==> SkipsAreInert(f, texts)
  {
    if texts == [] {
      assert texts[..0] == [];
    } else {
      var init, last := texts[..|texts| - 1], texts[|texts| - 1];
      assert texts == init + [last];
      RunExact(f, init);
      InertOneMore(f, init, last);
      AgreesOneMore(f, init, last);
      OneMoreNoted(f, init, last);
      AfterAppend(f, Concat(init), last);
      assert AgreesThroughout(f, init) ==> NotedAll(f, init[..|init|]) == After(f, Concat(init[..|init|]));
      assert init[..|init|] == init;
      if !Meaningful(last) {
        NotedExact(NotedAll(f, init), last);
      }
    }
  }

  lemma AgreesAtEnd(f: Fences, texts: seq<string>)
    requires SkipsAreInert(f, texts)
    ensures NotedAll(f, texts) == After(f, Concat(texts))
  {
    RunExact(f, texts);
    assert texts[..|texts|] == texts;
    assert NotedAll(f, texts[..|texts|]) == After(f, Concat(texts[..|texts|]));
  }

  /** At the end alone the two may agree again: what follows can make up for a text that was not inert. */
  lemma AgreesAgain()
    ensures !SkipsAreInert(START, ["a", "\n", "b"]) &&
      NotedAll(START, ["a", "\n", "b"]) == After(START, "a" + "\n" + "b")
  {
    var texts, f1 := ["a", "\n", "b"], Fences([], 0, 0, false);
    assert texts[..0] == [] && texts[..1][..0] == [] && texts[..2][..1] == texts[..1] && texts[..3][..2] == texts[..2];
    assert "a"[..0] == "" && "b"[..0] == "" && "\n"[..0] == "";
    assert After(START, "a") == f1 && After(f1, "b") == f1;
    assert Meaningful("a") && Meaningful("b");
    BlankTrims("\n");
    assert NotedAll(START, texts[..1]) == f1;
    assert NotedAll(START, texts[..2]) == f1;
    assert texts[..3] == texts && NotedAll(START, texts) == f1;
    assert texts[1] == "\n" && !Inert(NotedAll(START, texts[..1]), texts[1]);
    AfterAppend(START, "a", "\n");
    AfterAppend(START, "a" + "\n", "b");
    var f2 := After(f1, "\n");
    assert f2 == Fences([], 0, 0, true);
    assert After(f2, "b") == f1;
  }

  /** A line break that arrives as a piece of its own is forgotten: the fence after it goes unseen. */
  lemma ForgottenLineBreak()
    ensures After(START, "a" + "\n" + "```" + "\n").stack == [3]
    ensures NotedAll(START, ["a", "\n", "```", "\n"]).stack == []
  {
    var whole := "a\n```\n";
    assert whole == "a" + "\n" + "```" + "\n";
    assert After(START, whole[..0]) == START;
    assert After(START, whole[..1]) == Fences([], 0, 0, false) by { assert whole[..1][..0] == whole[..0]; }
    assert After(START, whole[..2]) == Fences([], 0, 0, true) by { assert whole[..2][..1] == whole[..1]; }
    assert After(START, whole[..3]) == Fences([], 1, 0, true) by { assert whole[..3][..2] == whole[..2]; }
    assert After(START, whole[..4]) == Fences([], 2, 0, true) by { assert whole[..4][..3] == whole[..3]; }
    assert After(START, whole[..5]) == Fences([], 3, 0, true) by { assert whole[..5][..4] == whole[..4]; }
    assert After(START, whole[..6]) == Fences([3], 0, 0, true) by { assert whole[..6][..5] == whole[..5]; }
    assert whole[..6] == whole;
    var f1 := Fences([], 0, 0, false);
    assert NotedAll(START, []) == START;
    assert NotedAll(START, ["a"]) == f1 by { assert ["a"][..0] == []; }
    assert NotedAll(START, ["a", "\n"]) == f1 by {
      BlankTrims("\n");
      assert ["a", "\n"][..1] == ["a"];
    }
    var ticks := "```";
    assert Meaningful(ticks);
    assert After(f1, ticks[..0]) == f1;
    assert After(f1, ticks[..1]) == Fences([], 1, 0, false) by { assert ticks[..1][..0] == ticks[..0]; }
    assert After(f1, ticks[..2]) == Fences([], 2, 0, false) by { assert ticks[..2][..1] == ticks[..1]; }
    assert After(f1, ticks[..3]) == Fences([], 3, 0, false) by { assert ticks[..3][..2] == ticks[..2]; }
    assert ticks[..3] == ticks;
    assert NotedAll(START, ["a", "\n", ticks]) == Fences([], 3, 0, false) by {
      assert ["a", "\n", ticks][..2] == ["a", "\n"];
    }
    BlankTrims("\n");
    assert ["a", "\n", ticks, "\n"][..3] == ["a", "\n", ticks];
  }
}
