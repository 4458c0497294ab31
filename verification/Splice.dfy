/** internal/deepseek/client/client_continue.go: reading the rounds line by line and writing them on. */
module Splice {
  import opened Text
  import opened Continue

  // ---- lines

  function Lines(s: string): seq<string> {
    if s == "" then [] else [s[..LineLength(s)]] + Lines(s[LineLength(s)..])
  }

  predicate IsData(line: string) {
    HasAt(Trim(line), 0, "data:")
  }

  function DataOf(line: string): string
    requires IsData(line)
  {
    HasFits(Trim(line), 0, "data:");
    Trim(Trim(line)[5..])
  }

  predicate IsDone(line: string) {
    IsData(line) && DataOf(line) == "[DONE]"
  }

  /** A line that is passed on: not blank and not the end marker. */
  predicate PassedOn(line: string) {
    Trim(line) != "" && !IsDone(line)
  }

  function Terminated(line: string): string {
    if EndsWith(line, "\n") then line else line + "\n"
  }

  /** The lines passed on, each ending in a newline. */
  function Output(lines: seq<string>): seq<string> {
    if lines == [] then []
    else
      Output(lines[..|lines| - 1]) + (if PassedOn(lines[|lines| - 1]) then [Terminated(lines[|lines| - 1])] else [])
  }

  predicate HasDone(lines: seq<string>) {
    exists i :: 0 <= i < |lines| && IsDone(lines[i])
  }

  function LineSignals(c: Codec, line: string): seq<Signal> {
    if PassedOn(line) && IsData(line) then DataSignals(c, DataOf(line)) else []
  }

  function Signals(c: Codec, lines: seq<string>): seq<Signal> {
    if lines == [] then [] else Signals(c, lines[..|lines| - 1]) + LineSignals(c, lines[|lines| - 1])
  }

  // ---- one round

  /** A response body: its bytes, and whether reading ends in an error instead of the end of the body. */
  datatype Body = Body(text: string, broken: bool)

  /** streamBodyWithContinueState: every line passed on is written, every data line is observed. */
  method StreamBody(c: Codec, body: Body, state: ContinueState) returns (written: string, hadDone: bool, ok: bool)
    modifies state
    ensures ok == !body.broken
    ensures written == Concat(Output(Lines(body.text))) && hadDone == HasDone(Lines(body.text))
    ensures state.Value() == AppliedAll(old(state.Value()), Signals(c, Lines(body.text)))
  {
    hide AppliedAll, IsDone, IsData, PassedOn, LineSignals, Terminated, LineLength, Concat, Output, Signals, HasDone;
    written, hadDone := "", false;
    var rest := body.text;
    ghost var seen := [];
    NothingSeen(c);
    NoSignals(state.Value());
    while rest != ""
      invariant seen + Lines(rest) == Lines(body.text)
      invariant written == Concat(Output(seen)) && hadDone == HasDone(seen)
      invariant state.Value() == AppliedAll(old(state.Value()), Signals(c, seen))
      decreases |rest|
    {
      var line := rest[..LineLength(rest)];
      rest := rest[LineLength(rest)..];
      OneMoreLine(c, seen, line);
      AppliedAppend(old(state.Value()), Signals(c, seen), LineSignals(c, line));
      var more, done := PassLine(c, line, state);
      written := written + more;
      hadDone := hadDone || done;
      seen := seen + [line];
    }
    assert seen + [] == seen;
    ok := !body.broken;
  }

  /** The treatment of one line. */
  method PassLine(c: Codec, line: string, state: ContinueState) returns (written: string, done: bool)
    modifies state
    ensures written == (if PassedOn(line) then Terminated(line) else "") && done == IsDone(line)
    ensures state.Value() == AppliedAll(old(state.Value()), LineSignals(c, line))
  {
    hide DataSignals;
    written, done := "", false;
    NoSignals(state.Value());
    BlankIsNoData(line);
    var trimmed := Trim(line);
    if trimmed != "" {
      if HasAt(trimmed, 0, "data:") {
        HasFits(trimmed, 0, "data:");
        var data := Trim(trimmed[5..]);
        if data == "[DONE]" {
          return "", true;
        }
        state.Observe(c, data);
      }
      written := if EndsWith(line, "\n") then line else line + "\n";
    }
  }

  lemma BlankIsNoData(line: string)
    ensures Trim(line) == "" ==> !IsData(line)
  {
  }

  lemma NothingSeen(c: Codec)
    ensures Concat(Output([])) == "" && !HasDone([]) && Signals(c, []) == []
  {
  }

  lemma OneMoreLine(c: Codec, seen: seq<string>, line: string)
    ensures Concat(Output(seen + [line])) == Concat(Output(seen)) + (if PassedOn(line) then Terminated(line) else "")
    ensures HasDone(seen + [line]) == (HasDone(seen) || IsDone(line))
    ensures Signals(c, seen + [line]) == Signals(c, seen) + LineSignals(c, line)
  {
    hide IsDone, PassedOn, Terminated, LineSignals;
    var all := seen + [line];
    assert all[..|all| - 1] == seen;
    assert HasDone(all) == (HasDone(seen) || IsDone(line)) by {
      if HasDone(seen) {
        var i :| 0 <= i < |seen| && IsDone(seen[i]);
        assert IsDone(all[i]);
      }
      if IsDone(line) {
        assert IsDone(all[|seen|]);
      }
    }
    if PassedOn(line) {
      assert (Output(seen) + [Terminated(line)])[..|Output(seen)|] == Output(seen);
    } else {
      assert Output(seen) + [] == Output(seen);
    }
  }

  // ---- all rounds

  datatype Opened = Failed | Opened(body: Body)

  predicate AllOpen(open: nat -> Opened, k: nat) {
    forall i: nat :: 1 <= i <= k ==> open(i).Opened?
  }

  function RoundBody(initial: Body, open: nat -> Opened, i: nat): Body
    requires AllOpen(open, i)
  {
    if i == 0 then initial else open(i).body
  }

  function RoundLines(initial: Body, open: nat -> Opened, i: nat): seq<string>
    requires AllOpen(open, i)
  {
    Lines(RoundBody(initial, open, i).text)
  }

  /** The state at the start of round i. */
  function StateBefore(c: Codec, initial: Body, open: nat -> Opened, session: string, i: nat): View
    requires AllOpen(open, i)
    decreases i, 0
  {
    if i == 0 then View(session, 0, "", false) else NextRound(StateAfter(c, initial, open, session, i - 1))
  }

  /** The state at the end of round i. */
  function StateAfter(c: Codec, initial: Body, open: nat -> Opened, session: string, i: nat): View
    requires AllOpen(open, i)
    decreases i, 1
  {
    AppliedAll(StateBefore(c, initial, open, session, i), Signals(c, RoundLines(initial, open, i)))
  }

  /** The lines passed on in the first n rounds. */
  function AllOutput(initial: Body, open: nat -> Opened, n: nat): seq<string>
    requires n > 0 ==> AllOpen(open, n - 1)
  {
    if n == 0 then [] else AllOutput(initial, open, n - 1) + Output(RoundLines(initial, open, n - 1))
  }

  const END := "data: [DONE]\n"

  /** The first n rounds ended without an error in a state that may continue, and each continue request
      named the session and the message that the round ended with. */
  ghost predicate Driven(c: Codec, initial: Body, open: nat -> Opened, session: string, calls: seq<(string, int)>,
    n: nat)
    requires AllOpen(open, n)
  {
    n <= |calls| && forall i: nat :: i < n ==>
      && !RoundBody(initial, open, i).broken
      && MayContinue(StateAfter(c, initial, open, session, i))
      && calls[i] == (session, StateAfter(c, initial, open, session, i).responseMessageID)
  }

  /** pumpAutoContinue. The result of each continue request is a parameter; calls lists the requests made. */
  method PumpAutoContinue(c: Codec, initial: Body, session: string, maxRounds: nat, open: nat -> Opened)
    returns (out: string, calls: seq<(string, int)>, rounds: nat, ok: bool)
    ensures |calls| <= maxRounds && AllOpen(open, rounds) && Driven(c, initial, open, session, calls, rounds)
    ensures |calls| == rounds || (|calls| == rounds + 1 && open(rounds + 1).Failed?)
    ensures |calls| > rounds ==>
      && MayContinue(StateAfter(c, initial, open, session, rounds))
      && calls[rounds] == (session, StateAfter(c, initial, open, session, rounds).responseMessageID)
    ensures ok <==> |calls| == rounds && !RoundBody(initial, open, rounds).broken
    ensures ok ==> !MayContinue(StateAfter(c, initial, open, session, rounds)) || rounds == maxRounds
    ensures out == Concat(AllOutput(initial, open, rounds + 1)
                          + (if ok && HasDone(RoundLines(initial, open, rounds)) then [END] else []))
  {
    hide Signals, Output, Lines, HasDone, AppliedAll, Concat, AllOutput, Driven, MayContinue;
    var state := new ContinueState(session);
    var current := initial;
    rounds, out, calls := 0, "", [];
    NoOutput(initial, open);
    NotDriven(c, initial, open, session);
    while true
      invariant AllOpen(open, rounds) && rounds <= maxRounds && |calls| == rounds
      invariant current == RoundBody(initial, open, rounds)
      invariant state.Value() == StateBefore(c, initial, open, session, rounds)
      invariant state.sessionID == session
      invariant out == Concat(AllOutput(initial, open, rounds))
      invariant Driven(c, initial, open, session, calls, rounds)
      decreases maxRounds - rounds
    {
      var written, hadDone, good := StreamBody(c, current, state);
      assert state.Value() == StateAfter(c, initial, open, session, rounds);
      MoreOutput(initial, open, rounds);
      out := out + written;
      if !good {
        return out, calls, rounds, false;
      }
      SessionKept(StateBefore(c, initial, open, session, rounds), Signals(c, RoundLines(initial, open, rounds)));
      var more := state.ShouldContinue();
      if !more || rounds >= maxRounds {
        if hadDone {
          out := out + END;
        }
        return out, calls, rounds, true;
      }
      ghost var before := calls;
      calls := calls + [(state.sessionID, state.responseMessageID)];
      MoreDriven(c, initial, open, session, before, rounds, calls);
      var next := open(rounds + 1);
      if next.Failed? {
        return out, calls, rounds, false;
      }
      rounds := rounds + 1;
      current := next.body;
      state.PrepareForNextRound();
    }
  }

  lemma NoOutput(initial: Body, open: nat -> Opened)
    ensures Concat(AllOutput(initial, open, 0)) == ""
  {
  }

  lemma NotDriven(c: Codec, initial: Body, open: nat -> Opened, session: string)
    ensures Driven(c, initial, open, session, [], 0)
  {
  }

  lemma MoreOutput(initial: Body, open: nat -> Opened, n: nat)
    requires AllOpen(open, n)
    ensures Concat(AllOutput(initial, open, n + 1))
         == Concat(AllOutput(initial, open, n)) + Concat(Output(RoundLines(initial, open, n)))
    ensures Concat(AllOutput(initial, open, n + 1) + [END]) == Concat(AllOutput(initial, open, n + 1)) + END
    ensures AllOutput(initial, open, n + 1) + [] == AllOutput(initial, open, n + 1)
  {
    ConcatAppend(AllOutput(initial, open, n), Output(RoundLines(initial, open, n)));
    ConcatAppend(AllOutput(initial, open, n + 1), [END]);
    EndLine();
  }

  /** A finished round with a request extends the history, or is the last entry when the request fails. */
  lemma MoreDriven(c: Codec, initial: Body, open: nat -> Opened, session: string, calls: seq<(string, int)>, n: nat,
                   after: seq<(string, int)>)
    requires AllOpen(open, n) && |calls| == n && Driven(c, initial, open, session, calls, n)
    requires !RoundBody(initial, open, n).broken && MayContinue(StateAfter(c, initial, open, session, n))
    requires after == calls + [(session, StateAfter(c, initial, open, session, n).responseMessageID)]
    ensures Driven(c, initial, open, session, after, n)
    ensures AllOpen(open, n + 1) ==> Driven(c, initial, open, session, after, n + 1)
  {
    hide MayContinue;
    assert forall i :: 0 <= i < n ==> after[i] == calls[i];
  }

  lemma EndLine()
    ensures Concat([END]) == END
  {
    assert [END][..0] == [];
  }

  lemma {:induction false} SessionKept(s: View, signals: seq<Signal>)
    ensures AppliedAll(s, signals).sessionID == s.sessionID
  {
    if signals != [] {
      SessionKept(s, signals[..|signals| - 1]);
    }
  }

  // ---- what a reader of the spliced stream sees

  /** A newline at the end and nowhere else. */
  predicate OneLine(s: string) {
    s != "" && s[|s| - 1] == '\n' && forall i :: 0 <= i < |s| - 1 ==> s[i] != '\n'
  }

  lemma {:induction false} FirstNewline(s: string, i: nat)
    ensures var k := FindFrom(s, i, "\n");
      if k < 0 then forall j :: i <= j < |s| ==> s[j] != '\n'
      else i <= k < |s| && s[k] == '\n' && forall j :: i <= j < k ==> s[j] != '\n'
    decreases |s| - i
  {
    if i < |s| {
      assert HasAt(s, i, "\n") <==> s[i] == '\n';
      if s[i] != '\n' {
        FirstNewline(s, i + 1);
      }
    }
  }

  lemma FirstLine(a: string, b: string)
    requires OneLine(a)
    ensures LineLength(a + b) == |a|
  {
    FirstNewline(a + b, 0);
    assert (a + b)[|a| - 1] == '\n';
    assert forall i :: 0 <= i < |a| - 1 ==> (a + b)[i] == a[i];
  }

  /** Cutting a concatenation of lines gives the lines back. */
  lemma {:induction false} LinesOfConcat(lines: seq<string>)
    requires forall i :: 0 <= i < |lines| ==> OneLine(lines[i])
    ensures Lines(Concat(lines)) == lines
  {
    if lines != [] {
      var rest := ConcatFront(lines[1..]);
      FrontIsConcat(lines);
      FrontIsConcat(lines[1..]);
      FirstLine(lines[0], rest);
      LinesOfConcat(lines[1..]);
      assert (lines[0] + rest)[..|lines[0]|] == lines[0] && (lines[0] + rest)[|lines[0]|..] == rest;
    }
  }

  /** Every line but possibly the last has one newline, at its end; the last may lack it. */
  predicate Cut(line: string) {
    line != "" && forall i :: 0 <= i < |line| - 1 ==> line[i] != '\n'
  }

  lemma FirstIsCut(s: string)
    requires s != ""
    ensures Cut(s[..LineLength(s)])
  {
    FirstNewline(s, 0);
  }

  lemma {:induction false} LinesAreCut(s: string)
    ensures forall i :: 0 <= i < |Lines(s)| ==> Cut(Lines(s)[i])
    ensures ConcatFront(Lines(s)) == s
    decreases |s|
  {
    hide Cut, LineLength;
    if s != "" {
      FirstIsCut(s);
      LinesAreCut(s[LineLength(s)..]);
      assert Lines(s)[1..] == Lines(s[LineLength(s)..]);
    }
  }

  /** Cutting a text into lines and joining them gives the text back. */
  lemma LinesRejoin(s: string)
    ensures Concat(Lines(s)) == s
  {
    LinesAreCut(s);
    FrontIsConcat(Lines(s));
  }

  lemma {:induction false} TrimNewline(s: string)
    ensures Trim(s + "\n") == Trim(s)
    decreases |s|
  {
    var t := s + "\n";
    if s == "" {
      assert t[1..] == "";
    } else if IsSpace(s[0]) {
      TrimNewline(s[1..]);
      assert t[1..] == s[1..] + "\n";
    } else {
      assert t[..|t| - 1] == s;
    }
  }

  lemma TerminatedIs(line: string)
    requires Cut(line)
    ensures OneLine(Terminated(line)) && (PassedOn(Terminated(line)) <==> PassedOn(line))
  {
    TrimNewline(line);
    if EndsWith(line, "\n") {
      assert HasAt(line, |line| - 1, "\n") <==> line[|line| - 1] == '\n';
    } else {
      assert HasAt(line, |line| - 1, "\n") <==> line[|line| - 1] == '\n';
    }
  }

  lemma {:induction false} OutputIs(lines: seq<string>)
    requires forall i :: 0 <= i < |lines| ==> Cut(lines[i])
    ensures forall i :: 0 <= i < |Output(lines)| ==> OneLine(Output(lines)[i]) && PassedOn(Output(lines)[i])
  {
    hide Cut, OneLine, PassedOn, Terminated;
    if lines != [] {
      OutputIs(lines[..|lines| - 1]);
      TerminatedIs(lines[|lines| - 1]);
    }
  }

  lemma {:induction false} AllOutputIs(initial: Body, open: nat -> Opened, n: nat)
    requires n > 0 ==> AllOpen(open, n - 1)
    ensures forall i :: 0 <= i < |AllOutput(initial, open, n)| ==>
      OneLine(AllOutput(initial, open, n)[i]) && PassedOn(AllOutput(initial, open, n)[i])
  {
    hide Cut, OneLine, PassedOn, Output, Lines;
    if n > 0 {
      AllOutputIs(initial, open, n - 1);
      LinesAreCut(RoundBody(initial, open, n - 1).text);
      OutputIs(RoundLines(initial, open, n - 1));
    }
  }

  /** Cut into lines, the spliced stream is the lines passed on in each round, in order and each once,
      and then the one end marker if there is one. */
  lemma ReaderSees(initial: Body, open: nat -> Opened, n: nat, done: bool)
    requires n > 0 ==> AllOpen(open, n - 1)
    ensures var passed := AllOutput(initial, open, n);
      var all := passed + (if done then [END] else []);
      Lines(Concat(all)) == all && (forall i :: 0 <= i < |passed| ==> PassedOn(passed[i])) && !PassedOn(END) &&
        IsDone(END)
  {
    AllOutputIs(initial, open, n);
    EndIsDone();
    hide PassedOn, IsDone, Lines, AllOutput;
    LinesOfConcat(AllOutput(initial, open, n) + (if done then [END] else []));
  }

  lemma EndIsDone()
    ensures IsDone(END) && OneLine(END)
  {
    TrimNewline("data: [DONE]");
    assert "data: [DONE]" + "\n" == END;
    assert Trim("data: [DONE]") == "data: [DONE]";
    assert "data: [DONE]"[5..] == " [DONE]";
    assert " [DONE]"[1..] == "[DONE]";
    assert Trim("[DONE]") == "[DONE]";
  }

  // ---- when a round is continued

  predicate FinishSeen(signals: seq<Signal>) {
    exists i :: 0 <= i < |signals| && signals[i].Status? && Finishes(signals[i].text)
  }

  /** The last status given, an auto-continue mark counting as one and a blank status as none. */
  function LastStatus(signals: seq<Signal>): string {
    if signals == [] then ""
    else
      match signals[|signals| - 1]
      case AutoContinue => "AUTO_CONTINUE"
      case Status(text) => if Trim(text) != "" then Trim(text) else LastStatus(signals[..|signals| - 1])
      case MessageID(_) => LastStatus(signals[..|signals| - 1])
  }

  function LastID(signals: seq<Signal>, id: int): int {
    if signals == [] then id
    else if signals[|signals| - 1].MessageID? then signals[|signals| - 1].id
    else LastID(signals[..|signals| - 1], id)
  }

  lemma {:induction false} SignalsSay(s: View, signals: seq<Signal>)
    requires !s.finished && s.lastStatus == ""
    ensures AppliedAll(s, signals)
         == View(s.sessionID, LastID(signals, s.responseMessageID), LastStatus(signals), FinishSeen(signals))
  {
    if signals != [] {
      var init, last := signals[..|signals| - 1], signals[|signals| - 1];
      SignalsSay(s, init);
      assert FinishSeen(signals) <==> FinishSeen(init) || (last.Status? && Finishes(last.text)) by {
        hide Finishes;
        if FinishSeen(init) {
          var i :| 0 <= i < |init| && init[i].Status? && Finishes(init[i].text);
          assert signals[i] == init[i];
        }
      }
      if last.Status? && Trim(last.text) == "" {
        assert !Finishes(last.text);
      }
    }
  }

  /** A round is continued exactly when it gave no finishing status, its last status was an incomplete
      one or an auto-continue mark, and the session and a message are known. */
  lemma ContinuedExactly(c: Codec, initial: Body, open: nat -> Opened, session: string, i: nat)
    requires AllOpen(open, i)
    ensures var signals := Signals(c, RoundLines(initial, open, i));
      var id := LastID(signals, StateBefore(c, initial, open, session, i).responseMessageID);
      MayContinue(StateAfter(c, initial, open, session, i)) ==
        (!FinishSeen(signals) && Incomplete(LastStatus(signals)) && id > 0 && Trim(session) != "")
  {
    StateFresh(c, initial, open, session, i);
    hide StateBefore, Signals, Incomplete, FinishSeen, LastStatus, LastID, AppliedAll;
    SignalsSay(StateBefore(c, initial, open, session, i), Signals(c, RoundLines(initial, open, i)));
  }

  lemma {:induction false} StateFresh(c: Codec, initial: Body, open: nat -> Opened, session: string, i: nat)
    requires AllOpen(open, i)
    ensures var s := StateBefore(c, initial, open, session, i);
      !s.finished && s.lastStatus == "" && s.sessionID == session
  {
    hide Signals, AppliedAll, Lines;
    if i > 0 {
      StateFresh(c, initial, open, session, i - 1);
      SessionKept(StateBefore(c, initial, open, session, i - 1), Signals(c, RoundLines(initial, open, i - 1)));
    }
  }
}
