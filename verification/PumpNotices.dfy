/** The error and filter notices of the pump, and how little it keeps back. */
module PumpNotices {
  import opened Pump

  datatype Notice = ErrorNotice(message: string) | FilterNotice

  /** What the reader is told by a result that was sent. */
  function Told(r: LineResult): seq<Notice> {
    if r.contentFilter then [FilterNotice] else if r.errorMessage != "" then [ErrorNotice(r.errorMessage)] else []
  }

  function ToldAll(sent: seq<LineResult>): seq<Notice> {
    if sent == [] then [] else ToldAll(sent[..|sent| - 1]) + Told(sent[|sent| - 1])
  }

  /** What a line reports: an error with its message, or that the answer was filtered. */
  function Reported(step: Step): seq<Notice> {
    match step
    case Line(ErrorChunk(message)) => if message != "" then [ErrorNotice(message)] else []
    case Line(FilteredChunk) => [FilterNotice]
    case _ => []
  }

  function ReportedAll(steps: seq<Step>): seq<Notice> {
    if steps == [] then [] else ReportedAll(steps[..|steps| - 1]) + Reported(steps[|steps| - 1])
  }

  /** Notices come with results that end the answer and carry nothing else. */
  predicate NoticesEnd(sent: seq<LineResult>) {
    forall i :: 0 <= i < |sent| && Told(sent[i]) != [] ==> sent[i].parsed && sent[i].stop && sent[i].parts == []
  }

  lemma OneMoreSent(sent: seq<LineResult>, r: LineResult)
    ensures ToldAll(sent + [r]) == ToldAll(sent) + Told(r)
    ensures NoticesEnd(sent) && (Told(r) != [] ==> r.parsed && r.stop && r.parts == []) ==> NoticesEnd(sent + [r])
  {
    assert (sent + [r])[..|sent|] == sent;
  }

  lemma FlushTells(s: State, force: bool)
    ensures ToldAll(Flush(s, force).sent) == ToldAll(s.sent)
    ensures NoticesEnd(s.sent) ==> NoticesEnd(Flush(s, force).sent)
  {
    hide ToldAll, NoticesEnd, Held;
    var parts := Held(s.thinking, s.thinkingKind) + Held(s.text, s.textKind);
    OneMoreSent(s.sent, LineResult(true, false, false, "", parts, Held(s.detection, "thinking"), s.currentType,
      s.messageID));
  }

  lemma {:induction false} AddPartsTell(s: State, parts: seq<Part>)
    ensures ToldAll(AddParts(s, parts).sent) == ToldAll(s.sent)
    ensures NoticesEnd(s.sent) ==> NoticesEnd(AddParts(s, parts).sent)
  {
    hide ToldAll, NoticesEnd, Flush, BreaksLine;
    if parts != [] {
      var u, p := AddParts(s, parts[..|parts| - 1]), parts[|parts| - 1];
      AddPartsTell(s, parts[..|parts| - 1]);
      FlushTells(u, true);
      FlushTells(u.(text := u.text + p.text, textKind := p.kind), true);
    }
  }

  lemma StepTells(s: State, step: Step)
    ensures ToldAll(Stepped(s, step).sent) == ToldAll(s.sent) + Reported(step)
    ensures NoticesEnd(s.sent) ==> NoticesEnd(Stepped(s, step).sent)
  {
    hide ToldAll, NoticesEnd, Flush, AddParts, TextOf;
    match step
    case Timer => FlushTells(s.(armed := false), true);
    case Line(d) =>
      var r := ParseLine(d, s.currentType);
      var u := Noted(s, r);
      if r.stop {
        var w := AddDetection(u, r.detection);
        FlushTells(w, true);
        var v := if w.text != "" || w.detection != "" then Flush(w, true) else w;
        OneMoreSent(v.sent, r);
        OneMoreSent(v.sent, LineResult(true, true, false, "", [], [], v.currentType, v.messageID));
      } else if r.parsed {
        var w := AddDetection(u, r.detection);
        AddPartsTell(w, r.parts);
        FlushTells(AddParts(w, r.parts), false);
      }
  }

  /** Every error message and every filter notice that a line reports reaches the reader, once and in order, with a
      result that ends the answer, and no other notice does. */
  lemma {:induction false} NoticesReachReader(initialType: string, steps: seq<Step>)
    ensures ToldAll(Steps(Start(initialType), steps).sent) == ReportedAll(steps)
    ensures NoticesEnd(Steps(Start(initialType), steps).sent)
  {
    hide Stepped, Told, Reported;
    if steps != [] {
      var init, last := steps[..|steps| - 1], steps[|steps| - 1];
      NoticesReachReader(initialType, init);
      StepTells(Steps(Start(initialType), init), last);
    }
  }

  lemma NoticesOfRun(initialType: string, steps: seq<Step>)
    ensures ToldAll(Run(initialType, steps).sent) == ReportedAll(steps) && NoticesEnd(Run(initialType, steps).sent)
  {
    NoticesReachReader(initialType, steps);
    hide ToldAll, NoticesEnd, Flush, Steps;
    FlushTells(Steps(Start(initialType), steps).(armed := false), true);
  }

  // ---- how little is kept back

  /** Fewer than sixteen characters of text, and no line break. */
  predicate Little(s: State) {
    |s.text| < 16 && !BreaksLine(s.text)
  }

  lemma JoinBreaks(a: string, b: string)
    requires !BreaksLine(a) && !BreaksLine(b)
    ensures !BreaksLine(a + b)
  {
  }

  lemma {:induction false} AddPartsKeepLine(s: State, parts: seq<Part>)
    requires !BreaksLine(s.text)
    ensures !BreaksLine(AddParts(s, parts).text)
  {
    hide Held;
    if parts != [] {
      var u, p := AddParts(s, parts[..|parts| - 1]), parts[|parts| - 1];
      AddPartsKeepLine(s, parts[..|parts| - 1]);
      if !BreaksLine(p.text) {
        JoinBreaks(u.text, p.text);
      }
      hide BreaksLine;
      FlushClears(u);
      FlushClears(u.(text := u.text + p.text, textKind := p.kind));
      assert !BreaksLine("") by { NoBreakIn(); }
    }
  }

  lemma NoBreakIn()
    ensures !BreaksLine("")
  {
  }

  lemma StepKeepsLittle(s: State, step: Step)
    requires Little(s)
    ensures Little(Stepped(s, step))
  {
    NoBreakIn();
    hide BreaksLine, AddParts, TextOf, Held;
    match step
    case Timer => FlushClears(s.(armed := false));
    case Line(d) =>
      var r := ParseLine(d, s.currentType);
      var u := Noted(s, r);
      if r.stop {
        FlushClears(AddLastParts(AddDetection(u, r.detection), r.parts));
      } else if r.parsed {
        AddPartsKeepLine(AddDetection(u, r.detection), r.parts);
      }
  }

  /** Whatever has arrived, less than sixteen characters of text are kept back, and never a line break. */
  lemma {:induction false} LittleKeptBack(initialType: string, steps: seq<Step>)
    ensures Little(Steps(Start(initialType), steps))
  {
    hide Stepped;
    if steps != [] {
      var init, last := steps[..|steps| - 1], steps[|steps| - 1];
      LittleKeptBack(initialType, init);
      hide Little;
      StepKeepsLittle(Steps(Start(initialType), init), last);
    } else {
      NoBreakIn();
    }
  }

  // ---- types and message identifiers

  /** The type that a line leaves the stream in, and the message identifier it brings, if positive. */
  function TypeAfter(step: Step, current: string): string {
    match step
    case Line(Finished(nextType, _)) => nextType
    case Line(Chunk(_, _, nextType, _)) => nextType
    case _ => current
  }

  function IdAfter(step: Step, pending: int): int {
    match step
    case Line(Finished(_, id)) => if id > 0 then id else pending
    case Line(Chunk(_, _, _, id)) => if id > 0 then id else pending
    case _ => pending
  }

  /** From s to u results are only added, all in the type of s, and the first of them carries the identifier that was
      pending; if there is none, it is still pending. */
  ghost predicate Carries(s: State, u: State) {
    && s.sent <= u.sent && u.currentType == s.currentType
    && (forall i :: |s.sent| <= i < |u.sent| ==> u.sent[i].nextType == s.currentType)
    && (if |u.sent| == |s.sent| then u.messageID == s.messageID else u.sent[|s.sent|].messageID == s.messageID)
  }

  lemma CarriesOn(s: State, u: State, v: State)
    requires Carries(s, u) && Carries(u, v)
    ensures Carries(s, v)
  {
  }

  lemma FlushCarries(s: State, force: bool)
    ensures Carries(s, Flush(s, force))
  {
    hide Held;
  }

  lemma {:induction false} AddPartsCarry(s: State, parts: seq<Part>)
    ensures Carries(s, AddParts(s, parts))
  {
    if parts != [] {
      var u, p := AddParts(s, parts[..|parts| - 1]), parts[|parts| - 1];
      AddPartsCarry(s, parts[..|parts| - 1]);
      hide Flush, BreaksLine;
      var more := u.(text := u.text + p.text, textKind := p.kind);
      FlushCarries(u, true);
      FlushCarries(more, true);
      assert Carries(u, AddPart(u, p));
      hide Carries;
      CarriesOn(s, u, AddPart(u, p));
    }
  }

  /** Every result is sent in the type the last line left, and the first one after a line that brings a message
      identifier carries it, unless that is a notice. */
  lemma StepCarries(s: State, step: Step)
    requires Reported(step) == [] && step != Line(ErrorChunk(""))
    ensures Carries(s.(currentType := TypeAfter(step, s.currentType), messageID := IdAfter(step, s.messageID)),
                    Stepped(s, step))
  {
    hide Flush, AddParts, TextOf, Held;
    match step
    case Timer => FlushCarries(s.(armed := false), true);
    case Line(d) =>
      var r := ParseLine(d, s.currentType);
      var u := Noted(s, r);
      if r.stop {
        StopCarries(u, r);
      } else if r.parsed {
        AcceptCarries(u, r);
      }
  }

  lemma StopCarries(u: State, r: LineResult)
    requires r.stop && r.parts == [] && r.detection == [] && r.errorMessage == "" && !r.contentFilter
    ensures Carries(u, Stopped(u, r))
  {
    NoDetection(u);
    hide Flush, TextOf, Held;
    var v := if u.text != "" || u.detection != "" then Flush(u, true) else u;
    FlushCarries(u, true);
    assert AddLastParts(u, []) == u;
    assert Carries(v, Marked(v, r));
    hide Carries;
    CarriesSelf(u);
    CarriesOn(u, v, Marked(v, r));
  }

  lemma CarriesSelf(s: State)
    ensures Carries(s, s)
  {
  }

  lemma AcceptCarries(u: State, r: LineResult)
    ensures Carries(u, Accepted(u, r))
  {
    var w := AddDetection(u, r.detection);
    AddPartsCarry(w, r.parts);
    var x := AddParts(w, r.parts);
    FlushCarries(x, false);
    var y := if |x.text| >= MIN_CHARS then Flush(x, false) else x;
    CarriesSelf(x);
    hide Flush, AddParts, TextOf;
    CarriesOn(w, x, y);
    assert Carries(u, y);
  }
}
