/** The timer of the pump and its stop markers. */
module PumpTimer {
  import opened Pump

  lemma {:induction false} AddPartsArmed(s: State, parts: seq<Part>)
    requires s.armed ==> HasBuffered(s)
    ensures AddParts(s, parts).armed ==> HasBuffered(AddParts(s, parts))
  {
    hide BreaksLine, Held;
    if parts != [] {
      AddPartsArmed(s, parts[..|parts| - 1]);
    }
  }

  /** Whenever the pump waits, the timer is running exactly when something is buffered, so buffered data
      is sent within the maximum wait. */
  lemma {:induction false} TimerRunsWhileBuffered(initialType: string, steps: seq<Step>)
    ensures var s := Steps(Start(initialType), steps); s.armed <==> HasBuffered(s)
  {
    if steps != [] {
      var init, last := steps[..|steps| - 1], steps[|steps| - 1];
      TimerRunsWhileBuffered(initialType, init);
      StepArmed(Steps(Start(initialType), init), last);
    }
  }

  lemma StepArmed(s: State, step: Step)
    requires s.armed <==> HasBuffered(s)
    ensures Stepped(s, step).armed <==> HasBuffered(Stepped(s, step))
  {
    hide Held, AddParts, TextOf, Flush;
    match step
    case Timer => FlushClears(s.(armed := false));
    case Line(d) =>
      var r := ParseLine(d, s.currentType);
      var u := Noted(s, r);
      if r.stop {
        FlushClears(AddLastParts(AddDetection(u, r.detection), r.parts));
        NoDetection(u);
      } else if r.parsed {
        AcceptedArmed(u, r);
      }
  }

  lemma AcceptedArmed(s: State, r: LineResult)
    requires s.armed ==> HasBuffered(s)
    ensures Accepted(s, r).armed <==> HasBuffered(Accepted(s, r))
  {
    hide Held, AddParts, TextOf;
    AddPartsArmed(AddDetection(s, r.detection), r.parts);
  }

  /** A stop marker overtakes buffered thinking exactly when nothing but thinking is buffered. */
  lemma StopOvertakesThinking(s: State, d: Decoded)
    requires ParseLine(d, s.currentType).stop
    ensures var u := Stepped(s, Line(d));
      && u.text == "" && u.detection == ""
      && (u.thinking != "" <==> s.thinking != "" && s.text == "" && s.detection == "")
      && u.sent != [] && u.sent[|u.sent| - 1].stop
  {
    hide Held;
    var r := ParseLine(d, s.currentType);
    assert r.parts == [] && r.detection == [];
    NoDetection(Noted(s, r));
    FlushClears(Noted(s, r));
  }

  lemma OnePart(s: State, p: Part)
    ensures AddParts(s, [p]) == AddPart(s, p) && TextOf([p]) == p.text && TextOf([]) == "" && AddParts(s, []) == s
  {
    assert [p][..0] == [];
    assert "" + p.text == p.text;
  }

  /** Two short characters of text stay buffered. */
  lemma TextStays(s: State)
    requires s == Start("text")
    ensures Stepped(s, Line(Chunk([Part("hi", "text")], [], "text", 0)))
         == s.(text := "hi", textKind := "text", armed := true)
  {
    hide AddParts, TextOf, Flush;
    OnePart(s, Part("hi", "text"));
    NoDetection(s);
  }

  /** Thinking that follows sends the text together with its own detection text, and stays buffered alone. */
  lemma ThinkingStays(s: State)
    requires s == Start("text").(text := "hi", textKind := "text", armed := true)
    ensures var u := Stepped(s, Line(Chunk([Part("t", "thinking")], [Part("t", "thinking")], "thinking", 0)));
      && u == State("", "t", "", "text", "thinking", true, 0, "thinking", true, u.sent)
      && |u.sent| == 1 && u.sent[0].parts == [Part("hi", "text")] && !u.sent[0].stop
  {
    hide AddParts, TextOf, BreaksLine;
    var noted := s.(currentType := "thinking", detection := "t");
    OnePart(noted, Part("t", "thinking"));
    assert "" + "t" == "t";
    assert [] + [Part("hi", "text")] == [Part("hi", "text")];
  }

  /** The stop marker is sent, and the thinking still is not. */
  lemma StopPasses(s: State)
    requires s.text == "" && s.detection == "" && s.messageID == 0
    ensures var u := Stepped(s, Line(Done));
      u == s.(sent := u.sent) && u.sent == s.sent + [LineResult(true, true, false, "", [], [], s.currentType, 0)]
  {
    hide AddLastParts, TextOf, Flush;
    NoDetection(s);
  }

  /** Such a run: text, then thinking with its detection text, then the end. The flush that sends the text
      takes the detection text along, and the thinking is sent after the stop marker. */
  lemma OvertakenThinking()
    ensures var steps := [Line(Chunk([Part("hi", "text")], [], "text", 0)),
                          Line(Chunk([Part("t", "thinking")], [Part("t", "thinking")], "thinking", 0)),
                          Line(Done)];
      var sent := Run("text", steps).sent;
      && |sent| == 3 && sent[0].parts == [Part("hi", "text")]
      && sent[1].stop && sent[1].parts == [] && sent[2].parts == [Part("t", "thinking")]
  {
    var one, two := Line(Chunk([Part("hi", "text")], [], "text", 0)),
                    Line(Chunk([Part("t", "thinking")], [Part("t", "thinking")], "thinking", 0));
    hide Stepped;
    var s0 := Start("text");
    var s1, steps := Stepped(s0, one), [one, two, Line(Done)];
    var s2 := Stepped(s1, two);
    TextStays(s0);
    ThinkingStays(s1);
    StopPasses(s2);
    assert steps[..2] == [one, two] && steps[..2][..1] == [one] && [one][..0] == [];
    assert Steps(s0, [one]) == s1;
    assert Steps(s0, steps[..2]) == s2;
    assert Steps(s0, steps) == Stepped(s2, Line(Done));
    hide Steps;
    assert [Part("t", "thinking")] + [] == [Part("t", "thinking")];
  }

  function StopsSent(sent: seq<LineResult>): nat {
    if sent == [] then 0 else StopsSent(sent[..|sent| - 1]) + (if sent[|sent| - 1].stop then 1 else 0)
  }

  predicate StopsLine(step: Step) {
    step.Line? && !step.decoded.Unparsed? && !step.decoded.Chunk?
  }

  function StopsIn(steps: seq<Step>): nat {
    if steps == [] then 0 else StopsIn(steps[..|steps| - 1]) + (if StopsLine(steps[|steps| - 1]) then 1 else 0)
  }

  /** One stop marker is sent for every finishing line. */
  lemma {:induction false} StopsMatch(initialType: string, steps: seq<Step>)
    ensures StopsSent(Steps(Start(initialType), steps).sent) == StopsIn(steps)
  {
    if steps != [] {
      var init, last := steps[..|steps| - 1], steps[|steps| - 1];
      StopsMatch(initialType, init);
      StepStops(Steps(Start(initialType), init), last);
    }
  }

  lemma StopOne(sent: seq<LineResult>, r: LineResult)
    ensures StopsSent(sent + [r]) == StopsSent(sent) + if r.stop then 1 else 0
  {
    assert (sent + [r])[..|sent + [r]| - 1] == sent;
  }

  lemma FlushStops(s: State, force: bool)
    ensures StopsSent(Flush(s, force).sent) == StopsSent(s.sent)
  {
    hide StopsSent, Held;
    var parts := Held(s.thinking, s.thinkingKind) + Held(s.text, s.textKind);
    StopOne(s.sent, LineResult(true, false, false, "", parts, Held(s.detection, "thinking"), s.currentType,
      s.messageID));
  }

  lemma {:induction false} AddPartsStops(s: State, parts: seq<Part>)
    ensures StopsSent(AddParts(s, parts).sent) == StopsSent(s.sent)
  {
    hide StopsSent, Flush, BreaksLine;
    if parts != [] {
      var u, p := AddParts(s, parts[..|parts| - 1]), parts[|parts| - 1];
      AddPartsStops(s, parts[..|parts| - 1]);
      FlushStops(u, true);
      FlushStops(u.(text := u.text + p.text, textKind := p.kind), true);
    }
  }

  lemma StepStops(s: State, step: Step)
    ensures StopsSent(Stepped(s, step).sent) == StopsSent(s.sent) + if StopsLine(step) then 1 else 0
  {
    hide StopsSent, Flush, AddParts, TextOf;
    match step
    case Timer => FlushStops(s.(armed := false), true);
    case Line(d) =>
      var r := ParseLine(d, s.currentType);
      var u := Noted(s, r);
      if r.stop {
        var w := AddDetection(u, r.detection);
        FlushStops(w, true);
        var v := if w.text != "" || w.detection != "" then Flush(w, true) else w;
        StopOne(v.sent, r);
        StopOne(v.sent, LineResult(true, true, false, "", [], [], v.currentType, v.messageID));
      } else if r.parsed {
        var w := AddDetection(u, r.detection);
        AddPartsStops(w, r.parts);
        FlushStops(AddParts(w, r.parts), false);
      }
  }
}
