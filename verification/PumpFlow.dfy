/** Every step of the pump conserves the stream: what was parsed is what was sent and what is buffered. */
module PumpFlow {
  import opened Pump

  function Chars<T>(t: T, s: string): seq<(T, char)> {
    if s == "" then [] else Chars(t, s[..|s| - 1]) + [(t, s[|s| - 1])]
  }

  /** The characters of the parts, each with the tag of its kind. */
  function Flat<T>(tag: string -> T, parts: seq<Part>): seq<(T, char)> {
    if parts == [] then []
    else Flat(tag, parts[..|parts| - 1]) + Chars(tag(parts[|parts| - 1].kind), parts[|parts| - 1].text)
  }

  function PartsSent(sent: seq<LineResult>): seq<Part> {
    if sent == [] then [] else PartsSent(sent[..|sent| - 1]) + sent[|sent| - 1].parts
  }

  function DetectionSent(sent: seq<LineResult>): string {
    if sent == [] then "" else DetectionSent(sent[..|sent| - 1]) + TextOf(sent[|sent| - 1].detection)
  }

  function PartsIn(steps: seq<Step>): seq<Part> {
    if steps == [] then []
    else
      var last := steps[|steps| - 1];
      PartsIn(steps[..|steps| - 1]) + (if last.Line? && last.decoded.Chunk? then last.decoded.parts else [])
  }

  function DetectionIn(steps: seq<Step>): string {
    if steps == [] then ""
    else
      var last := steps[|steps| - 1];
      DetectionIn(steps[..|steps| - 1]) +
        (if last.Line? && last.decoded.Chunk? then TextOf(last.decoded.detection) else "")
  }

  /** Every part that is not thinking is tagged t. */
  ghost predicate Uniform<T(!new)>(tag: string -> T, t: T, parts: seq<Part>) {
    forall i :: 0 <= i < |parts| && parts[i].kind != "thinking" ==> tag(parts[i].kind) == t
  }

  /** What was parsed is what was sent, then the buffered thinking, then the buffered text. */
  ghost predicate Conserved<T(!new)>(tag: string -> T, t: T, s: State, input: seq<Part>, detection: string) {
    && Flat(tag, input) == Flat(tag, PartsSent(s.sent)) + (Chars(tag("thinking"), s.thinking) + Chars(t, s.text))
    && detection == DetectionSent(s.sent) + s.detection
    && (s.thinking != "" ==> s.thinkingKind == "thinking")
    && (s.text != "" ==> tag(s.textKind) == t)
  }

  lemma {:induction false} CharsAppend<T>(t: T, a: string, b: string)
    ensures Chars(t, a + b) == Chars(t, a) + Chars(t, b)
    decreases |b|
  {
    if b == "" {
      assert a + b == a;
    } else {
      assert (a + b)[..|a + b| - 1] == a + b[..|b| - 1];
      CharsAppend(t, a, b[..|b| - 1]);
    }
  }

  lemma {:induction false} FlatAppend<T>(tag: string -> T, a: seq<Part>, b: seq<Part>)
    ensures Flat(tag, a + b) == Flat(tag, a) + Flat(tag, b)
    decreases |b|
  {
    if b == [] {
      assert a + b == a;
    } else {
      assert (a + b)[..|a + b| - 1] == a + b[..|b| - 1];
      FlatAppend(tag, a, b[..|b| - 1]);
    }
  }

  lemma FlatHeld<T>(tag: string -> T, text: string, kind: string)
    ensures Flat(tag, Held(text, kind)) == Chars(tag(kind), text)
  {
    hide Chars;
    if text == "" {
      assert Chars(tag(kind), text) == [] by { CharsEmpty(tag(kind)); }
    } else {
      assert [Part(text, kind)][..0] == [];
    }
  }

  lemma CharsEmpty<T>(t: T)
    ensures Chars(t, "") == []
  {
  }

  lemma SentOne(sent: seq<LineResult>, r: LineResult)
    ensures PartsSent(sent + [r]) == PartsSent(sent) + r.parts
    ensures DetectionSent(sent + [r]) == DetectionSent(sent) + TextOf(r.detection)
  {
    assert (sent + [r])[..|sent + [r]| - 1] == sent;
  }

  lemma TextHeld(text: string, kind: string)
    ensures TextOf(Held(text, kind)) == text
  {
    if text != "" {
      assert [Part(text, kind)][..0] == [];
    }
  }

  /** A flush moves the buffers to the output in order and, when it happens, leaves nothing behind. */
  lemma FlushConserves<T(!new)>(tag: string -> T, t: T, s: State, force: bool, input: seq<Part>, detection: string)
    requires Conserved(tag, t, s, input, detection)
    ensures Conserved(tag, t, Flush(s, force), input, detection)
  {
    hide Flat, Chars, PartsSent, DetectionSent, TextOf, Held;
    var u := Flush(s, force);
    var a, b := Held(s.thinking, s.thinkingKind), Held(s.text, s.textKind);
    if u.text == "" && u.thinking == "" && u.detection == "" && u.anyFlushed {
      FlatHeld(tag, s.thinking, s.thinkingKind);
      FlatHeld(tag, s.text, s.textKind);
      FlatAppend(tag, a, b);
      TextHeld(s.detection, "thinking");
      CharsEmpty(tag("thinking"));
      CharsEmpty(t);
      CharsEmpty(tag(s.thinkingKind));
      CharsEmpty(tag(s.textKind));
      FlushedFlat(tag, t, s, a, b);
      var r := LineResult(true, false, false, "", a + b, Held(s.detection, "thinking"), s.currentType, s.messageID);
      SentOne(s.sent, r);
      FlatAppend(tag, PartsSent(s.sent), a + b);
    }
  }

  lemma FlushedFlat<T(!new)>(tag: string -> T, t: T, s: State, a: seq<Part>, b: seq<Part>)
    requires s.thinking != "" ==> s.thinkingKind == "thinking"
    requires s.text != "" ==> tag(s.textKind) == t
    requires a == Held(s.thinking, s.thinkingKind) && b == Held(s.text, s.textKind)
    ensures Flat(tag, a + b) == Chars(tag("thinking"), s.thinking) + Chars(t, s.text)
    ensures a + b == [] <==> s.thinking == "" && s.text == ""
  {
    hide Flat, Chars;
    FlatHeld(tag, s.thinking, s.thinkingKind);
    FlatHeld(tag, s.text, s.textKind);
    FlatAppend(tag, a, b);
    CharsEmpty(tag("thinking"));
    CharsEmpty(t);
    CharsEmpty(tag(s.thinkingKind));
    CharsEmpty(tag(s.textKind));
  }

  ghost predicate PartOk<T(!new)>(tag: string -> T, t: T, p: Part) {
    p.kind == "thinking" || tag(p.kind) == t
  }

  /** Thinking goes behind the buffered thinking only once no text is buffered. */
  lemma AddPartConserves<T(!new)>(tag: string -> T, t: T, s: State, p: Part, input: seq<Part>, detection: string)
    requires Conserved(tag, t, s, input, detection) && PartOk(tag, t, p)
    ensures Conserved(tag, t, AddPart(s, p), input + [p], detection)
  {
    hide Flat, Chars, PartsSent, DetectionSent, Flush, BreaksLine;
    FlatAppend(tag, input, [p]);
    FlatOne(tag, p);
    if p.kind == "thinking" {
      var u := if s.text != "" then Flush(s, true) else s;
      FlushConserves(tag, t, s, true, input, detection);
      FlushClears(s);
      CharsAppend(tag("thinking"), u.thinking, p.text);
      CharsEmpty(t);
    } else {
      CharsAppend(t, s.text, p.text);
      var u := s.(text := s.text + p.text, textKind := p.kind);
      assert Conserved(tag, t, u, input + [p], detection) by {
        Regroup(Flat(tag, PartsSent(s.sent)), Chars(tag("thinking"), s.thinking), Chars(t, s.text), Chars(t, p.text));
      }
      FlushConserves(tag, t, u, true, input + [p], detection);
    }
  }

  lemma Regroup<T>(a: seq<T>, b: seq<T>, c: seq<T>, d: seq<T>)
    ensures a + (b + c) + d == a + (b + (c + d))
  {
  }

  lemma FlatOne<T>(tag: string -> T, p: Part)
    ensures Flat(tag, [p]) == Chars(tag(p.kind), p.text)
  {
    assert [p][..0] == [];
  }

  lemma {:induction false} AddPartsConserves<T(!new)>(tag: string -> T, t: T, s: State, parts: seq<Part>,
                                                     input: seq<Part>, detection: string)
    requires Conserved(tag, t, s, input, detection) && Uniform(tag, t, parts)
    ensures Conserved(tag, t, AddParts(s, parts), input + parts, detection)
  {
    hide Conserved, AddPart;
    if parts == [] {
      assert input + parts == input;
    } else {
      var init, last := parts[..|parts| - 1], parts[|parts| - 1];
      assert forall i :: 0 <= i < |init| ==> init[i] == parts[i];
      AddPartsConserves(tag, t, s, init, input, detection);
      AddPartConserves(tag, t, AddParts(s, init), last, input + init, detection);
      assert input + init + [last] == input + parts;
    }
  }

  lemma AcceptedConserves<T(!new)>(tag: string -> T, t: T, s: State, r: LineResult, input: seq<Part>, detection: string)
    requires Conserved(tag, t, s, input, detection) && Uniform(tag, t, r.parts)
    ensures Conserved(tag, t, Accepted(s, r), input + r.parts, detection + TextOf(r.detection))
  {
    hide Flat, Chars, PartsSent, DetectionSent, Flush, AddParts, TextOf;
    var d := AddDetection(s, r.detection);
    assert Conserved(tag, t, d, input, detection + TextOf(r.detection));
    AddPartsConserves(tag, t, d, r.parts, input, detection + TextOf(r.detection));
    FlushConserves(tag, t, AddParts(d, r.parts), false, input + r.parts, detection + TextOf(r.detection));
  }

  lemma IdConserves<T(!new)>(tag: string -> T, t: T, s: State, input: seq<Part>, detection: string)
    requires Conserved(tag, t, s, input, detection)
    ensures Conserved(tag, t, s.(messageID := 0), input, detection)
  {
  }

  lemma StopConserves<T(!new)>(tag: string -> T, t: T, v: State, r: LineResult, input: seq<Part>, detection: string)
    requires Conserved(tag, t, v, input, detection) && r.parts == [] && r.detection == []
    ensures Conserved(tag, t, v.(sent := v.sent + [r]), input, detection)
  {
    hide Flat, Chars, PartsSent, DetectionSent;
    SentOne(v.sent, r);
    assert PartsSent(v.sent) + [] == PartsSent(v.sent) && DetectionSent(v.sent) + "" == DetectionSent(v.sent);
  }

  lemma MarkedConserves<T(!new)>(tag: string -> T, t: T, v: State, r: LineResult, input: seq<Part>, detection: string)
    requires Conserved(tag, t, v, input, detection) && r.parts == [] && r.detection == []
    ensures Conserved(tag, t, Marked(v, r), input, detection)
  {
    hide Conserved;
    StopConserves(tag, t, v, r, input, detection);
    IdConserves(tag, t, v, input, detection);
    StopConserves(tag, t, v.(messageID := 0), LineResult(true, true, false, "", [], [], v.currentType, v.messageID),
                  input, detection);
  }

  /** A finishing result without parts flushes what is buffered unless that is thinking alone. */
  lemma StoppedQuietly(s: State, r: LineResult)
    requires r.parts == [] && r.detection == []
    ensures Stopped(s, r) == Marked(if s.text != "" || s.detection != "" then Flush(s, true) else s, r)
  {
    NoDetection(s);
  }

  lemma StepConserves<T(!new)>(tag: string -> T, t: T, s: State, step: Step, input: seq<Part>, detection: string)
    requires Conserved(tag, t, s, input, detection)
    requires step.Line? && step.decoded.Chunk? ==> Uniform(tag, t, step.decoded.parts)
    ensures Conserved(tag, t, Stepped(s, step),
      input + (if step.Line? && step.decoded.Chunk? then step.decoded.parts else []),
      detection + (if step.Line? && step.decoded.Chunk? then TextOf(step.decoded.detection) else ""))
  {
    hide Flat, Chars, PartsSent, DetectionSent, Flush, AddParts, TextOf, Stopped, Accepted, Marked;
    assert input + [] == input && detection + "" == detection;
    match step
    case Timer => FlushConserves(tag, t, s.(armed := false), true, input, detection);
    case Line(d) =>
      var r := ParseLine(d, s.currentType);
      var u := Noted(s, r);
      assert Conserved(tag, t, u, input, detection);
      if r.stop {
        StoppedQuietly(u, r);
        FlushConserves(tag, t, u, true, input, detection);
        MarkedConserves(tag, t, if u.text != "" || u.detection != "" then Flush(u, true) else u, r, input, detection);
      } else if r.parsed {
        AcceptedConserves(tag, t, u, r, input, detection);
      }
  }
}
