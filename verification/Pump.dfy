/** internal/sse/stream.go: the pump that coalesces parsed stream lines, in its production setting
    (accumulation on, flush at 16 characters, on a line break, on finish, and when the timer fires). */
module Pump {
  datatype Part = Part(text: string, kind: string)

  datatype LineResult = LineResult(
    parsed: bool, stop: bool, contentFilter: bool, errorMessage: string,
    parts: seq<Part>, detection: seq<Part>, nextType: string, messageID: int)

  // ---- one line (internal/sse/line.go)

  /** What decoding a line and looking at its JSON object yields; the content parser is a parameter. */
  datatype Decoded =
    | Unparsed
    | Done
    | ErrorChunk(message: string)
    | FilteredChunk
    | Finished(nextType: string, id: int)
    | Chunk(parts: seq<Part>, detection: seq<Part>, nextType: string, id: int)

  /** ParseDeepSeekContentLine */
  function ParseLine(d: Decoded, currentType: string): LineResult {
    match d
    case Unparsed => LineResult(false, false, false, "", [], [], currentType, 0)
    case Done => LineResult(true, true, false, "", [], [], currentType, 0)
    case ErrorChunk(message) => LineResult(true, true, false, message, [], [], currentType, 0)
    case FilteredChunk => LineResult(true, true, true, "", [], [], currentType, 0)
    case Finished(nextType, id) => LineResult(true, true, false, "", [], [], nextType, id)
    case Chunk(parts, detection, nextType, id) => LineResult(true, false, false, "", parts, detection, nextType, id)
  }

  // ---- the machine

  datatype State = State(
    text: string, thinking: string, detection: string, textKind: string, thinkingKind: string,
    anyFlushed: bool, messageID: int, currentType: string, armed: bool, sent: seq<LineResult>)

  const MIN_CHARS := 16

  function Start(initialType: string): State {
    State("", "", "", "", "", false, 0, initialType, false, [])
  }

  predicate HasBuffered(s: State) {
    s.text != "" || s.thinking != "" || s.detection != ""
  }

  function Held(text: string, kind: string): seq<Part> {
    if text == "" then [] else [Part(text, kind)]
  }

  /** flushBuffer: thinking before text, both in one result with the detection text. */
  function Flush(s: State, force: bool): State {
    if !(force || !s.anyFlushed || |s.text| >= MIN_CHARS || (|s.thinking| > 0 && |s.text| >= 50)) then s
    else
      var parts := Held(s.thinking, s.thinkingKind) + Held(s.text, s.textKind);
      var u := s.(text := "", thinking := "", detection := "", anyFlushed := true, armed := false);
      if parts == [] && s.detection == "" then u
      else
        u.(messageID := 0,
           sent := s.sent + [LineResult(true, false, false, "", parts, Held(s.detection, "thinking"), s.currentType,
             s.messageID)])
  }

  predicate BreaksLine(text: string) {
    exists i :: 0 <= i < |text| && (text[i] == '\n' || text[i] == '\r')
  }

  function AddPart(s: State, p: Part): State {
    if p.kind == "thinking" then
      var u := if s.text != "" then Flush(s, true) else s;
      u.(thinking := u.thinking + p.text, thinkingKind := "thinking")
    else
      var u := s.(text := s.text + p.text, textKind := p.kind);
      if BreaksLine(p.text) then Flush(u, true) else u
  }

  function AddParts(s: State, parts: seq<Part>): State {
    if parts == [] then s else AddPart(AddParts(s, parts[..|parts| - 1]), parts[|parts| - 1])
  }

  function TextOf(parts: seq<Part>): string {
    if parts == [] then "" else TextOf(parts[..|parts| - 1]) + parts[|parts| - 1].text
  }

  function AddDetection(s: State, parts: seq<Part>): State {
    s.(detection := s.detection + TextOf(parts))
  }

  /** The buffering of a finishing result does not flush between parts. */
  function AddLastPart(s: State, p: Part): State {
    if p.kind == "thinking" then s.(thinking := s.thinking + p.text, thinkingKind := "thinking")
    else s.(text := s.text + p.text, textKind := p.kind)
  }

  function AddLastParts(s: State, parts: seq<Part>): State {
    if parts == [] then s else AddLastPart(AddLastParts(s, parts[..|parts| - 1]), parts[|parts| - 1])
  }

  function Noted(s: State, r: LineResult): State {
    s.(currentType := r.nextType, messageID := if r.messageID > 0 then r.messageID else s.messageID)
  }

  /** The stop marker: the result itself when it carries an error or a filter notice, else a plain one. */
  function Marked(v: State, r: LineResult): State {
    if r.errorMessage != "" || r.contentFilter then v.(sent := v.sent + [r])
    else
      v.(messageID := 0, sent := v.sent + [LineResult(true, true, false, "", [], [], v.currentType, v.messageID)])
  }

  function Stopped(s: State, r: LineResult): State {
    var u := AddDetection(s, r.detection);
    var v := if u.text != "" || r.parts != [] || u.detection != "" then Flush(AddLastParts(u, r.parts), true) else u;
    Marked(v, r)
  }

  function Accepted(s: State, r: LineResult): State {
    var u := AddParts(AddDetection(s, r.detection), r.parts);
    var v := if |u.text| >= MIN_CHARS then Flush(u, false) else u;
    v.(armed := v.armed || HasBuffered(v))
  }

  /** processLine */
  function Process(s: State, r: LineResult): State {
    var u := Noted(s, r);
    if r.stop then Stopped(u, r) else if !r.parsed then u else Accepted(u, r)
  }

  /** The timer fires. */
  function Fired(s: State): State {
    var u := s.(armed := false);
    if HasBuffered(u) then Flush(u, true) else u
  }

  datatype Step = Line(decoded: Decoded) | Timer

  function Stepped(s: State, step: Step): State {
    match step
    case Line(d) => Process(s, ParseLine(d, s.currentType))
    case Timer => Fired(s)
  }

  function Steps(s: State, steps: seq<Step>): State {
    if steps == [] then s else Stepped(Steps(s, steps[..|steps| - 1]), steps[|steps| - 1])
  }

  /** A whole run: the lines and timer firings in any order, then the flush at the end of the stream. */
  function Run(initialType: string, steps: seq<Step>): State {
    Flush(Steps(Start(initialType), steps).(armed := false), true)
  }

  lemma NoDetection(s: State)
    ensures AddDetection(s, []) == s
  {
    assert s.detection + "" == s.detection;
  }

  lemma FlushClears(s: State)
    ensures var u := Flush(s, true); u.text == "" && u.thinking == "" && u.detection == "" && !u.armed
  {
  }

  // ---- the goroutine

  /** The buffers, flags and output channel that the closures of the pump share. */
  class Pump {
    var textBuffer: string
    var thinkingBuffer: string
    var detectionBuffer: string
    var textPendingType: string
    var thinkingPendingType: string
    var anyFlushed: bool
    var pendingResponseMessageID: int
    var currentType: string
    var maxWaitActive: bool
    var out: seq<LineResult>

    function View(): State
      reads this
    {
      State(textBuffer, thinkingBuffer, detectionBuffer, textPendingType, thinkingPendingType, anyFlushed,
            pendingResponseMessageID, currentType, maxWaitActive, out)
    }

    constructor (initialType: string)
      ensures View() == Start(initialType)
    {
      textBuffer, thinkingBuffer, detectionBuffer := "", "", "";
      textPendingType, thinkingPendingType := "", "";
      anyFlushed, pendingResponseMessageID, currentType, maxWaitActive, out := false, 0, initialType, false, [];
    }

    method FlushBuffer(force: bool)
      modifies this
      ensures View() == Flush(old(View()), force)
    {
      var textChars, thinkingChars := |textBuffer|, |thinkingBuffer|;
      var shouldFlush := force || !anyFlushed || textChars >= MIN_CHARS || (thinkingChars > 0 && textChars >= 50);
      if !shouldFlush {
        return;
      }
      anyFlushed := true;
      var parts := [];
      if thinkingChars > 0 {
        parts := parts + [Part(thinkingBuffer, thinkingPendingType)];
        thinkingBuffer := "";
      }
      if textChars > 0 {
        parts := parts + [Part(textBuffer, textPendingType)];
        textBuffer := "";
      }
      assert parts == Held(old(thinkingBuffer), thinkingPendingType) + Held(old(textBuffer), textPendingType);
      if |parts| > 0 || detectionBuffer != "" {
        var detectionParts := [];
        if detectionBuffer != "" {
          detectionParts := [Part(detectionBuffer, "thinking")];
          detectionBuffer := "";
        }
        out := out + [LineResult(true, false, false, "", parts, detectionParts, currentType, pendingResponseMessageID)];
        pendingResponseMessageID := 0;
      }
      maxWaitActive := textBuffer != "" || thinkingBuffer != "" || detectionBuffer != "";
    }

    method WriteDetection(parts: seq<Part>)
      modifies this`detectionBuffer
      ensures View() == AddDetection(old(View()), parts)
    {
      assert detectionBuffer + "" == detectionBuffer;
      for i := 0 to |parts|
        invariant detectionBuffer == old(detectionBuffer) + TextOf(parts[..i])
      {
        assert parts[..i + 1][..i] == parts[..i];
        detectionBuffer := detectionBuffer + parts[i].text;
      }
      assert parts[..|parts|] == parts;
    }

    method WriteParts(parts: seq<Part>)
      modifies this
      ensures View() == AddParts(old(View()), parts)
    {
      hide Flush, BreaksLine;
      for i := 0 to |parts|
        invariant View() == AddParts(old(View()), parts[..i])
      {
        assert parts[..i + 1][..i] == parts[..i];
        var p := parts[i];
        if p.kind == "thinking" {
          if textBuffer != "" {
            FlushBuffer(true);
          }
          thinkingBuffer := thinkingBuffer + p.text;
          thinkingPendingType := "thinking";
        } else {
          textBuffer := textBuffer + p.text;
          textPendingType := p.kind;
          if BreaksLine(p.text) {
            FlushBuffer(true);
          }
        }
      }
      assert parts[..|parts|] == parts;
    }

    method WriteLastParts(parts: seq<Part>)
      modifies this`textBuffer, this`thinkingBuffer, this`textPendingType, this`thinkingPendingType
      ensures View() == AddLastParts(old(View()), parts)
    {
      for i := 0 to |parts|
        invariant View() == AddLastParts(old(View()), parts[..i])
      {
        assert parts[..i + 1][..i] == parts[..i];
        var p := parts[i];
        if p.kind == "thinking" {
          thinkingBuffer := thinkingBuffer + p.text;
          thinkingPendingType := "thinking";
        } else {
          textBuffer := textBuffer + p.text;
          textPendingType := p.kind;
        }
      }
      assert parts[..|parts|] == parts;
    }

    method FinishLine(r: LineResult)
      modifies this
      ensures View() == Stopped(old(View()), r)
    {
      hide Flush, AddLastParts, TextOf;
      WriteDetection(r.detection);
      if textBuffer != "" || |r.parts| > 0 || detectionBuffer != "" {
        WriteLastParts(r.parts);
        FlushBuffer(true);
      }
      if r.errorMessage != "" || r.contentFilter {
        out := out + [r];
      } else {
        out := out + [LineResult(true, true, false, "", [], [], currentType, pendingResponseMessageID)];
        pendingResponseMessageID := 0;
      }
    }

    method AcceptLine(r: LineResult)
      modifies this
      ensures View() == Accepted(old(View()), r)
    {
      hide Flush, AddParts, TextOf;
      WriteDetection(r.detection);
      WriteParts(r.parts);
      if |textBuffer| >= MIN_CHARS {
        FlushBuffer(false);
      }
      if HasBuffered(View()) && !maxWaitActive {
        maxWaitActive := true;
      }
    }

    method ProcessLine(r: LineResult)
      modifies this
      ensures View() == Process(old(View()), r)
    {
      hide Stopped, Accepted;
      currentType := r.nextType;
      if r.messageID > 0 {
        pendingResponseMessageID := r.messageID;
      }
      if r.stop {
        FinishLine(r);
        return;
      }
      if !r.parsed {
        return;
      }
      AcceptLine(r);
    }

    /** The select loop over a schedule of lines and timer firings, up to the end of the stream. */
    method Loop(steps: seq<Step>)
      modifies this
      ensures View() == Flush(Steps(old(View()), steps).(armed := false), true)
    {
      hide Flush, Process, ParseLine;
      for i := 0 to |steps|
        invariant View() == Steps(old(View()), steps[..i])
      {
        assert steps[..i + 1][..i] == steps[..i];
        match steps[i] {
          case Line(d) => ProcessLine(ParseLine(d, currentType));
          case Timer =>
            maxWaitActive := false;
            if HasBuffered(View()) {
              FlushBuffer(true);
            }
        }
      }
      assert steps[..|steps|] == steps;
      maxWaitActive := false;
      FlushBuffer(true);
    }
  }
}
