/** Whole runs of the pump, under any schedule of lines and timer firings, lose and reorder nothing. */
module PumpRuns {
  import opened Pump
  import opened PumpFlow

  lemma UniformSplit<T(!new)>(tag: string -> T, t: T, a: seq<Part>, b: seq<Part>)
    requires Uniform(tag, t, a + b)
    ensures Uniform(tag, t, a) && Uniform(tag, t, b)
  {
    assert forall i :: 0 <= i < |a| ==> a[i] == (a + b)[i];
    assert forall i :: 0 <= i < |b| ==> b[i] == (a + b)[|a| + i];
  }

  lemma {:induction false} StepsConserve<T(!new)>(tag: string -> T, t: T, initialType: string, steps: seq<Step>)
    requires Uniform(tag, t, PartsIn(steps))
    ensures Conserved(tag, t, Steps(Start(initialType), steps), PartsIn(steps), DetectionIn(steps))
  {
    if steps != [] {
      hide Flat, Chars, PartsSent, DetectionSent, Stepped, TextOf;
      var init, last := steps[..|steps| - 1], steps[|steps| - 1];
      var more := if last.Line? && last.decoded.Chunk? then last.decoded.parts else [];
      assert PartsIn(steps) == PartsIn(init) + more;
      UniformSplit(tag, t, PartsIn(init), more);
      StepsConserve(tag, t, initialType, init);
      hide Conserved, Uniform, Stepped;
      StepConserves(tag, t, Steps(Start(initialType), init), last, PartsIn(init), DetectionIn(init));
    }
  }

  lemma RunConserves<T(!new)>(tag: string -> T, t: T, initialType: string, steps: seq<Step>)
    requires Uniform(tag, t, PartsIn(steps))
    ensures var s := Run(initialType, steps);
      && Flat(tag, PartsSent(s.sent)) == Flat(tag, PartsIn(steps))
      && DetectionSent(s.sent) == DetectionIn(steps)
      && !HasBuffered(s)
  {
    StepsConserve(tag, t, initialType, steps);
    hide Flat, Chars, PartsSent, DetectionSent, Flush, Steps, Uniform;
    var s := Steps(Start(initialType), steps).(armed := false);
    FlushConserves(tag, t, s, true, PartsIn(steps), DetectionIn(steps));
    FlushClears(s);
    CharsEmpty(tag("thinking"));
    CharsEmpty(t);
    assert forall x: seq<(T, char)> :: x + ([] + []) == x;
    assert DetectionSent(Run(initialType, steps).sent) + "" == DetectionSent(Run(initialType, steps).sent);
  }

  /** The sequence of (thinking or not, character) sent is the one parsed, and so is the detection text,
      for any lines of any kinds and any schedule of timer firings. */
  lemma NothingLostOrReordered(initialType: string, steps: seq<Step>)
    ensures var s := Run(initialType, steps);
      && Flat(IsThinking, PartsSent(s.sent)) == Flat(IsThinking, PartsIn(steps))
      && DetectionSent(s.sent) == DetectionIn(steps)
      && !HasBuffered(s)
  {
    RunConserves(IsThinking, false, initialType, steps);
  }

  predicate IsThinking(kind: string) {
    kind == "thinking"
  }

  function Itself(kind: string): string {
    kind
  }

  /** With one kind besides thinking, the sequence of (type, character) is preserved exactly. */
  lemma TypesPreserved(initialType: string, steps: seq<Step>, kind: string)
    requires forall i :: 0 <= i < |PartsIn(steps)| ==>
      PartsIn(steps)[i].kind == "thinking" || PartsIn(steps)[i].kind == kind
    ensures Flat(Itself, PartsSent(Run(initialType, steps).sent)) == Flat(Itself, PartsIn(steps))
  {
    RunConserves(Itself, kind, initialType, steps);
  }
}
