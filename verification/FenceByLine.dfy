/** The fence automaton, which reads one character at a time, against the reading of Markdown line by line. */
module FenceByLine {
  import opened Text
  import opened Fence
  import M = Markup

  /** The fence marker a line begins with, behind spaces and tabs: the number of its backticks, or the negative number
      of its tildes, if there are three or more; otherwise zero. */
  function LineMarker(line: string): int {
    BareMarker(Bare(line))
  }

  /** The line without its indentation. */
  function Bare(line: string): string {
    TrimLeft(line, " \t")
  }

  /** The marker of a line without indentation. */
  function BareMarker(t: string): int {
    if t == "" then 0
    else if t[0] == '`' && M.LeadingRun(t, '`') >= 3 then M.LeadingRun(t, '`')
    else if t[0] == '~' && M.LeadingRun(t, '~') >= 3 then -(M.LeadingRun(t, '~') as int)
    else 0
  }

  /** The open fences after some lines. */
  function OpenAfter(lines: seq<string>): seq<int> {
    if lines == [] then [] else Marked(OpenAfter(lines[..|lines| - 1]), LineMarker(lines[|lines| - 1]))
  }

  function Ended(lines: seq<string>): string {
    if lines == [] then "" else Ended(lines[..|lines| - 1]) + lines[|lines| - 1] + "\n"
  }

  predicate Unbroken(line: string) {
    forall i :: 0 <= i < |line| ==> line[i] != '\n' && line[i] != '\r'
  }

  // ---- one line

  /** Past the start of a line nothing counts until the line ends. */
  lemma {:induction false} Idle(f: Fences, text: string)
    requires !f.lineStart && Unbroken(text)
    ensures After(f, text).stack == f.stack && !After(f, text).lineStart
  {
    if text != "" {
      Idle(f, text[..|text| - 1]);
    }
  }

  lemma {:induction false} Ticks(stack: seq<int>, text: string)
    requires forall i :: 0 <= i < |text| ==> text[i] == '`'
    ensures After(Fences(stack, 0, 0, true), text) == Fences(stack, |text|, 0, true)
  {
    if text != "" {
      Ticks(stack, text[..|text| - 1]);
    }
  }

  lemma {:induction false} Tildes(stack: seq<int>, text: string)
    requires forall i :: 0 <= i < |text| ==> text[i] == '~'
    ensures After(Fences(stack, 0, 0, true), text) == Fences(stack, 0, |text|, true)
  {
    if text != "" {
      Tildes(stack, text[..|text| - 1]);
    }
  }

  lemma {:induction false} RunIs(t: string, c: char)
    ensures var n := M.LeadingRun(t, c);
      (forall i :: 0 <= i < n ==> t[i] == c) && (n < |t| ==> t[n] != c)
  {
    if t != "" && t[0] == c {
      RunIs(t[1..], c);
    }
  }

  lemma NotBlankIn(c: char)
    ensures c in " \t" <==> c == ' ' || c == '\t'
  {
  }

  lemma {:induction false} Indented(s: string) returns (blanks: string)
    ensures s == blanks + Bare(s) && (Bare(s) != "" ==> Bare(s)[0] != ' ' && Bare(s)[0] != '\t')
    ensures forall i :: 0 <= i < |blanks| ==> blanks[i] == ' ' || blanks[i] == '\t'
    decreases |s|
  {
    hide *;
    BareStep(s);
    if s != "" && (s[0] == ' ' || s[0] == '\t') {
      var rest := Indented(s[1..]);
      blanks := [s[0]] + rest;
      assert s == [s[0]] + s[1..];
      assert s == blanks + Bare(s);
    } else {
      blanks := "";
      assert s == blanks + s;
    }
  }

  lemma BareStep(s: string)
    ensures Bare(s) == if s != "" && (s[0] == ' ' || s[0] == '\t') then Bare(s[1..]) else s
  {
    if s != "" {
      NotBlankIn(s[0]);
    }
  }

  lemma StillUnbroken(a: string, b: string)
    requires Unbroken(a + b)
    ensures Unbroken(b)
  {
    assert forall i :: 0 <= i < |b| ==> b[i] == (a + b)[|a| + i];
  }

  lemma {:induction false} BlanksPass(stack: seq<int>, text: string)
    requires forall i :: 0 <= i < |text| ==> text[i] == ' ' || text[i] == '\t'
    ensures After(Fences(stack, 0, 0, true), text) == Fences(stack, 0, 0, true)
  {
    if text != "" {
      BlanksPass(stack, text[..|text| - 1]);
    }
  }

  lemma OneChar(f: Fences, c: char)
    ensures After(f, [c]) == Next(f, c)
  {
    assert [c][..0] == "";
  }

  /** The marker of a run of marks at the start of a line. */
  function MarkerOf(tick: bool, n: nat): int {
    if n < 3 then 0 else if tick then n else -(n as int)
  }

  function PendingRun(stack: seq<int>, tick: bool, n: nat): Fences {
    if tick then Fences(stack, n, 0, true) else Fences(stack, 0, n, true)
  }

  lemma RunRead(stack: seq<int>, marks: string)
    requires marks != "" && (marks[0] == '`' || marks[0] == '~')
    requires forall i :: 0 <= i < |marks| ==> marks[i] == marks[0]
    ensures After(Fences(stack, 0, 0, true), marks) == PendingRun(stack, marks[0] == '`', |marks|)
  {
    if marks[0] == '`' {
      Ticks(stack, marks);
    } else {
      Tildes(stack, marks);
    }
  }

  /** A run of marks counts when the line ends behind it. */
  lemma RunThenEnd(stack: seq<int>, tick: bool, n: nat)
    requires n > 0
    ensures Next(PendingRun(stack, tick, n), '\n') == Fences(Marked(stack, MarkerOf(tick, n)), 0, 0, true)
  {
  }

  /** And when another character follows, behind which the line counts for nothing. */
  lemma RunThenOther(stack: seq<int>, tick: bool, n: nat, c: char)
    requires n > 0 && c != '\n' && c != '\r' && c != (if tick then '`' else '~')
    ensures var h := Next(PendingRun(stack, tick, n), c); h.stack == Marked(stack, MarkerOf(tick, n)) && !h.lineStart
  {
  }

  /** A line that begins with marks. */
  lemma AfterMarks(stack: seq<int>, marks: string, rest: string)
    requires Unbroken(rest) && marks != "" && (marks[0] == '`' || marks[0] == '~')
    requires (forall i :: 0 <= i < |marks| ==> marks[i] == marks[0]) && (rest != "" ==> rest[0] != marks[0])
    ensures After(Fences(stack, 0, 0, true), marks + rest + "\n")
         == Fences(Marked(stack, MarkerOf(marks[0] == '`', |marks|)), 0, 0, true)
  {
    var f, tick := Fences(stack, 0, 0, true), marks[0] == '`';
    var g := PendingRun(stack, tick, |marks|);
    RunRead(stack, marks);
    AfterAppend(f, marks + rest, "\n");
    AfterAppend(f, marks, rest);
    OneChar(After(f, marks + rest), '\n');
    hide Marked, Next, FlushPending, MarkerOf, PendingRun;
    if rest == "" {
      RunThenEnd(stack, tick, |marks|);
      assert After(g, "") == g;
    } else {
      RunThenOther(stack, tick, |marks|, rest[0]);
      AfterAppend(g, [rest[0]], rest[1..]);
      assert [rest[0]] + rest[1..] == rest;
      OneChar(g, rest[0]);
      hide After;
      Idle(Next(g, rest[0]), rest[1..]);
      PastStart(After(g, rest));
    }
  }

  /** Marks that do not stand at the start of a line do not count. */
  lemma PastStart(f: Fences)
    requires !f.lineStart
    ensures Next(f, '\n') == Fences(f.stack, 0, 0, true)
  {
  }

  lemma AfterText(stack: seq<int>, t: string)
    requires Unbroken(t) && (t == "" || (t[0] != '`' && t[0] != '~' && t[0] != ' ' && t[0] != '\t'))
    ensures After(Fences(stack, 0, 0, true), t + "\n") == Fences(stack, 0, 0, true)
  {
    var f := Fences(stack, 0, 0, true);
    AfterAppend(f, t, "\n");
    OneChar(After(f, t), '\n');
    if t != "" {
      AfterAppend(f, [t[0]], t[1..]);
      assert [t[0]] + t[1..] == t;
      OneChar(f, t[0]);
      Idle(Next(f, t[0]), t[1..]);
      PastStart(After(f, t));
    }
  }

  lemma MarkerIs(line: string)
    ensures LineMarker(line) == BareMarker(Bare(line))
  {
    hide Bare, BareMarker;
  }

  /** One line counts for exactly the marker it begins with. */
  lemma LineCounts(stack: seq<int>, line: string)
    requires Unbroken(line)
    ensures After(Fences(stack, 0, 0, true), line + "\n") == Fences(Marked(stack, LineMarker(line)), 0, 0, true)
  {
    hide *;
    var blanks := Indented(line);
    var t := Bare(line);
    StillUnbroken(blanks, t);
    MarkerIs(line);
    BlanksPass(stack, blanks);
    assert blanks + t + "\n" == blanks + (t + "\n");
    AfterAppend(Fences(stack, 0, 0, true), blanks, t + "\n");
    BareLine(stack, t);
  }

  lemma BareLine(stack: seq<int>, t: string)
    requires Unbroken(t) && (t == "" || (t[0] != ' ' && t[0] != '\t'))
    ensures After(Fences(stack, 0, 0, true), t + "\n") == Fences(Marked(stack, BareMarker(t)), 0, 0, true)
  {
    hide After, Next;
    if t == "" || (t[0] != '`' && t[0] != '~') {
      AfterText(stack, t);
      assert Marked(stack, 0) == stack;
    } else {
      var n := M.LeadingRun(t, t[0]);
      RunIs(t, t[0]);
      RunStarts(t);
      hide M.LeadingRun, Marked;
      AfterMarks(stack, t[..n], t[n..]);
      assert t[..n] + t[n..] + "\n" == t + "\n";
      assert MarkerOf(t[0] == '`', n) == BareMarker(t);
    }
  }

  lemma RunStarts(t: string)
    requires t != ""
    ensures M.LeadingRun(t, t[0]) > 0
  {
  }

  // ---- whole texts

  /** Read character by character, a text of whole lines leaves open exactly the fences that its lines open, with
      nothing pending, at the start of a line. */
  lemma {:induction false} ReadsLineByLine(lines: seq<string>)
    requires forall i :: 0 <= i < |lines| ==> Unbroken(lines[i])
    ensures After(START, Ended(lines)) == Fences(OpenAfter(lines), 0, 0, true)
  {
    hide Next, Marked, LineMarker, Unbroken;
    if lines != [] {
      var init, last := lines[..|lines| - 1], lines[|lines| - 1];
      ReadsLineByLine(init);
      AfterAppend(START, Ended(init), last + "\n");
      assert Ended(lines) == Ended(init) + (last + "\n");
      LineCounts(OpenAfter(init), last);
    }
  }

  /** A fence is closed by a marker of its own kind that is at least as long, and by no other. */
  lemma ClosedExactly(below: seq<int>, open: int, marker: int)
    requires open != 0 && marker != 0
    ensures Marked(below + [open], marker) == below <==>
      (open > 0 && marker >= open) || (open < 0 && marker <= open)
    ensures Marked(below + [open], marker) != below ==> Marked(below + [open], marker) == below + [open] + [marker]
  {
    assert (below + [open])[..|below|] == below;
    assert |below + [open] + [marker]| == |below| + 2;
  }
}
