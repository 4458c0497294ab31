/** A shell fence that arrives in pieces, with the detectors of the source. */
module SieveFencePieces {
  import opened Options
  import opened Text
  import opened Fence
  import opened SieveScan
  import opened SievePieces
  import opened SieveXml
  import opened Sieve
  import opened SieveTwoBlocks
  import opened SieveCuts
  import opened SievePieceByPiece
  import M = Markup

  lemma BeginningOf(n: nat)
    requires n <= 14
    ensures var s := FENCE[..n];
      && (forall k :: 0 <= k < n ==> s[k] != '<' && s[k] != '>' && LowerChar(s[k]) != 'm' && s[k] != '\r')
      && (forall k :: 0 <= k < n && k != 7 && k != 10 ==> s[k] != '\n')
  {
    FenceChars(FENCE, 0);
    assert forall k :: 0 <= k < n ==> FENCE[..n][k] == FENCE[k];
  }

  lemma NoTags(s: string)
    requires forall k :: 0 <= k < |s| ==> s[k] != '<'
    ensures M.FindTag(s, 0) == None
  {
    Onward(s, 0, |s|);
    assert M.FindTag(s, |s|) == None;
  }

  // ---- before the language is complete

  /** Three backticks and the beginning of the language. */
  lemma ThreeTicks(n: nat)
    requires 3 <= n <= 7
    ensures FENCE[..n] == "```" + "bash"[..n - 3]
  {
    assert FENCE == "```" + ("bash" + "\nls\n```");
  }

  lemma RunThenLanguage(lang: string)
    requires lang != "" && lang[0] == 'b'
    ensures M.LeadingRun("```" + lang, '`') == 3 && ("```" + lang)[3..] == lang
  {
    var line := "```" + lang;
    assert line[1..] == "``" + lang && ("``" + lang)[1..] == "`" + lang && ("`" + lang)[1..] == lang;
    assert M.LeadingRun(lang, '`') == 0;
    assert M.LeadingRun("`" + lang, '`') == 1;
    assert M.LeadingRun("``" + lang, '`') == 2;
  }

  lemma {:induction false} WordField(lang: string)
    requires forall k :: 0 <= k < |lang| ==> !IsSpace(lang[k])
    ensures FirstField(lang) == lang && Trim(lang) == lang
  {
    if lang != "" {
      WordField(lang[1..]);
      assert lang == [lang[0]] + lang[1..];
    }
  }

  lemma NotALanguage(lang: string)
    requires 0 < |lang| <= 3 && lang[0] == 'b' && (|lang| == 3 ==> lang[2] == 's')
    requires forall k :: 0 <= k < |lang| ==> !IsSpace(lang[k]) && lang[k] != '{' && lang[k] != '}'
    ensures !IsShellLanguage(lang)
  {
    WordField(lang);
    NoBrace(lang[0]);
    NoBrace(lang[|lang| - 1]);
    assert TrimLeft(lang, "{}") == lang;
    assert TrimRight(lang, "{}") == lang;
    hide TrimLeft, TrimRight, Trim;
    var l := Lower(lang);
    assert |l| == |lang| && l[0] == 'b' && (|l| == 3 ==> l[2] == 's');
  }

  lemma NotYetOpen(n: nat)
    requires n < 7
    ensures !IsShellFenceOpen(FENCE[..n])
  {
    if n < 4 {
      ShortNotShell(FENCE[..n]);
    } else {
      var lang := "bash"[..n - 3];
      ThreeTicks(n);
      RunThenLanguage(lang);
      BashChars(lang, n - 3);
      WordField(lang);
      NotALanguage(lang);
      NoIndent("```" + lang);
      hide TrimLeft, Trim, FirstField, IsShellLanguage, M.LeadingRun;
      assert ("```" + lang)[0] == '`';
    }
  }

  lemma BashChars(lang: string, n: nat)
    requires 0 < n < 4 && lang == "bash"[..n]
    ensures lang[0] == 'b' && (n == 3 ==> lang[2] == 's')
    ensures forall k :: 0 <= k < n ==> !IsSpace(lang[k]) && lang[k] != '{' && lang[k] != '}'
  {
  }

  lemma {:induction false} NoAngle(s: string, i: int)
    requires i < |s| && forall k :: 0 <= k < |s| ==> s[k] != '<'
    ensures FindLast(s, i, "<") == -1
    decreases i
  {
    if i >= 0 {
      assert !HasAt(s, i, "<");
      NoAngle(s, i - 1);
    }
  }

  lemma {:induction false} NoPartialMarker(s: string, n: nat)
    requires n <= |s| && forall k :: 0 <= k < |s| ==> LowerChar(s[k]) != 'm'
    ensures PartialMinimaxStart(s, n) == -1
  {
    if n >= 4 {
      var lower := Lower(s[|s| - n..]);
      assert lower[0] == LowerChar(s[|s| - n]);
      assert !HasAt(MINIMAX, 0, lower);
      NoPartialMarker(s, n - 1);
    }
  }

  lemma BeginsBash(lower: string, n: nat)
    requires 0 < n < 7 && lower == FENCE[..n]
    ensures StartsShellFence(lower,
      ["powershell", "pwsh", "ps1", "shell", "bash", "sh", "zsh", "cmd", "bat", "terminal"])
  {
    var fence := "```" + "bash";
    assert fence == "```bash" && FENCE[..n] == fence[0..n];
    HasBeginning(fence, 0, n);
    hide HasAt;
    var rest := ["bash", "sh", "zsh", "cmd", "bat", "terminal"];
    assert StartsShellFence(lower, rest);
    assert StartsShellFence(lower, ["shell"] + rest) by {
      assert (["shell"] + rest)[1..] == rest;
    }
    var four := ["shell"] + rest;
    assert StartsShellFence(lower, ["ps1"] + four) by {
      assert (["ps1"] + four)[1..] == four;
    }
    var five := ["ps1"] + four;
    assert StartsShellFence(lower, ["pwsh"] + five) by {
      assert (["pwsh"] + five)[1..] == five;
    }
    var six := ["pwsh"] + five;
    assert StartsShellFence(lower, ["powershell"] + six) by {
      assert (["powershell"] + six)[1..] == six;
    }
    assert ["powershell"] + six
        == ["powershell", "pwsh", "ps1", "shell", "bash", "sh", "zsh", "cmd", "bat", "terminal"];
  }

  lemma LowerBeginning(n: nat)
    requires n <= 14
    ensures Lower(FENCE[..n]) == FENCE[..n]
  {
    assert forall k :: 0 <= k < 14 ==> LowerChar(FENCE[k]) == FENCE[k];
    assert forall k :: 0 <= k < n ==> FENCE[..n][k] == FENCE[k];
  }

  /** The beginning of a fence is held back until its language is complete. */
  lemma FenceHeld(tools: Tools, n: nat)
    requires 0 < n < 7
    ensures SegmentStart(tools, START, FENCE[..n]) == -1 && HoldStart(tools, FENCE[..n]) == 0
  {
    var s := FENCE[..n];
    BeginningOf(n);
    assert s[0] == '`';
    HeldSegment(tools, n);
    NoAngle(s, n - 1);
    NoPartialMarker(s, n);
    FirstLine(s, n);
    NoIndent(s);
    LowerBeginning(n);
    BeginsBash(s, n);
    hide SegmentStart, FindLast, PartialMinimaxStart, StartsShellFence, TrimLeft, LineStart, Lower;
    assert s[0..] == s;
    assert OpenAngle(s) == -1;
    assert PartialShellStart(s) == 0;
  }

  lemma HeldSegment(tools: Tools, n: nat)
    requires 0 < n < 7
    ensures SegmentStart(tools, START, FENCE[..n]) == -1
  {
    var s := FENCE[..n];
    BeginningOf(n);
    NoFold(s, 0, MINIMAX);
    NotYetOpen(n);
    NoTags(s);
    hide IsShellFenceOpen, FindFoldFrom, M.FindTag, ShellFenceStart, SegmentStart;
    assert s[0..n] == s;
    NextLine(START, s, 0, n);
    assert MinimaxStart(START, s, 0) == -1;
    NoSegment(tools, START, s);
  }

  // ---- from the language on

  lemma ShellAtOnce(s: string)
    requires LineEnd(s, 0) == 7 && s[0..7] == "```bash"
    ensures ShellFenceStart(START, s, 0) == 0
  {
    BashOpens();
    assert Fence.After(START, "") == START;
    hide LineEnd, IsShellFenceOpen, Fence.After;
    assert s[..0] == "";
  }

  lemma CaptureStarts(tools: Tools, n: nat)
    requires 7 <= n <= 14
    ensures SegmentStart(tools, START, FENCE[..n]) == 0
  {
    var s := FENCE[..n];
    BeginningOf(n);
    NoFold(s, 0, MINIMAX);
    FenceHead();
    assert n > 7 ==> s[7] == '\n';
    LineEndsAt(s, 0, 7);
    hide FindFoldFrom, LineEnd, IsShellFenceOpen, ShellFenceStart;
    assert s[0..7] == FENCE[0..7];
    ShellAtOnce(s);
    assert MinimaxStart(START, s, 0) == -1;
  }

  /** Lines behind an opened fence, none of which closes it. */
  predicate StaysOpenIn(s: string) {
    s == "" || s == "l" || s == "ls" || s == "ls\n" || s == "ls\n`" || s == "ls\n``"
  }

  lemma LineIs(s: string, n: nat)
    requires 0 < n <= |s| && (forall k :: 0 <= k < n - 1 ==> s[k] != '\n') && (n < |s| ==> s[n - 1] == '\n')
    ensures LineLength(s) == n || (n == |s| && s[n - 1] == '\n')
    ensures n == |s| ==> LineLength(s) == n
  {
    FirstBreak(s, 0, n);
  }

  lemma {:induction false} FirstBreak(s: string, i: nat, n: nat)
    requires i < n <= |s| && (forall k :: i <= k < n - 1 ==> s[k] != '\n') && (n < |s| ==> s[n - 1] == '\n')
    ensures var k := FindFrom(s, i, "\n"); if s[n - 1] == '\n' then k == n - 1 else k == -1
    decreases n - i
  {
    assert HasAt(s, i, "\n") <==> s[i] == '\n';
    if i < n - 1 {
      FirstBreak(s, i + 1, n);
    } else if s[i] != '\n' {
      assert FindFrom(s, i + 1, "\n") == -1;
    }
  }

  lemma NotClosed(line: string, marker: (char, nat))
    requires marker == ('`', 3) && (line == "" || line[0] == 'l' || |line| < 3)
    ensures !M.FenceClose(line, marker)
  {
  }

  lemma LessRight(s: string)
    ensures TrimRight(s, "\r\n") <= s && |TrimLeft(s, " \t")| <= |s|
  {
  }

  lemma OneLineKept(s: string, marker: (char, nat))
    requires marker == ('`', 3) && s != "" && LineLength(s) == |s| && (s[0] == 'l' || |s| < 3)
    ensures ShellFenceAfter(s, Some(marker)) == Some(marker)
  {
    var right := TrimRight(s[..|s|], "\r\n");
    var line := TrimLeft(right, " \t");
    assert s[..|s|] == s && s[|s|..] == "";
    if s[0] == 'l' {
      assert right == "" || right[0] == 'l';
      assert line == right by {
        if right != "" {
          NoIndent(right);
        }
      }
    }
    NotClosed(line, marker);
    hide TrimRight, TrimLeft, M.FenceClose, LineLength;
    assert ShellFenceAfter("", Some(marker)) == Some(marker);
  }

  lemma RestKept(s: string)
    requires StaysOpenIn(s)
    ensures ShellFenceAfter(s, Some(('`', 3))) == Some(('`', 3))
  {
    if s == "ls\n`" || s == "ls\n``" {
      LineIs(s, 3);
      assert s[2] == '\n' && LineLength(s) == 3;
      var rest := s[3..];
      assert rest == "`" || rest == "``";
      LineIs(rest, |rest|);
      OneLineKept(rest, ('`', 3));
      assert s[..3] == "ls\n";
      LsLine();
      hide TrimRight, TrimLeft, M.FenceClose, LineLength;
      NotClosedLs();
    } else if s != "" {
      LineIs(s, |s|);
      OneLineKept(s, ('`', 3));
    }
  }

  lemma LsLine()
    ensures TrimLeft(TrimRight("ls\n", "\r\n"), " \t") == "ls"
  {
    assert "ls\n"[..2] == "ls";
    assert TrimRight("ls", "\r\n") == "ls";
    assert TrimRight("ls\n", "\r\n") == "ls";
    NoIndent("ls");
  }

  lemma NotClosedLs()
    ensures !M.FenceClose("ls", ('`', 3))
  {
  }

  lemma HeadLine()
    ensures TrimLeft(TrimRight("```bash", "\r\n"), " \t") == "```bash"
    ensures TrimLeft(TrimRight("```bash\n", "\r\n"), " \t") == "```bash"
    ensures "```bash" != "" && "```bash"[0] == '`'
  {
    assert "```bash\n"[..7] == "```bash";
    assert TrimRight("```bash", "\r\n") == "```bash";
    assert TrimRight("```bash\n", "\r\n") == "```bash";
    NoIndent("```bash");
  }

  lemma LineOpens(s: string, n: nat, line: string)
    requires s != "" && n <= |s| && LineLength(s) == n && TrimLeft(TrimRight(s[..n], "\r\n"), " \t") == line
    requires IsShellFenceOpen(line) && line != "" && line[0] == '`' && M.LeadingRun(line, '`') == 3
    ensures ShellFenceAfter(s, None) == ShellFenceAfter(s[n..], Some(('`', 3)))
  {
    hide TrimRight, TrimLeft, IsShellFenceOpen, LineLength, M.LeadingRun;
  }

  lemma HeadOpens(s: string, n: nat)
    requires s != "" && n <= |s| && LineLength(s) == n && (s[..n] == "```bash" || s[..n] == "```bash\n")
    ensures ShellFenceAfter(s, None) == ShellFenceAfter(s[n..], Some(('`', 3)))
  {
    hide *;
    HeadLine();
    BashOpens();
    BashRun();
    LineOpens(s, n, "```bash");
  }

  /** The fence stays open until its last line is complete. */
  lemma FenceOpenUntil(n: nat)
    requires 7 <= n < 14
    ensures ShellFenceAfter(FENCE[..n], None).Some?
  {
    var s, head := FENCE[..n], if n < 8 then n else 8;
    BeginningOf(n);
    FirstOfFence(n, head);
    LineIs(s, head);
    hide LineLength, ShellFenceAfter;
    HeadOpens(s, head);
    RestOfFence(n, head);
    RestKept(s[head..]);
  }

  lemma FirstOfFence(n: nat, head: nat)
    requires 7 <= n < 14 && head == if n < 8 then n else 8
    ensures FENCE[..n][..head] == "```bash" || FENCE[..n][..head] == "```bash\n"
    ensures n >= 8 ==> FENCE[..n][7] == '\n'
  {
    var rest := "ls\n```";
    assert FENCE == "```bash\n" + rest && FENCE == "```bash" + ("\n" + rest);
    assert FENCE[..n][..head] == FENCE[..head];
  }

  lemma RestOfFence(n: nat, head: nat)
    requires 7 <= n < 14 && head == if n < 8 then n else 8
    ensures StaysOpenIn(FENCE[..n][head..])
  {
    var rest := "ls\n```";
    assert FENCE == "```bash\n" + rest;
    if n >= 8 {
      assert FENCE[..n][8..] == rest[..n - 8];
      assert rest[..5] == "ls\n``" && rest[..4] == "ls\n`" && rest[..3] == "ls\n";
      assert rest[..2] == "ls" && rest[..1] == "l";
    }
  }

  lemma FenceKept(parse: string -> Parsed, tools: Tools, n: nat)
    requires 7 <= n < 14 && parse(FENCE[..n]).calls == []
    ensures Consume(Standard(parse, tools), FENCE[..n]) == Undecided
  {
    var s, env := FENCE[..n], Standard(parse, tools);
    BeginningOf(n);
    NoTags(s);
    FenceOpenUntil(n);
    hide M.FindTag, Walk, ShellFenceAfter, HasOpenTag, KeepBareInvoke, Malformed;
    assert BareVerdict(env, s) == Undecided;
    WalkEnd(env, s, 0, false, Undecided);
    assert KeepBuffering(tools, s);
  }

  /** A closed shell fence that parses into a call, no beginning of which does: however it is cut into chunks, no
      text is sent, and the call is, once. */
  lemma FenceInPieces(parse: string -> Parsed, tools: Tools, chunks: seq<string>)
    requires parse(FENCE).calls != [] && Concat(chunks) == FENCE
    requires forall n :: 7 <= n < 14 ==> parse(FENCE[..n]).calls == []
    ensures EnvOk(Standard(parse, tools))
    ensures WholeRun(Standard(parse, tools), chunks).events == [ToolCalls(parse(FENCE).calls)]
  {
    var env := Standard(parse, tools);
    StandardOk(parse, tools);
    FenceDecided(env);
    hide SegmentStart, HoldStart, Consume, KeepBuffering, WholeRun;
    assert SeenThrough(env, FENCE, 7, parse(FENCE).calls) by {
      forall n | 0 < n < 7
        ensures env.segmentStart(START, FENCE[..n]) == -1 && env.holdStart(FENCE[..n]) == 0
      {
        FenceHeld(tools, n);
      }
      forall n | 7 <= n <= 14 ensures env.segmentStart(START, FENCE[..n]) == 0 {
        CaptureStarts(tools, n);
      }
      forall n | 7 <= n < 14 ensures Consume(env, FENCE[..n]) == Undecided {
        FenceKept(parse, tools, n);
      }
    }
    hide SeenThrough;
    AnyCutting(env, FENCE, 7, parse(FENCE).calls, chunks);
  }
}
