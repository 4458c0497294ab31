/** internal/toolstream: where a tool segment starts in pending text, and how much of the text is
    safe to release when none does. */
module SieveScan {
  import opened Options
  import opened Text
  import opened Fence
  import M = Markup

  datatype Call = Call(name: string, input: string)

  datatype Parsed = Parsed(calls: seq<Call>, sawSyntax: bool)

  /** What depends on the tool list of the request: matchesAnyToolName, the prefix test against tool
      names, and the open-tag count of findBareToolNameBoundary. */
  datatype Tools = Tools(
    isToolName: string -> bool,
    isPartialName: string -> bool,
    openBareName: string -> bool,
    any: bool)

  const MINIMAX := "minimaxtool_call"

  // ---- starts of tool segments

  /** includeDuplicateLeadingLessThan */
  function DuplicateStart(s: string, i: nat): (r: nat)
    requires i <= |s|
    ensures r <= i
  {
    if i > 0 && s[i - 1] == '<' then DuplicateStart(s, i - 1) else i
  }

  function MinimaxStart(f: Fences, s: string, offset: nat): (r: int)
    ensures r == -1 || offset <= r < |s|
    decreases |s| - offset
  {
    var i := FindFoldFrom(s, offset, MINIMAX);
    if i < 0 || i >= |s| then -1
    else if Trim(s[LineStart(s, i)..i]) == "" && !Inside(f, s[..i]) then i
    else MinimaxStart(f, s, i + |MINIMAX|)
  }

  predicate IsShellLanguage(lang: string) {
    var l := Lower(TrimRight(TrimLeft(Trim(lang), "{}"), "{}"));
    l == "powershell" || l == "pwsh" || l == "ps1" || l == "shell" || l == "bash" || l == "sh" || l == "zsh"
    || l == "cmd" || l == "bat" || l == "terminal"
  }

  /** The first of strings.Fields. */
  function FirstField(s: string): string {
    if s == "" || IsSpace(s[0]) then "" else [s[0]] + FirstField(s[1..])
  }

  predicate IsShellFenceOpen(line: string) {
    var trimmed := TrimLeft(line, " \t");
    && |trimmed| >= 4
    && (trimmed[0] == '`' || trimmed[0] == '~')
    && var count := M.LeadingRun(trimmed, trimmed[0]);
       count >= 3 && Trim(trimmed[count..]) != "" && IsShellLanguage(FirstField(Trim(trimmed[count..])))
  }

  function ShellFenceStart(f: Fences, s: string, lineStart: nat): (r: int)
    ensures r == -1 || lineStart <= r < |s|
    decreases |s| - lineStart
  {
    if lineStart >= |s| then -1
    else
      var lineEnd := LineEnd(s, lineStart);
      if IsShellFenceOpen(s[lineStart..lineEnd]) && !Inside(f, s[..lineStart]) then lineStart
      else if lineEnd >= |s| then -1
      else ShellFenceStart(f, s,
        if lineEnd + 1 < |s| && s[lineEnd] == '\r' && s[lineEnd + 1] == '\n' then lineEnd + 2 else lineEnd + 1)
  }

  function TagStart(f: Fences, s: string, offset: nat): (r: int)
    ensures r == -1 || 0 <= r < |s|
    decreases |s| - offset
  {
    match M.FindTag(s, offset)
    case None => -1
    case Some(tag) =>
      var start := DuplicateStart(s, tag.start);
      if !Inside(f, s[..start]) then start else TagStart(f, s, tag.end + 1)
  }

  function NameEnd(s: string, i: nat): (r: nat)
    requires i <= |s|
    ensures i <= r <= |s|
    decreases |s| - i
  {
    if i == |s| || s[i] == '>' || s[i] == ' ' || s[i] == '\t' || s[i] == '\n' || s[i] == '\r' || s[i] == '/' then i
    else NameEnd(s, i + 1)
  }

  function BareNameStart(tools: Tools, f: Fences, s: string, i: nat): (r: int)
    ensures r == -1 || i <= r < |s|
    decreases |s| - i
  {
    if i >= |s| then -1
    else
      var nameEnd := if i + 1 <= |s| then NameEnd(s, i + 1) else i;
      if s[i] == '<' && i + 1 < |s| && s[i + 1] != '/' && s[i + 1] != '?' && !Inside(f, s[..i])
         && nameEnd > i + 1 && tools.isToolName(s[i + 1..nameEnd]) && FindFrom(s, nameEnd, ">") >= 0
      then i
      else BareNameStart(tools, f, s, i + 1)
  }

  /** findToolSegmentStart */
  function SegmentStart(tools: Tools, f: Fences, s: string): (r: int)
    ensures r == -1 || 0 <= r < |s|
  {
    var minimax := MinimaxStart(f, s, 0);
    if minimax >= 0 then minimax
    else
      var shell := ShellFenceStart(f, s, 0);
      if shell >= 0 then shell
      else
        var tag := TagStart(f, s, 0);
        if tag >= 0 then tag
        else if tools.any then BareNameStart(tools, f, s, 0) else -1
  }

  // ---- text to hold back

  predicate AliasTouches(text: string, i: nat, names: seq<M.Alias>)
    requires i <= |text|
  {
    names != [] &&
    (HasFoldAt(text, i, names[0].raw) || HasAt(names[0].raw, 0, Lower(text[i..])) || AliasTouches(text, i, names[1..]))
  }

  predicate PartialFrom(text: string, i: nat)
    requires i <= |text|
    decreases |text| - i
  {
    || i == |text|
    || AliasTouches(text, i, M.Names())
    || HasAt("dsml", 0, Lower(text[i..])) || HasAt("zjml", 0, Lower(text[i..])) || HasAt("qnml", 0, Lower(text[i..]))
    || (M.PrefixOnce(text, i) > i && PartialFrom(text, M.PrefixOnce(text, i)))
  }

  /** Past the opening angle brackets and the slash of a closing tag. */
  function NoiseStart(text: string): (i: nat)
    requires text != ""
    ensures i <= |text|
  {
    var i := 1 + M.LeadingRun(text[1..], '<');
    if i < |text| && text[i] == '/' then i + 1 else i
  }

  /** IsPartialToolMarkupTagPrefix */
  predicate IsPartialTag(text: string) {
    && text != "" && text[0] == '<' && FindFrom(text, 0, ">") < 0
    && PartialFrom(text, NoiseStart(text))
  }

  /** The last '<' with its duplicates, when no '>' follows; else -1. */
  function OpenAngle(s: string): (r: int)
    ensures r == -1 || 0 <= r < |s|
  {
    var last := if s == "" then -1 else FindLast(s, |s| - 1, "<");
    if last < 0 then -1
    else
      var start := DuplicateStart(s, last);
      if FindFrom(s, start, ">") >= 0 then -1 else start
  }

  function PartialTagStart(s: string): (r: int)
    ensures r == -1 || 0 <= r < |s|
  {
    var start := OpenAngle(s);
    if start >= 0 && IsPartialTag(s[start..]) then start else -1
  }

  function PartialMinimaxStart(s: string, n: nat): (r: int)
    requires n <= |s|
    ensures r == -1 || 0 <= r < |s|
  {
    if n < 4 then -1
    else
      var start := |s| - n;
      if HasAt(MINIMAX, 0, Lower(s[start..])) && Trim(s[LineStart(s, start)..start]) == "" then start
      else PartialMinimaxStart(s, n - 1)
  }

  predicate StartsShellFence(lower: string, languages: seq<string>) {
    languages != [] &&
    ((|lower| < 3 + |languages[0]| && (HasAt("```" + languages[0], 0, lower) || HasAt("~~~" + languages[0], 0, lower)))
     || StartsShellFence(lower, languages[1..]))
  }

  function PartialShellStart(s: string): (r: int)
    ensures r == -1 || 0 <= r < |s|
  {
    var trimmed := TrimLeft(s[LineStart(s, |s|)..], " \t");
    var languages := ["powershell", "pwsh", "ps1", "shell", "bash", "sh", "zsh", "cmd", "bat", "terminal"];
    if trimmed != "" && StartsShellFence(Lower(trimmed), languages) then |s| - |trimmed| else -1
  }

  function PartialBareStart(tools: Tools, s: string): (r: int)
    ensures r == -1 || 0 <= r < |s|
  {
    var start := if tools.any then OpenAngle(s) else -1;
    if start < 0 then -1
    else
      var tail := s[start..];
      if |tail| <= 1 || tail[1] == '/' then -1
      else
        var nameEnd := NameEnd(tail, 1);
        if nameEnd > 1 && tools.isPartialName(tail[1..nameEnd]) then start else -1
  }

  /** The first of the four partial forms that the text ends in. */
  function HoldStart(tools: Tools, s: string): (r: int)
    ensures r == -1 || 0 <= r < |s|
  {
    var tag := PartialTagStart(s);
    if tag >= 0 then tag
    else
      var minimax := PartialMinimaxStart(s, if |s| < |MINIMAX| - 1 then |s| else |MINIMAX| - 1);
      if minimax >= 0 then minimax
      else
        var shell := PartialShellStart(s);
        if shell >= 0 then shell else PartialBareStart(tools, s)
  }

  // ---- captures that must keep buffering

  /** hasOpenXMLToolTag: a tool_calls wrapper without its matching close. */
  predicate HasOpenTag(s: string, from: nat)
    decreases |s| - from
  {
    match M.FindTag(s, from)
    case None => false
    case Some(tag) =>
      (!tag.closing && tag.name == "tool_calls" && M.MatchingClose(s, tag).None?) || HasOpenTag(s, tag.end + 1)
  }

  /** shouldKeepBareInvokeCapture */
  predicate KeepBareInvoke(s: string) {
    match M.FirstNamed(s, 0, "invoke", false)
    case None => false
    case Some(invoke) =>
      var wrapper := M.FirstNamed(s, 0, "tool_calls", false);
      if wrapper.Some? && wrapper.value.start <= invoke.start then false
      else if M.FirstNamed(s, invoke.start + 1, "tool_calls", true).Some? then true
      else
        var body := TrimLeft(s[invoke.end + 1..], " \t\r\n");
        if body == "" then true
        else
          match M.FirstNamed(s, invoke.end + 1, "invoke", true)
          case Some(close) => Trim(s[close.end + 1..]) == ""
          case None => HasFoldAt(body, 0, "<parameter") || HasAt(body, 0, "{") || HasAt(body, 0, "[")
  }

  predicate Contains(s: string, p: string) {
    FindFoldFrom(s, 0, p) >= 0
  }

  /** hasMalformedExecutableToolMarker */
  predicate Malformed(s: string) {
    || Contains(s, MINIMAX)
    || Contains(s, "<tool_call>") || Contains(s, "<tool_call ") || Contains(s, "<tool_call\n")
    || Contains(s, "<tool_call\r") || Contains(s, "<tool_call\t")
    || CountFrom(Lower(s), 0, "<invoke") > 1
  }

  /** hasOpenShellCodeFence: the marker of the shell fence left open, if any. */
  function ShellFenceAfter(text: string, open: Option<(char, nat)>): Option<(char, nat)>
    decreases |text|
  {
    if text == "" then open
    else
      var n := LineLength(text);
      var line := TrimLeft(TrimRight(text[..n], "\r\n"), " \t");
      ShellFenceAfter(text[n..],
        match open
        case None => if IsShellFenceOpen(line) then Some((line[0], M.LeadingRun(line, line[0]))) else None
        case Some(marker) => if M.FenceClose(line, marker) then None else open)
  }

  predicate KeepBuffering(tools: Tools, s: string) {
    || ShellFenceAfter(s, None).Some?
    || HasOpenTag(s, 0)
    || KeepBareInvoke(s)
    || tools.openBareName(s)
    || Malformed(s)
  }

  // ---- what the sieve needs of its detectors

  /** The decisions the sieve delegates: the parser, where a segment starts, where a partial form
      starts, and whether an unresolved capture must go on buffering. */
  datatype Env = Env(
    parse: string -> Parsed,
    segmentStart: (Fences, string) -> int,
    holdStart: string -> int,
    keepBuffering: string -> bool)

  function Standard(parse: string -> Parsed, tools: Tools): Env {
    Env(parse, (f, s) => SegmentStart(tools, f, s), s => HoldStart(tools, s), s => KeepBuffering(tools, s))
  }

  predicate InRange(r: int, s: string) {
    r == -1 || 0 <= r < |s|
  }

  ghost predicate EnvOk(env: Env) {
    && (forall f, s :: InRange(env.segmentStart(f, s), s))
    && (forall s :: InRange(env.holdStart(s), s))
  }

  /** The detectors of the source stay within the text, whatever the tools and the parser. */
  lemma StandardOk(parse: string -> Parsed, tools: Tools)
    ensures EnvOk(Standard(parse, tools))
  {
  }

  /** splitSafeContentForToolDetection: release everything before a partial form, or everything when
      that form sits inside a fence. */
  function SplitSafe(env: Env, f: Fences, s: string): (parts: (string, string))
    requires EnvOk(env)
    ensures parts.0 + parts.1 == s
  {
    var hold := env.holdStart(s);
    if hold < 0 || Inside(f, s[..hold]) then (s, "") else (s[..hold], s[hold..])
  }
}
