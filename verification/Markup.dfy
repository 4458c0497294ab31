/** internal/toolcall: the scanners that find tool markup outside CDATA sections and comments.
    Strings are sequences of characters; lower-casing preserves positions. */
module Markup {
  import opened Options
  import opened Text

  datatype Tag = Tag(start: nat, end: nat, name: string, closing: bool, selfClosing: bool, dsmlLike: bool)

  /** Where skipping an ignored section at a position leads. */
  datatype Skip = Blocked | Advanced(next: nat) | Stay

  datatype Alias = Alias(raw: string, canonical: string, dsmlOnly: bool)

  function Names(): seq<Alias> {
    [Alias("tool-calls", "tool_calls", true), Alias("\U{5DE5}\U{5177}-\U{8C03}\U{7528}", "tool_calls", true),
     Alias("tool_calls", "tool_calls", false), Alias("tool_call", "tool_calls", false),
     Alias("\U{5DE5}\U{5177}\U{8C03}\U{7528}", "tool_calls", true),
     Alias("invoke", "invoke", false), Alias("\U{8C03}\U{7528}\U{9879}", "invoke", true),
     Alias("parameter", "parameter", false), Alias("\U{5F62}\U{53C2}", "parameter", true)]
  }

  // ---- Markdown fences inside CDATA

  function LeadingRun(line: string, c: char): (n: nat)
    ensures n <= |line|
  {
    if line != [] && line[0] == c then 1 + LeadingRun(line[1..], c) else 0
  }

  /** The fence a line opens, as its character and length. */
  function FenceOpen(line: string): Option<(char, nat)> {
    if |line| >= 3 && (line[0] == '`' || line[0] == '~') && LeadingRun(line, line[0]) >= 3
    then Some((line[0], LeadingRun(line, line[0]))) else None
  }

  predicate FenceClose(line: string, marker: (char, nat)) {
    && line != [] && line[0] == marker.0
    && LeadingRun(line, marker.0) >= marker.1
    && Trim(line[LeadingRun(line, marker.0)..]) == ""
  }

  function FenceAfter(fragment: string, open: Option<(char, nat)>): Option<(char, nat)>
    decreases |fragment|
  {
    if fragment == [] then open
    else
      var n := LineLength(fragment);
      var line := TrimLeft(fragment[..n], " \t");
      FenceAfter(fragment[n..],
        match open
        case None => FenceOpen(line)
        case Some(marker) => if FenceClose(line, marker) then None else open)
  }

  /** cdataOffsetIsInsideMarkdownFence: a loop over lines. */
  method InsideMarkdownFence(fragment: string) returns (inside: bool)
    ensures inside == FenceAfter(fragment, None).Some?
  {
    var rest, open := fragment, None;
    while rest != []
      invariant FenceAfter(rest, open) == FenceAfter(fragment, None)
      decreases |rest|
    {
      var n := LineLength(rest);
      var line := TrimLeft(rest[..n], " \t");
      match open {
        case None => open := FenceOpen(line);
        case Some(marker) =>
          if FenceClose(line, marker) {
            open := None;
          }
      }
      rest := rest[n..];
    }
    inside := open.Some?;
  }

  // ---- ignored sections

  predicate LooksStructural(text: string, after: nat) {
    after <= |text| && HasAt(TrimLeft(text[after..], " \t\r\n"), 0, "</")
  }

  /** findToolCDATAEnd: the first close marker outside fences that is followed by a closing tag,
      or else the first one outside fences, or else -1. */
  function CDATAEnd(text: string, from: nat, at: nat, firstNonFence: int): (end: int)
    requires from <= at <= |text| && (firstNonFence == -1 || from <= firstNonFence <= |text| - 3)
    ensures end == -1 || from <= end <= |text| - 3
    decreases |text| - at
  {
    var end := FindFrom(text, at, "]]>");
    if end == -1 then firstNonFence
    else if FenceAfter(text[from..end], None).Some? then CDATAEnd(text, from, end + 3, firstNonFence)
    else if LooksStructural(text, end + 3) then end
    else CDATAEnd(text, from, end + 3, if firstNonFence < 0 then end else firstNonFence)
  }

  function SkipAt(text: string, i: nat): (skip: Skip)
    requires i <= |text|
    ensures skip.Advanced? ==> i < skip.next <= |text|
  {
    if HasFoldAt(text, i, "<![cdata[") then
      HasFoldFits(text, i, "<![cdata[");
      var end := CDATAEnd(text, i + 9, i + 9, -1);
      if end < 0 then Blocked else Advanced(end + 3)
    else if HasAt(text, i, "<!--") then
      var end := FindFrom(text, i + 4, "-->");
      if end < 0 then Blocked else Advanced(end + 3)
    else Stay
  }

  // ---- one tag

  /** findXMLTagEnd: the first '>' outside quotes, or -1. */
  function TagEnd(text: string, i: nat, quote: Option<char>): (end: int)
    ensures end == -1 || (i <= end < |text| && text[end] == '>')
    decreases |text| - i
  {
    if i >= |text| then -1
    else match quote
      case Some(q) => TagEnd(text, i + 1, if text[i] == q then None else quote)
      case None =>
        if text[i] == '"' || text[i] == '\'' then TagEnd(text, i + 1, Some(text[i]))
        else if text[i] == '>' then i
        else TagEnd(text, i + 1, None)
  }

  method FindTagEnd(text: string, from: nat) returns (end: int)
    ensures end == TagEnd(text, from, None)
  {
    var i, quote := from, None;
    while i < |text|
      invariant TagEnd(text, i, quote) == TagEnd(text, from, None)
    {
      var ch := text[i];
      if quote.Some? {
        if ch == quote.value {
          quote := None;
        }
      } else if ch == '"' || ch == '\'' {
        quote := Some(ch);
      } else if ch == '>' {
        return i;
      }
      i := i + 1;
    }
    return -1;
  }

  predicate PipeAt(text: string, i: nat) {
    i < |text| && (text[i] == '|' || text[i] == '\U{FF5C}')
  }

  lemma DialectFits(text: string, i: nat)
    ensures HasFoldAt(text, i, "dsml") || HasFoldAt(text, i, "zjml") || HasFoldAt(text, i, "qnml") ==> i + 4 <= |text|
  {
    if HasFoldAt(text, i, "dsml") {
      HasFoldFits(text, i, "dsml");
    } else if HasFoldAt(text, i, "zjml") {
      HasFoldFits(text, i, "zjml");
    } else if HasFoldAt(text, i, "qnml") {
      HasFoldFits(text, i, "qnml");
    }
  }

  /** One piece of the noise allowed before a tag name: a pipe, a blank, or a dialect prefix. */
  function PrefixOnce(text: string, i: nat): (next: nat)
    requires i <= |text|
    ensures i <= next <= |text|
  {
    if PipeAt(text, i) then i + 1
    else if i < |text| && (text[i] == ' ' || text[i] == '\t' || text[i] == '\r' || text[i] == '\n') then i + 1
    else
      if HasFoldAt(text, i, "dsml") || HasFoldAt(text, i, "zjml") || HasFoldAt(text, i, "qnml") then
        DialectFits(text, i);
        if i + 4 < |text| && (text[i + 4] == '-' || text[i + 4] == '_') then i + 5 else i + 4
      else i
  }

  /** The first alias in list order that fits, as canonical name and length. */
  function MatchName(text: string, i: nat, dsmlLike: bool, names: seq<Alias>): (m: (string, nat))
    ensures i <= |text| ==> i + m.1 <= |text|
  {
    if names == [] then ("", 0)
    else if !(names[0].dsmlOnly && !dsmlLike) && HasFoldAt(text, i, names[0].raw) then
      HasFoldFits(text, i, names[0].raw);
      (names[0].canonical, |names[0].raw|)
    else MatchName(text, i, dsmlLike, names[1..])
  }

  predicate BoundaryAt(text: string, i: nat) {
    i >= |text| || text[i] == ' ' || text[i] == '\t' || text[i] == '\n' || text[i] == '\r' || text[i] == '>' ||
      text[i] == '/'
  }

  /** How far the scanner has got: past the angle brackets, the noise before the name, or the name. */
  datatype Phase =
    | Angles
    | Noise(closing: bool, dsmlLike: bool)
    | Pipes(name: string, closing: bool, dsmlLike: bool, trailing: bool)

  /** The part of scanToolMarkupTagAt after the name and its pipes, which end at nameEnd. */
  function EndTag(text: string, start: nat, nameEnd: nat, ph: Phase): (r: Option<Tag>)
    requires ph.Pipes? && start + 1 < nameEnd <= |text|
    ensures r.Some? ==> r.value.start == start && start < r.value.end < |text|
  {
    if !BoundaryAt(text, nameEnd) then None
    else
      var end0 := TagEnd(text, nameEnd, None);
      if end0 < 0 && !ph.trailing then None
      else
        var nextLT := FindFrom(text, nameEnd, "<");
        var end := if end0 < 0 || (ph.trailing && nextLT >= 0 && end0 >= nextLT) then nameEnd - 1 else end0;
        Some(Tag(start, end, ph.name, ph.closing, EndsWith(Trim(text[start..end + 1]), "/>"), ph.dsmlLike))
  }

  function Scan(text: string, start: nat, i: nat, ph: Phase): (r: Option<Tag>)
    requires start < i <= |text| && (ph.Pipes? ==> start + 1 < i)
    ensures r.Some? ==> r.value.start == start && start < r.value.end < |text|
    decreases |text| - i, if ph.Angles? then 2 else if ph.Noise? then 1 else 0
  {
    match ph
    case Angles =>
      if i < |text| && text[i] == '<' then Scan(text, start, i + 1, Angles)
      else if i < |text| && text[i] == '/' then Scan(text, start, i + 1, Noise(true, false))
      else Scan(text, start, i, Noise(false, false))
    case Noise(closing, dsmlLike) =>
      var next := PrefixOnce(text, i);
      if next > i then Scan(text, start, next, Noise(closing, true))
      else
        var (name, nameLen) := MatchName(text, i, dsmlLike, Names());
        if nameLen == 0 then None else Scan(text, start, i + nameLen, Pipes(name, closing, dsmlLike, false))
    case Pipes(name, closing, dsmlLike, _) =>
      if PipeAt(text, i) then Scan(text, start, i + 1, Pipes(name, closing, dsmlLike, true))
      else EndTag(text, start, i, ph)
  }

  /** scanToolMarkupTagAt */
  function ScanTag(text: string, start: nat): (r: Option<Tag>)
    ensures r.Some? ==> r.value.start == start && start < r.value.end < |text|
  {
    if start >= |text| || text[start] != '<' then None else Scan(text, start, start + 1, Angles)
  }

  // ---- finding tags

  /** The first tag from i on that is outside ignored sections. */
  function FindTag(text: string, i: nat): (r: Option<Tag>)
    ensures r.Some? ==> i <= r.value.start < r.value.end < |text| && ScanTag(text, r.value.start) == r
    decreases |text| - i
  {
    if i >= |text| then None
    else
      match SkipAt(text, i)
      case Blocked => None
      case Advanced(next) => FindTag(text, next)
      case Stay =>
        var tag := ScanTag(text, i);
        if tag.Some? then tag else FindTag(text, i + 1)
  }

  /** FindToolMarkupTagOutsideIgnored */
  method FindToolMarkupTag(text: string, start: nat) returns (tag: Option<Tag>)
    ensures tag == FindTag(text, start)
  {
    var i := start;
    while i < |text|
      invariant FindTag(text, i) == FindTag(text, start)
      decreases |text| - i
    {
      match SkipAt(text, i) {
        case Blocked => return None;
        case Advanced(next) => i := next;
        case Stay =>
          tag := ScanTag(text, i);
          if tag.Some? {
            return;
          }
          i := i + 1;
      }
    }
    return None;
  }

  /** The tag at which the nesting depth of elements of this name, counted from pos, returns to zero. */
  function CloseFrom(text: string, name: string, pos: nat, depth: nat): (r: Option<Tag>)
    requires depth > 0
    ensures r.Some? ==> pos <= r.value.start < r.value.end < |text| && r.value.closing && r.value.name == name
    decreases |text| - pos
  {
    if pos >= |text| then None
    else
      match FindTag(text, pos)
      case None => None
      case Some(tag) =>
        if tag.name != name then CloseFrom(text, name, tag.end + 1, depth)
        else if tag.closing then
          if depth == 1 then Some(tag) else CloseFrom(text, name, tag.end + 1, depth - 1)
        else CloseFrom(text, name, tag.end + 1, if tag.selfClosing then depth else depth + 1)
  }

  function MatchingClose(text: string, open: Tag): (r: Option<Tag>)
    ensures r.Some? ==> open.end < r.value.start < r.value.end < |text| && r.value.closing && r.value.name == open.name
  {
    if text == "" || open.name == "" || open.closing then None
    else CloseFrom(text, open.name, open.end + 1, 1)
  }

  lemma CloseNext(text: string, name: string, pos: nat, depth: nat, tag: Tag)
    requires depth > 0 && pos < |text| && FindTag(text, pos) == Some(tag)
    requires !(tag.name == name && tag.closing && depth == 1)
    ensures CloseFrom(text, name, pos, depth)
         == CloseFrom(text, name, tag.end + 1,
                      if tag.name != name then depth else if tag.closing then depth - 1
                      else if tag.selfClosing then depth else depth + 1)
  {
  }

  lemma CloseEnds(text: string, name: string, pos: nat, depth: nat, tag: Option<Tag>)
    requires depth > 0 && pos < |text| && FindTag(text, pos) == tag
    ensures tag.None? || (tag.value.name == name && tag.value.closing && depth == 1) ==>
      CloseFrom(text, name, pos, depth) == tag
  {
  }

  /** FindMatchingToolMarkupClose */
  method FindMatchingClose(text: string, open: Tag) returns (close: Option<Tag>)
    ensures close == MatchingClose(text, open)
  {
    if text == "" || open.name == "" || open.closing {
      return None;
    }
    ghost var goal := MatchingClose(text, open);
    var depth, pos := 1, open.end + 1;
    while pos < |text|
      invariant depth > 0 && CloseFrom(text, open.name, pos, depth) == goal
      decreases |text| - pos
    {
      close := FindToolMarkupTag(text, pos);
      CloseEnds(text, open.name, pos, depth, close);
      if close.None? {
        return;
      }
      var tag := close.value;
      if tag.name == open.name && tag.closing && depth == 1 {
        return;
      }
      CloseNext(text, open.name, pos, depth, tag);
      if tag.name == open.name {
        if tag.closing {
          depth := depth - 1;
        } else if !tag.selfClosing {
          depth := depth + 1;
        }
      }
      pos := tag.end + 1;
    }
    return None;
  }

  /** findFirstToolMarkupTagByNameFrom */
  function FirstNamed(text: string, pos: nat, name: string, closing: bool): (r: Option<Tag>)
    ensures r.Some? ==>
      pos <= r.value.start < r.value.end < |text| && r.value.name == name && r.value.closing == closing
    decreases |text| - pos
  {
    if pos >= |text| then None
    else
      match FindTag(text, pos)
      case None => None
      case Some(tag) =>
        if tag.name == name && tag.closing == closing then Some(tag)
        else FirstNamed(text, tag.end + 1, name, closing)
  }

  lemma FirstNamedNext(text: string, pos: nat, name: string, closing: bool, tag: Tag)
    requires pos < |text| && FindTag(text, pos) == Some(tag) && !(tag.name == name && tag.closing == closing)
    ensures FirstNamed(text, pos, name, closing) == FirstNamed(text, tag.end + 1, name, closing)
  {
  }

  method FindFirstNamed(text: string, start: nat, name: string, closing: bool) returns (r: Option<Tag>)
    ensures r == FirstNamed(text, start, name, closing)
  {
    var pos := start;
    while pos < |text|
      invariant FirstNamed(text, pos, name, closing) == FirstNamed(text, start, name, closing)
      decreases |text| - pos
    {
      var tag := FindToolMarkupTag(text, pos);
      if tag.None? {
        return None;
      }
      if tag.value.name == name && tag.value.closing == closing {
        return tag;
      }
      FirstNamedNext(text, pos, name, closing, tag.value);
      pos := tag.value.end + 1;
    }
    return None;
  }
}
