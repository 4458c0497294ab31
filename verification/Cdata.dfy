/** internal/prompt/tool_calls.go: text rendered as CDATA sections. */
module Cdata {
  import opened Text

  const OPEN := "<![CDATA["
  const CLOSE := "]]>"

  /** strings.ReplaceAll of each close marker by one that is split over two sections. */
  function Split(text: string): string {
    if text == "" then ""
    else if |text| >= 3 && text[..3] == CLOSE then "]]" + CLOSE + OPEN + ">" + Split(text[3..])
    else [text[0]] + Split(text[1..])
  }

  /** renderPromptXMLText */
  function Rendered(text: string): string {
    if text == "" then ""
    else if FindFrom(text, 0, CLOSE) >= 0 then OPEN + Split(text) + CLOSE
    else OPEN + text + CLOSE
  }

  datatype Reading = Malformed | Read(text: string)

  /** The character data of a run of CDATA sections (section 2.7 of XML 1.0): a section ends at the first
      close marker after its start. */
  function Content(xml: string): Reading {
    if xml == "" then Read("")
    else if |xml| < 9 || xml[..9] != OPEN then Malformed
    else
      var end := FindFrom(xml, 9, CLOSE);
      if end < 0 then Malformed
      else
        match Content(xml[end + 3..])
        case Malformed => Malformed
        case Read(rest) => Read(xml[9..end] + rest)
  }

  predicate CloseAt(s: string, i: nat) {
    i + 3 <= |s| && s[i] == ']' && s[i + 1] == ']' && s[i + 2] == '>'
  }

  predicate NoClose(s: string) {
    forall i :: 0 <= i < |s| ==> !CloseAt(s, i)
  }

  lemma HasIsCloseAt(s: string, i: nat)
    ensures HasAt(s, i, CLOSE) <==> CloseAt(s, i)
  {
    assert CLOSE[1..] == "]>" && "]>"[1..] == ">" && ">"[1..] == "";
    if i + 3 <= |s| {
      assert HasAt(s, i, CLOSE) == (s[i] == ']' && HasAt(s, i + 1, "]>"));
      assert HasAt(s, i + 1, "]>") == (s[i + 1] == ']' && HasAt(s, i + 2, ">"));
      assert HasAt(s, i + 2, ">") == (s[i + 2] == '>' && HasAt(s, i + 3, ""));
    } else if HasAt(s, i, CLOSE) {
      HasFits(s, i, CLOSE);
    }
  }

  lemma {:induction false} FirstFound(s: string, i: nat, k: nat)
    requires i <= k && CloseAt(s, k) && forall j :: i <= j < k ==> !CloseAt(s, j)
    ensures FindFrom(s, i, CLOSE) == k
    decreases k - i
  {
    HasIsCloseAt(s, i);
    if i < k {
      FirstFound(s, i + 1, k);
    }
  }

  lemma {:induction false} NoneFound(s: string, i: nat)
    requires FindFrom(s, i, CLOSE) < 0
    ensures forall j :: i <= j < |s| ==> !CloseAt(s, j)
    decreases |s| - i
  {
    if i + 3 <= |s| {
      HasIsCloseAt(s, i);
      NoneFound(s, i + 1);
    }
  }

  /** A section with harmless content is read as that content. */
  lemma SectionRead(content: string, rest: string)
    requires NoClose(content)
    ensures Content(OPEN + content + CLOSE + rest) ==
      match Content(rest) case Malformed => Malformed case Read(t) => Read(content + t)
  {
    var xml := OPEN + content + CLOSE + rest;
    var end := 9 + |content|;
    assert CloseAt(xml, end);
    forall j | 9 <= j < end ensures !CloseAt(xml, j) {
      assert !CloseAt(content, j - 9);
      assert forall k :: 9 <= k < end ==> xml[k] == content[k - 9];
    }
    FirstFound(xml, 9, end);
    assert xml[..9] == OPEN && xml[9..end] == content && xml[end + 3..] == rest;
  }

  /** No close marker starts in a and ends in the text after it. */
  predicate NoCloseAcross(a: string, text: string) {
    forall i :: 0 <= i < |a| ==> !CloseAt(a + text, i)
  }

  lemma Padded(a: string)
    requires NoClose(a)
    ensures NoClose(a + "]]")
  {
    forall i | 0 <= i < |a| + 2 ensures !CloseAt(a + "]]", i) {
      if i < |a| {
        assert !CloseAt(a, i);
      }
    }
  }

  lemma CloseStarts(text: string)
    ensures CloseAt(text, 0) <==> |text| >= 3 && text[..3] == CLOSE
  {
  }

  lemma Longer(a: string, text: string)
    requires NoClose(a) && NoCloseAcross(a, text) && text != "" && (|text| < 3 || text[..3] != CLOSE)
    ensures var b := a + [text[0]]; NoClose(b) && NoCloseAcross(b, text[1..])
  {
    var b := a + [text[0]];
    CloseStarts(text);
    assert b + text[1..] == a + text;
    forall i | 0 <= i < |b| ensures !CloseAt(b, i) && !CloseAt(a + text, i) {
      if i < |a| {
        assert !CloseAt(a + text, i);
      } else {
        assert !CloseAt(text, 0);
      }
    }
  }

  lemma Glue(a: string, x: string)
    ensures OPEN + a + ("]]" + CLOSE + OPEN + ">" + x) + CLOSE == OPEN + (a + "]]") + CLOSE + (OPEN + ">" + x + CLOSE)
  {
    assert OPEN + a + ("]]" + CLOSE + OPEN + ">" + x) == OPEN + (a + "]]") + CLOSE + (OPEN + ">" + x);
  }

  lemma GlueOne(a: string, c: char, x: string)
    ensures OPEN + a + ([c] + x) + CLOSE == OPEN + (a + [c]) + x + CLOSE && a + ([c] + x) == a + [c] + x
  {
    assert OPEN + a + ([c] + x) == OPEN + (a + [c]) + x;
  }

  /** Text that is split from here on, behind harmless content of the section it is in. */
  lemma {:induction false} SplitRead(a: string, text: string)
    requires NoClose(a) && NoCloseAcross(a, text)
    ensures Content(OPEN + a + Split(text) + CLOSE) == Read(a + text)
    decreases |text|
  {
    hide Content, NoClose, NoCloseAcross;
    if text == "" {
      SectionRead(a, "");
      NothingToRead();
      assert OPEN + a + Split(text) + CLOSE == OPEN + a + CLOSE + "";
      assert a + "" == a;
    } else if |text| >= 3 && text[..3] == CLOSE {
      Padded(a);
      SectionRead(a + "]]", OPEN + ">" + Split(text[3..]) + CLOSE);
      Bracket(text[3..]);
      SplitRead(">", text[3..]);
      Glue(a, Split(text[3..]));
      assert text == CLOSE + text[3..];
      assert a + "]]" + (">" + text[3..]) == a + text;
    } else {
      Longer(a, text);
      SplitRead(a + [text[0]], text[1..]);
      GlueOne(a, text[0], Split(text[1..]));
      GlueOne(a, text[0], text[1..]);
      assert text == [text[0]] + text[1..];
    }
  }

  lemma NothingToRead()
    ensures Content("") == Read("")
  {
  }

  lemma Bracket(text: string)
    ensures NoClose(">") && NoCloseAcross(">", text) && NoClose("") && NoCloseAcross("", text)
  {
  }

  /** A reader that joins the CDATA sections gets the original text back. */
  lemma RoundTrip(text: string)
    ensures Content(Rendered(text)) == Read(text)
  {
    hide Content, NoCloseAcross;
    NothingToRead();
    if text == "" {
    } else if FindFrom(text, 0, CLOSE) >= 0 {
      Bracket(text);
      SplitRead("", text);
      assert OPEN + "" + Split(text) + CLOSE == OPEN + Split(text) + CLOSE;
      assert "" + text == text;
    } else {
      NoneFound(text, 0);
      SectionRead(text, "");
      assert OPEN + text + CLOSE + "" == OPEN + text + CLOSE;
      assert text + "" == text;
    }
  }
}
