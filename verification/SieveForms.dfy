/** Forms of text that the sieve recognises: what lies outside code fences, what wraps a block, and what is
    malformed. */
module SieveForms {
  import opened Options
  import opened Text
  import opened Fence
  import opened SieveScan
  import opened SievePieces
  import opened SieveXml
  import opened SievePieceByPiece
  import M = Markup

  // ---- code fences

  lemma {:induction false} MarkerOutside(f: Fences, s: string, offset: nat)
    ensures var r := MinimaxStart(f, s, offset); r >= 0 ==> !Inside(f, s[..r])
    decreases |s| - offset
  {
    hide Inside;
    var i := FindFoldFrom(s, offset, MINIMAX);
    if 0 <= i < |s| {
      MarkerOutside(f, s, i + |MINIMAX|);
    }
  }

  lemma {:induction false} ShellOutside(f: Fences, s: string, i: nat)
    ensures var r := ShellFenceStart(f, s, i); r >= 0 ==> !Inside(f, s[..r])
    decreases |s| - i
  {
    hide Inside, IsShellFenceOpen, LineEnd;
    if i < |s| {
      var end := LineEnd(s, i);
      if end < |s| {
        ShellOutside(f, s, if end + 1 < |s| && s[end] == '\r' && s[end + 1] == '\n' then end + 2 else end + 1);
      }
    }
  }

  lemma {:induction false} TagOutside(f: Fences, s: string, offset: nat)
    ensures var r := TagStart(f, s, offset); r >= 0 ==> !Inside(f, s[..r])
    decreases |s| - offset
  {
    hide Inside, M.FindTag;
    match M.FindTag(s, offset)
    case None =>
    case Some(tag) => TagOutside(f, s, tag.end + 1);
  }

  lemma {:induction false} NameOutside(tools: Tools, f: Fences, s: string, i: nat)
    ensures var r := BareNameStart(tools, f, s, i); r >= 0 ==> !Inside(f, s[..r])
    decreases |s| - i
  {
    hide Inside, NameEnd, FindFrom;
    if i < |s| {
      NameOutside(tools, f, s, i + 1);
    }
  }

  /** A capture never starts inside a code fence of the reader, whatever its text holds. */
  lemma StartsOutsideFences(tools: Tools, f: Fences, s: string)
    ensures var r := SegmentStart(tools, f, s); r >= 0 ==> !Inside(f, s[..r])
  {
    MarkerOutside(f, s, 0);
    ShellOutside(f, s, 0);
    TagOutside(f, s, 0);
    NameOutside(tools, f, s, 0);
    hide Inside, MinimaxStart, ShellFenceStart, TagStart, BareNameStart;
  }

  /** Nor is text held back there. */
  lemma HoldsOutsideFences(env: Env, f: Fences, s: string)
    requires EnvOk(env)
    ensures SplitSafe(env, f, s).1 != "" ==> !Inside(f, SplitSafe(env, f, s).0)
  {
    hide Inside;
  }

  // ---- a fence around a block

  lemma {:induction false} LastAt(s: string, i: nat, k: nat, p: string)
    requires k <= i && i + |p| <= |s| && HasAt(s, k, p) && forall j :: k < j <= i ==> !HasAt(s, j, p)
    ensures FindLast(s, i, p) == k
    decreases i
  {
    if i > k {
      LastAt(s, i - 1, k, p);
    }
  }

  lemma {:induction false} NoneCounted(s: string, i: nat, k: nat)
    requires i <= k <= |s| && forall j :: i <= j < k ==> s[j] != '`'
    ensures CountFrom(s, i, "```") == CountFrom(s, k, "```")
    decreases k - i
  {
    if i < k {
      assert !HasAt(s, i, "```");
      NoneCounted(s, i + 1, k);
    }
  }

  lemma ThreeAt(s: string, k: nat)
    requires k + 3 <= |s| && s[k] == '`' && s[k + 1] == '`' && s[k + 2] == '`'
    ensures HasAt(s, k, "```")
  {
    assert "```"[1..] == "``" && "``"[1..] == "`" && "`"[1..] == "";
    assert HasAt(s, k + 2, "`");
    assert HasAt(s, k + 1, "``");
  }

  /** A text ends in three backticks and a word, with no backtick between them. */
  predicate EndsFence(p: string, k: nat) {
    && k + 3 <= |p| && p[k] == '`' && p[k + 1] == '`' && p[k + 2] == '`'
    && forall j :: k + 3 <= j < |p| ==> p[j] != '`'
  }

  lemma LastFence(p: string, k: nat)
    requires EndsFence(p, k)
    ensures FindLast(p, |p| - 3, "```") == k
  {
    ThreeAt(p, k);
    forall j | k < j <= |p| - 3 ensures !HasAt(p, j, "```") {
      assert HasAt(p, j, "```") ==> p[j] == '`' && HasAt(p, j + 1, "``");
      assert HasAt(p, j + 1, "``") ==> p[j + 1] == '`' && HasAt(p, j + 2, "`");
      assert p[j + 2] != '`' by { assert j + 2 >= k + 3; }
    }
    hide HasAt;
    LastAt(p, |p| - 3, k, "```");
  }

  /** The first fence mark of the text. */
  lemma CountsOne(p: string, k: nat)
    requires k + 3 == |p| && p[k] == '`' && p[k + 1] == '`' && p[k + 2] == '`' && forall j :: 0 <= j < k ==> p[j] != '`'
    ensures CountFrom(p, 0, "```") == 1
  {
    NoneCounted(p, 0, k);
    ThreeAt(p, k);
    assert CountFrom(p, k + 3, "```") == 0;
  }

  /** The second one: it closes what the first opened. */
  lemma CountsTwo(p: string, i: nat, k: nat)
    requires k + 3 == |p| && p[k] == '`' && p[k + 1] == '`' && p[k + 2] == '`'
    requires i + 3 <= k && p[i] == '`' && p[i + 1] == '`' && p[i + 2] == '`'
    requires forall j :: 0 <= j < k && !(i <= j < i + 3) ==> p[j] != '`'
    ensures CountFrom(p, 0, "```") == 2
  {
    NoneCounted(p, 0, i);
    ThreeAt(p, i);
    NoneCounted(p, i + 3, k);
    ThreeAt(p, k);
    assert CountFrom(p, k + 3, "```") == 0;
  }

  /** The word behind the last fence mark, and what the text is trimmed to. */
  lemma FenceParts(prefix: string, k: nat)
    requires EndsFence(TrimRight(prefix, BLANKS), k)
    ensures var p := TrimRight(prefix, BLANKS);
      |p| >= 3 && FindLast(p, |p| - 3, "```") == k && k + 3 <= |p| <= |prefix|
  {
    hide TrimRight, FindLast;
    LastFence(TrimRight(prefix, BLANKS), k);
  }

  predicate StaysWrapped(prefix: string, suffix: string, k: nat) {
    var p := TrimRight(prefix, BLANKS);
    k + 3 <= |p| ==>
      || CountFrom(p[..k + 3], 0, "```") % 2 == 0
      || (Trim(p[k + 3..]) != "" && Lower(Trim(p[k + 3..])) != "json")
      || !HasAt(TrimLeft(suffix, BLANKS), 0, "```")
  }

  lemma StaysAt(prefix: string, suffix: string, k: nat)
    requires var p := TrimRight(prefix, BLANKS); k + 3 <= |p| && FindLast(p, |p| - 3, "```") == k
    requires StaysWrapped(prefix, suffix, k)
    ensures TrimFence(prefix, suffix) == (prefix, suffix)
  {
    hide TrimRight, TrimLeft, Trim, Lower, FindLast, CountFrom, HasAt;
  }

  lemma GoesAt(prefix: string, suffix: string, k: nat)
    requires var p := TrimRight(prefix, BLANKS); k + 3 <= |p| && FindLast(p, |p| - 3, "```") == k
    requires !StaysWrapped(prefix, suffix, k)
    ensures |TrimLeft(suffix, BLANKS)| >= 3
    ensures TrimFence(prefix, suffix) == (TrimRight(prefix, BLANKS)[..k], TrimLeft(suffix, BLANKS)[3..])
  {
    hide TrimRight, TrimLeft, Trim, Lower, FindLast, CountFrom, HasAt;
    HasFits(TrimLeft(suffix, BLANKS), 0, "```");
  }

  /** A block between ```json, or a bare ```, and ``` on a later line is taken out of that fence: both marks go. */
  lemma WrappingFenceGoes(prefix: string, suffix: string, k: nat)
    requires var p := TrimRight(prefix, BLANKS);
      EndsFence(p, k) && (forall j :: 0 <= j < k ==> p[j] != '`')
      && (Trim(p[k + 3..]) == "" || Lower(Trim(p[k + 3..])) == "json")
    requires HasAt(TrimLeft(suffix, BLANKS), 0, "```")
    ensures |TrimLeft(suffix, BLANKS)| >= 3
    ensures TrimFence(prefix, suffix) == (prefix[..k], TrimLeft(suffix, BLANKS)[3..])
  {
    var p := TrimRight(prefix, BLANKS);
    FenceParts(prefix, k);
    CountsOne(p[..k + 3], k);
    hide TrimRight, TrimLeft, Trim, Lower, FindLast, CountFrom, HasAt, EndsFence, TrimFence;
    assert !StaysWrapped(prefix, suffix, k);
    hide StaysWrapped;
    GoesAt(prefix, suffix, k);
    assert p[..k] == prefix[..k];
  }

  /** With any other word behind the mark, or no mark behind the block, nothing goes. */
  lemma OtherFenceStays(prefix: string, suffix: string, k: nat)
    requires var p := TrimRight(prefix, BLANKS);
      EndsFence(p, k) && Trim(p[k + 3..]) != "" && Lower(Trim(p[k + 3..])) != "json"
    ensures TrimFence(prefix, suffix) == (prefix, suffix)
  {
    FenceParts(prefix, k);
    hide TrimRight, TrimLeft, Trim, Lower, FindLast, CountFrom, HasAt, EndsFence, TrimFence;
    assert StaysWrapped(prefix, suffix, k);
    hide StaysWrapped;
    StaysAt(prefix, suffix, k);
  }

  lemma NoCloserStays(prefix: string, suffix: string)
    requires !HasAt(TrimLeft(suffix, BLANKS), 0, "```")
    ensures TrimFence(prefix, suffix) == (prefix, suffix)
  {
    hide TrimRight, TrimLeft, Trim, Lower, FindLast, CountFrom, HasAt;
  }

  /** Nor does a mark that closes an earlier one. */
  lemma ClosedFenceStays(prefix: string, suffix: string, i: nat, k: nat)
    requires var p := TrimRight(prefix, BLANKS);
      EndsFence(p, k) && i + 3 <= k && p[i] == '`' && p[i + 1] == '`' && p[i + 2] == '`'
      && forall j :: 0 <= j < k && !(i <= j < i + 3) ==> p[j] != '`'
    ensures TrimFence(prefix, suffix) == (prefix, suffix)
  {
    var p := TrimRight(prefix, BLANKS);
    FenceParts(prefix, k);
    CountsTwo(p[..k + 3], i, k);
    hide TrimRight, TrimLeft, Trim, Lower, FindLast, CountFrom, HasAt, EndsFence, TrimFence;
    assert StaysWrapped(prefix, suffix, k);
    hide StaysWrapped;
    StaysAt(prefix, suffix, k);
  }

  // ---- malformed tails

  predicate InvokeAt(l: string, i: nat) {
    HasAt(l, i, "<invoke")
  }

  function InvokesFrom(l: string, k: nat): nat {
    CountFrom(l, k, "<invoke")
  }

  lemma InvokeStep(l: string, k: nat)
    ensures k >= |l| ==> InvokesFrom(l, k) == 0 && !InvokeAt(l, k)
    ensures k < |l| ==> InvokesFrom(l, k) == if InvokeAt(l, k) then 1 + InvokesFrom(l, k + 7) else InvokesFrom(l, k + 1)
  {
    hide HasAt;
    assert |"<invoke"| == 7;
    HasOnlyIn(l, k);
  }

  lemma HasOnlyIn(l: string, k: nat)
    ensures HasAt(l, k, "<invoke") ==> k < |l|
  {
  }

  lemma NoOverlap(l: string, i: nat, j: nat)
    requires InvokeAt(l, i) && i < j < i + 7
    ensures !InvokeAt(l, j)
  {
    HasMeans(l, i, "<invoke");
    assert l[j] == l[i..i + 7][j - i];
    assert l[j] != '<';
  }

  lemma {:induction false} CountsSome(l: string, k: nat)
    ensures InvokesFrom(l, k) >= 1 <==> exists i :: k <= i < |l| && InvokeAt(l, i)
    decreases |l| - k
  {
    hide *;
    InvokeStep(l, k);
    if k < |l| && !InvokeAt(l, k) {
      CountsSome(l, k + 1);
    }
  }

  lemma {:induction false} CountsMore(l: string, k: nat)
    ensures InvokesFrom(l, k) > 1 <==> exists i, j :: k <= i < j < |l| && InvokeAt(l, i) && InvokeAt(l, j)
    decreases |l| - k
  {
    hide *;
    InvokeStep(l, k);
    if k < |l| {
      if InvokeAt(l, k) {
        CountsSome(l, k + 7);
        forall i, j | k <= i < j < |l| && InvokeAt(l, i) && InvokeAt(l, j) ensures j >= k + 7 {
          if j < k + 7 {
            NoOverlap(l, k, j);
          }
        }
        if InvokesFrom(l, k) > 1 {
          var j :| k + 7 <= j < |l| && InvokeAt(l, j);
          assert InvokeAt(l, k) && InvokeAt(l, j);
        }
      } else {
        CountsMore(l, k + 1);
      }
    }
  }

  ghost predicate TwoInvokes(s: string) {
    exists i, j :: 0 <= i < j < |s| && InvokeAt(Lower(s), i) && InvokeAt(Lower(s), j)
  }

  predicate SingularCall(s: string) {
    || FindFoldFrom(s, 0, "<tool_call>") >= 0 || FindFoldFrom(s, 0, "<tool_call ") >= 0
    || FindFoldFrom(s, 0, "<tool_call\n") >= 0 || FindFoldFrom(s, 0, "<tool_call\r") >= 0
    || FindFoldFrom(s, 0, "<tool_call\t") >= 0
  }

  lemma ManyInvokes(s: string)
    ensures CountFrom(Lower(s), 0, "<invoke") > 1 <==> TwoInvokes(s)
  {
    var l := Lower(s);
    CountsMore(l, 0);
    assert |l| == |s|;
    assert InvokesFrom(l, 0) == CountFrom(l, 0, "<invoke");
    hide CountFrom, Lower, InvokeAt, InvokesFrom;
  }

  /** A tail is swallowed as malformed exactly when it has the MiniMax marker, the opening of a singular tool_call tag,
      or the opening of an invoke tag twice. */
  lemma MalformedExactly(s: string)
    ensures Malformed(s) <==> FindFoldFrom(s, 0, "minimaxtool_call") >= 0 || SingularCall(s) || TwoInvokes(s)
  {
    ManyInvokes(s);
    hide FindFoldFrom, CountFrom, Lower, TwoInvokes;
  }

  // ---- calls whose wrapper was never opened

  lemma {:induction false} FirstIsTag(s: string, from: nat, name: string, closing: bool)
    ensures var r := M.FirstNamed(s, from, name, closing); r.Some? ==> r.value in Tags(s, from)
    decreases |s| - from
  {
    hide M.FindTag;
    if from < |s| && M.FindTag(s, from).Some? {
      FirstIsTag(s, M.FindTag(s, from).value.end + 1, name, closing);
    }
  }

  lemma NoWrapperBefore(s: string, start: nat)
    requires forall tag :: tag in Tags(s, 0) && OpensWrapper(tag) ==> tag.start > start
    ensures var wrapper := M.FirstNamed(s, 0, "tool_calls", false); wrapper.Some? ==> wrapper.value.start > start
  {
    FirstIsTag(s, 0, "tool_calls", false);
    hide M.FirstNamed, Tags;
    var wrapper := M.FirstNamed(s, 0, "tool_calls", false);
    assert wrapper.Some? ==> OpensWrapper(wrapper.value);
  }

  /** An invoke element that no opening wrapper precedes, and a closing wrapper behind it: the parser judges it with the
      missing wrapper put in front. */
  lemma BareInvokeJudged(env: Env, s: string, invoke: M.Tag, close: M.Tag)
    requires M.FirstNamed(s, 0, "invoke", false) == Some(invoke)
    requires M.FirstNamed(s, invoke.start + 1, "tool_calls", true) == Some(close)
    requires forall tag :: tag in Tags(s, 0) && OpensWrapper(tag) ==> tag.start > invoke.start
    ensures BareVerdict(env, s)
         == Judge(env.parse("<tool_calls>" + s[invoke.start..close.end + 1]), invoke.start, close.end + 1)
  {
    hide M.FirstNamed, Tags, Judge, OpensWrapper;
    NoWrapperBefore(s, invoke.start);
  }

  /** A block is accepted when the parser finds calls, dropped when it only sees that calls were meant, and passed on as
      text otherwise. */
  lemma JudgedBy(parsed: Parsed, start: nat, end: nat)
    requires start < end
    ensures parsed.calls != [] ==> Judge(parsed, start, end) == Accepted(start, end, parsed.calls)
    ensures parsed.calls == [] && parsed.sawSyntax ==> Judge(parsed, start, end) == Refused(start, end)
    ensures parsed.calls == [] && !parsed.sawSyntax ==> Judge(parsed, start, end) == Passed(start, end)
  {
  }
}
