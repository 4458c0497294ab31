/** The ledger of the sieve: what became of every piece of the input. */
module SievePieces {
  import opened Text
  import opened SieveScan

  /** Why a piece of the input is not among the emitted text. */
  datatype Reason = ToolBlock(calls: seq<Call>) | RejectedBlock | FenceOpener | FenceCloser | CdataOpener
    | MalformedTail

  /** A piece was emitted as text, or dropped. A hole is the position of a loose CDATA opener that was
      stripped out of the piece before it was judged. */
  datatype Piece = Kept(text: string) | Dropped(text: string, reason: Reason, hole: int)

  function Flatten(pieces: seq<Piece>): string {
    if pieces == [] then "" else Flatten(pieces[..|pieces| - 1]) + pieces[|pieces| - 1].text
  }

  function Emitted(pieces: seq<Piece>): string {
    if pieces == [] then ""
    else Emitted(pieces[..|pieces| - 1]) + (if pieces[|pieces| - 1].Kept? then pieces[|pieces| - 1].text else "")
  }

  /** The piece without its stripped opener. */
  function Judged(piece: Piece): string
    requires piece.Dropped?
  {
    if 0 <= piece.hole <= |piece.text| - 9 then piece.text[..piece.hole] + piece.text[piece.hole + 9..] else piece.text
  }

  predicate IsOpener(s: string) {
    Lower(s) == "<![cdata["
  }

  ghost predicate Justified(env: Env, piece: Piece) {
    match piece
    case Kept(_) => true
    case Dropped(text, reason, hole) =>
      && (hole != -1 ==> 0 <= hole <= |text| - 9 && IsOpener(text[hole..hole + 9]))
      && match reason
         case ToolBlock(calls) => calls != [] &&
           (calls == env.parse(Judged(piece)).calls || calls == env.parse("<tool_calls>" + Judged(piece)).calls)
         case RejectedBlock => env.parse(Judged(piece)).sawSyntax || env.parse("<tool_calls>" + Judged(piece)).sawSyntax
         case FenceOpener => IsFenceOpener(Judged(piece))
         case FenceCloser => IsFenceCloser(Judged(piece))
         case CdataOpener => hole == -1 && IsOpener(text)
         case MalformedTail => hole == -1 && Malformed(text)
  }

  const BLANKS := " \t\r\n"

  /** Nothing, or three backticks with no header or "json", and blanks: the opening half of a wrapping fence. */
  predicate IsFenceOpener(s: string) {
    s == "" ||
    var t := TrimRight(s, BLANKS);
    |t| >= 3 && t[..3] == "```" && (Trim(t[3..]) == "" || Lower(Trim(t[3..])) == "json")
  }

  /** Nothing, or blanks and three backticks. */
  predicate IsFenceCloser(s: string) {
    s == "" || TrimLeft(s, BLANKS) == "```"
  }

  /** The calls of the consumed blocks, in order. */
  function Batches(pieces: seq<Piece>): seq<seq<Call>> {
    if pieces == [] then []
    else
      var last := pieces[|pieces| - 1];
      Batches(pieces[..|pieces| - 1]) + (if last.Dropped? && last.reason.ToolBlock? then [last.reason.calls] else [])
  }

  ghost predicate AllJustified(env: Env, pieces: seq<Piece>) {
    forall i :: 0 <= i < |pieces| ==> Justified(env, pieces[i])
  }

  lemma {:induction false} JoinedText(a: seq<Piece>, b: seq<Piece>)
    ensures Flatten(a + b) == Flatten(a) + Flatten(b)
    decreases |b|
  {
    if b == [] {
      assert a + b == a;
    } else {
      assert (a + b)[..|a + b| - 1] == a + b[..|b| - 1];
      JoinedText(a, b[..|b| - 1]);
    }
  }

  lemma {:induction false} JoinedEmitted(a: seq<Piece>, b: seq<Piece>)
    ensures Emitted(a + b) == Emitted(a) + Emitted(b)
    decreases |b|
  {
    if b == [] {
      assert a + b == a;
    } else {
      assert (a + b)[..|a + b| - 1] == a + b[..|b| - 1];
      JoinedEmitted(a, b[..|b| - 1]);
    }
  }

  lemma {:induction false} JoinedBatches(a: seq<Piece>, b: seq<Piece>)
    ensures Batches(a + b) == Batches(a) + Batches(b)
    decreases |b|
  {
    if b == [] {
      assert a + b == a;
    } else {
      assert (a + b)[..|a + b| - 1] == a + b[..|b| - 1];
      JoinedBatches(a, b[..|b| - 1]);
    }
  }

  lemma Joined(a: seq<Piece>, b: seq<Piece>)
    ensures Flatten(a + b) == Flatten(a) + Flatten(b) && Emitted(a + b) == Emitted(a) + Emitted(b)
    ensures Batches(a + b) == Batches(a) + Batches(b)
  {
    hide Flatten, Emitted, Batches;
    JoinedText(a, b);
    JoinedEmitted(a, b);
    JoinedBatches(a, b);
  }

  /** a is obtained from b by leaving elements out. */
  predicate Subsequence<T(==)>(a: seq<T>, b: seq<T>)
    decreases |b|
  {
    if a == [] then true
    else
      b != [] &&
      ((a[|a| - 1] == b[|b| - 1] && Subsequence(a[..|a| - 1], b[..|b| - 1])) || Subsequence(a, b[..|b| - 1]))
  }

  lemma {:induction false} SubsequenceAppend<T>(a: seq<T>, b: seq<T>, c: seq<T>)
    requires Subsequence(a, b)
    ensures Subsequence(a + c, b + c) && Subsequence(a, b + c)
    decreases |c|
  {
    if c == [] {
      assert a + c == a && b + c == b;
    } else {
      var init := c[..|c| - 1];
      SubsequenceAppend(a, b, init);
      assert (a + c)[..|a + c| - 1] == a + init && (b + c)[..|b + c| - 1] == b + init;
    }
  }

  /** Emitted text keeps the order of the input. */
  lemma {:induction false} EmittedInOrder(pieces: seq<Piece>)
    ensures Subsequence(Emitted(pieces), Flatten(pieces))
  {
    if pieces != [] {
      var init, last := pieces[..|pieces| - 1], pieces[|pieces| - 1];
      EmittedInOrder(init);
      SubsequenceAppend(Emitted(init), Flatten(init), last.text);
      assert Emitted(init) + "" == Emitted(init);
    }
  }

  lemma {:induction false} SubsequenceLength<T>(a: seq<T>, b: seq<T>)
    requires Subsequence(a, b)
    ensures |a| <= |b| && (|a| == |b| ==> a == b)
    decreases |b|
  {
    if a != [] {
      if a[|a| - 1] == b[|b| - 1] && Subsequence(a[..|a| - 1], b[..|b| - 1]) {
        SubsequenceLength(a[..|a| - 1], b[..|b| - 1]);
      } else {
        SubsequenceLength(a, b[..|b| - 1]);
      }
    }
  }

  /** Every dropped piece is empty. */
  predicate DropsNothing(pieces: seq<Piece>) {
    forall i :: 0 <= i < |pieces| && pieces[i].Dropped? ==> pieces[i].text == ""
  }

  lemma DropsOneMore(init: seq<Piece>, last: Piece)
    ensures DropsNothing(init + [last]) <==> DropsNothing(init) && (last.Dropped? ==> last.text == "")
  {
    var all := init + [last];
    assert all[|init|] == last;
    assert forall i :: 0 <= i < |init| ==> all[i] == init[i];
  }

  /** With the shorter text first, appending one text to both, or any text to the second, keeps them equal
      only if they were. */
  lemma SameEnds(a: string, b: string, c: string)
    requires |a| <= |b|
    ensures a + c == b + c <==> a == b
    ensures a == b + c <==> a == b && c == ""
  {
    if a + c == b + c {
      assert |a| == |b|;
      assert a == (a + c)[..|a|] == (b + c)[..|b|] == b;
    }
    if a == b + c {
      assert |c| == 0;
      assert b + c == b;
    }
    if c == "" {
      assert b + c == b;
    }
  }

  /** Everything is emitted exactly when every dropped piece is empty. */
  lemma {:induction false} NothingDropped(pieces: seq<Piece>)
    ensures |Emitted(pieces)| <= |Flatten(pieces)|
    ensures Emitted(pieces) == Flatten(pieces) <==> DropsNothing(pieces)
  {
    if pieces != [] {
      var init, last := pieces[..|pieces| - 1], pieces[|pieces| - 1];
      NothingDropped(init);
      assert pieces == init + [last];
      DropsOneMore(init, last);
      SameEnds(Emitted(init), Flatten(init), last.text);
      hide DropsNothing;
      assert Flatten(pieces) == Flatten(init) + last.text;
      if last.Kept? {
        assert Emitted(pieces) == Emitted(init) + last.text;
      } else {
        assert Emitted(pieces) == Emitted(init) + "" == Emitted(init);
      }
    }
  }

  lemma One(piece: Piece)
    ensures Flatten([piece]) == piece.text && Emitted([piece]) == if piece.Kept? then piece.text else ""
    ensures Batches([piece]) == if piece.Dropped? && piece.reason.ToolBlock? then [piece.reason.calls] else []
  {
    assert [piece][..0] == [];
  }

  lemma Three(a: Piece, b: Piece, c: Piece)
    ensures Flatten([a, b, c]) == a.text + b.text + c.text
    ensures a.Kept? && c.Kept? && (b.Dropped? ==> !b.reason.ToolBlock?) ==> Batches([a, b, c]) == []
    ensures Emitted([a, b, c])
         == (if a.Kept? then a.text else "") + (if b.Kept? then b.text else "") + (if c.Kept? then c.text else "")
  {
    One(a);
    One(b);
    One(c);
    Joined([a], [b]);
    Joined([a] + [b], [c]);
    assert [a] + [b] + [c] == [a, b, c];
  }

  // ---- putting a stripped opener back

  function OpenedLast(init: seq<Piece>, last: Piece, opener: string, k: nat): seq<Piece>
    requires k <= |last.text|
  {
    var (a, b) := (last.text[..k], last.text[k..]);
    match last
    case Kept(_) => init + [Kept(a), Dropped(opener, CdataOpener, -1), Kept(b)]
    case Dropped(_, reason, _) => init + [Dropped(a + opener + b, reason, k)]
  }

  /** The ledger with the opener inserted k characters into its text. */
  function WithOpener(pieces: seq<Piece>, opener: string, k: nat): seq<Piece>
    requires k <= |Flatten(pieces)|
    decreases |pieces|
  {
    if pieces == [] then [Dropped(opener, CdataOpener, -1)]
    else
      var init, last := pieces[..|pieces| - 1], pieces[|pieces| - 1];
      if k <= |Flatten(init)| then WithOpener(init, opener, k) + [last]
      else OpenedLast(init, last, opener, k - |Flatten(init)|)
  }

  /** The text of a ledger whose last piece is cut in two by the opener. */
  lemma OpenerInLast(init: seq<Piece>, last: Piece, opener: string, k: nat)
    requires k <= |last.text|
    ensures var q := OpenedLast(init, last, opener, k);
      Flatten(q) == Flatten(init) + (last.text[..k] + opener + last.text[k..])
      && Emitted(q) == Emitted(init) + (if last.Kept? then last.text else "")
      && Batches(q) == Batches(init + [last])
  {
    hide Flatten, Emitted, Batches;
    var a, b := last.text[..k], last.text[k..];
    assert a + b == last.text;
    One(last);
    Joined(init, [last]);
    if last.Kept? {
      Three(Kept(a), Dropped(opener, CdataOpener, -1), Kept(b));
      Joined(init, [Kept(a), Dropped(opener, CdataOpener, -1), Kept(b)]);
      assert a + "" + b == a + b;
    } else {
      One(Dropped(a + opener + b, last.reason, k));
      Joined(init, [Dropped(a + opener + b, last.reason, k)]);
    }
  }

  lemma Cut(a: string, b: string, k: nat)
    requires k <= |a| + |b|
    ensures k <= |a| ==> (a + b)[..k] == a[..k] && (a + b)[k..] == a[k..] + b
    ensures k >= |a| ==> (a + b)[..k] == a + b[..k - |a|] && (a + b)[k..] == b[k - |a|..]
  {
  }

  lemma Regroup(a: string, b: string, c: string, d: string)
    ensures a + b + (c + d) == a + b + c + d && a + (b + c + d) == a + b + c + d
  {
  }

  /** Inserting the opener changes the text by exactly the opener, and nothing that is emitted. */
  lemma LastPiece(pieces: seq<Piece>)
    requires pieces != []
    ensures var init, last := pieces[..|pieces| - 1], pieces[|pieces| - 1];
      pieces == init + [last] && Flatten(pieces) == Flatten(init) + last.text
      && Emitted(pieces) == Emitted(init) + Emitted([last]) && Batches(pieces) == Batches(init) + Batches([last])
      && Flatten([last]) == last.text && Emitted([last]) == (if last.Kept? then last.text else "")
  {
    One(pieces[|pieces| - 1]);
  }

  lemma {:induction false} OpenerBack(pieces: seq<Piece>, opener: string, k: nat)
    requires k <= |Flatten(pieces)|
    ensures Flatten(WithOpener(pieces, opener, k)) == Flatten(pieces)[..k] + opener + Flatten(pieces)[k..]
    ensures Emitted(WithOpener(pieces, opener, k)) == Emitted(pieces)
    ensures Batches(WithOpener(pieces, opener, k)) == Batches(pieces)
    decreases |pieces|
  {
    if pieces == [] {
      One(Dropped(opener, CdataOpener, -1));
    } else {
      hide Flatten, Emitted, Batches;
      var init, last := pieces[..|pieces| - 1], pieces[|pieces| - 1];
      LastPiece(pieces);
      Cut(Flatten(init), last.text, k);
      if k <= |Flatten(init)| {
        OpenerBack(init, opener, k);
        Joined(WithOpener(init, opener, k), [last]);
        Regroup(Flatten(init)[..k], opener, Flatten(init)[k..], last.text);
      } else {
        hide WithOpener;
        WithOpenerInLast(pieces, opener, k);
        OpenerInLast(init, last, opener, k - |Flatten(init)|);
        Regroup(Flatten(init), last.text[..k - |Flatten(init)|], opener, last.text[k - |Flatten(init)|..]);
      }
    }
  }

  lemma WithOpenerInLast(pieces: seq<Piece>, opener: string, k: nat)
    requires pieces != [] && |Flatten(pieces[..|pieces| - 1])| < k <= |Flatten(pieces)|
    ensures var n := |Flatten(pieces[..|pieces| - 1])|;
      k - n <= |pieces[|pieces| - 1].text|
      && WithOpener(pieces, opener, k) == OpenedLast(pieces[..|pieces| - 1], pieces[|pieces| - 1], opener, k - n)
  {
  }

  lemma HoleJustified(env: Env, text: string, reason: Reason, opener: string, k: nat)
    requires k <= |text| && |opener| == 9 && IsOpener(opener) && Blockish(reason)
    requires Justified(env, Dropped(text, reason, -1))
    ensures Justified(env, Dropped(text[..k] + opener + text[k..], reason, k))
  {
    var t := text[..k] + opener + text[k..];
    assert t[k..k + 9] == opener;
    assert t[..k] + t[k + 9..] == text;
    assert Judged(Dropped(t, reason, k)) == Judged(Dropped(text, reason, -1));
  }

  /** Every drop is judged on text without a hole, for a reason that can have one. */
  predicate Whole(pieces: seq<Piece>) {
    forall i :: 0 <= i < |pieces| && pieces[i].Dropped? ==> pieces[i].hole == -1 && Blockish(pieces[i].reason)
  }

  lemma {:induction false} OpenerBackJustified(env: Env, pieces: seq<Piece>, opener: string, k: nat)
    requires k <= |Flatten(pieces)| && |opener| == 9 && IsOpener(opener)
    requires AllJustified(env, pieces) && Whole(pieces)
    ensures AllJustified(env, WithOpener(pieces, opener, k))
    decreases |pieces|
  {
    if pieces != [] {
      var init, last := pieces[..|pieces| - 1], pieces[|pieces| - 1];
      var n := |Flatten(init)|;
      assert forall i :: 0 <= i < |init| ==> init[i] == pieces[i];
      if k <= n {
        OpenerBackJustified(env, init, opener, k);
      } else if last.Dropped? {
        HoleJustified(env, last.text, last.reason, opener, k - n);
      }
    }
  }

  /** The reasons that are judged on the text without its hole. */
  predicate Blockish(reason: Reason) {
    reason.ToolBlock? || reason.RejectedBlock? || reason.FenceOpener? || reason.FenceCloser?
  }
}
