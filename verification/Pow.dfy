/** pow/deepseek_pow.go: the nonce search. A Go string is a byte string; each char of a Dafny string
    stands for one byte here. */
module Pow {
  import opened Options
  import opened Bits
  import opened DeepSeekHash
  import opened Hex
  import opened Text

  type Int64 = x: int | -0x8000_0000_0000_0000 <= x < 0x8000_0000_0000_0000

  datatype SolveError = BadLength | BadHex | Cancelled | NoSolution

  datatype SolveResult = Found(nonce: int) | Failed(error: SolveError)

  // ---- strings

  function ByteOfChar(c: char): Byte {
    ByteOf(c as int % 256)
  }

  function BytesOf(s: string): (bytes: seq<Byte>)
    ensures |bytes| == |s|
  {
    seq(|s|, i requires 0 <= i < |s| => ByteOfChar(s[i]))
  }

  function Digit(d: nat): char
    requires d < 10
  {
    '0' + d as char
  }

  /** The usual decimal numeral. */
  function Decimal(n: nat): (s: string)
    ensures |s| > 0
  {
    if n < 10 then [Digit(n)] else Decimal(n / 10) + [Digit(n % 10)]
  }

  /** strconv.FormatInt(n, 10) */
  function FormatInt(n: int): string {
    if n < 0 then "-" + Decimal(-n) else Decimal(n)
  }

  function BuildPrefix(salt: string, expireAt: Int64): string {
    salt + "_" + FormatInt(expireAt) + "_"
  }

  // ---- decimal numerals

  function ValueOf(s: string): int {
    if s == [] then 0 else 10 * ValueOf(s[..|s| - 1]) + (s[|s| - 1] as int - '0' as int)
  }

  /** A numeral reads back as its number, so distinct nonces give distinct messages. */
  lemma {:induction false} DecimalReadsBack(n: nat)
    ensures ValueOf(Decimal(n)) == n
  {
    if n < 10 {
      assert ValueOf([]) == 0;
      assert [Digit(n)][..0] == [];
    } else {
      DecimalReadsBack(n / 10);
      assert Decimal(n)[..|Decimal(n)| - 1] == Decimal(n / 10);
    }
  }

  lemma {:induction false} DigitsOnly(n: nat)
    ensures forall i :: 0 <= i < |Decimal(n)| ==> '0' <= Decimal(n)[i] <= '9'
  {
    if n >= 10 {
      DigitsOnly(n / 10);
    }
  }

  /** The number a numeral with a possible sign stands for. */
  function SignedValue(s: string): int {
    if s != "" && s[0] == '-' then -ValueOf(s[1..]) else ValueOf(s)
  }

  lemma FormatReadsBack(n: int)
    ensures SignedValue(FormatInt(n)) == n
  {
    DigitsOnly(if n < 0 then -n else n);
    DecimalReadsBack(if n < 0 then -n else n);
  }

  /** A character below 256 becomes the byte with its number. */
  lemma CharByte(c: char)
    requires c as int < 256
    ensures 16 * Nibble(ByteOfChar(c)[4..]) + Nibble(ByteOfChar(c)[..4]) == c as int
  {
    hide ByteOf, Nibble;
    var high, low := c as int / 16, c as int % 16;
    HalvesOf(high, low);
    assert 16 * high + low == c as int % 256;
  }

  function Pow10(k: nat): (p: nat)
    ensures p > 0
  {
    if k == 0 then 1 else 10 * Pow10(k - 1)
  }

  lemma {:induction false} DecimalLength(n: nat, k: nat)
    requires k > 0 && n < Pow10(k)
    ensures |Decimal(n)| <= k
  {
    if n >= 10 {
      assert Pow10(1) == 10;
      DecimalLength(n / 10, k - 1);
    }
  }

  lemma NonceLength(n: Int64)
    requires n >= 0
    ensures |Decimal(n)| <= 19
  {
    assert Pow10(4) == 10000;
    assert Pow10(8) == 10000_0000;
    assert Pow10(12) == 10000_0000_0000;
    assert Pow10(16) == 10000_0000_0000_0000;
    assert Pow10(19) == 1000_0000_0000_0000_0000;
    DecimalLength(n, 19);
  }

  lemma BytesOfAppend(a: string, b: string)
    ensures BytesOf(a + b) == BytesOf(a) + BytesOf(b)
  {
  }

  /** The digits of v still to be written. */
  function Unwritten(v: nat): string {
    if v == 0 then "" else Decimal(v)
  }

  lemma LastDigit(v: nat, done: string)
    requires v > 0
    ensures Unwritten(v) + done == Unwritten(v / 10) + ([Digit(v % 10)] + done)
    ensures BytesOf([Digit(v % 10)] + done) == [ByteOfChar(Digit(v % 10))] + BytesOf(done)
  {
    BytesOfAppend([Digit(v % 10)], done);
  }

  /** The digit loop: numBuf[pos..] receives the numeral, right to left. */
  method WriteDecimal(numBuf: array<Byte>, n: Int64) returns (pos: nat)
    requires numBuf.Length == 20 && n >= 0
    modifies numBuf
    ensures pos < 20 && numBuf[pos..] == BytesOf(Decimal(n))
  {
    NonceLength(n);
    var v: nat := n;
    pos := 20;
    if v == 0 {
      pos := pos - 1;
      numBuf[pos] := ByteOfChar(Digit(0));
    } else {
      ghost var done := "";
      while v > 0
        invariant pos == 20 - |done|
        invariant Unwritten(v) + done == Decimal(n)
        invariant numBuf[pos..] == BytesOf(done)
      {
        LastDigit(v, done);
        pos := pos - 1;
        numBuf[pos] := ByteOfChar(Digit(v % 10));
        assert numBuf[pos..] == [numBuf[pos]] + BytesOf(done);
        done := [Digit(v % 10)] + done;
        v := v / 10;
      }
    }
  }

  // ---- one nonce

  lemma WholeAfterBlocks(head: seq<Byte>, rest: seq<Byte>)
    requires |head| % RATE == 0
    ensures Whole(head + rest) == |head| + Whole(rest)
  {
  }

  /** With a prefix of whole blocks set aside, the rest pads as it would on its own. */
  lemma PadAfterBlocks(head: seq<Byte>, rest: seq<Byte>)
    requires |head| % RATE == 0
    ensures Pad(head + rest) == head + Pad(rest)
  {
    hide LastBlock, Whole;
    var n, m := Whole(rest), head + rest;
    WholeAfterBlocks(head, rest);
    assert m[..|head| + n] == head + rest[..n] && m[|head| + n..] == rest[n..];
    var last := LastBlock(rest[n..]);
    assert Pad(m) == (head + rest[..n]) + last;
    assert (head + rest[..n]) + last == head + (rest[..n] + last);
  }

  /** What the search may precompute: absorb the whole blocks of the prefix, then hash only the tail. */
  lemma HashAfterPrefix(prefix: seq<Byte>, digits: seq<Byte>)
    ensures var off := Whole(prefix);
      Hash(prefix + digits)
      == Digest(AbsorbBlocks(Permute, AbsorbBlocks(Permute, ZeroSheet(), prefix[..off]), Pad(prefix[off..] + digits)))
  {
    var off := Whole(prefix);
    assert prefix + digits == prefix[..off] + (prefix[off..] + digits);
    PadAfterBlocks(prefix[..off], prefix[off..] + digits);
    AbsorbAppend(Permute, ZeroSheet(), prefix[..off], Pad(prefix[off..] + digits));
  }

  /** The body of the search loop: one or two padded blocks after the pre-absorbed state. */
  method AbsorbTail(s: array<Word>, tail: seq<Byte>, digits: seq<Byte>)
    requires s.Length == 25 && |tail| < RATE && |digits| <= 20
    modifies s
    ensures s[..] == AbsorbBlocks(Permute, old(s[..]), Pad(tail + digits))
  {
    var totalTail := |tail| + |digits|;
    if totalTail < RATE {
      var buf := NewBlock(tail + digits);
      MarkEnd(buf, totalTail);
      PadShort(tail + digits);
      AbsorbBlock(s, buf[..]);
    } else {
      var split := RATE - |tail|;
      var buf := NewBlock(tail + digits[..split]);
      AbsorbBlock(s, buf[..]);
      ghost var block := buf[..];
      var buf2 := NewBlock(digits[split..]);
      MarkEnd(buf2, totalTail - RATE);
      AbsorbBlock(s, buf2[..]);
      TwoBlocks(Permute, old(s[..]), tail, digits, block, buf2[..]);
    }
  }

  lemma TwoBlocks(f: Sheet -> Sheet, s: Sheet, tail: seq<Byte>, digits: seq<Byte>, block: seq<Byte>, block2: seq<Byte>)
    requires |tail| < RATE <= |tail| + |digits| < 2 * RATE
    requires block == tail + digits[..RATE - |tail|] && block2 == LastBlock(digits[RATE - |tail|..])
    ensures AbsorbBlocks(f, AbsorbBlocks(f, s, block), block2) == AbsorbBlocks(f, s, Pad(tail + digits))
  {
    PadLong(tail, digits);
    AbsorbAppend(f, s, block, block2);
  }

  lemma PadShort(data: seq<Byte>)
    requires |data| < RATE
    ensures Pad(data) == LastBlock(data)
  {
    assert Whole(data) == 0 && data[0..] == data;
  }

  lemma PadLong(tail: seq<Byte>, digits: seq<Byte>)
    requires |tail| < RATE <= |tail| + |digits| < 2 * RATE
    ensures Pad(tail + digits) == (tail + digits[..RATE - |tail|]) + LastBlock(digits[RATE - |tail|..])
  {
    assert Whole(tail + digits) == RATE;
    assert (tail + digits)[..RATE] == tail + digits[..RATE - |tail|];
    assert (tail + digits)[RATE..] == digits[RATE - |tail|..];
  }

  // ---- the search

  function Message(salt: string, expireAt: Int64, n: nat): seq<Byte> {
    BytesOf(BuildPrefix(salt, expireAt) + Decimal(n))
  }

  predicate Solves(target: seq<Byte>, salt: string, expireAt: Int64, n: nat) {
    Hash(Message(salt, expireAt, n)) == target
  }

  /** The comparison of the four loaded words is the comparison of the digests. */
  lemma DigestMatches(s: Sheet, target: seq<Byte>)
    requires |target| == 32
    ensures Digest(s) == target <==>
      && s[0] == Le64(target[0..8]) && s[1] == Le64(target[8..16])
      && s[2] == Le64(target[16..24]) && s[3] == Le64(target[24..32])
  {
    var t0, t1, t2, t3 := target[0..8], target[8..16], target[16..24], target[24..32];
    assert target == t0 + t1 + t2 + t3;
    DigestParts(s);
    StoreLoad(s[0]);
    StoreLoad(s[1]);
    StoreLoad(s[2]);
    StoreLoad(s[3]);
    LoadStore(t0);
    LoadStore(t1);
    LoadStore(t2);
    LoadStore(t3);
    if Digest(s) == target {
      assert Digest(s)[0..8] == PutLe64(s[0]) && Digest(s)[8..16] == PutLe64(s[1]);
      assert Digest(s)[16..24] == PutLe64(s[2]) && Digest(s)[24..32] == PutLe64(s[3]);
    }
  }

  /** ctx.Err() is consulted at every nonce n with n & 0x3FF == 0; cancelled(n) is its answer there. */
  predicate Polled(cancelled: int -> bool, n: nat) {
    n % 0x400 == 0 && cancelled(n)
  }

  /** s := baseState */
  method CopyState(baseState: array<Word>) returns (s: array<Word>)
    requires baseState.Length == 25
    ensures fresh(s) && s.Length == 25 && s[..] == baseState[..]
  {
    s := new Word[25];
    forall i | 0 <= i < 25 {
      s[i] := baseState[i];
    }
  }

  method HashNonce(s: array<Word>, tail: seq<Byte>, numBuf: array<Byte>, n: Int64)
    requires s.Length == 25 && |tail| < RATE && numBuf.Length == 20 && n >= 0
    modifies s, numBuf
    ensures Decides(s[..], tail, old(s[..]), n)
  {
    var pos := WriteDecimal(numBuf, n);
    AbsorbTail(s, tail, numBuf[pos..]);
  }

  method Matches(s: array<Word>, t0: Word, t1: Word, t2: Word, t3: Word, ghost target: seq<Byte>) returns (hit: bool)
    requires s.Length == 25 && |target| == 32
    requires t0 == Le64(target[0..8]) && t1 == Le64(target[8..16])
    requires t2 == Le64(target[16..24]) && t3 == Le64(target[24..32])
    ensures hit <==> Digest(s[..]) == target
  {
    DigestMatches(s[..], target);
    hit := s[0] == t0 && s[1] == t1 && s[2] == t2 && s[3] == t3;
  }

  /** The state that hashing only the tail ends in decides the nonce. */
  ghost predicate Decides(final: Sheet, tail: seq<Byte>, base: Sheet, n: nat) {
    final == AbsorbBlocks(Permute, base, Pad(tail + BytesOf(Decimal(n))))
  }

  /** The tail and the pre-absorbed state belong to the challenge's prefix. */
  ghost predicate Preabsorbed(tail: seq<Byte>, base: Sheet, salt: string, expireAt: Int64) {
    var prefix := BytesOf(BuildPrefix(salt, expireAt));
    tail == prefix[Whole(prefix)..] && base == AbsorbBlocks(Permute, ZeroSheet(), prefix[..Whole(prefix)])
  }

  lemma TailDecides(target: seq<Byte>, salt: string, expireAt: Int64, n: nat, tail: seq<Byte>, base: Sheet,
    final: Sheet)
    requires Preabsorbed(tail, base, salt, expireAt) && Decides(final, tail, base, n)
    ensures Solves(target, salt, expireAt, n) <==> Digest(final) == target
  {
    BytesOfAppend(BuildPrefix(salt, expireAt), Decimal(n));
    HashAfterPrefix(BytesOf(BuildPrefix(salt, expireAt)), BytesOf(Decimal(n)));
  }

  /** The body of the search loop: does nonce n solve the challenge? */
  method TryNonce(baseState: array<Word>, tail: seq<Byte>, numBuf: array<Byte>, n: Int64,
                  t0: Word, t1: Word, t2: Word, t3: Word,
                  ghost target: seq<Byte>, ghost salt: string, ghost expireAt: Int64)
    returns (hit: bool)
    requires baseState.Length == 25 && numBuf.Length == 20 && n >= 0
    requires |tail| < RATE && Preabsorbed(tail, baseState[..], salt, expireAt)
    requires |target| == 32 && t0 == Le64(target[0..8]) && t1 == Le64(target[8..16])
    requires t2 == Le64(target[16..24]) && t3 == Le64(target[24..32])
    modifies numBuf
    ensures hit <==> Solves(target, salt, expireAt, n)
  {
    var s := CopyState(baseState);
    HashNonce(s, tail, numBuf, n);
    ghost var final := s[..];
    TailDecides(target, salt, expireAt, n, tail, baseState[..], final);
    hit := Matches(s, t0, t1, t2, t3, target);
  }

  /** No nonce below n solves the challenge, and no cancellation is seen before it. */
  ghost predicate NothingBelow(target: seq<Byte>, cancelled: int -> bool, salt: string, expireAt: Int64, n: int) {
    forall m :: 0 <= m < n ==> !Solves(target, salt, expireAt, m) && !Polled(cancelled, m)
  }

  lemma NothingBelowNext(target: seq<Byte>, cancelled: int -> bool, salt: string, expireAt: Int64, n: nat)
    requires NothingBelow(target, cancelled, salt, expireAt, n)
    requires !Solves(target, salt, expireAt, n) && !Polled(cancelled, n)
    ensures NothingBelow(target, cancelled, salt, expireAt, n + 1)
  {
  }

  /** What the challenge asks for: the message that ends in n hashes to a digest whose hexadecimal numeral is the
      challenge, whatever the case of its letters. */
  ghost predicate Answers(challengeHex: string, salt: string, expireAt: Int64, n: nat) {
    Numeral(Hash(BytesOf(salt + "_" + FormatInt(expireAt) + "_" + Decimal(n)))) == Lower(challengeHex)
  }

  lemma AnswersSolve(challengeHex: string, target: seq<Byte>, salt: string, expireAt: Int64)
    requires HexDecode(challengeHex) == Some(target)
    ensures forall n: nat :: Answers(challengeHex, salt, expireAt, n) <==> Solves(target, salt, expireAt, n)
  {
    hide Hash, FormatInt, Decimal, Lower, HexDecode, Numeral;
    DecodedReadsBack(challengeHex);
    forall n: nat ensures Answers(challengeHex, salt, expireAt, n) <==> Solves(target, salt, expireAt, n) {
      NumeralDecodes(Hash(Message(salt, expireAt, n)));
      NumeralDecodes(target);
    }
  }

  /** No nonce below n answers, and no cancellation is seen before it. */
  ghost predicate NoAnswerBelow(challengeHex: string, cancelled: int -> bool, salt: string, expireAt: Int64, n: int) {
    forall m: nat :: m < n ==> !Answers(challengeHex, salt, expireAt, m) && !(m % 1024 == 0 && cancelled(m))
  }

  lemma BelowAnswers(challengeHex: string, target: seq<Byte>, cancelled: int -> bool, salt: string, expireAt: Int64,
                     n: int)
    requires HexDecode(challengeHex) == Some(target) && NothingBelow(target, cancelled, salt, expireAt, n)
    ensures NoAnswerBelow(challengeHex, cancelled, salt, expireAt, n)
  {
    hide Answers, Solves;
    AnswersSolve(challengeHex, target, salt, expireAt);
    forall m: nat | m < n
      ensures !Answers(challengeHex, salt, expireAt, m) && !(m % 1024 == 0 && cancelled(m))
    {
      assert !Solves(target, salt, expireAt, m) && !Polled(cancelled, m);
    }
  }

  method SolvePow(cancelled: int -> bool, challengeHex: string, salt: string, expireAt: Int64, difficulty: Int64)
    returns (r: SolveResult)
    ensures |challengeHex| != 64 <==> r == Failed(BadLength)
    ensures |challengeHex| == 64 && !IsHex(challengeHex) <==> r == Failed(BadHex)
    ensures |challengeHex| == 64 && IsHex(challengeHex) ==> (
      match r
      case Found(n) =>
        && 0 <= n < difficulty && Answers(challengeHex, salt, expireAt, n)
        && NoAnswerBelow(challengeHex, cancelled, salt, expireAt, n) && !(n % 1024 == 0 && cancelled(n))
      case Failed(NoSolution) => NoAnswerBelow(challengeHex, cancelled, salt, expireAt, difficulty)
      case Failed(Cancelled) =>
        exists c: nat :: c < difficulty && c % 1024 == 0 && cancelled(c) &&
          NoAnswerBelow(challengeHex, cancelled, salt, expireAt, c)
      case _ => false)
  {
    hide Answers, Solves, AllHex, IsHex;
    HexExactly(challengeHex);
    if |challengeHex| != 64 {
      return Failed(BadLength);
    }
    var decoded := HexDecode(challengeHex);
    if decoded.None? {
      return Failed(BadHex);
    }
    var ta := decoded.value;
    AnswersSolve(challengeHex, ta, salt, expireAt);
    var n: int;
    r, n := Search(cancelled, ta, salt, expireAt, difficulty);
    BelowAnswers(challengeHex, ta, cancelled, salt, expireAt, n);
  }

  /** The search for a decoded target; n is how far it went. */
  method Search(cancelled: int -> bool, ta: seq<Byte>, salt: string, expireAt: Int64, difficulty: Int64)
    returns (r: SolveResult, n: int)
    requires |ta| == 32
    ensures n >= 0 && NothingBelow(ta, cancelled, salt, expireAt, n)
    ensures match r
      case Found(m) => m == n < difficulty && Solves(ta, salt, expireAt, n) && !Polled(cancelled, n)
      case Failed(NoSolution) => n >= difficulty
      case Failed(Cancelled) => n < difficulty && Polled(cancelled, n)
      case _ => false
  {
    hide Solves;
    var t0, t1, t2, t3 := Le64(ta[0..8]), Le64(ta[8..16]), Le64(ta[16..24]), Le64(ta[24..32]);
    var prefix := BytesOf(BuildPrefix(salt, expireAt));
    var baseState := NewSheet();
    var off := AbsorbWhole(baseState, prefix);
    var tail := prefix[off..];
    var numBuf := new Byte[20];
    ghost var base := baseState[..];
    n := 0;
    while n < difficulty
      invariant 0 <= n && (n <= difficulty || n == 0)
      invariant baseState[..] == base
      invariant NothingBelow(ta, cancelled, salt, expireAt, n)
    {
      if n % 0x400 == 0 && cancelled(n) {
        return Failed(Cancelled), n;
      }
      var hit := TryNonce(baseState, tail, numBuf, n, t0, t1, t2, t3, ta, salt, expireAt);
      if hit {
        return Found(n), n;
      }
      NothingBelowNext(ta, cancelled, salt, expireAt, n);
      n := n + 1;
    }
    return Failed(NoSolution), n;
  }
}
