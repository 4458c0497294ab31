/** pow/deepseek_hash.go: the unrolled permutation and the hash, with the functions that specify them. */
module DeepSeekHash {
  import opened Bits

  const RATE := 136

  const RC: seq<bv64> := [
    0x0000000000000001, 0x0000000000008082, 0x800000000000808A, 0x8000000080008000,
    0x000000000000808B, 0x0000000080000001, 0x8000000080008081, 0x8000000000008009,
    0x000000000000008A, 0x0000000000000088, 0x0000000080008009, 0x000000008000000A,
    0x000000008000808B, 0x800000000000008B, 0x8000000000008089, 0x8000000000008003,
    0x8000000000008002, 0x8000000000000080, 0x000000000000800A, 0x800000008000000A,
    0x8000000080008081, 0x8000000000008080, 0x0000000080000001, 0x8000000080008008]

  function LowBit(v: bv64, i: nat): bool {
    if i == 0 then v & 0x01 != 0
    else if i == 1 then v & 0x02 != 0
    else if i == 2 then v & 0x04 != 0
    else if i == 3 then v & 0x08 != 0
    else if i == 4 then v & 0x10 != 0
    else if i == 5 then v & 0x20 != 0
    else if i == 6 then v & 0x40 != 0
    else v & 0x80 != 0
  }

  /** Bit i of a 64-bit constant. */
  function BitOf(v: bv64, i: nat): bool {
    if i < 8 then LowBit(v, i)
    else if i < 16 then LowBit(v >> 8, i - 8)
    else if i < 24 then LowBit(v >> 16, i - 16)
    else if i < 32 then LowBit(v >> 24, i - 24)
    else if i < 40 then LowBit(v >> 32, i - 32)
    else if i < 48 then LowBit(v >> 40, i - 40)
    else if i < 56 then LowBit(v >> 48, i - 48)
    else LowBit(v >> 56, i - 56)
  }

  function WordOf(v: bv64): Word {
    seq(64, i requires 0 <= i < 64 => BitOf(v, i))
  }

  type Sheet = s: seq<Word> | |s| == 25 witness seq(25, _ => ZeroWord())

  /** The 25 lane variables of the permutation. */
  datatype Lanes = Lanes(
    a0: Word, a1: Word, a2: Word, a3: Word, a4: Word,
    a5: Word, a6: Word, a7: Word, a8: Word, a9: Word,
    a10: Word, a11: Word, a12: Word, a13: Word, a14: Word,
    a15: Word, a16: Word, a17: Word, a18: Word, a19: Word,
    a20: Word, a21: Word, a22: Word, a23: Word, a24: Word)

  function Pack(s: Sheet): Lanes {
    Lanes(s[0], s[1], s[2], s[3], s[4],
          s[5], s[6], s[7], s[8], s[9],
          s[10], s[11], s[12], s[13], s[14],
          s[15], s[16], s[17], s[18], s[19],
          s[20], s[21], s[22], s[23], s[24])
  }

  function LaneAt(A: Lanes, i: nat): Word
    requires i < 25
  {
    if i == 0 then A.a0 else if i == 1 then A.a1 else if i == 2 then A.a2 else if i == 3 then A.a3
    else if i == 4 then A.a4 else if i == 5 then A.a5 else if i == 6 then A.a6 else if i == 7 then A.a7
    else if i == 8 then A.a8 else if i == 9 then A.a9 else if i == 10 then A.a10 else if i == 11 then A.a11
    else if i == 12 then A.a12 else if i == 13 then A.a13 else if i == 14 then A.a14 else if i == 15 then A.a15
    else if i == 16 then A.a16 else if i == 17 then A.a17 else if i == 18 then A.a18 else if i == 19 then A.a19
    else if i == 20 then A.a20 else if i == 21 then A.a21 else if i == 22 then A.a22 else if i == 23 then A.a23
    else A.a24
  }

  function Unpack(A: Lanes): Sheet {
    seq(25, i requires 0 <= i < 25 => LaneAt(A, i))
  }

  function ThetaLanes(A: Lanes): Lanes {
    var c0 := Xor(Xor(Xor(Xor(A.a0, A.a5), A.a10), A.a15), A.a20);
    var c1 := Xor(Xor(Xor(Xor(A.a1, A.a6), A.a11), A.a16), A.a21);
    var c2 := Xor(Xor(Xor(Xor(A.a2, A.a7), A.a12), A.a17), A.a22);
    var c3 := Xor(Xor(Xor(Xor(A.a3, A.a8), A.a13), A.a18), A.a23);
    var c4 := Xor(Xor(Xor(Xor(A.a4, A.a9), A.a14), A.a19), A.a24);
    var d0 := Xor(c4, Rotl64(c1, 1));
    var d1 := Xor(c0, Rotl64(c2, 1));
    var d2 := Xor(c1, Rotl64(c3, 1));
    var d3 := Xor(c2, Rotl64(c4, 1));
    var d4 := Xor(c3, Rotl64(c0, 1));
    Lanes(Xor(A.a0, d0), Xor(A.a1, d1), Xor(A.a2, d2), Xor(A.a3, d3), Xor(A.a4, d4),
          Xor(A.a5, d0), Xor(A.a6, d1), Xor(A.a7, d2), Xor(A.a8, d3), Xor(A.a9, d4),
          Xor(A.a10, d0), Xor(A.a11, d1), Xor(A.a12, d2), Xor(A.a13, d3), Xor(A.a14, d4),
          Xor(A.a15, d0), Xor(A.a16, d1), Xor(A.a17, d2), Xor(A.a18, d3), Xor(A.a19, d4),
          Xor(A.a20, d0), Xor(A.a21, d1), Xor(A.a22, d2), Xor(A.a23, d3), Xor(A.a24, d4))
  }

  function RhoPiLanes(A: Lanes): Lanes {
    Lanes(A.a0, Rotl64(A.a6, 44), Rotl64(A.a12, 43), Rotl64(A.a18, 21), Rotl64(A.a24, 14),
          Rotl64(A.a3, 28), Rotl64(A.a9, 20), Rotl64(A.a10, 3), Rotl64(A.a16, 45), Rotl64(A.a22, 61),
          Rotl64(A.a1, 1), Rotl64(A.a7, 6), Rotl64(A.a13, 25), Rotl64(A.a19, 8), Rotl64(A.a20, 18),
          Rotl64(A.a4, 27), Rotl64(A.a5, 36), Rotl64(A.a11, 10), Rotl64(A.a17, 15), Rotl64(A.a23, 56),
          Rotl64(A.a2, 62), Rotl64(A.a8, 55), Rotl64(A.a14, 39), Rotl64(A.a15, 41), Rotl64(A.a21, 2))
  }

  function ChiLanes(B: Lanes): Lanes {
    Lanes(Xor(B.a0, AndNot(B.a1, B.a2)), Xor(B.a1, AndNot(B.a2, B.a3)),
          Xor(B.a2, AndNot(B.a3, B.a4)), Xor(B.a3, AndNot(B.a4, B.a0)),
          Xor(B.a4, AndNot(B.a0, B.a1)), Xor(B.a5, AndNot(B.a6, B.a7)),
          Xor(B.a6, AndNot(B.a7, B.a8)), Xor(B.a7, AndNot(B.a8, B.a9)),
          Xor(B.a8, AndNot(B.a9, B.a5)), Xor(B.a9, AndNot(B.a5, B.a6)),
          Xor(B.a10, AndNot(B.a11, B.a12)), Xor(B.a11, AndNot(B.a12, B.a13)),
          Xor(B.a12, AndNot(B.a13, B.a14)), Xor(B.a13, AndNot(B.a14, B.a10)),
          Xor(B.a14, AndNot(B.a10, B.a11)), Xor(B.a15, AndNot(B.a16, B.a17)),
          Xor(B.a16, AndNot(B.a17, B.a18)), Xor(B.a17, AndNot(B.a18, B.a19)),
          Xor(B.a18, AndNot(B.a19, B.a15)), Xor(B.a19, AndNot(B.a15, B.a16)),
          Xor(B.a20, AndNot(B.a21, B.a22)), Xor(B.a21, AndNot(B.a22, B.a23)),
          Xor(B.a22, AndNot(B.a23, B.a24)), Xor(B.a23, AndNot(B.a24, B.a20)),
          Xor(B.a24, AndNot(B.a20, B.a21)))
  }

  function RoundLanes(A: Lanes, r: nat): Lanes
    requires r < 24
  {
    IotaLanes(ChiLanes(RhoPiLanes(ThetaLanes(A))), r)
  }

  function IotaLanes(B: Lanes, r: nat): Lanes
    requires r < 24
  {
    B.(a0 := Xor(B.a0, WordOf(RC[r])))
  }

  /** The lanes of s after rounds 1 .. r-1. */
  function RoundsFrom1(s: Sheet, r: nat): Lanes
    requires 1 <= r <= 24
  {
    if r == 1 then Pack(s) else RoundLanes(RoundsFrom1(s, r - 1), r - 1)
  }

  function PermutedLane(s: Sheet, i: nat): Word
    requires i < 25
  {
    LaneAt(RoundsFrom1(s, 24), i)
  }

  /** Rounds 1 .. 23 on a sheet. */
  function Permute(s: Sheet): Sheet {
    seq(25, i requires 0 <= i < 25 => PermutedLane(s, i))
  }

  lemma UnpackDisplay(A: Lanes)
    ensures Unpack(A) == [A.a0, A.a1, A.a2, A.a3, A.a4,
                           A.a5, A.a6, A.a7, A.a8, A.a9,
                           A.a10, A.a11, A.a12, A.a13, A.a14,
                           A.a15, A.a16, A.a17, A.a18, A.a19,
                           A.a20, A.a21, A.a22, A.a23, A.a24]
  {
  }

  lemma PermuteUnpacks(s: Sheet)
    ensures Permute(s) == Unpack(RoundsFrom1(s, 24))
  {
  }

  method KeccakF23(s: array<Word>)
    requires s.Length == 25
    modifies s
    ensures s[..] == Permute(old(s[..]))
  {
    var a0, a1, a2, a3, a4 := s[0], s[1], s[2], s[3], s[4];
    var a5, a6, a7, a8, a9 := s[5], s[6], s[7], s[8], s[9];
    var a10, a11, a12, a13, a14 := s[10], s[11], s[12], s[13], s[14];
    var a15, a16, a17, a18, a19 := s[15], s[16], s[17], s[18], s[19];
    var a20, a21, a22, a23, a24 := s[20], s[21], s[22], s[23], s[24];
    for r := 1 to 24
      invariant Lanes(a0, a1, a2, a3, a4, a5, a6, a7, a8, a9, a10, a11, a12, a13, a14, a15, a16, a17, a18, a19, a20,
        a21, a22, a23, a24)
             == RoundsFrom1(old(s[..]), r)
    {
      ghost var A := Lanes(a0, a1, a2, a3, a4, a5, a6, a7, a8, a9, a10, a11, a12, a13, a14, a15, a16, a17, a18, a19,
        a20, a21, a22, a23, a24);
      var c0 := Xor(Xor(Xor(Xor(a0, a5), a10), a15), a20);
      var c1 := Xor(Xor(Xor(Xor(a1, a6), a11), a16), a21);
      var c2 := Xor(Xor(Xor(Xor(a2, a7), a12), a17), a22);
      var c3 := Xor(Xor(Xor(Xor(a3, a8), a13), a18), a23);
      var c4 := Xor(Xor(Xor(Xor(a4, a9), a14), a19), a24);
      var d0 := Xor(c4, Rotl64(c1, 1));
      var d1 := Xor(c0, Rotl64(c2, 1));
      var d2 := Xor(c1, Rotl64(c3, 1));
      var d3 := Xor(c2, Rotl64(c4, 1));
      var d4 := Xor(c3, Rotl64(c0, 1));
      a0 := Xor(a0, d0);
      a5 := Xor(a5, d0);
      a10 := Xor(a10, d0);
      a15 := Xor(a15, d0);
      a20 := Xor(a20, d0);
      a1 := Xor(a1, d1);
      a6 := Xor(a6, d1);
      a11 := Xor(a11, d1);
      a16 := Xor(a16, d1);
      a21 := Xor(a21, d1);
      a2 := Xor(a2, d2);
      a7 := Xor(a7, d2);
      a12 := Xor(a12, d2);
      a17 := Xor(a17, d2);
      a22 := Xor(a22, d2);
      a3 := Xor(a3, d3);
      a8 := Xor(a8, d3);
      a13 := Xor(a13, d3);
      a18 := Xor(a18, d3);
      a23 := Xor(a23, d3);
      a4 := Xor(a4, d4);
      a9 := Xor(a9, d4);
      a14 := Xor(a14, d4);
      a19 := Xor(a19, d4);
      a24 := Xor(a24, d4);
      ghost var T := Lanes(a0, a1, a2, a3, a4, a5, a6, a7, a8, a9, a10, a11, a12, a13, a14, a15, a16, a17, a18, a19,
        a20, a21, a22, a23, a24);
      assert T == ThetaLanes(A);
      var b0 := a0;
      var b10 := Rotl64(a1, 1);
      var b20 := Rotl64(a2, 62);
      var b5 := Rotl64(a3, 28);
      var b15 := Rotl64(a4, 27);
      var b16 := Rotl64(a5, 36);
      var b1 := Rotl64(a6, 44);
      var b11 := Rotl64(a7, 6);
      var b21 := Rotl64(a8, 55);
      var b6 := Rotl64(a9, 20);
      var b7 := Rotl64(a10, 3);
      var b17 := Rotl64(a11, 10);
      var b2 := Rotl64(a12, 43);
      var b12 := Rotl64(a13, 25);
      var b22 := Rotl64(a14, 39);
      var b23 := Rotl64(a15, 41);
      var b8 := Rotl64(a16, 45);
      var b18 := Rotl64(a17, 15);
      var b3 := Rotl64(a18, 21);
      var b13 := Rotl64(a19, 8);
      var b14 := Rotl64(a20, 18);
      var b24 := Rotl64(a21, 2);
      var b9 := Rotl64(a22, 61);
      var b19 := Rotl64(a23, 56);
      var b4 := Rotl64(a24, 14);
      ghost var B := Lanes(b0, b1, b2, b3, b4, b5, b6, b7, b8, b9, b10, b11, b12, b13, b14, b15, b16, b17, b18, b19,
        b20, b21, b22, b23, b24);
      assert B == RhoPiLanes(T);
      a0 := Xor(b0, AndNot(b1, b2));
      a1 := Xor(b1, AndNot(b2, b3));
      a2 := Xor(b2, AndNot(b3, b4));
      a3 := Xor(b3, AndNot(b4, b0));
      a4 := Xor(b4, AndNot(b0, b1));
      a5 := Xor(b5, AndNot(b6, b7));
      a6 := Xor(b6, AndNot(b7, b8));
      a7 := Xor(b7, AndNot(b8, b9));
      a8 := Xor(b8, AndNot(b9, b5));
      a9 := Xor(b9, AndNot(b5, b6));
      a10 := Xor(b10, AndNot(b11, b12));
      a11 := Xor(b11, AndNot(b12, b13));
      a12 := Xor(b12, AndNot(b13, b14));
      a13 := Xor(b13, AndNot(b14, b10));
      a14 := Xor(b14, AndNot(b10, b11));
      a15 := Xor(b15, AndNot(b16, b17));
      a16 := Xor(b16, AndNot(b17, b18));
      a17 := Xor(b17, AndNot(b18, b19));
      a18 := Xor(b18, AndNot(b19, b15));
      a19 := Xor(b19, AndNot(b15, b16));
      a20 := Xor(b20, AndNot(b21, b22));
      a21 := Xor(b21, AndNot(b22, b23));
      a22 := Xor(b22, AndNot(b23, b24));
      a23 := Xor(b23, AndNot(b24, b20));
      a24 := Xor(b24, AndNot(b20, b21));
      assert Lanes(a0, a1, a2, a3, a4, a5, a6, a7, a8, a9, a10, a11, a12, a13, a14, a15, a16, a17, a18, a19, a20,
        a21, a22, a23, a24) == ChiLanes(B);
      a0 := Xor(a0, WordOf(RC[r]));
    }
    var final: Sheet := [a0, a1, a2, a3, a4,
                         a5, a6, a7, a8, a9,
                         a10, a11, a12, a13, a14,
                         a15, a16, a17, a18, a19,
                         a20, a21, a22, a23, a24];
    forall i | 0 <= i < 25 {
      s[i] := final[i];
    }
    UnpackDisplay(Lanes(a0, a1, a2, a3, a4, a5, a6, a7, a8, a9, a10, a11, a12, a13, a14, a15, a16, a17, a18, a19,
      a20, a21, a22, a23, a24));
    PermuteUnpacks(old(s[..]));
    assert s[..] == final;
  }

  function XoredLane(s: Sheet, block: seq<Byte>, i: nat): Word
    requires |block| == RATE && i < RATE / 8
  {
    Xor(s[i], Le64(block[8 * i..8 * i + 8]))
  }

  /** One block of the rate XORed into the first 17 lanes. */
  function XorBlock(s: Sheet, block: seq<Byte>): Sheet
    requires |block| == RATE
  {
    seq(25, i requires 0 <= i < 25 => if i < RATE / 8 then XoredLane(s, block, i) else s[i])
  }

  /** Absorbing whole blocks, first block first. */
  function AbsorbBlocks(f: Sheet -> Sheet, s: Sheet, data: seq<Byte>): Sheet
    requires |data| % RATE == 0
    decreases |data|
  {
    if data == [] then s else AbsorbBlocks(f, f(XorBlock(s, data[..RATE])), data[RATE..])
  }

  /** The last block of the byte form of section B.2 of FIPS 202: 0x06, zeros and 0x80 after the
      tail, where the two marks share one byte when only one is left. */
  function LastBlock(tail: seq<Byte>): (block: seq<Byte>)
    requires |tail| < RATE
    ensures |block| == RATE
  {
    if |tail| == RATE - 1 then tail + [ByteOf(0x86)]
    else tail + [ByteOf(0x06)] + seq(RATE - 2 - |tail|, _ => ZERO_BYTE) + [ByteOf(0x80)]
  }

  function Pad(message: seq<Byte>): (padded: seq<Byte>)
    ensures |padded| % RATE == 0
  {
    message[..Whole(message)] + LastBlock(message[Whole(message)..])
  }

  function ZeroSheet(): Sheet {
    seq(25, _ => ZeroWord())
  }

  /** The 32 bytes of the first four lanes. */
  function Digest(s: Sheet): seq<Byte> {
    seq(32, i requires 0 <= i < 32 => PutLe64(s[i / 8])[i % 8])
  }

  lemma DigestParts(s: Sheet)
    ensures Digest(s) == PutLe64(s[0]) + PutLe64(s[1]) + PutLe64(s[2]) + PutLe64(s[3])
  {
    var parts := PutLe64(s[0]) + PutLe64(s[1]) + PutLe64(s[2]) + PutLe64(s[3]);
    forall i | 0 <= i < 32 ensures Digest(s)[i] == parts[i] {
      if i < 8 {
      } else if i < 16 {
      } else if i < 24 {
      } else {
      }
    }
  }

  function Hash(message: seq<Byte>): seq<Byte> {
    Digest(AbsorbBlocks(Permute, ZeroSheet(), Pad(message)))
  }

  /** for i := 0; i < rate/8; i++ { s[i] ^= binary.LittleEndian.Uint64(block[i*8:]) } */
  method XorInto(s: array<Word>, block: seq<Byte>)
    requires s.Length == 25 && |block| == RATE
    modifies s
    ensures s[..] == XorBlock(old(s[..]), block)
  {
    ghost var before := s[..];
    for i := 0 to RATE / 8
      invariant forall j :: 0 <= j < 25 ==> s[j] == if j < i then XoredLane(before, block, j) else before[j]
    {
      s[i] := Xor(s[i], Le64(block[8 * i..8 * i + 8]));
    }
    assert s[..] == XorBlock(before, block);
  }

  /** buf[n] = 0x06; buf[rate-1] |= 0x80, on a zeroed buffer holding n bytes. */
  method MarkEnd(buf: array<Byte>, n: nat)
    requires buf.Length == RATE && n < RATE
    requires forall i :: n <= i < RATE ==> buf[i] == ZERO_BYTE
    modifies buf
    ensures buf[..] == LastBlock(old(buf[..n]))
  {
    buf[n] := ByteOf(0x06);
    buf[RATE - 1] := OrByte(buf[RATE - 1], ByteOf(0x80));
    OrMarks();
  }

  lemma OrMarks()
    ensures OrByte(ByteOf(0x06), ByteOf(0x80)) == ByteOf(0x86)
    ensures OrByte(ZERO_BYTE, ByteOf(0x80)) == ByteOf(0x80)
  {
  }

  /** var s [25]uint64 */
  method NewSheet() returns (s: array<Word>)
    ensures fresh(s) && s[..] == ZeroSheet()
  {
    s := new Word[25];
    forall i | 0 <= i < 25 {
      s[i] := ZeroWord();
    }
  }

  /** var buf [rate]byte; copy(buf[:], tail) */
  method NewBlock(tail: seq<Byte>) returns (buf: array<Byte>)
    requires |tail| <= RATE
    ensures fresh(buf) && buf[..] == tail + seq(RATE - |tail|, _ => ZERO_BYTE)
  {
    buf := new Byte[RATE];
    forall i | 0 <= i < RATE {
      buf[i] := if i < |tail| then tail[i] else ZERO_BYTE;
    }
  }

  lemma AbsorbLast(f: Sheet -> Sheet, s: Sheet, block: seq<Byte>)
    requires |block| == RATE
    ensures AbsorbBlocks(f, s, block) == f(XorBlock(s, block))
  {
    assert block[..RATE] == block;
    assert AbsorbBlocks(f, f(XorBlock(s, block)), block[RATE..]) == f(XorBlock(s, block));
  }

  /** Absorbing a prefix of whole blocks first changes nothing: what lets SolvePow absorb it once. */
  lemma {:induction false} AbsorbAppend(f: Sheet -> Sheet, s: Sheet, a: seq<Byte>, b: seq<Byte>)
    requires |a| % RATE == 0 && |b| % RATE == 0
    ensures AbsorbBlocks(f, s, a + b) == AbsorbBlocks(f, AbsorbBlocks(f, s, a), b)
    decreases |a|
  {
    if a == [] {
      assert a + b == b;
    } else {
      assert (a + b)[..RATE] == a[..RATE];
      assert (a + b)[RATE..] == a[RATE..] + b;
      AbsorbAppend(f, f(XorBlock(s, a[..RATE])), a[RATE..], b);
    }
  }

  /** One block: the XOR loop and the permutation. */
  method AbsorbBlock(s: array<Word>, block: seq<Byte>)
    requires s.Length == 25 && |block| == RATE
    modifies s
    ensures s[..] == AbsorbBlocks(Permute, old(s[..]), block)
  {
    ghost var before := s[..];
    XorInto(s, block);
    KeccakF23(s);
    AbsorbLast(Permute, before, block);
  }

  /** The bytes of data that fill whole blocks. */
  function Whole(data: seq<Byte>): (n: nat)
    ensures n <= |data| < n + RATE && n % RATE == 0
  {
    |data| / RATE * RATE
  }

  /** The loop that both DeepSeekHashV1 and SolvePow start with. */
  method AbsorbWhole(s: array<Word>, data: seq<Byte>) returns (off: nat)
    requires s.Length == 25
    modifies s
    ensures off == Whole(data)
    ensures s[..] == AbsorbBlocks(Permute, old(s[..]), data[..off])
  {
    off := 0;
    while off + RATE <= |data|
      invariant off <= |data| && off % RATE == 0
      invariant s[..] == AbsorbBlocks(Permute, old(s[..]), data[..off])
    {
      AbsorbBlock(s, data[off..off + RATE]);
      AbsorbAppend(Permute, old(s[..]), data[..off], data[off..off + RATE]);
      assert data[..off] + data[off..off + RATE] == data[..off + RATE];
      off := off + RATE;
    }
  }

  method DeepSeekHashV1(data: seq<Byte>) returns (out: seq<Byte>)
    ensures out == Hash(data)
  {
    var s := NewSheet();
    var off := AbsorbWhole(s, data);
    var final := NewBlock(data[off..]);
    MarkEnd(final, |data| - off);
    AbsorbBlock(s, final[..]);
    AbsorbAppend(Permute, ZeroSheet(), data[..off], final[..]);
    out := Digest(s[..]);
  }
}
