/** Machine words and byte strings as sequences of bits. Position i of a word is the bit of weight
    2^i, so the operators below are the Go operators on uint64 spelled out bit by bit. */
module Bits {
  type Byte = b: seq<bool> | |b| == 8 witness seq(8, _ => false)
  type Word = w: seq<bool> | |w| == 64 witness seq(64, _ => false)

  const ZERO_BYTE: Byte := [false, false, false, false, false, false, false, false]

  function ZeroWord(): Word {
    seq(64, _ => false)
  }

  function Xor(a: Word, b: Word): Word {
    seq(64, i requires 0 <= i < 64 => a[i] != b[i])
  }

  // ^a & b
  function AndNot(a: Word, b: Word): Word {
    seq(64, i requires 0 <= i < 64 => !a[i] && b[i])
  }

  function Or(a: Word, b: Word): Word {
    seq(64, i requires 0 <= i < 64 => a[i] || b[i])
  }

  function Shl(a: Word, k: nat): Word {
    seq(64, i requires 0 <= i < 64 => i >= k && a[i - k])
  }

  function Shr(a: Word, k: nat): Word {
    seq(64, i requires 0 <= i < 64 => i + k < 64 && a[i + k])
  }

  function Rotl64(v: Word, k: nat): Word
    requires k <= 64
  {
    Or(Shl(v, k), Shr(v, 64 - k))
  }

  /** The byte with numeric value n. */
  function ByteOf(n: nat): Byte
    requires n < 256
  {
    [n % 2 == 1, n / 2 % 2 == 1, n / 4 % 2 == 1, n / 8 % 2 == 1,
     n / 16 % 2 == 1, n / 32 % 2 == 1, n / 64 % 2 == 1, n / 128 % 2 == 1]
  }

  function OrByte(a: Byte, b: Byte): Byte {
    seq(8, i requires 0 <= i < 8 => a[i] || b[i])
  }

  /** The bit string of a byte string: bytes in order, least significant bit first. */
  function BitString(bytes: seq<Byte>): (bits: seq<bool>)
    ensures |bits| == 8 * |bytes|
  {
    if bytes == [] then [] else bytes[0] + BitString(bytes[1..])
  }

  /** binary.LittleEndian.Uint64 */
  function Le64(bytes: seq<Byte>): Word
    requires |bytes| == 8
  {
    BitString(bytes)
  }

  /** binary.LittleEndian.PutUint64 */
  function PutLe64(w: Word): seq<Byte> {
    [w[0..8], w[8..16], w[16..24], w[24..32], w[32..40], w[40..48], w[48..56], w[56..64]]
  }

  /** The bit string of a sequence of lanes. */
  function LaneString(lanes: seq<Word>): (bits: seq<bool>)
    ensures |bits| == 64 * |lanes|
  {
    if lanes == [] then [] else lanes[0] + LaneString(lanes[1..])
  }

  /** The shift-and-or of the source is a rotation: bit z of the result is bit z - k of v. */
  lemma RotationMovesBits(v: Word, k: nat, z: nat)
    requires k <= 64 && z < 64
    ensures Rotl64(v, k)[z] == v[(z - k) % 64]
  {
    if z >= k {
      assert (z - k) % 64 == z - k;
    } else {
      assert (z - k) % 64 == z - k + 64;
    }
  }

  lemma {:induction false} BitStringAt(bytes: seq<Byte>, i: nat)
    requires i < 8 * |bytes|
    ensures BitString(bytes)[i] == bytes[i / 8][i % 8]
  {
    if i >= 8 {
      BitStringAt(bytes[1..], i - 8);
    }
  }

  lemma {:induction false} BitStringAppend(a: seq<Byte>, b: seq<Byte>)
    ensures BitString(a + b) == BitString(a) + BitString(b)
  {
    if a == [] {
      assert a + b == b;
    } else {
      assert (a + b)[1..] == a[1..] + b;
      BitStringAppend(a[1..], b);
    }
  }

  lemma {:induction false} LaneStringAt(lanes: seq<Word>, l: nat, z: nat)
    requires l < |lanes| && z < 64
    ensures 64 * l + z < |LaneString(lanes)|
    ensures LaneString(lanes)[64 * l + z] == lanes[l][z]
  {
    if l > 0 {
      LaneStringAt(lanes[1..], l - 1, z);
    }
  }

  /** Storing a word and loading it again gives the word back. */
  lemma StoreLoad(w: Word)
    ensures Le64(PutLe64(w)) == w
  {
    var b := PutLe64(w);
    forall i | 0 <= i < 64 ensures Le64(b)[i] == w[i] {
      BitStringAt(b, i);
    }
  }

  /** Loading eight bytes and storing the word gives the bytes back. */
  lemma LoadStore(bytes: seq<Byte>)
    requires |bytes| == 8
    ensures PutLe64(Le64(bytes)) == bytes
  {
    var w := Le64(bytes);
    forall k, j | 0 <= k < 8 && 0 <= j < 8 ensures w[8 * k + j] == bytes[k][j] {
      BitStringAt(bytes, 8 * k + j);
    }
    var b := PutLe64(w);
    forall k | 0 <= k < 8 ensures b[k] == bytes[k] {
      assert b[k] == w[8 * k..8 * k + 8];
    }
  }
}
