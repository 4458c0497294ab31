/** The reference: KECCAK-p[1600, nr] and the sponge construction of FIPS 202, on bit strings,
    transcribed algorithm by algorithm. Nothing here looks at lanes, words or bytes. */
module Fips202 {
  type BitString = seq<bool>
  type State = s: BitString | |s| == 1600 witness seq(1600, _ => false)

  /** Section 3.1.2: the bits A[x, y, z] of a state. */
  type StateArray = (int, int, int) -> bool

  function ToArray(S: State): StateArray {
    (x, y, z) => 0 <= 64 * (5 * y + x) + z < 1600 && S[64 * (5 * y + x) + z]
  }

  /** Section 3.1.3. */
  function ToString(A: StateArray): State {
    seq(1600, i requires 0 <= i < 1600 => A(i / 64 % 5, i / 320, i % 64))
  }

  /** Algorithm 1. */
  function ColumnParity(A: StateArray, x: int, z: int): bool {
    A(x, 0, z) != (A(x, 1, z) != (A(x, 2, z) != (A(x, 3, z) != A(x, 4, z))))
  }

  function ThetaBit(A: StateArray, x: int, y: int, z: int): bool {
    A(x, y, z) != (ColumnParity(A, (x - 1) % 5, z) != ColumnParity(A, (x + 1) % 5, (z - 1) % 64))
  }

  function Theta(A: StateArray): StateArray {
    (x, y, z) => ThetaBit(A, x, y, z)
  }

  /** Algorithm 2: the walk over the lanes other than (0, 0). */
  function RhoPoint(t: nat): (int, int) {
    if t == 0 then (1, 0) else var (x, y) := RhoPoint(t - 1); (y, (2 * x + 3 * y) % 5)
  }

  /** (t+1)(t+2)/2, as the sum 1 + 2 + ... + (t+1). */
  function RhoOffset(t: nat): (offset: nat)
    ensures 2 * offset == (t + 1) * (t + 2)
  {
    if t == 0 then 1 else RhoOffset(t - 1) + t + 1
  }

  /** A bit of the array after steps 0 .. t-1 of the walk. */
  function RhoBit(A: StateArray, x: int, y: int, z: int, t: nat): bool {
    if t == 0 then A(x, y, z)
    else if (x, y) == RhoPoint(t - 1) then A(x, y, (z - RhoOffset(t - 1)) % 64)
    else RhoBit(A, x, y, z, t - 1)
  }

  function Rho(A: StateArray): StateArray {
    (x, y, z) => RhoBit(A, x, y, z, 24)
  }

  /** Algorithm 3. */
  function PiBit(A: StateArray, x: int, y: int, z: int): bool {
    A((x + 3 * y) % 5, x, z)
  }

  function Pi(A: StateArray): StateArray {
    (x, y, z) => PiBit(A, x, y, z)
  }

  /** Algorithm 4. */
  function ChiBit(A: StateArray, x: int, y: int, z: int): bool {
    A(x, y, z) != (!A((x + 1) % 5, y, z) && A((x + 2) % 5, y, z))
  }

  function Chi(A: StateArray): StateArray {
    (x, y, z) => ChiBit(A, x, y, z)
  }

  /** Algorithm 5: the feedback register, and the bit it yields after t steps. */
  datatype Register = Register(r0: bool, r1: bool, r2: bool, r3: bool, r4: bool, r5: bool, r6: bool, r7: bool)

  function Shifted(R: Register): Register {
    Register(R.r7, R.r0, R.r1, R.r2, R.r3 != R.r7, R.r4 != R.r7, R.r5 != R.r7, R.r6)
  }

  function RegisterAfter(t: nat): Register {
    if t == 0 then Register(true, false, false, false, false, false, false, false)
    else Shifted(RegisterAfter(t - 1))
  }

  function RcBit(t: nat): bool {
    RegisterAfter(t % 255).r0
  }

  /** Algorithm 6: bit z of the round constant, where position 2^j - 1 carries rc(j + 7 ir). */
  function RoundConstantBit(ir: nat, z: int): bool {
    if z == 0 then RcBit(7 * ir)
    else if z == 1 then RcBit(1 + 7 * ir)
    else if z == 3 then RcBit(2 + 7 * ir)
    else if z == 7 then RcBit(3 + 7 * ir)
    else if z == 15 then RcBit(4 + 7 * ir)
    else if z == 31 then RcBit(5 + 7 * ir)
    else if z == 63 then RcBit(6 + 7 * ir)
    else false
  }

  function Iota(A: StateArray, ir: nat): StateArray {
    (x, y, z) => if x == 0 && y == 0 then A(0, 0, z) != RoundConstantBit(ir, z) else A(x, y, z)
  }

  function Rnd(A: StateArray, ir: nat): StateArray {
    Iota(Chi(Pi(Rho(Theta(A)))), ir)
  }

  /** Rounds 24 - nr .. ir - 1 (section 3.3, with l = 6). */
  function RoundsUpTo(A: StateArray, nr: nat, ir: nat): StateArray
    requires nr <= 24
    decreases ir
  {
    if ir <= 24 - nr then A else Rnd(RoundsUpTo(A, nr, ir - 1), ir - 1)
  }

  /** Algorithm 7: KECCAK-p[1600, nr]. */
  function KeccakP(S: State, nr: nat): State
    requires nr <= 24
  {
    ToString(RoundsUpTo(ToArray(S), nr, 24))
  }

  /** Section 5.1, Algorithm 9: pad10*1. */
  function Pad10Star1(x: nat, m: nat): BitString
    requires x > 0
  {
    [true] + seq((-2 - m) % x, _ => false) + [true]
  }

  function Zeros(n: nat): BitString {
    seq(n, _ => false)
  }

  function XorBits(a: State, b: State): State {
    seq(1600, i requires 0 <= i < 1600 => a[i] != b[i])
  }

  /** Section 4, Algorithm 8, steps 5 and 6: one block of r bits at a time. */
  function Absorb(f: State -> State, r: nat, S: State, P: BitString): State
    requires 0 < r <= 1600 && |P| % r == 0
    decreases |P|
  {
    if P == [] then S
    else
      BlockFits(|P|, r);
      Absorb(f, r, f(XorBits(S, P[..r] + Zeros(1600 - r))), P[r..])
  }

  /** Section 4, Algorithm 8, steps 7 to 10. */
  function Squeeze(f: State -> State, r: nat, S: State, d: nat, Z: BitString): BitString
    requires 0 < r <= 1600
    decreases d - |Z|
  {
    var Z' := Z + S[..r];
    if d <= |Z'| then Z'[..d] else Squeeze(f, r, f(S), d, Z')
  }

  function Sponge(f: State -> State, r: nat, N: BitString, d: nat): BitString
    requires 0 < r <= 1600
  {
    PaddedLength(|N|, r);
    Squeeze(f, r, Absorb(f, r, Zeros(1600), N + Pad10Star1(r, |N|)), d, [])
  }

  lemma BlockFits(n: nat, r: nat)
    requires r > 0 && n > 0 && n % r == 0
    ensures r <= n && (n - r) % r == 0
  {
    if n < r {
      Division(n, 0, n, r);
      assert false;
    }
    Division(n - r, n / r - 1, 0, r);
  }

  lemma PaddedLength(m: nat, r: nat)
    requires r > 0
    ensures (m + |Pad10Star1(r, m)|) % r == 0
  {
    var j := (-2 - m) % r;
    var q := (-2 - m) / r;
    Division(m + j + 2, -q, 0, r);
  }

  /** Quotient and remainder are unique. */
  lemma Division(n: int, q: int, m: int, r: nat)
    requires 0 <= m < r && n == q * r + m
    ensures n / r == q && n % r == m
  {
    var d := n / r - q;
    assert d * r == m - n % r;
    assert d >= 1 ==> d * r >= r;
    assert d <= -1 ==> d * r <= (-1) * r;
  }
}
