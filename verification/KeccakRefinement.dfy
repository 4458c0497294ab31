/** The unrolled permutation is KECCAK-p[1600, 23] of FIPS 202, and the hash is the sponge over it. */
module KeccakRefinement {
  import opened Bits
  import opened DeepSeekHash
  import F = Fips202

  /** The low n bits of w are those of lane (x, y). Recursive, so that lane facts stay folded. */
  ghost predicate AgreesBelow(B: F.StateArray, x: int, y: int, w: Word, n: nat)
    requires n <= 64
  {
    n > 0 ==> B(x, y, n - 1) == w[n - 1] && AgreesBelow(B, x, y, w, n - 1)
  }

  /** Word w is lane (x, y) of the state array. */
  ghost predicate IsLane(B: F.StateArray, x: int, y: int, w: Word) {
    AgreesBelow(B, x, y, w, |w|)
  }

  lemma {:induction false} BitOfLane(B: F.StateArray, x: int, y: int, w: Word, n: nat, z: nat)
    requires z < n <= 64 && AgreesBelow(B, x, y, w, n)
    ensures B(x, y, z) == w[z]
  {
    if z < n - 1 {
      BitOfLane(B, x, y, w, n - 1, z);
    }
  }

  lemma {:induction false} LaneFromBits(B: F.StateArray, x: int, y: int, w: Word, n: nat)
    requires n <= 64 && forall z :: 0 <= z < n ==> B(x, y, z) == w[z]
    ensures AgreesBelow(B, x, y, w, n)
  {
    if n > 0 {
      LaneFromBits(B, x, y, w, n - 1);
    }
  }

  ghost predicate Row(A: Lanes, B: F.StateArray, y: nat)
    requires y < 5
  {
    match y
    case 0 =>
      IsLane(B, 0, 0, A.a0) && IsLane(B, 1, 0, A.a1) && IsLane(B, 2, 0, A.a2) && IsLane(B, 3, 0, A.a3) &&
      IsLane(B, 4, 0, A.a4)
    case 1 =>
      IsLane(B, 0, 1, A.a5) && IsLane(B, 1, 1, A.a6) && IsLane(B, 2, 1, A.a7) && IsLane(B, 3, 1, A.a8) &&
      IsLane(B, 4, 1, A.a9)
    case 2 =>
      IsLane(B, 0, 2, A.a10) && IsLane(B, 1, 2, A.a11) && IsLane(B, 2, 2, A.a12) && IsLane(B, 3, 2, A.a13) &&
      IsLane(B, 4, 2, A.a14)
    case 3 =>
      IsLane(B, 0, 3, A.a15) && IsLane(B, 1, 3, A.a16) && IsLane(B, 2, 3, A.a17) && IsLane(B, 3, 3, A.a18) &&
      IsLane(B, 4, 3, A.a19)
    case _ =>
      IsLane(B, 0, 4, A.a20) && IsLane(B, 1, 4, A.a21) && IsLane(B, 2, 4, A.a22) && IsLane(B, 3, 4, A.a23) &&
      IsLane(B, 4, 4, A.a24)
  }

  /** Lane variable x + 5y holds lane (x, y). */
  ghost predicate Represents(A: Lanes, B: F.StateArray) {
    Row(A, B, 0) && Row(A, B, 1) && Row(A, B, 2) && Row(A, B, 3) && Row(A, B, 4)
  }

  /** Word c holds the column parities of column x. */
  ghost predicate IsParity(B: F.StateArray, x: int, c: Word) {
    IsLane((x', y', z) => F.ColumnParity(B, x', z), x, 0, c)
  }

  lemma ParityRefines(B: F.StateArray, x: int, w0: Word, w1: Word, w2: Word, w3: Word, w4: Word)
    requires IsLane(B, x, 0, w0) && IsLane(B, x, 1, w1) && IsLane(B, x, 2, w2)
    requires IsLane(B, x, 3, w3) && IsLane(B, x, 4, w4)
    ensures IsParity(B, x, Xor(Xor(Xor(Xor(w0, w1), w2), w3), w4))
  {
    var c := Xor(Xor(Xor(Xor(w0, w1), w2), w3), w4);
    var P := (x', y', z) => F.ColumnParity(B, x', z);
    forall z | 0 <= z < 64 ensures P(x, 0, z) == c[z] {
      BitOfLane(B, x, 0, w0, 64, z);
      BitOfLane(B, x, 1, w1, 64, z);
      BitOfLane(B, x, 2, w2, 64, z);
      BitOfLane(B, x, 3, w3, 64, z);
      BitOfLane(B, x, 4, w4, 64, z);
    }
    LaneFromBits(P, x, 0, c, 64);
  }

  lemma ThetaLane(B: F.StateArray, x: int, x0: int, x1: int, y: int, w: Word, before: Word, after: Word)
    requires x0 == (x - 1) % 5 && x1 == (x + 1) % 5
    requires IsLane(B, x, y, w) && IsParity(B, x0, before) && IsParity(B, x1, after)
    ensures IsLane(F.Theta(B), x, y, Xor(w, Xor(before, Rotl64(after, 1))))
  {
    var v := Xor(w, Xor(before, Rotl64(after, 1)));
    var P := (x', y', z) => F.ColumnParity(B, x', z);
    forall z | 0 <= z < 64 ensures F.Theta(B)(x, y, z) == v[z] {
      RotationMovesBits(after, 1, z);
      BitOfLane(P, x0, 0, before, 64, z);
      BitOfLane(P, x1, 0, after, 64, (z - 1) % 64);
      BitOfLane(B, x, y, w, 64, z);
    }
    LaneFromBits(F.Theta(B), x, y, v, 64);
  }

  lemma ThetaRefines(A: Lanes, B: F.StateArray)
    requires Represents(A, B)
    ensures Represents(ThetaLanes(A), F.Theta(B))
  {
    var c0 := Xor(Xor(Xor(Xor(A.a0, A.a5), A.a10), A.a15), A.a20);
    var c1 := Xor(Xor(Xor(Xor(A.a1, A.a6), A.a11), A.a16), A.a21);
    var c2 := Xor(Xor(Xor(Xor(A.a2, A.a7), A.a12), A.a17), A.a22);
    var c3 := Xor(Xor(Xor(Xor(A.a3, A.a8), A.a13), A.a18), A.a23);
    var c4 := Xor(Xor(Xor(Xor(A.a4, A.a9), A.a14), A.a19), A.a24);
    ParityRefines(B, 0, A.a0, A.a5, A.a10, A.a15, A.a20);
    ParityRefines(B, 1, A.a1, A.a6, A.a11, A.a16, A.a21);
    ParityRefines(B, 2, A.a2, A.a7, A.a12, A.a17, A.a22);
    ParityRefines(B, 3, A.a3, A.a8, A.a13, A.a18, A.a23);
    ParityRefines(B, 4, A.a4, A.a9, A.a14, A.a19, A.a24);
    ThetaLane(B, 0, 4, 1, 0, A.a0, c4, c1);
    ThetaLane(B, 1, 0, 2, 0, A.a1, c0, c2);
    ThetaLane(B, 2, 1, 3, 0, A.a2, c1, c3);
    ThetaLane(B, 3, 2, 4, 0, A.a3, c2, c4);
    ThetaLane(B, 4, 3, 0, 0, A.a4, c3, c0);
    ThetaLane(B, 0, 4, 1, 1, A.a5, c4, c1);
    ThetaLane(B, 1, 0, 2, 1, A.a6, c0, c2);
    ThetaLane(B, 2, 1, 3, 1, A.a7, c1, c3);
    ThetaLane(B, 3, 2, 4, 1, A.a8, c2, c4);
    ThetaLane(B, 4, 3, 0, 1, A.a9, c3, c0);
    ThetaLane(B, 0, 4, 1, 2, A.a10, c4, c1);
    ThetaLane(B, 1, 0, 2, 2, A.a11, c0, c2);
    ThetaLane(B, 2, 1, 3, 2, A.a12, c1, c3);
    ThetaLane(B, 3, 2, 4, 2, A.a13, c2, c4);
    ThetaLane(B, 4, 3, 0, 2, A.a14, c3, c0);
    ThetaLane(B, 0, 4, 1, 3, A.a15, c4, c1);
    ThetaLane(B, 1, 0, 2, 3, A.a16, c0, c2);
    ThetaLane(B, 2, 1, 3, 3, A.a17, c1, c3);
    ThetaLane(B, 3, 2, 4, 3, A.a18, c2, c4);
    ThetaLane(B, 4, 3, 0, 3, A.a19, c3, c0);
    ThetaLane(B, 0, 4, 1, 4, A.a20, c4, c1);
    ThetaLane(B, 1, 0, 2, 4, A.a21, c0, c2);
    ThetaLane(B, 2, 1, 3, 4, A.a22, c1, c3);
    ThetaLane(B, 3, 2, 4, 4, A.a23, c2, c4);
    ThetaLane(B, 4, 3, 0, 4, A.a24, c3, c0);
  }

  lemma ChiLane(B: F.StateArray, x: int, x1: int, x2: int, y: int, w: Word, w1: Word, w2: Word)
    requires x1 == (x + 1) % 5 && x2 == (x + 2) % 5
    requires IsLane(B, x, y, w) && IsLane(B, x1, y, w1) && IsLane(B, x2, y, w2)
    ensures IsLane(F.Chi(B), x, y, Xor(w, AndNot(w1, w2)))
  {
    var v := Xor(w, AndNot(w1, w2));
    forall z | 0 <= z < 64 ensures F.Chi(B)(x, y, z) == v[z] {
      BitOfLane(B, x, y, w, 64, z);
      BitOfLane(B, x1, y, w1, 64, z);
      BitOfLane(B, x2, y, w2, 64, z);
    }
    LaneFromBits(F.Chi(B), x, y, v, 64);
  }

  lemma ChiRow(B: F.StateArray, y: int, w0: Word, w1: Word, w2: Word, w3: Word, w4: Word)
    requires IsLane(B, 0, y, w0) && IsLane(B, 1, y, w1) && IsLane(B, 2, y, w2)
    requires IsLane(B, 3, y, w3) && IsLane(B, 4, y, w4)
    ensures IsLane(F.Chi(B), 0, y, Xor(w0, AndNot(w1, w2))) && IsLane(F.Chi(B), 1, y, Xor(w1, AndNot(w2, w3)))
    ensures IsLane(F.Chi(B), 2, y, Xor(w2, AndNot(w3, w4))) && IsLane(F.Chi(B), 3, y, Xor(w3, AndNot(w4, w0)))
    ensures IsLane(F.Chi(B), 4, y, Xor(w4, AndNot(w0, w1)))
  {
    ChiLane(B, 0, 1, 2, y, w0, w1, w2);
    ChiLane(B, 1, 2, 3, y, w1, w2, w3);
    ChiLane(B, 2, 3, 4, y, w2, w3, w4);
    ChiLane(B, 3, 4, 0, y, w3, w4, w0);
    ChiLane(B, 4, 0, 1, y, w4, w0, w1);
  }

  lemma ChiRefines(A: Lanes, B: F.StateArray)
    requires Represents(A, B)
    ensures Represents(ChiLanes(A), F.Chi(B))
  {
    ChiRow(B, 0, A.a0, A.a1, A.a2, A.a3, A.a4);
    ChiRow(B, 1, A.a5, A.a6, A.a7, A.a8, A.a9);
    ChiRow(B, 2, A.a10, A.a11, A.a12, A.a13, A.a14);
    ChiRow(B, 3, A.a15, A.a16, A.a17, A.a18, A.a19);
    ChiRow(B, 4, A.a20, A.a21, A.a22, A.a23, A.a24);
  }

  /** The step of the walk at which lane (x, y) is visited. */
  function VisitedAt(x: int, y: int): nat {
    if y == 0 then (if x == 1 then 0 else if x == 2 then 18 else if x == 3 then 6 else if x == 4 then 12 else 24)
    else if y == 1 then
      if x == 0 then 7 else if x == 1 then 23 else if x == 2 then 2 else if x == 3 then 9
      else if x == 4 then 22 else 24
    else if y == 2 then
      if x == 0 then 1 else if x == 1 then 3 else if x == 2 then 17 else if x == 3 then 16
      else if x == 4 then 20 else 24
    else if y == 3 then
      if x == 0 then 13 else if x == 1 then 8 else if x == 2 then 4 else if x == 3 then 5
      else if x == 4 then 15 else 24
    else if y == 4 then
      if x == 0 then 19 else if x == 1 then 10 else if x == 2 then 21 else if x == 3 then 14
      else if x == 4 then 11 else 24
    else 24
  }

  /** The walk visits each of the 24 lanes other than (0, 0) once. */
  lemma WalkVisits(t: nat)
    requires t < 24
    ensures VisitedAt(F.RhoPoint(t).0, F.RhoPoint(t).1) == t
  {
    WalkPoints();
    match t {
    case 0 => case 1 => case 2 => case 3 => case 4 => case 5 => case 6 => case 7 =>
      case 8 => case 9 => case 10 => case 11 => case 12 => case 13 => case 14 => case 15 =>
      case 16 => case 17 => case 18 => case 19 => case 20 => case 21 => case 22 => case 23 =>
    }
  }

  lemma WalkInjective(t: nat, u: nat)
    requires t < 24 && u < 24 && F.RhoPoint(t) == F.RhoPoint(u)
    ensures t == u
  {
    WalkVisits(t);
    WalkVisits(u);
  }

  /** What the first n steps of the walk do to the lane visited at step t. */
  lemma {:induction false} RhoAt(B: F.StateArray, t: nat, z: int, n: nat)
    requires t < 24 && n <= 24
    ensures var (x, y) := F.RhoPoint(t);
      F.RhoBit(B, x, y, z, n) == if t < n then B(x, y, (z - F.RhoOffset(t)) % 64) else B(x, y, z)
  {
    if n > 0 && F.RhoPoint(n - 1) == F.RhoPoint(t) {
      WalkInjective(n - 1, t);
    }
    if n > 0 {
      RhoAt(B, t, z, n - 1);
    }
  }

  /** No step of the walk moves lane (0, 0). */
  lemma {:induction false} RhoAtOrigin(B: F.StateArray, z: int, n: nat)
    requires n <= 24
    ensures F.RhoBit(B, 0, 0, z, n) == B(0, 0, z)
  {
    if n > 0 {
      WalkVisits(n - 1);
      RhoAtOrigin(B, z, n - 1);
    }
  }

  lemma ShiftMod(z: int, k: nat)
    ensures (z - k) % 64 == (z - k % 64) % 64
  {
  }

  lemma RhoPiLane(B: F.StateArray, x: int, y: int, x': int, w: Word, t: nat, k: nat)
    requires x' == (x + 3 * y) % 5 && t < 24 && F.RhoPoint(t) == (x', x)
    requires k == F.RhoOffset(t) % 64
    requires IsLane(B, x', x, w)
    ensures IsLane(F.Pi(F.Rho(B)), x, y, Rotl64(w, k))
  {
    var r := Rotl64(w, k);
    forall z | 0 <= z < 64 ensures F.Pi(F.Rho(B))(x, y, z) == r[z] {
      assert F.Pi(F.Rho(B))(x, y, z) == F.RhoBit(B, x', x, z, 24);
      RhoAt(B, t, z, 24);
      RotationMovesBits(w, k, z);
      ShiftMod(z, F.RhoOffset(t));
      BitOfLane(B, x', x, w, 64, (z - k) % 64);
    }
    LaneFromBits(F.Pi(F.Rho(B)), x, y, r, 64);
  }

  lemma RhoPiOrigin(B: F.StateArray, w: Word)
    requires IsLane(B, 0, 0, w)
    ensures IsLane(F.Pi(F.Rho(B)), 0, 0, w)
  {
    forall z | 0 <= z < 64 ensures F.Pi(F.Rho(B))(0, 0, z) == w[z] {
      RhoAtOrigin(B, z, 24);
      BitOfLane(B, 0, 0, w, 64, z);
    }
    LaneFromBits(F.Pi(F.Rho(B)), 0, 0, w, 64);
  }


  lemma RhoPiRow0(A: Lanes, B: F.StateArray)
    requires Represents(A, B)
    ensures Row(RhoPiLanes(A), F.Pi(F.Rho(B)), 0)
  {
    WalkPoints();
    WalkOffsets();
    RhoPiOrigin(B, A.a0);
    RhoPiLane(B, 1, 0, 1, A.a6, 23, 44);
    RhoPiLane(B, 2, 0, 2, A.a12, 17, 43);
    RhoPiLane(B, 3, 0, 3, A.a18, 5, 21);
    RhoPiLane(B, 4, 0, 4, A.a24, 11, 14);
  }

  lemma RhoPiRow1(A: Lanes, B: F.StateArray)
    requires Represents(A, B)
    ensures Row(RhoPiLanes(A), F.Pi(F.Rho(B)), 1)
  {
    WalkPoints();
    WalkOffsets();
    RhoPiLane(B, 0, 1, 3, A.a3, 6, 28);
    RhoPiLane(B, 1, 1, 4, A.a9, 22, 20);
    RhoPiLane(B, 2, 1, 0, A.a10, 1, 3);
    RhoPiLane(B, 3, 1, 1, A.a16, 8, 45);
    RhoPiLane(B, 4, 1, 2, A.a22, 21, 61);
  }

  lemma RhoPiRow2(A: Lanes, B: F.StateArray)
    requires Represents(A, B)
    ensures Row(RhoPiLanes(A), F.Pi(F.Rho(B)), 2)
  {
    WalkPoints();
    WalkOffsets();
    RhoPiLane(B, 0, 2, 1, A.a1, 0, 1);
    RhoPiLane(B, 1, 2, 2, A.a7, 2, 6);
    RhoPiLane(B, 2, 2, 3, A.a13, 16, 25);
    RhoPiLane(B, 3, 2, 4, A.a19, 15, 8);
    RhoPiLane(B, 4, 2, 0, A.a20, 19, 18);
  }

  lemma RhoPiRow3(A: Lanes, B: F.StateArray)
    requires Represents(A, B)
    ensures Row(RhoPiLanes(A), F.Pi(F.Rho(B)), 3)
  {
    WalkPoints();
    WalkOffsets();
    RhoPiLane(B, 0, 3, 4, A.a4, 12, 27);
    RhoPiLane(B, 1, 3, 0, A.a5, 7, 36);
    RhoPiLane(B, 2, 3, 1, A.a11, 3, 10);
    RhoPiLane(B, 3, 3, 2, A.a17, 4, 15);
    RhoPiLane(B, 4, 3, 3, A.a23, 14, 56);
  }

  lemma RhoPiRow4(A: Lanes, B: F.StateArray)
    requires Represents(A, B)
    ensures Row(RhoPiLanes(A), F.Pi(F.Rho(B)), 4)
  {
    WalkPoints();
    WalkOffsets();
    RhoPiLane(B, 0, 4, 2, A.a2, 18, 62);
    RhoPiLane(B, 1, 4, 3, A.a8, 9, 55);
    RhoPiLane(B, 2, 4, 4, A.a14, 20, 39);
    RhoPiLane(B, 3, 4, 0, A.a15, 13, 41);
    RhoPiLane(B, 4, 4, 1, A.a21, 10, 2);
  }

  lemma RhoPiRefines(A: Lanes, B: F.StateArray)
    requires Represents(A, B)
    ensures Represents(RhoPiLanes(A), F.Pi(F.Rho(B)))
  {
    RhoPiRow0(A, B);
    RhoPiRow1(A, B);
    RhoPiRow2(A, B);
    RhoPiRow3(A, B);
    RhoPiRow4(A, B);
  }

  lemma WalkPoints()
    ensures F.RhoPoint(0) == (1, 0)
    ensures F.RhoPoint(1) == (0, 2)
    ensures F.RhoPoint(2) == (2, 1)
    ensures F.RhoPoint(3) == (1, 2)
    ensures F.RhoPoint(4) == (2, 3)
    ensures F.RhoPoint(5) == (3, 3)
    ensures F.RhoPoint(6) == (3, 0)
    ensures F.RhoPoint(7) == (0, 1)
    ensures F.RhoPoint(8) == (1, 3)
    ensures F.RhoPoint(9) == (3, 1)
    ensures F.RhoPoint(10) == (1, 4)
    ensures F.RhoPoint(11) == (4, 4)
    ensures F.RhoPoint(12) == (4, 0)
    ensures F.RhoPoint(13) == (0, 3)
    ensures F.RhoPoint(14) == (3, 4)
    ensures F.RhoPoint(15) == (4, 3)
    ensures F.RhoPoint(16) == (3, 2)
    ensures F.RhoPoint(17) == (2, 2)
    ensures F.RhoPoint(18) == (2, 0)
    ensures F.RhoPoint(19) == (0, 4)
    ensures F.RhoPoint(20) == (4, 2)
    ensures F.RhoPoint(21) == (2, 4)
    ensures F.RhoPoint(22) == (4, 1)
    ensures F.RhoPoint(23) == (1, 1)
  {
  }

  lemma WalkOffsets()
    ensures F.RhoOffset(0) % 64 == 1 && F.RhoOffset(1) % 64 == 3 && F.RhoOffset(2) % 64 == 6 &&
      F.RhoOffset(3) % 64 == 10
    ensures F.RhoOffset(4) % 64 == 15 && F.RhoOffset(5) % 64 == 21 && F.RhoOffset(6) % 64 == 28 &&
      F.RhoOffset(7) % 64 == 36
    ensures F.RhoOffset(8) % 64 == 45 && F.RhoOffset(9) % 64 == 55 && F.RhoOffset(10) % 64 == 2 &&
      F.RhoOffset(11) % 64 == 14
    ensures F.RhoOffset(12) % 64 == 27 && F.RhoOffset(13) % 64 == 41 && F.RhoOffset(14) % 64 == 56 &&
      F.RhoOffset(15) % 64 == 8
    ensures F.RhoOffset(16) % 64 == 25 && F.RhoOffset(17) % 64 == 43 && F.RhoOffset(18) % 64 == 62 &&
      F.RhoOffset(19) % 64 == 18
    ensures F.RhoOffset(20) % 64 == 39 && F.RhoOffset(21) % 64 == 61 && F.RhoOffset(22) % 64 == 20 &&
      F.RhoOffset(23) % 64 == 44
  {
  }

  // ---- iota

  /** The feedback register after 7r steps. */
  function RegisterTable(r: nat): F.Register {
    match r
    case 0 => F.Register(true, false, false, false, false, false, false, false)
    case 1 => F.Register(false, false, false, false, false, false, false, true)
    case 2 => F.Register(false, false, false, true, true, false, true, true)
    case 3 => F.Register(false, true, false, true, true, false, false, false)
    case 4 => F.Register(true, true, true, true, true, false, true, true)
    case 5 => F.Register(true, false, false, true, false, false, false, false)
    case 6 => F.Register(true, false, true, false, true, true, false, false)
    case 7 => F.Register(true, true, true, true, false, false, true, false)
    case 8 => F.Register(false, true, false, true, false, false, true, true)
    case 9 => F.Register(false, false, false, false, true, true, true, false)
    case 10 => F.Register(true, false, false, false, false, false, true, false)
    case 11 => F.Register(false, false, true, true, false, true, true, true)
    case 12 => F.Register(true, false, true, false, true, false, true, true)
    case 13 => F.Register(true, false, true, true, false, false, true, true)
    case 14 => F.Register(true, true, false, false, false, true, true, false)
    case 15 => F.Register(true, true, false, true, false, true, false, true)
    case 16 => F.Register(false, true, false, true, false, true, false, true)
    case 17 => F.Register(false, true, false, true, false, true, false, false)
    case 18 => F.Register(false, true, false, false, true, true, true, true)
    case 19 => F.Register(false, false, false, true, false, true, true, true)
    case 20 => F.Register(true, true, true, false, true, true, false, false)
    case 21 => F.Register(false, true, true, true, true, true, false, false)
    case 22 => F.Register(true, true, false, true, false, false, false, false)
    case _ => F.Register(false, false, true, false, false, false, true, false)
  }

  function SevenShifts(R: F.Register): F.Register {
    F.Shifted(F.Shifted(F.Shifted(F.Shifted(F.Shifted(F.Shifted(F.Shifted(R)))))))
  }

  lemma TableStep(r: nat)
    requires 0 < r < 24
    ensures SevenShifts(RegisterTable(r - 1)) == RegisterTable(r)
  {
    match r {
      case 1 => case 2 => case 3 => case 4 => case 5 => case 6 => case 7 => case 8 =>
      case 9 => case 10 => case 11 => case 12 => case 13 => case 14 => case 15 => case 16 =>
      case 17 => case 18 => case 19 => case 20 => case 21 => case 22 => case 23 =>
    }
  }

  lemma SevenMore(t: nat)
    ensures F.RegisterAfter(t + 7) == SevenShifts(F.RegisterAfter(t))
  {
    assert F.RegisterAfter(t + 1) == F.Shifted(F.RegisterAfter(t));
    assert F.RegisterAfter(t + 2) == F.Shifted(F.RegisterAfter(t + 1));
    assert F.RegisterAfter(t + 3) == F.Shifted(F.RegisterAfter(t + 2));
    assert F.RegisterAfter(t + 4) == F.Shifted(F.RegisterAfter(t + 3));
    assert F.RegisterAfter(t + 5) == F.Shifted(F.RegisterAfter(t + 4));
    assert F.RegisterAfter(t + 6) == F.Shifted(F.RegisterAfter(t + 5));
  }

  /** The first bit after j further steps. */
  function FirstBit(R: F.Register, j: int): bool {
    if j <= 0 then R.r0
    else if j == 1 then R.r7
    else if j == 2 then R.r6
    else if j == 3 then R.r5 != R.r7
    else if j == 4 then (R.r4 != R.r7) != R.r6
    else if j == 5 then ((R.r3 != R.r7) != R.r6) != (R.r5 != R.r7)
    else ((R.r2 != R.r6) != (R.r5 != R.r7)) != ((R.r4 != R.r7) != R.r6)
  }

  lemma BitAfter(t: nat, j: nat)
    requires j < 7
    ensures F.RegisterAfter(t + j).r0 == FirstBit(F.RegisterAfter(t), j)
  {
    if j > 0 {
      var R1 := F.Shifted(F.RegisterAfter(t));
      assert F.RegisterAfter(t + 1) == R1;
      if j > 1 {
        var R2 := F.Shifted(R1);
        assert F.RegisterAfter(t + 2) == R2;
        if j > 2 {
          var R3 := F.Shifted(R2);
          assert F.RegisterAfter(t + 3) == R3;
          if j > 3 {
            var R4 := F.Shifted(R3);
            assert F.RegisterAfter(t + 4) == R4;
            if j > 4 {
              assert F.RegisterAfter(t + 5) == F.Shifted(R4);
              if j > 5 {
                assert F.RegisterAfter(t + 6) == F.Shifted(F.Shifted(R4));
              }
            }
          }
        }
      }
    }
  }

  lemma RegisterStep(r: nat, t: nat)
    requires 0 < r < 24 && F.RegisterAfter(t) == RegisterTable(r - 1)
    ensures F.RegisterAfter(t + 7) == RegisterTable(r)
  {
    SevenMore(t);
    TableStep(r);
  }

  lemma {:induction false} RegisterAt(r: nat)
    requires r < 24
    ensures F.RegisterAfter(7 * r) == RegisterTable(r)
  {
    if r > 0 {
      RegisterAt(r - 1);
      RegisterStep(r, 7 * (r - 1));
      assert 7 * (r - 1) + 7 == 7 * r;
    }
  }

  /** The seven positions 2^j - 1. */
  function Position(j: int): int {
    if j <= 0 then 0 else if j == 1 then 1 else if j == 2 then 3 else if j == 3 then 7
    else if j == 4 then 15 else if j == 5 then 31 else 63
  }

  lemma OtherBitsClear(v: bv64, z: nat)
    requires z < 64 && v & 0x7FFF_FFFF_7FFF_7F74 == 0
    requires z != 0 && z != 1 && z != 3 && z != 7 && z != 15 && z != 31 && z != 63
    ensures !BitOf(v, z)
  {
    match z {
      case 2 => case 4 => case 5 => case 6 =>
      case 8 => case 9 => case 10 => case 11 => case 12 => case 13 => case 14 =>
      case 16 => case 17 => case 18 => case 19 => case 20 => case 21 => case 22 => case 23 =>
      case 24 => case 25 => case 26 => case 27 => case 28 => case 29 => case 30 =>
      case 32 => case 33 => case 34 => case 35 => case 36 => case 37 => case 38 => case 39 =>
      case 40 => case 41 => case 42 => case 43 => case 44 => case 45 => case 46 => case 47 =>
      case 48 => case 49 => case 50 => case 51 => case 52 => case 53 => case 54 => case 55 =>
      case 56 => case 57 => case 58 => case 59 => case 60 => case 61 => case 62 =>
    }
  }

  lemma ConstantTable(r: nat)
    requires 0 < r < 24
    ensures RC[r] & 0x7FFF_FFFF_7FFF_7F74 == 0
    ensures forall j :: 0 <= j < 7 ==> BitOf(RC[r], Position(j)) == FirstBit(RegisterTable(r), j)
  {
    match r {
      case 1 => case 2 => case 3 => case 4 => case 5 => case 6 => case 7 => case 8 =>
      case 9 => case 10 => case 11 => case 12 => case 13 => case 14 => case 15 => case 16 =>
      case 17 => case 18 => case 19 => case 20 => case 21 => case 22 => case 23 =>
    }
  }

  /** A constant with the bits of the reference at the seven positions and zeros elsewhere. */
  lemma BitsOfConstant(v: bv64, r: nat, z: nat)
    requires r < 24 && z < 64 && v & 0x7FFF_FFFF_7FFF_7F74 == 0
    requires forall j :: 0 <= j < 7 ==> BitOf(v, Position(j)) == F.RcBit(j + 7 * r)
    ensures BitOf(v, z) == F.RoundConstantBit(r, z)
  {
    if z == 0 || z == 1 || z == 3 || z == 7 || z == 15 || z == 31 || z == 63 {
      var j := if z == 0 then 0 else if z == 1 then 1 else if z == 3 then 2 else if z == 7 then 3
               else if z == 15 then 4 else if z == 31 then 5 else 6;
      assert BitOf(v, Position(j)) == F.RcBit(j + 7 * r);
    } else {
      OtherBitsClear(v, z);
    }
  }

  lemma RcBitAt(r: nat, j: nat)
    requires r < 24 && j < 7
    ensures F.RcBit(j + 7 * r) == FirstBit(RegisterTable(r), j)
  {
    RegisterAt(r);
    BitAfter(7 * r, j);
    assert (j + 7 * r) % 255 == 7 * r + j;
  }

  lemma ConstantRefines(r: nat, z: nat)
    requires 0 < r < 24 && z < 64
    ensures BitOf(RC[r], z) == F.RoundConstantBit(r, z)
  {
    var v := RC[r];
    assert v & 0x7FFF_FFFF_7FFF_7F74 == 0 by { ConstantTable(r); }
    forall j | 0 <= j < 7 ensures BitOf(v, Position(j)) == F.RcBit(j + 7 * r) {
      ConstantTable(r);
      RcBitAt(r, j);
    }
    BitsOfConstant(v, r, z);
  }

  lemma IotaOrigin(B: F.StateArray, w: Word, r: nat)
    requires IsLane(B, 0, 0, w) && 0 < r < 24
    ensures IsLane(F.Iota(B, r), 0, 0, Xor(w, WordOf(RC[r])))
  {
    var v := Xor(w, WordOf(RC[r]));
    forall z | 0 <= z < 64 ensures F.Iota(B, r)(0, 0, z) == v[z] {
      ConstantRefines(r, z);
      BitOfLane(B, 0, 0, w, 64, z);
    }
    LaneFromBits(F.Iota(B, r), 0, 0, v, 64);
  }

  lemma IotaOther(B: F.StateArray, x: int, y: int, w: Word, r: nat)
    requires IsLane(B, x, y, w) && (x != 0 || y != 0)
    ensures IsLane(F.Iota(B, r), x, y, w)
  {
    forall z | 0 <= z < 64 ensures F.Iota(B, r)(x, y, z) == w[z] {
      BitOfLane(B, x, y, w, 64, z);
    }
    LaneFromBits(F.Iota(B, r), x, y, w, 64);
  }

  lemma IotaRefines(A: Lanes, B: F.StateArray, r: nat)
    requires Represents(A, B) && 0 < r < 24
    ensures Represents(IotaLanes(A, r), F.Iota(B, r))
  {
    IotaOrigin(B, A.a0, r);
    IotaOther(B, 1, 0, A.a1, r);
    IotaOther(B, 2, 0, A.a2, r);
    IotaOther(B, 3, 0, A.a3, r);
    IotaOther(B, 4, 0, A.a4, r);
    IotaOther(B, 0, 1, A.a5, r);
    IotaOther(B, 1, 1, A.a6, r);
    IotaOther(B, 2, 1, A.a7, r);
    IotaOther(B, 3, 1, A.a8, r);
    IotaOther(B, 4, 1, A.a9, r);
    IotaOther(B, 0, 2, A.a10, r);
    IotaOther(B, 1, 2, A.a11, r);
    IotaOther(B, 2, 2, A.a12, r);
    IotaOther(B, 3, 2, A.a13, r);
    IotaOther(B, 4, 2, A.a14, r);
    IotaOther(B, 0, 3, A.a15, r);
    IotaOther(B, 1, 3, A.a16, r);
    IotaOther(B, 2, 3, A.a17, r);
    IotaOther(B, 3, 3, A.a18, r);
    IotaOther(B, 4, 3, A.a19, r);
    IotaOther(B, 0, 4, A.a20, r);
    IotaOther(B, 1, 4, A.a21, r);
    IotaOther(B, 2, 4, A.a22, r);
    IotaOther(B, 3, 4, A.a23, r);
    IotaOther(B, 4, 4, A.a24, r);
  }

  // ---- the permutation

  /** Rounds 1 .. r-1 of the unrolled code are rounds 1 .. r-1 of the reference. */
  lemma {:induction false} RoundsRefine(s: Sheet, B: F.StateArray, r: nat)
    requires Represents(Pack(s), B) && 1 <= r <= 24
    ensures Represents(RoundsFrom1(s, r), F.RoundsUpTo(B, 23, r))
  {
    if r > 1 {
      RoundsRefine(s, B, r - 1);
      RoundRefines(RoundsFrom1(s, r - 1), F.RoundsUpTo(B, 23, r - 1), r - 1);
    }
  }

  lemma RoundRefines(A: Lanes, B: F.StateArray, r: nat)
    requires Represents(A, B) && 0 < r < 24
    ensures Represents(RoundLanes(A, r), F.Rnd(B, r))
  {
    ThetaRefines(A, B);
    RhoPiRefines(ThetaLanes(A), F.Theta(B));
    ChiRefines(RhoPiLanes(ThetaLanes(A)), F.Pi(F.Rho(F.Theta(B))));
    IotaRefines(ChiLanes(RhoPiLanes(ThetaLanes(A))), F.Chi(F.Pi(F.Rho(F.Theta(B)))), r);
  }

  lemma LoadedLane(s: Sheet, x: nat, y: nat)
    requires x < 5 && y < 5
    ensures IsLane(F.ToArray(LaneString(s)), x, y, s[x + 5 * y])
  {
    var B := F.ToArray(LaneString(s));
    forall z | 0 <= z < 64 ensures B(x, y, z) == s[x + 5 * y][z] {
      LaneStringAt(s, x + 5 * y, z);
    }
    LaneFromBits(B, x, y, s[x + 5 * y], 64);
  }

  lemma LoadRepresents(s: Sheet)
    ensures Represents(Pack(s), F.ToArray(LaneString(s)))
  {
    LoadedLane(s, 0, 0); LoadedLane(s, 1, 0); LoadedLane(s, 2, 0); LoadedLane(s, 3, 0); LoadedLane(s, 4, 0);
    LoadedLane(s, 0, 1); LoadedLane(s, 1, 1); LoadedLane(s, 2, 1); LoadedLane(s, 3, 1); LoadedLane(s, 4, 1);
    LoadedLane(s, 0, 2); LoadedLane(s, 1, 2); LoadedLane(s, 2, 2); LoadedLane(s, 3, 2); LoadedLane(s, 4, 2);
    LoadedLane(s, 0, 3); LoadedLane(s, 1, 3); LoadedLane(s, 2, 3); LoadedLane(s, 3, 3); LoadedLane(s, 4, 3);
    LoadedLane(s, 0, 4); LoadedLane(s, 1, 4); LoadedLane(s, 2, 4); LoadedLane(s, 3, 4); LoadedLane(s, 4, 4);
  }

  lemma LaneOf(A: Lanes, B: F.StateArray, l: nat)
    requires Represents(A, B) && l < 25
    ensures IsLane(B, l % 5, l / 5, LaneAt(A, l))
  {
    match l {
      case 0 => case 1 => case 2 => case 3 => case 4 =>
      case 5 => case 6 => case 7 => case 8 => case 9 =>
      case 10 => case 11 => case 12 => case 13 => case 14 =>
      case 15 => case 16 => case 17 => case 18 => case 19 =>
      case 20 => case 21 => case 22 => case 23 => case 24 =>
    }
  }

  function Keccak23(S: F.State): F.State {
    F.KeccakP(S, 23)
  }

  /** Reading the lanes of an array in order gives its bit string. */
  lemma StoredString(s: Sheet, B: F.StateArray)
    requires forall l, z {:trigger s[l][z]} :: 0 <= l < 25 && 0 <= z < 64 ==> B(l % 5, l / 5, z) == s[l][z]
    ensures F.ToString(B) == LaneString(s)
  {
    forall i | 0 <= i < 1600 ensures F.ToString(B)[i] == LaneString(s)[i] {
      var l, z := i / 64, i % 64;
      LaneStringAt(s, l, z);
      assert B(l % 5, l / 5, z) == s[l][z];
      assert i / 320 == l / 5;
    }
  }

  lemma StoreRepresents(A: Lanes, B: F.StateArray)
    requires Represents(A, B)
    ensures F.ToString(B) == LaneString(Unpack(A))
  {
    var s := Unpack(A);
    forall l, z | 0 <= l < 25 && 0 <= z < 64 ensures B(l % 5, l / 5, z) == s[l][z] {
      LaneOf(A, B, l);
      BitOfLane(B, l % 5, l / 5, LaneAt(A, l), 64, z);
    }
    StoredString(s, B);
  }

  /** keccakF23 is KECCAK-p[1600, 23], on every state. */
  lemma PermuteRefines(s: Sheet)
    ensures Keccak23(LaneString(s)) == LaneString(Permute(s))
  {
    var B := F.ToArray(LaneString(s));
    LoadRepresents(s);
    RoundsRefine(s, B, 24);
    StoreRepresents(RoundsFrom1(s, 24), F.RoundsUpTo(B, 23, 24));
    PermuteUnpacks(s);
  }

  // ---- the sponge

  lemma ChunkBit(block: seq<Byte>, l: nat, z: nat)
    requires |block| == RATE && l < 17 && z < 64
    ensures Le64(block[8 * l..8 * l + 8])[z] == BitString(block)[64 * l + z]
  {
    var chunk, k, j := block[8 * l..8 * l + 8], z / 8, z % 8;
    BitStringAt(block, 64 * l + z);
    BitStringAt(chunk, z);
    assert (64 * l + z) / 8 == 8 * l + k && (64 * l + z) % 8 == j;
    assert chunk[k] == block[8 * l + k];
  }

  lemma XorBit(s: Sheet, block: seq<Byte>, l: nat, z: nat)
    requires |block| == RATE && l < 25 && z < 64
    ensures XorBlock(s, block)[l][z] == (s[l][z] != (l < 17 && BitString(block)[64 * l + z]))
  {
    if l < 17 {
      ChunkBit(block, l, z);
    }
  }

  lemma XorRefines(s: Sheet, block: seq<Byte>)
    requires |block| == RATE
    ensures F.XorBits(LaneString(s), BitString(block) + F.Zeros(512)) == LaneString(XorBlock(s, block))
  {
    var s', b := XorBlock(s, block), BitString(block) + F.Zeros(512);
    forall i | 0 <= i < 1600 ensures LaneString(s')[i] == (LaneString(s)[i] != b[i]) {
      var l, z := i / 64, i % 64;
      LaneStringAt(s, l, z);
      LaneStringAt(s', l, z);
      XorBit(s, block, l, z);
    }
  }

  /** f on sheets does what F does on their bit strings. */
  ghost predicate Implements(f: Sheet -> Sheet, G: F.State -> F.State) {
    forall s: Sheet {:trigger f(s)} :: G(LaneString(s)) == LaneString(f(s))
  }

  lemma {:induction false} AbsorbRefines(f: Sheet -> Sheet, G: F.State -> F.State, s: Sheet, data: seq<Byte>)
    requires Implements(f, G) && |data| % RATE == 0
    ensures |BitString(data)| % 1088 == 0
    ensures F.Absorb(G, 1088, LaneString(s), BitString(data)) == LaneString(AbsorbBlocks(f, s, data))
    decreases |data|
  {
    if data != [] {
      var head, rest := data[..RATE], data[RATE..];
      assert data == head + rest;
      BitStringAppend(head, rest);
      assert BitString(data)[..1088] == BitString(head) && BitString(data)[1088..] == BitString(rest);
      XorRefines(s, head);
      var s' := f(XorBlock(s, head));
      AbsorbRefines(f, G, s', rest);
    }
  }

  lemma OneByte(b: Byte)
    ensures BitString([b]) == b
  {
    assert BitString([b]) == b + BitString([]);
  }

  lemma {:induction false} ZeroBytes(n: nat)
    ensures BitString(seq(n, _ => ZERO_BYTE)) == F.Zeros(8 * n)
  {
    var s := seq(n, _ => ZERO_BYTE);
    if n > 0 {
      assert s[1..] == seq(n - 1, _ => ZERO_BYTE);
      ZeroBytes(n - 1);
    }
  }

  /** 0x06, zeros and 0x80 are the domain bits 01, a one, zeros and a one. */
  lemma SeparateMarksBits(n: nat)
    requires n < RATE - 1
    ensures BitString([ByteOf(0x06)] + seq(n, _ => ZERO_BYTE) + [ByteOf(0x80)])
         == [false, true] + ([true] + F.Zeros(8 * n + 12) + [true])
  {
    var z := seq(n, _ => ZERO_BYTE);
    BitStringAppend([ByteOf(0x06)], z);
    BitStringAppend([ByteOf(0x06)] + z, [ByteOf(0x80)]);
    OneByte(ByteOf(0x06));
    OneByte(ByteOf(0x80));
    ZeroBytes(n);
    assert ByteOf(0x06) == [false, true, true, false, false, false, false, false];
    assert ByteOf(0x80) == [false, false, false, false, false, false, false, true];
  }

  lemma SharedMarkBits()
    ensures BitString([ByteOf(0x86)]) == [false, true] + ([true] + F.Zeros(4) + [true])
  {
    OneByte(ByteOf(0x86));
    assert ByteOf(0x86) == [false, true, true, false, false, false, false, true];
  }

  /** The bytes of the last block after the tail. */
  function Marks(free: nat): (marks: seq<Byte>)
    requires 0 < free <= RATE
    ensures |marks| == free
  {
    if free == 1 then [ByteOf(0x86)]
    else [ByteOf(0x06)] + seq(free - 2, _ => ZERO_BYTE) + [ByteOf(0x80)]
  }

  lemma MarksBits(free: nat)
    requires 0 < free <= RATE
    ensures BitString(Marks(free)) == [false, true] + ([true] + F.Zeros(8 * free - 4) + [true])
  {
    if free == 1 {
      SharedMarkBits();
    } else {
      SeparateMarksBits(free - 2);
    }
  }

  lemma AppendAssociates(a: seq<bool>, b: seq<bool>, c: seq<bool>)
    ensures a + (b + c) == a + b + c
  {
  }

  function Free(message: seq<Byte>): (free: nat)
    ensures 0 < free <= RATE
  {
    RATE - (|message| - Whole(message))
  }

  lemma PadMarks(message: seq<Byte>)
    ensures Pad(message) == message + Marks(Free(message))
  {
    var w := Whole(message);
    assert message[..w] + message[w..] == message;
  }

  lemma PadBits(message: seq<Byte>, marks: seq<Byte>, pad: seq<bool>)
    requires Pad(message) == message + marks && BitString(marks) == [false, true] + pad
    ensures BitString(Pad(message)) == BitString(message) + ([false, true] + pad)
  {
    BitStringAppend(message, marks);
  }

  /** The byte form of the padding is the domain bits 01 followed by pad10*1. */
  lemma PadRefines(message: seq<Byte>)
    ensures BitString(Pad(message))
         == BitString(message) + ([false, true] + F.Pad10Star1(1088, 8 * |message| + 2))
  {
    PadMarks(message);
    MarksBits(Free(message));
    PadZeros(message);
    PadBits(message, Marks(Free(message)), F.Pad10Star1(1088, 8 * |message| + 2));
  }

  lemma PadZeros(message: seq<Byte>)
    ensures F.Pad10Star1(1088, 8 * |message| + 2) == [true] + F.Zeros(8 * Free(message) - 4) + [true]
  {
    var q := |message| / RATE;
    F.Division(-2 - (8 * |message| + 2), -q - 1, 8 * Free(message) - 4, 1088);
  }

  lemma DigestRefines(s: Sheet)
    ensures BitString(Digest(s)) == LaneString(s)[..256]
  {
    var b0, b1, b2, b3 := PutLe64(s[0]), PutLe64(s[1]), PutLe64(s[2]), PutLe64(s[3]);
    DigestParts(s);
    StoreLoad(s[0]);
    StoreLoad(s[1]);
    StoreLoad(s[2]);
    StoreLoad(s[3]);
    BitStringAppend(b0, b1);
    BitStringAppend(b0 + b1, b2);
    BitStringAppend(b0 + b1 + b2, b3);
    FirstLanes(s);
  }

  lemma LaneSlice(s: Sheet, l: nat)
    requires l < 25
    ensures LaneString(s)[64 * l..64 * l + 64] == s[l]
  {
    forall z | 0 <= z < 64 ensures LaneString(s)[64 * l + z] == s[l][z] {
      LaneStringAt(s, l, z);
    }
  }

  lemma FirstLanes(s: Sheet)
    ensures LaneString(s)[..256] == ([] + s[0]) + s[1] + s[2] + s[3]
  {
    LaneSlice(s, 0);
    LaneSlice(s, 1);
    LaneSlice(s, 2);
    LaneSlice(s, 3);
    var S := LaneString(s);
    assert S[..256] == S[0..64] + S[64..128] + S[128..192] + S[192..256];
  }

  lemma ZeroString()
    ensures LaneString(ZeroSheet()) == F.Zeros(1600)
  {
    forall i | 0 <= i < 1600 ensures !LaneString(ZeroSheet())[i] {
      LaneStringAt(ZeroSheet(), i / 64, i % 64);
    }
  }

  /** For any permutation: the byte sponge of the code is the bit sponge of the reference. */
  lemma SpongeRefines(f: Sheet -> Sheet, G: F.State -> F.State, message: seq<Byte>)
    requires Implements(f, G)
    ensures BitString(Digest(AbsorbBlocks(f, ZeroSheet(), Pad(message))))
         == F.Sponge(G, 1088, BitString(message) + [false, true], 256)
  {
    var N := BitString(message) + [false, true];
    var s := AbsorbBlocks(f, ZeroSheet(), Pad(message));
    F.PaddedLength(|N|, 1088);
    PadRefines(message);
    AppendAssociates(BitString(message), [false, true], F.Pad10Star1(1088, |N|));
    AbsorbRefines(f, G, ZeroSheet(), Pad(message));
    ZeroString();
    DigestRefines(s);
    assert LaneString(s)[..1088][..256] == LaneString(s)[..256];
  }

  /** DeepSeekHashV1 is KECCAK[512](M || 01, 256) of section 6.1 of FIPS 202 with KECCAK-p[1600, 24]
      replaced by KECCAK-p[1600, 23], for every message. */
  lemma HashIsSponge(message: seq<Byte>)
    ensures BitString(Hash(message)) == F.Sponge(Keccak23, 1088, BitString(message) + [false, true], 256)
  {
    forall s: Sheet ensures Keccak23(LaneString(s)) == LaneString(Permute(s)) {
      PermuteRefines(s);
    }
    SpongeRefines(Permute, Keccak23, message);
  }
}

