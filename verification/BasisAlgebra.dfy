/**
 The two algebras behind one interface.

 A product of basis operators is the XOR of their keys times a power of i. Both algebras
 compute that power as `h(a) + h(b) - h(ab) + 2 * cross(a, b)` modulo 4, where `h` counts
 the factors of i hidden in the Hermitian normal form of a string and `cross` counts the
 sign flips of bringing the two factors into order.
 */
module BasisAlgebra {
  import opened BasisStrings

  datatype BasisKind = Pauli | Majorana

  /** The exponent of a power of i, reduced modulo 4. */
  type Exp = e: int | 0 <= e < 4

  function Plus(x: Exp, y: Exp): Exp { if x + y < 4 then x + y else x + y - 4 }

  function Neg(x: Exp): Exp { if x == 0 then 0 else 4 - x }

  /** Keys cover whole units. */
  predicate IsKey(a: Key, n: nat) { |a| == n && n % 2 == 0 }

  lemma PlusLaws(x: Exp, y: Exp, z: Exp)
    ensures Plus(Plus(x, y), z) == Plus(x, Plus(y, z))
    ensures Plus(x, y) == Plus(y, x)
  {
  }

  lemma PlusExchange(x: Exp, y: Exp, z: Exp, w: Exp)
    ensures Plus(Plus(x, y), Plus(z, w)) == Plus(Plus(x, z), Plus(y, w))
  {
    hide Plus;
    PlusLaws(x, y, Plus(z, w));
    PlusLaws(y, z, w);
    PlusLaws(y, z, 0);
    PlusLaws(z, y, w);
    PlusLaws(x, z, Plus(y, w));
  }

  // ---- Pauli --------------------------------------------------------------------

  /** Units at or above `q` carrying a Y. */
  function YFrom(a: Key, q: nat): nat
    requires |a| % 2 == 0 && 2 * q <= |a|
    decreases |a| - 2 * q
  {
    if 2 * q == |a| then 0 else YFrom(a, q + 1) + Bit(a[2 * q] && a[2 * q + 1])
  }

  /** Units at or above `q` where `a` has a Z component and `b` an X component. */
  function ZXFrom(a: Key, b: Key, q: nat): nat
    requires |a| == |b| && |a| % 2 == 0 && 2 * q <= |a|
    decreases |a| - 2 * q
  {
    if 2 * q == |a| then 0 else ZXFrom(a, b, q + 1) + Bit(a[2 * q + 1] && b[2 * q])
  }

  // ---- Majorana -----------------------------------------------------------------

  function HermiticityExp(length: nat): int
  {
    if length % 4 == 0 || length % 4 == 1 then 0 else 1
  }

  /** For every mode of `b` at or above `j`, the modes of `a` above it. */
  function SwapsFrom(a: Key, b: Key, j: nat): nat
    requires |a| == |b| && j <= |a|
    decreases |a| - j
  {
    if j == |a| then 0 else SwapsFrom(a, b, j + 1) + (if b[j] then CountFrom(a, j + 1) else 0)
  }

  // ---- the shared interface -----------------------------------------------------

  function Herm(kind: BasisKind, a: Key): int
    requires |a| % 2 == 0
  {
    match kind
    case Pauli => YFrom(a, 0)
    case Majorana => HermiticityExp(Count(a))
  }

  function Cross(kind: BasisKind, a: Key, b: Key): nat
    requires |a| == |b| && |a| % 2 == 0
  {
    match kind
    case Pauli => ZXFrom(a, b, 0)
    case Majorana => SwapsFrom(a, b, 0)
  }

  /** The exponent e of the phase i^e in `a * b == i^e (a ^ b)`. */
  function PhaseExp(kind: BasisKind, a: Key, b: Key): Exp
    requires |a| == |b| && |a| % 2 == 0
  {
    (Herm(kind, a) + Herm(kind, b) - Herm(kind, Xor(a, b)) + 2 * Cross(kind, a, b)) % 4
  }

  /** The test each algebra uses to decide that a rotation about `g` branches `s`. */
  predicate Anticommutes(kind: BasisKind, g: Key, s: Key)
    requires |g| == |s| && |g| % 2 == 0
  {
    match kind
    case Pauli => ParityAnd(s, PairSwap(g))
    case Majorana =>
      Odd((if Odd(Count(g)) then Count(s) else 0) + CountAnd(s, g))
  }

  // ---- cross is bilinear modulo 2 -----------------------------------------------

  lemma {:induction false} ZXLinearFrom(a: Key, b: Key, c: Key, q: nat)
    requires |a| == |b| == |c| && |a| % 2 == 0 && 2 * q <= |a|
    ensures Odd(ZXFrom(Xor(a, b), c, q)) == (Odd(ZXFrom(a, c, q)) != Odd(ZXFrom(b, c, q)))
    ensures Odd(ZXFrom(c, Xor(a, b), q)) == (Odd(ZXFrom(c, a, q)) != Odd(ZXFrom(c, b, q)))
    decreases |a| - 2 * q
  {
    hide Odd, ZXFrom, Bit;
    if 2 * q == |a| {
      NoZX(a, c);
      NoZX(b, c);
      NoZX(Xor(a, b), c);
      NoZX(c, a);
      NoZX(c, b);
      NoZX(c, Xor(a, b));
    } else {
      ZXLinearFrom(a, b, c, q + 1);
      ZXStep(a, c, q);
      ZXStep(b, c, q);
      ZXStep(Xor(a, b), c, q);
      ZXStep(c, a, q);
      ZXStep(c, b, q);
      ZXStep(c, Xor(a, b), q);
      var ab := Xor(a, b);
      assert ab[2 * q] == (a[2 * q] != b[2 * q]) && ab[2 * q + 1] == (a[2 * q + 1] != b[2 * q + 1]);
      hide Xor;
      OddBits(ZXFrom(a, c, q + 1), a[2 * q + 1] && c[2 * q], ZXFrom(b, c, q + 1), b[2 * q + 1] && c[2 * q],
        ZXFrom(ab, c, q + 1), ab[2 * q + 1] && c[2 * q]);
      OddBits(ZXFrom(c, a, q + 1), c[2 * q + 1] && a[2 * q], ZXFrom(c, b, q + 1), c[2 * q + 1] && b[2 * q],
        ZXFrom(c, ab, q + 1), c[2 * q + 1] && ab[2 * q]);
    }
  }

  lemma {:induction false} NoZX(a: Key, b: Key)
    requires |a| == |b| && |a| % 2 == 0
    ensures ZXFrom(a, b, |a| / 2) == 0 && !Odd(0)
  {
  }

  lemma {:induction false} ZXStep(a: Key, b: Key, q: nat)
    requires |a| == |b| && |a| % 2 == 0 && 2 * q < |a|
    ensures ZXFrom(a, b, q) == ZXFrom(a, b, q + 1) + Bit(a[2 * q + 1] && b[2 * q])
  {
  }

  lemma OddBits(x: int, p: bool, y: int, q: bool, xy: int, pq: bool)
    requires Odd(xy) == (Odd(x) != Odd(y)) && pq == (p != q)
    ensures Odd(xy + Bit(pq)) == (Odd(x + Bit(p)) != Odd(y + Bit(q)))
  {
    OddSum(xy, Bit(pq));
    OddSum(x, Bit(p));
    OddSum(y, Bit(q));
  }

  lemma OddSum(x: int, y: int)
    ensures Odd(x + y) == (Odd(x) != Odd(y))
  {
  }

  lemma {:induction false} SwapsLinearLeftFrom(a: Key, b: Key, c: Key, j: nat)
    requires |a| == |b| == |c| && j <= |a|
    ensures Odd(SwapsFrom(Xor(a, b), c, j)) == (Odd(SwapsFrom(a, c, j)) != Odd(SwapsFrom(b, c, j)))
    decreases |a| - j
  {
    if j < |a| {
      SwapsLinearLeftFrom(a, b, c, j + 1);
      var (x, y, xy) := (SwapsFrom(a, c, j + 1), SwapsFrom(b, c, j + 1), SwapsFrom(Xor(a, b), c, j + 1));
      if c[j] {
        CountFromXor(a, b, j + 1);
        hide CountFrom, CountAndFrom, Xor;
        OddSums(x, CountFrom(a, j + 1), y, CountFrom(b, j + 1), xy, CountFrom(Xor(a, b), j + 1),
          CountAndFrom(a, b, j + 1));
      }
    }
  }

  lemma OddSums(x: int, p: int, y: int, q: int, xy: int, pq: int, common: int)
    requires Odd(xy) == (Odd(x) != Odd(y)) && pq + 2 * common == p + q
    ensures Odd(xy + pq) == (Odd(x + p) != Odd(y + q))
  {
    hide Odd;
    OddSum(xy, pq);
    OddSum(x, p);
    OddSum(y, q);
    OddSum(p, q);
    OddSum(pq, 2 * common);
    EvenTwice(common);
  }

  lemma EvenTwice(x: int)
    ensures !Odd(2 * x)
  {
  }

  lemma {:induction false} SwapsLinearRightFrom(a: Key, b: Key, c: Key, j: nat)
    requires |a| == |b| == |c| && j <= |a|
    ensures Odd(SwapsFrom(c, Xor(a, b), j)) == (Odd(SwapsFrom(c, a, j)) != Odd(SwapsFrom(c, b, j)))
    decreases |a| - j
  {
    if j < |a| {
      SwapsLinearRightFrom(a, b, c, j + 1);
      OddSum(SwapsFrom(c, a, j + 1), CountFrom(c, j + 1));
      OddSum(SwapsFrom(c, b, j + 1), CountFrom(c, j + 1));
      OddSum(SwapsFrom(c, Xor(a, b), j + 1), CountFrom(c, j + 1));
    }
  }

  lemma CrossLinear(kind: BasisKind, a: Key, b: Key, c: Key)
    requires |a| == |b| == |c| && |a| % 2 == 0
    ensures Odd(Cross(kind, Xor(a, b), c)) == (Odd(Cross(kind, a, c)) != Odd(Cross(kind, b, c)))
    ensures Odd(Cross(kind, c, Xor(a, b))) == (Odd(Cross(kind, c, a)) != Odd(Cross(kind, c, b)))
  {
    ZXLinearFrom(a, b, c, 0);
    SwapsLinearLeftFrom(a, b, c, 0);
    SwapsLinearRightFrom(a, b, c, 0);
  }

  // ---- h is the diagonal of cross -----------------------------------------------

  lemma {:induction false} ZXDiagonalFrom(a: Key, q: nat)
    requires |a| % 2 == 0 && 2 * q <= |a|
    ensures ZXFrom(a, a, q) == YFrom(a, q)
    decreases |a| - 2 * q
  {
    if 2 * q < |a| {
      ZXDiagonalFrom(a, q + 1);
    }
  }

  lemma {:induction false} SwapsDiagonalFrom(a: Key, j: nat)
    requires j <= |a|
    ensures 2 * SwapsFrom(a, a, j) == CountFrom(a, j) * (CountFrom(a, j) - 1)
    decreases |a| - j
  {
    if j < |a| {
      SwapsDiagonalFrom(a, j + 1);
      if a[j] {
        var c: int := CountFrom(a, j + 1);
        assert (c + 1) * c == c * (c - 1) + 2 * c;
      }
    }
  }

  lemma TriangularParity(k: nat, t: nat)
    requires 2 * t == k * (k - 1)
    ensures Odd(t) == Odd(HermiticityExp(k))
  {
    var m := k / 4;
    if k % 4 == 0 {
      assert k == 4 * m;
      TriangularAt(m, 0, t);
    } else if k % 4 == 1 {
      assert k == 4 * m + 1;
      TriangularAt(m, 1, t);
    } else if k % 4 == 2 {
      assert k == 4 * m + 2;
      TriangularAt(m, 2, t);
    } else {
      assert k == 4 * m + 3;
      TriangularAt(m, 3, t);
    }
  }

  lemma TriangularAt(m: int, r: int, t: int)
    requires 2 * t == (4 * m + r) * (4 * m + r - 1)
    requires 0 <= r < 4
    ensures Odd(t) == (r == 2 || r == 3)
  {
    FourTimes(m, r);
    var mm := m * m;
    if r == 0 {
      Halves(t, 4 * mm - m, 0);
    } else if r == 1 {
      Halves(t, 4 * mm + m, 0);
    } else if r == 2 {
      Halves(t, 4 * mm + 3 * m, 1);
    } else {
      Halves(t, 4 * mm + 5 * m + 1, 1);
    }
  }

  lemma FourTimes(m: int, r: int)
    requires 0 <= r < 4
    ensures (4 * m + r) * (4 * m + r - 1)
      == 16 * (m * m) + (if r == 0 then -4 * m else if r == 1 then 4 * m else if r == 2 then 12 * m + 2 else 20 * m + 6)
  {
    var x := 4 * m;
    assert x * x == 16 * (m * m);
    if r == 0 {
      assert x * (x - 1) == x * x - x;
    } else if r == 1 {
      assert (x + 1) * x == x * x + x;
    } else if r == 2 {
      assert (x + 2) * (x + 1) == x * x + 3 * x + 2;
    } else {
      assert (x + 3) * (x + 2) == x * x + 5 * x + 6;
    }
  }

  lemma Halves(t: int, x: int, bit: int)
    requires t == 2 * x + bit && 0 <= bit < 2
    ensures Odd(t) == (bit == 1)
  {
  }

  lemma CrossDiagonal(kind: BasisKind, a: Key)
    requires |a| % 2 == 0
    ensures Odd(Cross(kind, a, a)) == Odd(Herm(kind, a))
  {
    ZXDiagonalFrom(a, 0);
    SwapsDiagonalFrom(a, 0);
    TriangularParity(Count(a), SwapsFrom(a, a, 0));
  }

  // ---- anticommutation ----------------------------------------------------------

  lemma ProductStep(x: nat, y: nat, p: bool, q: bool)
    ensures (x + Bit(p)) * (y + Bit(q)) == x * y + (if p then y else 0) + (if q then x else 0) + Bit(p && q)
  {
    assert (x + 1) * y == x * y + y;
    assert x * (y + 1) == x * y + x;
    assert (x + 1) * (y + 1) == x * y + x + y + 1;
  }

  lemma {:induction false} SwapsSymmetricFrom(a: Key, b: Key, j: nat)
    requires |a| == |b| && j <= |a|
    ensures SwapsFrom(a, b, j) + SwapsFrom(b, a, j) + CountAndFrom(a, b, j) == CountFrom(a, j) * CountFrom(b, j)
    decreases |a| - j
  {
    if j < |a| {
      SwapsSymmetricFrom(a, b, j + 1);
      ProductStep(CountFrom(a, j + 1), CountFrom(b, j + 1), a[j], b[j]);
    }
  }

  lemma {:induction false} ZXSymmetricFrom(a: Key, b: Key, q: nat)
    requires |a| == |b| && |a| % 2 == 0 && 2 * q <= |a|
    ensures ZXFrom(a, b, q) + ZXFrom(b, a, q) == CountAndFrom(b, PairSwap(a), 2 * q)
    decreases |a| - 2 * q
  {
    if 2 * q < |a| {
      ZXSymmetricFrom(a, b, q + 1);
      assert CountAndFrom(b, PairSwap(a), 2 * q)
          == CountAndFrom(b, PairSwap(a), 2 * q + 2) + Bit(b[2 * q + 1] && a[2 * q]) + Bit(b[2 * q] && a[2 * q + 1]);
    }
  }

  lemma {:induction false} CountAndComm(a: Key, b: Key, j: nat)
    requires |a| == |b| && j <= |a|
    ensures CountAndFrom(a, b, j) == CountAndFrom(b, a, j)
    decreases |a| - j
  {
    if j < |a| {
      CountAndComm(a, b, j + 1);
    }
  }

  lemma OddProduct(a: nat, b: nat)
    ensures Odd(a * b) == (Odd(a) && Odd(b))
  {
    var x, y := a / 2, b / 2;
    if !Odd(a) {
      EvenFactor(x, b, a * b);
    } else if !Odd(b) {
      EvenFactor(y, a, a * b);
    } else {
      OddFactors(x, y, a * b);
    }
  }

  lemma EvenFactor(x: nat, b: nat, product: nat)
    requires product == 2 * x * b
    ensures !Odd(product)
  {
    EvenTwice(x * b);
    assert product == 2 * (x * b);
  }

  lemma OddFactors(x: nat, y: nat, product: nat)
    requires product == (2 * x + 1) * (2 * y + 1)
    ensures Odd(product)
  {
    var z := 2 * (x * y) + x + y;
    assert product == 2 * z + 1;
    Halves(product, z, 1);
  }

  /** Two strings anticommute exactly when exchanging them flips the order sign. */
  lemma AnticommutesIsCross(kind: BasisKind, a: Key, b: Key)
    requires |a| == |b| && |a| % 2 == 0
    ensures Anticommutes(kind, a, b) == (Odd(Cross(kind, a, b)) != Odd(Cross(kind, b, a)))
  {
    var x, y := Cross(kind, a, b), Cross(kind, b, a);
    OddSum(x, y);
    match kind
    case Pauli => ZXSymmetricFrom(a, b, 0);
    case Majorana =>
      SwapsSymmetricFrom(a, b, 0);
      OddProduct(Count(a), Count(b));
      CountAndComm(a, b, 0);
      OddSum(x + y, CountAnd(a, b));
      OddSum(if Odd(Count(a)) then Count(b) else 0, CountAnd(b, a));
  }

  /** A string branches under a rotation exactly when the product phase is imaginary. */
  lemma AnticommutesIsImaginary(kind: BasisKind, a: Key, b: Key)
    requires |a| == |b| && |a| % 2 == 0
    ensures Anticommutes(kind, a, b) <==> Odd(PhaseExp(kind, a, b))
  {
    hide Anticommutes, Herm, Cross;
    var ab := Xor(a, b);
    AnticommutesIsCross(kind, a, b);
    CrossDiagonal(kind, a);
    CrossDiagonal(kind, b);
    CrossDiagonal(kind, ab);
    CrossLinear(kind, a, b, ab);
    CrossLinear(kind, a, b, a);
    CrossLinear(kind, a, b, b);
    OddExp(Herm(kind, a), Herm(kind, b), Herm(kind, ab), Cross(kind, a, b));
  }

  lemma OddExp(ha: int, hb: int, hab: int, x: int)
    ensures Odd((ha + hb - hab + 2 * x) % 4) == ((Odd(ha) != Odd(hb)) != Odd(hab))
  {
    var e := ha + hb - hab + 2 * x;
    var q := e / 4;
    OddSum(ha, hb);
    OddSum(ha + hb - hab, hab);
    OddSum(ha + hb - hab, 2 * x);
    OddSum(e % 4, 4 * q);
    Halves(2 * x, x, 0);
    Halves(4 * q, 2 * q, 0);
  }

  lemma AnticommutesSymmetric(kind: BasisKind, a: Key, b: Key)
    requires |a| == |b| && |a| % 2 == 0
    ensures Anticommutes(kind, a, b) == Anticommutes(kind, b, a)
  {
    AnticommutesIsCross(kind, a, b);
    AnticommutesIsCross(kind, b, a);
  }

  /** Anticommutation with a fixed string is linear in the other one. */
  lemma AnticommutesLinear(kind: BasisKind, g: Key, a: Key, b: Key)
    requires |g| == |a| == |b| && |g| % 2 == 0
    ensures Anticommutes(kind, g, Xor(a, b)) == (Anticommutes(kind, g, a) != Anticommutes(kind, g, b))
  {
    AnticommutesIsCross(kind, g, a);
    AnticommutesIsCross(kind, g, b);
    AnticommutesIsCross(kind, g, Xor(a, b));
    CrossLinear(kind, a, b, g);
  }

  lemma AnticommutesSelf(kind: BasisKind, g: Key)
    requires |g| % 2 == 0
    ensures !Anticommutes(kind, g, g)
  {
    AnticommutesIsCross(kind, g, g);
  }

  /** The branch of a string anticommutes with the generator too, so branches come in pairs. */
  lemma AnticommutesBranch(kind: BasisKind, g: Key, a: Key)
    requires |g| == |a| && |g| % 2 == 0
    ensures Anticommutes(kind, g, Xor(a, g)) == Anticommutes(kind, g, a)
    ensures Anticommutes(kind, g, Xor(g, a)) == Anticommutes(kind, g, a)
  {
    AnticommutesLinear(kind, g, a, g);
    AnticommutesLinear(kind, g, g, a);
    AnticommutesSelf(kind, g);
  }

  // ---- the phased operators form a group ----------------------------------------

  /** `i^exp` times the basis operator `key`. */
  datatype Phased = Phased(exp: Exp, key: Key)

  function Mul(kind: BasisKind, x: Phased, y: Phased): (r: Phased)
    requires |x.key| == |y.key| && |x.key| % 2 == 0
    ensures |r.key| == |x.key|
  {
    Phased(Plus(Plus(x.exp, y.exp), PhaseExp(kind, x.key, y.key)), Xor(x.key, y.key))
  }

  lemma PhaseCocycle(kind: BasisKind, a: Key, b: Key, c: Key)
    requires |a| == |b| == |c| && |a| % 2 == 0
    ensures Plus(PhaseExp(kind, a, b), PhaseExp(kind, Xor(a, b), c))
         == Plus(PhaseExp(kind, b, c), PhaseExp(kind, a, Xor(b, c)))
  {
    XorAssoc(a, b, c);
    CrossLinear(kind, a, b, c);
    CrossLinear(kind, b, c, a);
    OddSum(Cross(kind, a, b), Cross(kind, Xor(a, b), c));
    OddSum(Cross(kind, b, c), Cross(kind, a, Xor(b, c)));
    PhaseSum(Herm(kind, a), Herm(kind, b), Herm(kind, Xor(a, b)), Herm(kind, c), Herm(kind, Xor(Xor(a, b), c)),
      Cross(kind, a, b), Cross(kind, Xor(a, b), c));
    PhaseSum(Herm(kind, b), Herm(kind, c), Herm(kind, Xor(b, c)), Herm(kind, a), Herm(kind, Xor(Xor(a, b), c)),
      Cross(kind, b, c), Cross(kind, a, Xor(b, c)));
    PlusMod(PhaseExp(kind, a, b), PhaseExp(kind, Xor(a, b), c));
    PlusMod(PhaseExp(kind, b, c), PhaseExp(kind, a, Xor(b, c)));
    DoubleMod(Herm(kind, a) + Herm(kind, b) + Herm(kind, c) - Herm(kind, Xor(Xor(a, b), c)),
      Cross(kind, a, b) + Cross(kind, Xor(a, b), c), Cross(kind, b, c) + Cross(kind, a, Xor(b, c)));
  }

  lemma PlusMod(x: Exp, y: Exp)
    ensures Plus(x, y) == (x + y) % 4
  {
  }

  lemma PhaseSum(ha: int, hb: int, hab: int, hc: int, habc: int, x: int, y: int)
    ensures ((ha + hb - hab + 2 * x) % 4 + (hab + hc - habc + 2 * y) % 4) % 4 == (ha + hb + hc - habc + 2 * (x + y)) % 4
  {
  }

  lemma DoubleMod(h: int, x: int, y: int)
    requires Odd(x) == Odd(y)
    ensures (h + 2 * x) % 4 == (h + 2 * y) % 4
  {
  }

  lemma MulAssoc(kind: BasisKind, x: Phased, y: Phased, z: Phased)
    requires |x.key| == |y.key| == |z.key| && |x.key| % 2 == 0
    ensures Mul(kind, Mul(kind, x, y), z) == Mul(kind, x, Mul(kind, y, z))
  {
    hide PhaseExp, Plus;
    XorAssoc(x.key, y.key, z.key);
    PhaseCocycle(kind, x.key, y.key, z.key);
    var p1, p2 := PhaseExp(kind, x.key, y.key), PhaseExp(kind, Xor(x.key, y.key), z.key);
    var q1, q2 := PhaseExp(kind, y.key, z.key), PhaseExp(kind, x.key, Xor(y.key, z.key));
    calc {
      Plus(Plus(Plus(Plus(x.exp, y.exp), p1), z.exp), p2);
      { PlusLaws(Plus(Plus(x.exp, y.exp), p1), z.exp, p2);
        PlusExchange(Plus(x.exp, y.exp), p1, z.exp, p2); }
      Plus(Plus(Plus(x.exp, y.exp), z.exp), Plus(p1, p2));
      { PlusLaws(x.exp, y.exp, z.exp); }
      Plus(Plus(x.exp, Plus(y.exp, z.exp)), Plus(q1, q2));
      { PlusExchange(x.exp, Plus(y.exp, z.exp), q2, q1);
        PlusLaws(q1, q2, 0);
        PlusLaws(x.exp, q2, Plus(Plus(y.exp, z.exp), q1));
        PlusLaws(q2, Plus(Plus(y.exp, z.exp), q1), 0);
        PlusLaws(x.exp, Plus(Plus(y.exp, z.exp), q1), q2); }
      Plus(Plus(x.exp, Plus(Plus(y.exp, z.exp), q1)), q2);
    }
  }

  lemma {:induction false} ZeroFrom(a: Key, q: nat)
    requires |a| % 2 == 0 && 2 * q <= |a|
    ensures YFrom(Zero(|a|), q) == 0 && ZXFrom(Zero(|a|), a, q) == 0 && ZXFrom(a, Zero(|a|), q) == 0
    decreases |a| - 2 * q
  {
    if 2 * q < |a| {
      ZeroFrom(a, q + 1);
    }
  }

  lemma {:induction false} ZeroSwapsFrom(a: Key, j: nat)
    requires j <= |a|
    ensures SwapsFrom(Zero(|a|), a, j) == 0 && SwapsFrom(a, Zero(|a|), j) == 0
    decreases |a| - j
  {
    if j < |a| {
      ZeroSwapsFrom(a, j + 1);
      CountZeroFrom(|a|, j + 1);
    }
  }

  /** The empty string is the identity, on both sides and with no phase. */
  lemma PhaseZero(kind: BasisKind, a: Key)
    requires |a| % 2 == 0
    ensures PhaseExp(kind, Zero(|a|), a) == 0 && PhaseExp(kind, a, Zero(|a|)) == 0
  {
    XorZero(a);
    ZeroFrom(a, 0);
    ZeroSwapsFrom(a, 0);
    CountZeroFrom(|a|, 0);
  }

  /** Every basis operator is Hermitian and unitary: its square is the identity. */
  lemma PhaseSelf(kind: BasisKind, a: Key)
    requires |a| % 2 == 0
    ensures PhaseExp(kind, a, a) == 0
  {
    hide Herm, Cross;
    XorSelf(a);
    CrossDiagonal(kind, a);
    HermZero(kind, |a|);
    TwiceSame(Herm(kind, a), Cross(kind, a, a));
  }

  lemma HermZero(kind: BasisKind, n: nat)
    requires n % 2 == 0
    ensures Herm(kind, Zero(n)) == 0
  {
    ZeroFrom(Zero(n), 0);
    CountZeroFrom(n, 0);
  }

  lemma TwiceSame(h: int, x: int)
    requires Odd(h) == Odd(x)
    ensures (h + h - 0 + 2 * x) % 4 == 0
  {
    OddSum(h, x);
    var d := (h + x) / 2;
    assert 2 * (h + x) == 4 * d;
  }

  /** Exchanging two factors flips the sign exactly when they anticommute. */
  lemma PhaseSwap(kind: BasisKind, a: Key, b: Key)
    requires |a| == |b| && |a| % 2 == 0
    ensures PhaseExp(kind, b, a) == Plus(PhaseExp(kind, a, b), if Anticommutes(kind, a, b) then 2 else 0)
  {
    hide Anticommutes;
    XorComm(a, b);
    AnticommutesIsCross(kind, a, b);
    FlipExp(Herm(kind, a) + Herm(kind, b) - Herm(kind, Xor(a, b)), Cross(kind, a, b), Cross(kind, b, a));
  }

  lemma FlipExp(h: int, x: int, y: int)
    ensures (h + 2 * y) % 4 == Plus((h + 2 * x) % 4, if Odd(x) != Odd(y) then 2 else 0)
  {
    if Odd(x) != Odd(y) {
      OddSum(x, 1);
      DoubleMod(h, y, x + 1);
      PlusMod((h + 2 * x) % 4, 2);
    } else {
      DoubleMod(h, x, y);
    }
  }

  /** Multiplying twice by the same operator: `g * (g * a) == a`, phases included. */
  lemma PhaseTwice(kind: BasisKind, g: Key, a: Key)
    requires |g| == |a| && |g| % 2 == 0
    ensures Plus(PhaseExp(kind, g, a), PhaseExp(kind, g, Xor(g, a))) == 0
  {
    hide PhaseExp;
    PhaseCocycle(kind, g, g, a);
    PhaseSelf(kind, g);
    XorSelf(g);
    PhaseZero(kind, a);
  }
}
