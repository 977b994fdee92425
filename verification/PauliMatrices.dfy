/**
 What a Pauli string is: the matrix its letters stand for. The phases of the algebra are
 those of the products of these matrices, and a diagonal expectation value is an entry on
 their diagonal.
 */
module PauliMatrices {
  import opened BasisStrings
  import opened BasisAlgebra
  import opened ComplexNumbers
  import opened JordanWigner

  type Matrix2 = (nat, nat) -> Complex

  datatype PauliOp = X | Y | Z

  /** The matrix of a letter. */
  function MatrixOf(p: PauliOp): Matrix2
  {
    (i: nat, j: nat) =>
      match p
      case X => if i != j then ONE else ZERO
      case Y => if i == 0 && j == 1 then Complex(0.0, -1.0) else if i == 1 && j == 0 then Complex(0.0, 1.0) else ZERO
      case Z => if i != j then ZERO else if i == 0 then ONE else Complex(-1.0, 0.0)
  }

  /** The matrix of a unit with these two bits. */
  function UnitMatrix(x: bool, z: bool): Matrix2
  {
    if !x && !z then (i: nat, j: nat) => if i == j then ONE else ZERO
    else MatrixOf(if x && z then Y else if x then X else Z)
  }

  /** The power of i with exponent `e`. */
  function IPow(e: Exp): Complex
  {
    if e == 0 then ONE else if e == 1 then Complex(0.0, 1.0) else if e == 2 then Complex(-1.0, 0.0)
    else Complex(0.0, -1.0)
  }

  lemma IPowPlus(x: Exp, y: Exp)
    ensures IPow(BasisAlgebra.Plus(x, y)) == Times(IPow(x), IPow(y))
  {
    hide Times;
    PowerTimes(x, IPow(y));
  }

  /** Multiplying by a power of i turns a number by that many quarters. */
  lemma PowerTimes(e: Exp, w: Complex)
    ensures Times(IPow(e), w)
      == if e == 0 then w else if e == 1 then Complex(-w.im, w.re) else if e == 2 then Complex(-w.re, -w.im)
         else Complex(w.im, -w.re)
  {
    if e == 0 {
    } else if e == 1 {
    } else if e == 2 {
    } else {
    }
  }

  /** The entry of a string between two configurations of its lowest units. */
  function StringEntry(p: Key, s: Config, t: Config): Complex
    requires |s| == |t| && 2 * |s| <= |p|
  {
    if s == [] then ONE
    else
      var q := |s| - 1;
      Times(StringEntry(p, s[..q], t[..q]), UnitMatrix(p[2 * q], p[2 * q + 1])(Bit(s[q]), Bit(t[q])))
  }

  function StringMatrix(p: Key): Matrix
  {
    (s: Config, t: Config) => if |s| == |t| && 2 * |s| <= |p| then StringEntry(p, s, t) else ZERO
  }

  // ---- one unit -----------------------------------------------------------------

  /** One entry of the product of the matrices of two units. */
  function UnitProduct(a: Key, b: Key, i: nat, j: nat): Complex
    requires |a| == |b| == 2
  {
    ComplexNumbers.Plus(Times(UnitMatrix(a[0], a[1])(i, 0), UnitMatrix(b[0], b[1])(0, j)),
      Times(UnitMatrix(a[0], a[1])(i, 1), UnitMatrix(b[0], b[1])(1, j)))
  }

  /** Every row of a unit's matrix has one entry. */
  lemma OnlyColumn(a: Key, b: Key, i: nat, j: nat)
    requires |a| == |b| == 2 && i < 2 && j < 2
    ensures var k := if a[0] then 1 - i else i;
      UnitProduct(a, b, i, j) == Times(UnitMatrix(a[0], a[1])(i, k), UnitMatrix(b[0], b[1])(k, j))
  {
    hide Times, UnitMatrix;
    var k := if a[0] then 1 - i else i;
    UnitTimes(a[0], a[1], i, 1 - k, UnitMatrix(b[0], b[1])(1 - k, j));
    var w := Times(UnitMatrix(a[0], a[1])(i, k), UnitMatrix(b[0], b[1])(k, j));
    ComplexSums(ZERO, w, ZERO);
    ComplexSums(w, ZERO, ZERO);
  }

  /** On one unit the letter matrices multiply as the algebra says: all sixteen pairs. */
  lemma LetterProduct(a: Key, b: Key, i: nat, j: nat)
    requires |a| == |b| == 2 && i < 2 && j < 2
    ensures UnitProduct(a, b, i, j)
      == Times(IPow(PhaseExp(Pauli, a, b)), UnitMatrix(a[0] != b[0], a[1] != b[1])(i, j))
  {
    hide Times, PhaseExp, UnitMatrix, IPow, UnitProduct;
    var k := if a[0] then 1 - i else i;
    OnlyColumn(a, b, i, j);
    UnitPhase(a, b);
    UnitTimes(a[0], a[1], i, k, UnitMatrix(b[0], b[1])(k, j));
    UnitEntry(b[0], b[1], k, j);
    UnitEntry(a[0] != b[0], a[1] != b[1], i, j);
    PowerTimes(PhaseExp(Pauli, a, b), UnitMatrix(a[0] != b[0], a[1] != b[1])(i, j));
    if a[0] {
    } else if a[1] {
    }
  }

  /** The entries of one unit's matrix: off the diagonal with an X component, on it without. */
  lemma UnitEntry(x: bool, z: bool, i: nat, k: nat)
    requires i < 2 && k < 2
    ensures UnitMatrix(x, z)(i, k)
      == if x == (i == k) then ZERO else if !z then ONE
         else if !x then (if i == 0 then ONE else Complex(-1.0, 0.0))
         else Complex(0.0, if i == 0 then -1.0 else 1.0)
  {
  }

  lemma UnitTimes(x: bool, z: bool, i: nat, k: nat, w: Complex)
    requires i < 2 && k < 2
    ensures Times(UnitMatrix(x, z)(i, k), w)
      == if x == (i == k) then ZERO else if !z then w
         else if !x then (if i == 0 then w else Complex(-w.re, -w.im))
         else if i == 0 then Complex(w.im, -w.re) else Complex(-w.im, w.re)
  {
    UnitEntry(x, z, i, k);
    if x == (i == k) {
    } else if !z || (!x && i == 0) {
    } else if !x {
    } else if i == 0 {
    } else {
    }
  }

  /** The exponent on one unit, in terms of its bits. */
  lemma UnitPhase(a: Key, b: Key)
    requires |a| == |b| == 2
    ensures PhaseExp(Pauli, a, b)
      == (Bit(a[0] && a[1]) + Bit(b[0] && b[1]) - Bit(a[0] != b[0] && a[1] != b[1]) + 2 * Bit(a[1] && b[0])) % 4
  {
    YOne(a);
    YOne(b);
    YOne(Xor(a, b));
    assert ZXFrom(a, b, 1) == 0;
    assert ZXFrom(a, b, 0) == Bit(a[1] && b[0]);
  }

  lemma {:induction false} YOne(a: Key)
    requires |a| == 2
    ensures YFrom(a, 0) == Bit(a[0] && a[1])
  {
    assert YFrom(a, 1) == 0;
  }

  // ---- several units ------------------------------------------------------------

  function UnitOf(p: Key, q: nat): (r: Key)
    requires 2 * q + 2 <= |p|
    ensures |r| == 2
  {
    [p[2 * q], p[2 * q + 1]]
  }

  /** The one-unit exponents below unit `k`, added up. */
  function PhaseBelow(a: Key, b: Key, k: nat): Exp
    requires |a| == |b| && 2 * k <= |a|
  {
    if k == 0 then 0
    else BasisAlgebra.Plus(PhaseBelow(a, b, k - 1), PhaseExp(Pauli, UnitOf(a, k - 1), UnitOf(b, k - 1)))
  }

  /** The exponent of what lies at unit `k` and above. */
  function PhaseAbove(a: Key, b: Key, k: nat): Exp
    requires |a| == |b| && |a| % 2 == 0 && 2 * k <= |a|
  {
    SumAbove(a, b, k) % 4
  }

  lemma {:induction false} PhaseSplits(a: Key, b: Key, k: nat)
    requires |a| == |b| && |a| % 2 == 0 && 2 * k <= |a|
    ensures BasisAlgebra.Plus(PhaseBelow(a, b, k), PhaseAbove(a, b, k)) == PhaseExp(Pauli, a, b)
  {
    if k > 0 {
      var q := k - 1;
      PhaseSplits(a, b, q);
      UnitPhase(UnitOf(a, q), UnitOf(b, q));
      var u := PhaseExp(Pauli, UnitOf(a, q), UnitOf(b, q));
      PhaseAboveNext(a, b, q);
      PlusLaws(PhaseBelow(a, b, q), u, PhaseAbove(a, b, k));
    }
  }

  lemma PhaseAboveNext(a: Key, b: Key, q: nat)
    requires |a| == |b| && |a| % 2 == 0 && 2 * q < |a|
    ensures PhaseAbove(a, b, q)
      == BasisAlgebra.Plus(PhaseExp(Pauli, UnitOf(a, q), UnitOf(b, q)), PhaseAbove(a, b, q + 1))
  {
    hide PhaseExp, BasisAlgebra.Plus, UnitSum, SumAbove;
    UnitPhaseAt(a, b, q);
    SumAboveNext(a, b, q);
    ModsAdd(UnitSum(a, b, q), SumAbove(a, b, q + 1));
  }

  lemma ModsAdd(u: int, v: int)
    ensures BasisAlgebra.Plus(u % 4, v % 4) == (u + v) % 4
  {
    PlusMod(u % 4, v % 4);
    ModSum3(u, v, 0);
  }

  lemma UnitPhaseAt(a: Key, b: Key, q: nat)
    requires |a| == |b| && 2 * q + 2 <= |a|
    ensures PhaseExp(Pauli, UnitOf(a, q), UnitOf(b, q)) == UnitSum(a, b, q) % 4
  {
    hide PhaseExp;
    UnitPhase(UnitOf(a, q), UnitOf(b, q));
  }

  /** What unit `q` adds to the exponent, and what the units at `k` and above add, before reduction. */
  function UnitSum(a: Key, b: Key, q: nat): int
    requires |a| == |b| && 2 * q + 2 <= |a|
  {
    Bit(a[2 * q] && a[2 * q + 1]) + Bit(b[2 * q] && b[2 * q + 1])
      - Bit(a[2 * q] != b[2 * q] && a[2 * q + 1] != b[2 * q + 1]) + 2 * Bit(a[2 * q + 1] && b[2 * q])
  }

  function SumAbove(a: Key, b: Key, k: nat): int
    requires |a| == |b| && |a| % 2 == 0 && 2 * k <= |a|
  {
    YFrom(a, k) + YFrom(b, k) - YFrom(Xor(a, b), k) + 2 * ZXFrom(a, b, k)
  }

  lemma SumAboveNext(a: Key, b: Key, q: nat)
    requires |a| == |b| && |a| % 2 == 0 && 2 * q < |a|
    ensures SumAbove(a, b, q) == UnitSum(a, b, q) + SumAbove(a, b, q + 1)
  {
  }

  /** The exponent of a product is the sum of the exponents of its units. */
  lemma {:induction false} PhaseIsSumOfUnits(a: Key, b: Key)
    requires |a| == |b| && |a| % 2 == 0
    ensures PhaseExp(Pauli, a, b) == PhaseBelow(a, b, |a| / 2)
  {
    hide PhaseExp, PhaseBelow, PhaseAbove;
    var n := |a| / 2;
    PhaseSplits(a, b, n);
    NothingAbove(a, b);
    PlusLaws(PhaseBelow(a, b, n), 0, 0);
  }

  lemma NothingAbove(a: Key, b: Key)
    requires |a| == |b| && |a| % 2 == 0
    ensures PhaseAbove(a, b, |a| / 2) == 0 && forall e: Exp :: BasisAlgebra.Plus(e, 0) == e
  {
  }

  // ---- products of strings ------------------------------------------------------

  /** The matrices of two strings multiply as the algebra says. */
  lemma {:induction false} EntriesMultiply(a: Key, b: Key, s: Config, t: Config)
    requires |a| == |b| && |s| == |t| && 2 * |s| <= |a|
    ensures MatMul(|s|, StringMatrix(a), StringMatrix(b))(s, t)
      == Times(IPow(PhaseBelow(a, b, |s|)), StringEntry(Xor(a, b), s, t))
    decreases |s|
  {
    hide ComplexNumbers.Plus, Times, PhaseExp, UnitMatrix, IPow;
    var n := |s|;
    var f := (u: Config) => Times(StringMatrix(a)(s, u), StringMatrix(b)(u, t));
    if n == 0 {
      ComplexLaws(ONE, ONE, ONE);
      assert IPow(0) == ONE by { IPowZero(); }
    } else {
      var q := n - 1;
      var s0, t0, ab := s[..q], t[..q], Xor(a, b);
      var e, ab0 := PhaseExp(Pauli, UnitOf(a, q), UnitOf(b, q)), StringEntry(ab, s0, t0);
      var u := UnitMatrix(ab[2 * q], ab[2 * q + 1])(Bit(s[q]), Bit(t[q]));
      EntriesMultiply(a, b, s0, t0);
      LastUnitOut(a, b, s, t);
      IPowPlus(PhaseBelow(a, b, q), e);
      Interchange(IPow(e), u, IPow(PhaseBelow(a, b, q)), ab0);
      ComplexLaws(IPow(e), IPow(PhaseBelow(a, b, q)), ONE);
      ComplexLaws(ab0, u, ONE);
    }
  }

  /** The product over all units is the product over all but the last, times that of the last. */
  lemma LastUnitOut(a: Key, b: Key, s: Config, t: Config)
    requires |a| == |b| && |s| == |t| > 0 && 2 * |s| <= |a|
    ensures var q := |s| - 1;
      MatMul(|s|, StringMatrix(a), StringMatrix(b))(s, t)
      == Times(
        Times(IPow(PhaseExp(Pauli, UnitOf(a, q), UnitOf(b, q))),
          UnitMatrix(a[2 * q] != b[2 * q], a[2 * q + 1] != b[2 * q + 1])(Bit(s[q]), Bit(t[q]))),
        MatMul(q, StringMatrix(a), StringMatrix(b))(s[..q], t[..q]))
  {
    hide ComplexNumbers.Plus, Times, PhaseExp, UnitMatrix, IPow, StringMatrix;
    var q := |s| - 1;
    var s0, t0 := s[..q], t[..q];
    var f := (u: Config) => Times(StringMatrix(a)(s, u), StringMatrix(b)(u, t));
    var f0 := (u: Config) => Times(StringMatrix(a)(s0, u), StringMatrix(b)(u, t0));
    var v0 := LastPair(a, b, q, s[q], t[q], false);
    var v1 := LastPair(a, b, q, s[q], t[q], true);
    forall u: Config | |u| == q ensures SumOut(f)(u) == Times(ComplexNumbers.Plus(v0, v1), f0(u)) {
      LastUnit(a, b, s, t, u, false);
      LastUnit(a, b, s, t, u, true);
      Factored(f0(u), v0, v1);
    }
    OverTimes(q, ComplexNumbers.Plus(v0, v1), f0, SumOut(f));
    LetterProduct(UnitOf(a, q), UnitOf(b, q), Bit(s[q]), Bit(t[q]));
  }

  /** What unit `q` contributes to a summand whose inner index there is `c`. */
  function LastPair(a: Key, b: Key, q: nat, s: bool, t: bool, c: bool): Complex
    requires |a| == |b| && 2 * q + 2 <= |a|
  {
    Times(UnitMatrix(a[2 * q], a[2 * q + 1])(Bit(s), Bit(c)), UnitMatrix(b[2 * q], b[2 * q + 1])(Bit(c), Bit(t)))
  }

  lemma IPowZero()
    ensures IPow(0) == ONE
  {
  }

  lemma Factored(x: Complex, y: Complex, z: Complex)
    ensures ComplexNumbers.Plus(Times(x, y), Times(x, z)) == Times(ComplexNumbers.Plus(y, z), x)
  {
    hide Times, ComplexNumbers.Plus;
    ComplexLaws(x, y, z);
    ComplexLaws(x, ComplexNumbers.Plus(y, z), ZERO);
  }

  lemma Interchange(x: Complex, y: Complex, z: Complex, w: Complex)
    ensures Times(Times(x, y), Times(z, w)) == Times(Times(x, z), Times(y, w))
  {
    hide Times, ComplexNumbers.Plus;
    ComplexLaws(x, y, Times(z, w));
    ComplexLaws(y, z, w);
    ComplexLaws(z, y, w);
    ComplexLaws(y, z, ONE);
    ComplexLaws(x, z, Times(y, w));
  }

  lemma {:induction false} StringLast(p: Key, s: Config, t: Config)
    requires |s| == |t| > 0 && 2 * |s| <= |p|
    ensures var q := |s| - 1;
      StringEntry(p, s, t)
      == Times(StringEntry(p, s[..q], t[..q]), UnitMatrix(p[2 * q], p[2 * q + 1])(Bit(s[q]), Bit(t[q])))
  {
    hide Times, UnitMatrix;
  }

  /** One summand of the product, with its last unit split off. */
  lemma LastUnit(a: Key, b: Key, s: Config, t: Config, u: Config, c: bool)
    requires |a| == |b| && |s| == |t| == |u| + 1 && 2 * |s| <= |a|
    ensures var q := |u|;
      Times(StringMatrix(a)(s, u + [c]), StringMatrix(b)(u + [c], t))
      == Times(Times(StringMatrix(a)(s[..q], u), StringMatrix(b)(u, t[..q])),
        LastPair(a, b, q, s[q], t[q], c))
  {
    hide Times, UnitMatrix, StringEntry;
    var q := |u|;
    StringLast(a, s, u + [c]);
    StringLast(b, u + [c], t);
    assert (u + [c])[..q] == u;
    Interchange(StringEntry(a, s[..q], u), UnitMatrix(a[2 * q], a[2 * q + 1])(Bit(s[q]), Bit(c)),
      StringEntry(b, u, t[..q]), UnitMatrix(b[2 * q], b[2 * q + 1])(Bit(c), Bit(t[q])));
  }

  /** The product of two strings: the power of i and the string the algebra gives. */
  lemma StringsMultiply(a: Key, b: Key)
    requires |a| == |b| && |a| % 2 == 0
    ensures var n := |a| / 2;
      SameMatrix(n, MatMul(n, StringMatrix(a), StringMatrix(b)),
        Scaled(IPow(PhaseExp(Pauli, a, b)), StringMatrix(Xor(a, b))))
  {
    hide PhaseExp, Times, IPow, StringEntry, MatMul;
    var n := |a| / 2;
    PhaseIsSumOfUnits(a, b);
    forall s: Config, t: Config | |s| == n && |t| == n
      ensures MatMul(n, StringMatrix(a), StringMatrix(b))(s, t)
        == Scaled(IPow(PhaseExp(Pauli, a, b)), StringMatrix(Xor(a, b)))(s, t)
    {
      EntriesMultiply(a, b, s, t);
    }
  }

  /** The empty string is the identity matrix. */
  lemma {:induction false} IdentityEntry(n: nat, s: Config, t: Config)
    requires |s| == |t| && 2 * |s| <= n
    ensures StringEntry(Zero(n), s, t) == Delta(s, t)
    decreases |s|
  {
    hide Times, UnitMatrix, ComplexNumbers.Plus;
    if s != [] {
      var q := |s| - 1;
      IdentityEntry(n, s[..q], t[..q]);
      UnitEntry(false, false, Bit(s[q]), Bit(t[q]));
      ComplexLaws(Delta(s[..q], t[..q]), ONE, ZERO);
      assert s == s[..q] + [s[q]] && t == t[..q] + [t[q]];
    }
  }

  /** Every string is Hermitian. */
  lemma {:induction false} EntryHermitian(p: Key, s: Config, t: Config)
    requires |s| == |t| && 2 * |s| <= |p|
    ensures StringEntry(p, t, s) == Conj(StringEntry(p, s, t))
    decreases |s|
  {
    hide Times, UnitMatrix;
    if s != [] {
      var q := |s| - 1;
      EntryHermitian(p, s[..q], t[..q]);
      UnitHermitian(p[2 * q], p[2 * q + 1], s[q], t[q]);
      ConjTimes(StringEntry(p, s[..q], t[..q]), UnitMatrix(p[2 * q], p[2 * q + 1])(Bit(s[q]), Bit(t[q])));
    }
  }

  lemma UnitHermitian(x: bool, z: bool, s: bool, t: bool)
    ensures UnitMatrix(x, z)(Bit(t), Bit(s)) == Conj(UnitMatrix(x, z)(Bit(s), Bit(t)))
  {
  }

  // ---- diagonal entries ---------------------------------------------------------

  /** The configuration of a basis state on the units of `s`: units past the state's end are empty. */
  predicate ConfigOf(state: seq<bool>, s: Config)
  {
    forall q :: 0 <= q < |s| ==> s[q] == (q < |state| && state[q])
  }

  /** The trace of what lies at unit `k` and above. */
  function TraceAbove(p: Key, state: seq<bool>, k: nat): Complex
    requires |p| % 2 == 0 && 2 * k <= |p|
  {
    if !DiagonalFrom(p, k) then ZERO else if FlippedFrom(p, state, k) then Complex(-1.0, 0.0) else ONE
  }

  lemma TraceAboveNext(p: Key, state: seq<bool>, q: nat, c: bool)
    requires |p| % 2 == 0 && 2 * q < |p| && c == (q < |state| && state[q])
    ensures TraceAbove(p, state, q)
      == Times(UnitMatrix(p[2 * q], p[2 * q + 1])(Bit(c), Bit(c)), TraceAbove(p, state, q + 1))
  {
    hide UnitMatrix, Times;
    UnitTimes(p[2 * q], p[2 * q + 1], Bit(c), Bit(c), TraceAbove(p, state, q + 1));
  }

  lemma {:induction false} TraceSplits(p: Key, state: seq<bool>, s: Config)
    requires |p| % 2 == 0 && 2 * |s| <= |p| && ConfigOf(state, s)
    ensures Times(StringEntry(p, s, s), TraceAbove(p, state, |s|)) == TraceAbove(p, state, 0)
    decreases |s|
  {
    hide UnitMatrix, Times, TraceAbove;
    if s == [] {
      ComplexLaws(TraceAbove(p, state, 0), ZERO, ZERO);
    } else {
      var q := |s| - 1;
      TraceSplits(p, state, s[..q]);
      TraceAboveNext(p, state, q, s[q]);
      ComplexLaws(StringEntry(p, s[..q], s[..q]), UnitMatrix(p[2 * q], p[2 * q + 1])(Bit(s[q]), Bit(s[q])),
        TraceAbove(p, state, |s|));
    }
  }

  /** The trace of a string in a basis state is the diagonal entry of its matrix there. */
  lemma {:induction false} TraceIsDiagonal(p: Key, state: seq<bool>, s: Config)
    requires |p| == 2 * |s| && ConfigOf(state, s)
    ensures StringEntry(p, s, s) == Complex(PauliTrace(p, state), 0.0)
  {
    hide Times;
    TraceSplits(p, state, s);
    ComplexLaws(StringEntry(p, s, s), ZERO, ZERO);
  }

  /** Without occupied units every product of Zs has trace 1. */
  lemma {:induction false} EmptyTrace(p: Key, state: seq<bool>)
    requires |p| % 2 == 0 && (forall q: nat :: q < |p| / 2 ==> !p[2 * q]) && forall i :: 0 <= i < |state| ==> !state[i]
    ensures PauliTrace(p, state) == 1.0
  {
    EmptyFrom(p, state, 0);
  }

  lemma {:induction false} EmptyFrom(p: Key, state: seq<bool>, k: nat)
    requires |p| % 2 == 0 && 2 * k <= |p| && forall i :: 0 <= i < |state| ==> !state[i]
    requires forall q: nat :: q < |p| / 2 ==> !p[2 * q]
    ensures DiagonalFrom(p, k) && !FlippedFrom(p, state, k)
    decreases |p| - 2 * k
  {
    if 2 * k < |p| {
      assert k < |p| / 2;
      EmptyFrom(p, state, k + 1);
    }
  }

  /** Occupying unit `q` negates the trace exactly if the string has a Z there. */
  lemma OccupyFlips(p: Key, state: seq<bool>, q: nat)
    requires |p| % 2 == 0 && q < |state| && !state[q] && forall k: nat :: k < |p| / 2 ==> !p[2 * k]
    ensures PauliTrace(p, state[q := true])
      == if 2 * q < |p| && p[2 * q + 1] then -PauliTrace(p, state) else PauliTrace(p, state)
  {
    FlipFrom(p, state, q, 0);
  }

  lemma {:induction false} FlipFrom(p: Key, state: seq<bool>, q: nat, k: nat)
    requires |p| % 2 == 0 && 2 * k <= |p| && q < |state| && !state[q]
    requires forall j: nat :: j < |p| / 2 ==> !p[2 * j]
    ensures DiagonalFrom(p, k)
    ensures FlippedFrom(p, state[q := true], k)
      == (FlippedFrom(p, state, k) != (k <= q && 2 * q < |p| && p[2 * q + 1]))
    decreases |p| - 2 * k
  {
    if 2 * k < |p| {
      assert k < |p| / 2;
      FlipFrom(p, state, q, k + 1);
    }
  }

  /** A string with an X component has trace 0 in every basis state. */
  lemma OffDiagonalTrace(p: Key, state: seq<bool>, q: nat)
    requires |p| % 2 == 0 && 2 * q < |p| && p[2 * q]
    ensures PauliTrace(p, state) == 0.0
  {
    OffDiagonalFrom(p, q, 0);
  }

  lemma {:induction false} OffDiagonalFrom(p: Key, q: nat, k: nat)
    requires |p| % 2 == 0 && 2 * q < |p| && p[2 * q] && k <= q
    ensures !DiagonalFrom(p, k)
    decreases q - k
  {
    if k < q {
      OffDiagonalFrom(p, q, k + 1);
    }
  }
}
