/**
 What a run computes, in matrices: every gate conjugates the operator with the unitary of its
 angle, and the expectation value of a run without truncation is the diagonal entry of the
 operator conjugated with every gate in turn.
 */
module Conjugation {
  import opened BasisStrings
  import opened BasisAlgebra
  import opened TableauRows
  import opened Frames
  import opened JordanWigner
  import opened FiniteSums
  import opened PairRule
  import opened Propagation
  import opened RunLaws
  import opened ComplexNumbers
  import opened PauliMatrices
  import opened ModeMatrices

  // ---- the unitary of a gate ----------------------------------------------------

  /** Cosine and sine of half an angle. */
  datatype Half = Half(c: real, s: real)

  /** `h` is half the angle with this cosine and sine. */
  predicate IsHalf(h: Half, cos: real, sin: real)
  {
    h.c * h.c + h.s * h.s == 1.0 && cos == h.c * h.c - h.s * h.s && sin == 2.0 * (h.c * h.s)
  }

  function Opposite(h: Half): Half { Half(h.c, -h.s) }

  /** `cos(a/2) - i sin(a/2) G` for the generator `G`. */
  function TurnMatrix(kind: BasisKind, g: Key, h: Half): Matrix
    requires |g| % 2 == 0
  {
    Added(Scaled(Complex(h.c, 0.0), IdentityMatrix()), Scaled(Complex(0.0, -h.s), BasisMatrix(kind, g)))
  }

  /** The operator seen through a gate: the adjoint of the gate's unitary, the operator, the unitary. */
  function Conjugated(kind: BasisKind, n: nat, g: Key, h: Half, m: Matrix): Matrix
    requires |g| % 2 == 0
  {
    MatMul(n, MatMul(n, TurnMatrix(kind, g, Opposite(h)), m), TurnMatrix(kind, g, h))
  }

  lemma BasisHermitian(kind: BasisKind, k: Key, s: Config, t: Config)
    requires |k| == 2 * |s| && |s| == |t|
    ensures BasisMatrix(kind, k)(t, s) == Conj(BasisMatrix(kind, k)(s, t))
  {
    hide SignExpOf, ToPauli, StringEntry, Times, IPow;
    match kind
    case Pauli => EntryHermitian(k, s, t);
    case Majorana =>
      var p := ToPauli(k);
      EntryHermitian(p, s, t);
      SignIsReal(p);
      PowerTimes(SignExpOf(p), StringEntry(p, s, t));
      PowerTimes(SignExpOf(p), StringEntry(p, t, s));
  }

  /** Turning the other way is the adjoint. */
  lemma TurnAdjoint(kind: BasisKind, g: Key, h: Half, s: Config, t: Config)
    requires |g| == 2 * |s| && |s| == |t|
    ensures TurnMatrix(kind, g, Opposite(h))(s, t) == Conj(TurnMatrix(kind, g, h)(t, s))
  {
    hide BasisMatrix, Times, Conj, ComplexNumbers.Plus;
    var (d, w) := (Delta(t, s), BasisMatrix(kind, g)(t, s));
    var (x, z) := (Complex(h.c, 0.0), Complex(0.0, -h.s));
    BasisHermitian(kind, g, t, s);
    ConjPlus(Times(x, d), Times(z, w));
    ConjTimes(x, d);
    ConjTimes(z, w);
    ConjOf(h.c, 0.0);
    ConjOf(0.0, -h.s);
    ConjOf(0.0, 0.0);
    ConjOf(1.0, 0.0);
  }

  // ---- one string ---------------------------------------------------------------

  lemma MatMulIdentity(n: nat, a: Matrix)
    ensures SameMatrix(n, MatMul(n, IdentityMatrix(), a), a) && SameMatrix(n, MatMul(n, a, IdentityMatrix()), a)
  {
    hide Times;
    forall s: Config, t: Config | |s| == n && |t| == n
      ensures MatMul(n, IdentityMatrix(), a)(s, t) == a(s, t)
      ensures MatMul(n, a, IdentityMatrix())(s, t) == a(s, t)
    {
      var f, g := (u: Config) => Times(IdentityMatrix()(s, u), a(u, t)),
        (u: Config) => Times(a(s, u), IdentityMatrix()(u, t));
      forall u: Config
        ensures f(u) == if u == s then a(s, t) else ZERO
        ensures g(u) == if u == t then a(s, t) else ZERO
      {
        ComplexLaws(a(u, t), ZERO, ZERO);
        ComplexLaws(ZERO, a(u, t), ZERO);
        ComplexLaws(a(s, u), ZERO, ZERO);
      }
      OverOne(n, s, f);
      OverOne(n, t, g);
    }
  }

  /** A combination of two operators times a third, from either side. */
  lemma CombinedTimes(n: nat, x: Complex, a: Matrix, y: Complex, b: Matrix, c: Matrix)
    ensures SameMatrix(n, MatMul(n, Added(Scaled(x, a), Scaled(y, b)), c),
      Added(Scaled(x, MatMul(n, a, c)), Scaled(y, MatMul(n, b, c))))
    ensures SameMatrix(n, MatMul(n, c, Added(Scaled(x, a), Scaled(y, b))),
      Added(Scaled(x, MatMul(n, c, a)), Scaled(y, MatMul(n, c, b))))
  {
    hide MatMul, Times, ComplexNumbers.Plus;
    MatMulAdded(n, Scaled(x, a), Scaled(y, b), c);
    MatMulScaled(n, x, a, c);
    MatMulScaled(n, y, b, c);
    MatMulScaled(n, x, c, a);
    MatMulScaled(n, y, c, b);
  }

  /** One entry of a conjugated string, from the entries `p` of the string and `q` of its partner. */
  function Sandwich(c: real, s: real, e: Exp, back: Exp, again: Exp, p: Complex, q: Complex): Complex
  {
    ComplexNumbers.Plus(
      Times(Complex(c, 0.0), ComplexNumbers.Plus(Times(Complex(c, 0.0), p), Times(Complex(0.0, s), Times(IPow(e), q)))),
      Times(Complex(0.0, -s),
        ComplexNumbers.Plus(Times(Complex(c, 0.0), Times(IPow(back), q)),
          Times(Complex(0.0, s), Times(IPow(e), Times(IPow(again), p))))))
  }

  /** The products met when a string is conjugated. */
  lemma ConjugatedEntry(kind: BasisKind, n: nat, g: Key, h: Half, k: Key, s: Config, t: Config)
    requires |g| == |k| == 2 * n && |s| == |t| == n
    ensures Conjugated(kind, n, g, h, BasisMatrix(kind, k))(s, t)
      == Sandwich(h.c, h.s, PhaseExp(kind, g, k), PhaseExp(kind, k, g), PhaseExp(kind, Xor(g, k), g),
        BasisMatrix(kind, k)(s, t), BasisMatrix(kind, Xor(g, k))(s, t))
  {
    hide MatMul, Times, ComplexNumbers.Plus, PhaseExp, BasisMatrix, IPow, Xor;
    var q := Xor(g, k);
    var (gm, pm, qm) := (BasisMatrix(kind, g), BasisMatrix(kind, k), BasisMatrix(kind, q));
    var (x, y, z) := (Complex(h.c, 0.0), Complex(0.0, h.s), Complex(0.0, -h.s));
    var e := IPow(PhaseExp(kind, g, k));
    XorComm(g, k);
    XorCancel(g, k);
    BasisMultiply(kind, g, k);
    BasisMultiply(kind, k, g);
    BasisMultiply(kind, q, g);
    TurnedLeft(n, x, y, gm, pm, Scaled(e, qm));
    MatMulScaled(n, e, qm, gm);
    TurnedRight(n, x, y, z, gm, pm, Scaled(e, qm), TurnMatrix(kind, g, Opposite(h)));
  }

  function Combination(x: Complex, a: Matrix, y: Complex, b: Matrix): Matrix { Added(Scaled(x, a), Scaled(y, b)) }

  lemma TurnedLeft(n: nat, x: Complex, y: Complex, g: Matrix, p: Matrix, gp: Matrix)
    requires SameMatrix(n, MatMul(n, g, p), gp)
    ensures SameMatrix(n, MatMul(n, Added(Scaled(x, IdentityMatrix()), Scaled(y, g)), p), Combination(x, p, y, gp))
  {
    hide MatMul, Times, ComplexNumbers.Plus;
    CombinedTimes(n, x, IdentityMatrix(), y, g, p);
    MatMulIdentity(n, p);
  }

  lemma TurnedRight(n: nat, x: Complex, y: Complex, z: Complex, g: Matrix, p: Matrix, gp: Matrix, u: Matrix)
    requires SameMatrix(n, MatMul(n, u, p), Combination(x, p, y, gp))
    ensures SameMatrix(n, MatMul(n, MatMul(n, u, p), Combination(x, IdentityMatrix(), z, g)),
      Combination(x, Combination(x, p, y, gp), z, Combination(x, MatMul(n, p, g), y, MatMul(n, gp, g))))
  {
    hide MatMul, Times, ComplexNumbers.Plus;
    var l, w := Combination(x, p, y, gp), Combination(x, IdentityMatrix(), z, g);
    assert SameMatrix(n, w, w);
    MatMulSame(n, MatMul(n, u, p), w, l, w);
    CombinedTimes(n, x, IdentityMatrix(), z, g, l);
    MatMulIdentity(n, l);
    CombinedTimes(n, x, p, y, gp, g);
  }

  /** The two coefficients a conjugated string leaves. */
  lemma SandwichSplits(c: real, s: real, e: Exp, back: Exp, again: Exp, p: Complex, q: Complex)
    ensures var (x, y, z) := (Complex(c, 0.0), Complex(0.0, s), Complex(0.0, -s));
      Sandwich(c, s, e, back, again, p, q)
      == ComplexNumbers.Plus(
        Times(ComplexNumbers.Plus(Times(x, x), Times(Times(z, y), IPow(BasisAlgebra.Plus(e, again)))), p),
        Times(ComplexNumbers.Plus(Times(Times(x, y), IPow(e)), Times(Times(x, z), IPow(back))), q))
  {
    hide Times, ComplexNumbers.Plus, IPow;
    var (x, y, z) := (Complex(c, 0.0), Complex(0.0, s), Complex(0.0, -s));
    var (u, v, w) := (IPow(e), IPow(back), IPow(again));
    IPowPlus(e, again);
    // x (x p + y (u q))
    ComplexLaws(x, Times(x, p), Times(y, Times(u, q)));
    ComplexLaws(x, x, p);
    ThreeTimes(x, y, u, q);
    // z (x (v q) + y (u (w p)))
    ComplexLaws(z, Times(x, Times(v, q)), Times(y, Times(u, Times(w, p))));
    ThreeTimes(z, x, v, q);
    ComplexLaws(z, x, ZERO);
    ComplexLaws(u, w, p);
    ThreeTimes(z, y, Times(u, w), p);
    var (pp, pq, qq, qp) := (Times(Times(x, x), p), Times(Times(Times(x, y), u), q), Times(Times(Times(x, z), v), q),
      Times(Times(Times(z, y), Times(u, w)), p));
    assert Sandwich(c, s, e, back, again, p, q)
        == ComplexNumbers.Plus(ComplexNumbers.Plus(pp, pq), ComplexNumbers.Plus(qq, qp));
    ComplexSums(qq, qp, ZERO);
    PlusFour(pp, pq, qp, qq);
    SumLeft(Times(x, x), Times(Times(z, y), Times(u, w)), p);
    SumLeft(Times(Times(x, y), u), Times(Times(x, z), v), q);
  }

  lemma ThreeTimes(x: Complex, y: Complex, u: Complex, q: Complex)
    ensures Times(x, Times(y, Times(u, q))) == Times(Times(Times(x, y), u), q)
  {
    hide Times, ComplexNumbers.Plus;
    ComplexLaws(x, y, Times(u, q));
    ComplexLaws(Times(x, y), u, q);
  }

  /** An anticommuting string turns: the cosine of the full angle stays, the sine branches. */
  lemma TurningSandwich(h: Half, cos: real, sin: real, e: Exp, p: Complex, q: Complex, branch: real)
    requires IsHalf(h, cos, sin) && Odd(e) && branch == sin * -PhaseIm(e)
    ensures Sandwich(h.c, h.s, e, BasisAlgebra.Plus(e, 2), BasisAlgebra.Plus(Neg(e), 2), p, q)
      == ComplexNumbers.Plus(Times(Complex(cos, 0.0), p), Times(Complex(branch, 0.0), q))
  {
    hide Times, ComplexNumbers.Plus, IsHalf, Sandwich, IPow;
    assert BasisAlgebra.Plus(e, BasisAlgebra.Plus(Neg(e), 2)) == 2;
    SandwichSplits(h.c, h.s, e, BasisAlgebra.Plus(e, 2), BasisAlgebra.Plus(Neg(e), 2), p, q);
    TurningStays(h, cos, sin);
    TurningBranches(h, cos, sin, e);
  }

  lemma TurningStays(h: Half, cos: real, sin: real)
    requires IsHalf(h, cos, sin)
    ensures var (x, y, z) := (Complex(h.c, 0.0), Complex(0.0, h.s), Complex(0.0, -h.s));
      ComplexNumbers.Plus(Times(x, x), Times(Times(z, y), IPow(2))) == Complex(cos, 0.0)
  {
    hide Times;
    var cc, ss := h.c * h.c, h.s * h.s;
    HalfProducts(h, cc, ss, h.c * h.s);
    PowerTimes(2, Complex(ss, 0.0));
    ComplexLaws(Complex(ss, 0.0), IPow(2), ZERO);
  }

  lemma TurningBranches(h: Half, cos: real, sin: real, e: Exp)
    requires IsHalf(h, cos, sin) && Odd(e)
    ensures var (x, y, z) := (Complex(h.c, 0.0), Complex(0.0, h.s), Complex(0.0, -h.s));
      ComplexNumbers.Plus(Times(Times(x, y), IPow(e)), Times(Times(x, z), IPow(BasisAlgebra.Plus(e, 2))))
      == Complex(sin * -PhaseIm(e), 0.0)
  {
    hide Times, IPow;
    var cs := h.c * h.s;
    var f := BasisAlgebra.Plus(e, 2);
    HalfProducts(h, h.c * h.c, h.s * h.s, cs);
    PowerTimes(e, Complex(0.0, cs));
    PowerTimes(f, Complex(0.0, -cs));
    ComplexLaws(Complex(0.0, cs), IPow(e), ZERO);
    ComplexLaws(Complex(0.0, -cs), IPow(f), ZERO);
    assert sin == 2.0 * cs;
    assert e == 1 || e == 3;
  }

  /** A commuting string stays as it is. */
  lemma StandingSandwich(h: Half, cos: real, sin: real, e: Exp, p: Complex, q: Complex)
    requires IsHalf(h, cos, sin)
    ensures Sandwich(h.c, h.s, e, e, Neg(e), p, q) == p
  {
    hide Times, ComplexNumbers.Plus, IsHalf, Sandwich, IPow;
    assert BasisAlgebra.Plus(e, Neg(e)) == 0;
    SandwichSplits(h.c, h.s, e, e, Neg(e), p, q);
    StandingParts(h, cos, sin, e);
    ComplexLaws(p, ZERO, ZERO);
    ComplexLaws(q, ZERO, ZERO);
    ComplexLaws(ZERO, q, ZERO);
    ComplexSums(p, ZERO, ZERO);
  }

  lemma StandingParts(h: Half, cos: real, sin: real, e: Exp)
    requires IsHalf(h, cos, sin)
    ensures var (x, y, z) := (Complex(h.c, 0.0), Complex(0.0, h.s), Complex(0.0, -h.s));
      && ComplexNumbers.Plus(Times(x, x), Times(Times(z, y), IPow(0))) == ONE
      && ComplexNumbers.Plus(Times(Times(x, y), IPow(e)), Times(Times(x, z), IPow(e))) == ZERO
  {
    hide Times, IPow;
    var (cc, ss, cs) := (h.c * h.c, h.s * h.s, h.c * h.s);
    HalfProducts(h, cc, ss, cs);
    PowerTimes(0, Complex(ss, 0.0));
    PowerTimes(e, Complex(0.0, cs));
    PowerTimes(e, Complex(0.0, -cs));
    ComplexLaws(Complex(ss, 0.0), IPow(0), ZERO);
    ComplexLaws(Complex(0.0, cs), IPow(e), ZERO);
    ComplexLaws(Complex(0.0, -cs), IPow(e), ZERO);
  }

  lemma HalfProducts(h: Half, cc: real, ss: real, cs: real)
    requires cc == h.c * h.c && ss == h.s * h.s && cs == h.c * h.s
    ensures var (x, y, z) := (Complex(h.c, 0.0), Complex(0.0, h.s), Complex(0.0, -h.s));
      && Times(x, x) == Complex(cc, 0.0) && Times(z, y) == Complex(ss, 0.0)
      && Times(x, y) == Complex(0.0, cs) && Times(x, z) == Complex(0.0, -cs)
  {
  }

  lemma ReturnPhase(kind: BasisKind, g: Key, k: Key)
    requires |g| == |k| && |g| % 2 == 0
    ensures var e := PhaseExp(kind, g, k);
      var flip: Exp := if Anticommutes(kind, g, k) then 2 else 0;
      && PhaseExp(kind, k, g) == BasisAlgebra.Plus(e, flip)
      && PhaseExp(kind, Xor(g, k), g) == BasisAlgebra.Plus(Neg(e), flip)
      && (Anticommutes(kind, g, k) <==> Odd(e))
  {
    hide PhaseExp, Anticommutes, Xor;
    PhaseSwap(kind, g, k);
    PhaseSwap(kind, g, Xor(g, k));
    AnticommutesBranch(kind, g, k);
    PhaseTwice(kind, g, k);
    AnticommutesIsImaginary(kind, g, k);
  }

  function Real(x: real): Complex { Complex(x, 0.0) }

  /** A basis operator seen through a gate: its cosine branch and its sine branch. */
  lemma StringConjugated(kind: BasisKind, n: nat, t: Turn, h: Half, k: Key, row: Config, col: Config)
    requires |t.gen| == |k| == 2 * n && |row| == |col| == n && IsHalf(h, t.cos, t.sin * t.sign)
    ensures Conjugated(kind, n, t.gen, h, BasisMatrix(kind, k))(row, col)
      == if Anticommutes(kind, t.gen, k)
         then ComplexNumbers.Plus(Times(Real(t.cos), BasisMatrix(kind, k)(row, col)),
             Times(Real(Branch(kind, t, k, 1.0)), BasisMatrix(kind, Partner(t, k))(row, col)))
         else BasisMatrix(kind, k)(row, col)
  {
    hide PhaseExp, Anticommutes, Xor, BasisMatrix, Times, ComplexNumbers.Plus, IsHalf, Sandwich, Conjugated;
    var e, sin := PhaseExp(kind, t.gen, k), t.sin * t.sign;
    var (p, q) := (BasisMatrix(kind, k)(row, col), BasisMatrix(kind, Partner(t, k))(row, col));
    ConjugatedEntry(kind, n, t.gen, h, k, row, col);
    ReturnPhase(kind, t.gen, k);
    if Anticommutes(kind, t.gen, k) {
      UnitBranch(kind, t, k, PhaseIm(e), sin);
      TurningSandwich(h, t.cos, sin, e, p, q, Branch(kind, t, k, 1.0));
    } else {
      StandingSandwich(h, t.cos, sin, e, p, q);
    }
  }

  lemma UnitBranch(kind: BasisKind, t: Turn, k: Key, im: real, sin: real)
    requires |k| == |t.gen| && |k| % 2 == 0 && im == PhaseIm(PhaseExp(kind, t.gen, k)) && sin == t.sin * t.sign
    ensures Branch(kind, t, k, 1.0) == sin * -im
  {
    hide PhaseExp, PhaseIm;
    var turn := im * t.sign;
    assert TurnIm(kind, t, k) == turn;
    assert Branch(kind, t, k, 1.0) == 1.0 * t.sin * -turn;
    SignMoves(t.sin, t.sign, im, turn, sin);
  }

  lemma SignMoves(s: real, sign: real, im: real, turn: real, sin: real)
    requires turn == im * sign && sin == s * sign
    ensures sin * -im == 1.0 * s * -turn
  {
  }

  /** The gate's matrix is unitary. */
  lemma TurnUnitary(kind: BasisKind, n: nat, g: Key, h: Half)
    requires |g| == 2 * n && h.c * h.c + h.s * h.s == 1.0
    ensures SameMatrix(n, MatMul(n, TurnMatrix(kind, g, Opposite(h)), TurnMatrix(kind, g, h)), IdentityMatrix())
  {
    hide MatMul, TurnMatrix, BasisMatrix, Anticommutes, Branch, Times, ComplexNumbers.Plus;
    var z, u, v := Zero(2 * n), TurnMatrix(kind, g, Opposite(h)), TurnMatrix(kind, g, h);
    var t := Turn(g, 1.0, h.c * h.c - h.s * h.s, 2.0 * (h.c * h.s));
    assert t.sin * t.sign == t.sin;
    assert !Anticommutes(kind, g, z) by {
      AnticommutesIsImaginary(kind, g, z);
      PhaseZero(kind, g);
    }
    BasisIdentity(kind, n);
    MatMulIdentity(n, u);
    assert SameMatrix(n, u, u) && SameMatrix(n, v, v);
    MatMulSame(n, u, BasisMatrix(kind, z), u, IdentityMatrix());
    MatMulSame(n, MatMul(n, u, BasisMatrix(kind, z)), v, u, v);
    forall s: Config, t': Config | |s| == n && |t'| == n
      ensures MatMul(n, u, v)(s, t') == IdentityMatrix()(s, t')
    {
      StringConjugated(kind, n, t, h, z, s, t');
    }
  }

  /** One qubit: a gate about X sends Y to cos Y - sin Z, and Z to cos Z + sin Y. */
  lemma AboutX(cos: real, sin: real, cut: Cutoff)
    requires cos * cos + sin * sin == 1.0 && Lossless(cut)
    ensures var (x, y, z) := ([true, false], [true, true], [false, true]);
      && PairStep(Pauli, Turn(x, 1.0, cos, sin), cut, map[y := 1.0]) == map[y := cos, z := -sin]
      && PairStep(Pauli, Turn(x, 1.0, cos, sin), cut, map[z := 1.0]) == map[z := cos, y := sin]
  {
    var (x, y, z) := ([true, false], [true, true], [false, true]);
    var t := Turn(x, 1.0, cos, sin);
    hide PhaseExp, PairStep, Lossless;
    XWithYAndZ();
    OneBranch(t, cut, y, z);
    OneBranch(t, cut, z, y);
  }

  lemma XWithYAndZ()
    ensures var (x, y, z) := ([true, false], [true, true], [false, true]);
      && Xor(x, y) == z && Xor(x, z) == y && PhaseExp(Pauli, x, y) == 1 && PhaseExp(Pauli, x, z) == 3
  {
    hide PhaseExp;
    var (x, y, z) := ([true, false], [true, true], [false, true]);
    UnitPhase(x, y);
    UnitPhase(x, z);
  }

  /** A gate on one term with a branch. */
  lemma OneBranch(t: Turn, cut: Cutoff, k: Key, q: Key)
    requires |t.gen| == |k| == |q| == 2 && TurnOf(t, 2) && Lossless(cut) && t.sign == 1.0
    requires q == Xor(t.gen, k) && Odd(PhaseExp(Pauli, t.gen, k))
    ensures PairStep(Pauli, t, cut, map[k := 1.0])
      == map[k := t.cos, q := if PhaseExp(Pauli, t.gen, k) == 1 then -t.sin else t.sin]
  {
    hide Anticommutes, PhaseExp, StatusOf, Branch, PairStep, Xor, Lossless, Partner;
    var r := PairStep(Pauli, t, cut, map[k := 1.0]);
    AnticommutesIsImaginary(Pauli, t.gen, k);
    OneBranchValues(t, cut, k, q);
    forall j: Key | |j| == 2 ensures j in r <==> j == k || j == q {
      OneBranchKeys(t, cut, k, q, j);
    }
  }

  lemma OneBranchKeys(t: Turn, cut: Cutoff, k: Key, q: Key, j: Key)
    requires |t.gen| == |k| == |j| == 2 && TurnOf(t, 2) && Lossless(cut)
    requires q == Xor(t.gen, k) && Anticommutes(Pauli, t.gen, k)
    ensures j in PairStep(Pauli, t, cut, map[k := 1.0]) <==> j == k || j == q
  {
    hide Anticommutes, StatusOf, PairStep, Xor, Lossless, NewCoef;
    LosslessAlwaysEmits(Pauli, t, cut, k, 1.0);
    PairStepAt(Pauli, t, cut, map[k := 1.0], j);
    PartnerTwice(t, j);
    PartnerTwice(t, k);
  }

  lemma OneBranchValues(t: Turn, cut: Cutoff, k: Key, q: Key)
    requires |t.gen| == |k| == 2 && TurnOf(t, 2) && Lossless(cut) && t.sign == 1.0
    requires q == Xor(t.gen, k) && Odd(PhaseExp(Pauli, t.gen, k)) && Anticommutes(Pauli, t.gen, k)
    ensures var r := PairStep(Pauli, t, cut, map[k := 1.0]);
      k in r && q in r && k != q && r[k] == t.cos
        && r[q] == if PhaseExp(Pauli, t.gen, k) == 1 then -t.sin else t.sin
  {
    hide Anticommutes, PhaseExp, StatusOf, Branch, PairStep, Weight, Xor;
    var m := map[k := 1.0];
    LosslessAlwaysEmits(Pauli, t, cut, k, 1.0);
    PairOfTwo(t, k);
    PairRotatedIffEitherPasses(Pauli, t, cut, m, k);
    UnitBranch(Pauli, t, k, PhaseIm(PhaseExp(Pauli, t.gen, k)), t.sin);
    PairStepAt(Pauli, t, cut, m, k);
  }

  /** A string that anticommutes with the generator is not its own branch. */
  lemma PairOfTwo(t: Turn, k: Key)
    requires |t.gen| == |k| == 2 && Odd(PhaseExp(Pauli, t.gen, k))
    ensures Xor(t.gen, k) != k
  {
    if Xor(t.gen, k) == k {
      assert t.gen == Zero(2) by {
        assert t.gen[0] == (Xor(t.gen, k)[0] != k[0]) && t.gen[1] == (Xor(t.gen, k)[1] != k[1]);
      }
      PhaseZero(Pauli, k);
    }
  }

  // ---- whole operators ----------------------------------------------------------

  /** The matrix of the operator with coefficient `f(k)` for every key `k` of `n` units. */
  function OpMatrix(kind: BasisKind, n: nat, f: Key -> real): Matrix { Total(2 * n, TermMatrix(kind, n, f)) }

  function TermMatrix(kind: BasisKind, n: nat, f: Key -> real): Config -> Matrix
  {
    (k: Key) => if |k| == 2 * n then Scaled(Real(f(k)), BasisMatrix(kind, k)) else IdentityMatrix()
  }

  /** `h` is `f` with its argument multiplied by `g`. */
  ghost predicate Shifted(n: nat, g: Key, f: Config -> Complex, h: Config -> Complex)
    requires |g| == n
  {
    forall k: Key :: |k| == n ==> h(k) == f(Xor(g, k))
  }

  /** Multiplying by a fixed string only reorders the keys. */
  lemma {:induction false} OverXor(n: nat, g: Key, f: Config -> Complex, h: Config -> Complex)
    requires |g| == n && Shifted(n, g, f, h)
    ensures SumOver(n, h) == SumOver(n, f)
  {
    if n > 0 {
      ShiftedLess(n - 1, g, f, h);
      hide Shifted;
      OverXor(n - 1, g[..n - 1], SumOut(f), SumOut(h));
    } else {
      assert Xor(g, []) == [];
    }
  }

  lemma ShiftedLess(n: nat, g: Key, f: Config -> Complex, h: Config -> Complex)
    requires |g| == n + 1 && Shifted(n + 1, g, f, h)
    ensures Shifted(n, g[..n], SumOut(f), SumOut(h))
  {
    hide SumOut, Xor;
    forall k: Key | |k| == n ensures SumOut(h)(k) == SumOut(f)(Xor(g[..n], k)) {
      XorSummedOut(g, k, f, h);
    }
  }

  lemma XorSummedOut(g: Key, k: Key, f: Config -> Complex, h: Config -> Complex)
    requires |g| == |k| + 1 && Shifted(|g|, g, f, h)
    ensures SumOut(h)(k) == SumOut(f)(Xor(g[..|k|], k))
  {
    hide ComplexNumbers.Plus, Xor;
    assert h(k + [false]) == f(Xor(g, k + [false])) && h(k + [true]) == f(Xor(g, k + [true]));
    hide Shifted;
    var r := Xor(g[..|k|], k);
    XorLast(g, k, false);
    XorLast(g, k, true);
    ComplexSums(f(r + [false]), f(r + [true]), ZERO);
    if g[|k|] {
      assert h(k + [false]) == f(r + [true]) && h(k + [true]) == f(r + [false]);
    }
  }

  lemma XorLast(g: Key, k: Key, c: bool)
    requires |g| == |k| + 1
    ensures Xor(g, k + [c]) == Xor(g[..|k|], k) + [g[|k|] != c]
  {
  }

  lemma ConjugatedSame(kind: BasisKind, n: nat, g: Key, h: Half, a: Matrix, b: Matrix)
    requires |g| % 2 == 0 && SameMatrix(n, a, b)
    ensures SameMatrix(n, Conjugated(kind, n, g, h, a), Conjugated(kind, n, g, h, b))
  {
    hide MatMul, TurnMatrix;
    var (u, v) := (TurnMatrix(kind, g, Opposite(h)), TurnMatrix(kind, g, h));
    assert SameMatrix(n, u, u) && SameMatrix(n, v, v);
    MatMulSame(n, u, a, u, b);
    MatMulSame(n, MatMul(n, u, a), v, MatMul(n, u, b), v);
  }

  function ConjugatedTerm(kind: BasisKind, n: nat, g: Key, h: Half, f: Key -> real): Config -> Matrix
    requires |g| % 2 == 0
  {
    (k: Key) => Conjugated(kind, n, g, h, TermMatrix(kind, n, f)(k))
  }

  /** Conjugating an operator is conjugating its terms. */
  lemma ConjugatedTotal(kind: BasisKind, n: nat, g: Key, h: Half, f: Key -> real)
    requires |g| == 2 * n
    ensures SameMatrix(n, Conjugated(kind, n, g, h, OpMatrix(kind, n, f)),
      Total(2 * n, ConjugatedTerm(kind, n, g, h, f)))
  {
    hide MatMul, TurnMatrix, Total, TermMatrix;
    var (u, v, x) := (TurnMatrix(kind, g, Opposite(h)), TurnMatrix(kind, g, h), TermMatrix(kind, n, f));
    var left := (k: Key) => MatMul(n, u, x(k));
    MatMulTotal(n, 2 * n, u, x);
    assert SameMatrix(n, v, v);
    MatMulSame(n, MatMul(n, u, Total(2 * n, x)), v, Total(2 * n, left), v);
    MatMulTotal(n, 2 * n, v, left);
    var both := (k: Key) => MatMul(n, left(k), v);
    forall k: Key ensures both(k) == ConjugatedTerm(kind, n, g, h, f)(k) {
      assert left(k) == MatMul(n, u, x(k));
    }
    TotalSame(n, 2 * n, both, ConjugatedTerm(kind, n, g, h, f));
  }

  /** A term of the conjugated operator. */
  lemma ConjugatedTermIs(kind: BasisKind, n: nat, t: Turn, h: Half, f: Key -> real, k: Key, row: Config, col: Config)
    requires |t.gen| == |k| == 2 * n && |row| == |col| == n && IsHalf(h, t.cos, t.sin * t.sign)
    ensures ConjugatedTerm(kind, n, t.gen, h, f)(k)(row, col)
      == ComplexNumbers.Plus(Times(Real(Staying(kind, t, f, k)), BasisMatrix(kind, k)(row, col)),
        Times(Real(Moving(kind, t, f, k)), BasisMatrix(kind, Partner(t, k))(row, col)))
  {
    hide MatMul, TurnMatrix, BasisMatrix, Times, ComplexNumbers.Plus, Anticommutes, IsHalf, Branch, Xor;
    var (u, v, b, a) := (TurnMatrix(kind, t.gen, Opposite(h)), TurnMatrix(kind, t.gen, h), BasisMatrix(kind, k), f(k));
    MatMulScaled(n, Real(a), u, b);
    assert SameMatrix(n, v, v);
    MatMulSame(n, MatMul(n, u, Scaled(Real(a), b)), v, Scaled(Real(a), MatMul(n, u, b)), v);
    MatMulScaled(n, Real(a), MatMul(n, u, b), v);
    StringConjugated(kind, n, t, h, k, row, col);
    var (p, q, br) := (b(row, col), BasisMatrix(kind, Partner(t, k))(row, col), Branch(kind, t, k, 1.0));
    assert TermMatrix(kind, n, f)(k) == Scaled(Real(a), b);
    assert ConjugatedTerm(kind, n, t.gen, h, f)(k) == MatMul(n, MatMul(n, u, Scaled(Real(a), b)), v);
    assert ConjugatedTerm(kind, n, t.gen, h, f)(k)(row, col)
      == Times(Real(a), Conjugated(kind, n, t.gen, h, b)(row, col));
    if Anticommutes(kind, t.gen, k) {
      ComplexLaws(Real(a), Times(Real(t.cos), p), Times(Real(br), q));
      BranchOfMany(kind, t, k, a, br);
      RealTimes(a, t.cos, Staying(kind, t, f, k), p);
      RealTimes(a, br, Moving(kind, t, f, k), q);
    } else {
      ComplexLaws(q, ZERO, ZERO);
      ComplexLaws(ZERO, q, ZERO);
      ComplexSums(Times(Real(a), p), ZERO, ZERO);
    }
  }

  /** What a term leaves at its own key, and what it sends to its partner. */
  function Staying(kind: BasisKind, t: Turn, f: Key -> real, k: Key): real
    requires |k| == |t.gen| && |k| % 2 == 0
  {
    if Anticommutes(kind, t.gen, k) then t.cos * f(k) else f(k)
  }

  function Moving(kind: BasisKind, t: Turn, f: Key -> real, k: Key): real
    requires |k| == |t.gen| && |k| % 2 == 0
  {
    if Anticommutes(kind, t.gen, k) then Branch(kind, t, k, f(k)) else 0.0
  }

  lemma RealTimes(a: real, b: real, ab: real, w: Complex)
    requires ab == a * b
    ensures Times(Real(a), Times(Real(b), w)) == Times(Real(ab), w)
  {
    hide Times, ComplexNumbers.Plus;
    ComplexLaws(Real(a), Real(b), w);
    RealProduct(a, b, ab);
  }

  lemma RealProduct(a: real, b: real, ab: real)
    requires ab == a * b
    ensures Times(Real(a), Real(b)) == Real(ab)
  {
  }

  lemma BranchOfMany(kind: BasisKind, t: Turn, k: Key, a: real, one: real)
    requires |k| == |t.gen| && |k| % 2 == 0 && one == Branch(kind, t, k, 1.0)
    ensures Branch(kind, t, k, a) == a * one
  {
    hide TurnIm;
    var m := -TurnIm(kind, t, k);
    BranchScales(t.sin, m, a, one);
  }

  lemma BranchScales(s: real, m: real, a: real, one: real)
    requires one == 1.0 * s * m
    ensures a * s * m == a * one
  {
  }

  /** One entry of what every key keeps, of what it sends away, and of what it receives. */
  function Stay(kind: BasisKind, n: nat, t: Turn, f: Key -> real, row: Config, col: Config): Config -> Complex
    requires |t.gen| == 2 * n
  {
    (k: Key) =>
      if |k| == 2 * n then Times(Real(Staying(kind, t, f, k)), BasisMatrix(kind, k)(row, col)) else ZERO
  }

  function Leave(kind: BasisKind, n: nat, t: Turn, f: Key -> real, row: Config, col: Config): Config -> Complex
    requires |t.gen| == 2 * n
  {
    (k: Key) =>
      if |k| == 2 * n then Times(Real(Moving(kind, t, f, k)), BasisMatrix(kind, Partner(t, k))(row, col)) else ZERO
  }

  function Arrive(kind: BasisKind, n: nat, t: Turn, f: Key -> real, row: Config, col: Config): Config -> Complex
    requires |t.gen| == 2 * n
  {
    (k: Key) =>
      if |k| == 2 * n then Times(Real(Moving(kind, t, f, Partner(t, k))), BasisMatrix(kind, k)(row, col)) else ZERO
  }

  lemma ShareOfKey(kind: BasisKind, n: nat, t: Turn, h: Half, f: Key -> real, k: Key, row: Config, col: Config)
    requires |t.gen| == |k| == 2 * n && |row| == |col| == n && IsHalf(h, t.cos, t.sin * t.sign)
    ensures ConjugatedTerm(kind, n, t.gen, h, f)(k)(row, col)
      == ComplexNumbers.Plus(Stay(kind, n, t, f, row, col)(k), Leave(kind, n, t, f, row, col)(k))
    ensures Leave(kind, n, t, f, row, col)(k) == Arrive(kind, n, t, f, row, col)(Xor(t.gen, k))
    ensures TermMatrix(kind, n, RotatedFun(kind, 2 * n, t, f))(k)(row, col)
      == ComplexNumbers.Plus(Stay(kind, n, t, f, row, col)(k), Arrive(kind, n, t, f, row, col)(k))
  {
    hide BasisMatrix, Times, ComplexNumbers.Plus, IsHalf, ConjugatedTerm, Xor, Staying, Moving, Rotated;
    ConjugatedTermIs(kind, n, t, h, f, k, row, col);
    PartnerTwice(t, k);
    RotatedSplits(kind, t, f, k);
    assert RotatedFun(kind, 2 * n, t, f)(k) == Rotated(kind, t, f, k);
    RealSum(Staying(kind, t, f, k), Moving(kind, t, f, Partner(t, k)), BasisMatrix(kind, k)(row, col));
  }

  lemma GateEntry(kind: BasisKind, n: nat, t: Turn, h: Half, f: Key -> real, row: Config, col: Config)
    requires |t.gen| == 2 * n && IsHalf(h, t.cos, t.sin * t.sign) && |row| == |col| == n
    ensures Total(2 * n, ConjugatedTerm(kind, n, t.gen, h, f))(row, col)
      == OpMatrix(kind, n, RotatedFun(kind, 2 * n, t, f))(row, col)
  {
    hide ComplexNumbers.Plus, IsHalf, ConjugatedTerm, TermMatrix, RotatedFun, Xor, Stay, Leave, Arrive;
    var (stay, leave, arrive) := (Stay(kind, n, t, f, row, col), Leave(kind, n, t, f, row, col),
      Arrive(kind, n, t, f, row, col));
    var before := (k: Key) => ConjugatedTerm(kind, n, t.gen, h, f)(k)(row, col);
    var after := (k: Key) => TermMatrix(kind, n, RotatedFun(kind, 2 * n, t, f))(k)(row, col);
    forall k: Key | |k| == 2 * n
      ensures before(k) == ComplexNumbers.Plus(stay(k), leave(k))
      ensures leave(k) == arrive(Xor(t.gen, k))
      ensures after(k) == ComplexNumbers.Plus(stay(k), arrive(k))
    {
      ShareOfKey(kind, n, t, h, f, k, row, col);
    }
    OverPlus(2 * n, stay, leave, before);
    OverXor(2 * n, t.gen, arrive, leave);
    OverPlus(2 * n, stay, arrive, after);
  }

  /** Conjugating an operator with a gate's unitary rotates its coefficients by the pair rule. */
  lemma GateIsConjugation(kind: BasisKind, n: nat, t: Turn, h: Half, f: Key -> real)
    requires |t.gen| == 2 * n && IsHalf(h, t.cos, t.sin * t.sign)
    ensures SameMatrix(n, Conjugated(kind, n, t.gen, h, OpMatrix(kind, n, f)),
      OpMatrix(kind, n, RotatedFun(kind, 2 * n, t, f)))
  {
    hide IsHalf, Conjugated, ConjugatedTerm, RotatedFun, OpMatrix, Total;
    ConjugatedTotal(kind, n, t.gen, h, f);
    forall row: Config, col: Config | |row| == n && |col| == n
      ensures Total(2 * n, ConjugatedTerm(kind, n, t.gen, h, f))(row, col)
        == OpMatrix(kind, n, RotatedFun(kind, 2 * n, t, f))(row, col)
    {
      GateEntry(kind, n, t, h, f, row, col);
    }
  }

  lemma RotatedSplits(kind: BasisKind, t: Turn, f: Key -> real, k: Key)
    requires |k| == |t.gen| && |k| % 2 == 0
    ensures Rotated(kind, t, f, k) == Staying(kind, t, f, k) + Moving(kind, t, f, Partner(t, k))
  {
    hide Anticommutes, Branch, Xor;
    PartnerAnticommutes(kind, t, k);
  }

  lemma RealSum(a: real, b: real, w: Complex)
    ensures Times(Real(a + b), w) == ComplexNumbers.Plus(Times(Real(a), w), Times(Real(b), w))
  {
    hide Times;
    SumLeft(Real(a), Real(b), w);
  }

  // ---- whole runs ---------------------------------------------------------------

  /** The gates' angles, halved. */
  predicate HalvesOf(gates: seq<Gate>, hs: seq<Half>)
  {
    |hs| == |gates| && forall i :: 0 <= i < |gates| ==> IsHalf(hs[i], gates[i].cos, gates[i].sin)
  }

  /** The operator seen through every gate in turn. */
  function Evolved(kind: BasisKind, n: nat, gates: seq<Gate>, hs: seq<Half>, m: Matrix): Matrix
    requires GatesOf(gates, 2 * n) && |hs| == |gates|
  {
    if gates == [] then m
    else
      var last := |gates| - 1;
      Conjugated(kind, n, gates[last].gen, hs[last], Evolved(kind, n, gates[..last], hs[..last], m))
  }

  /** The exact evolution of the coefficients is the evolution of the operator. */
  lemma {:induction false} ExactIsEvolution(kind: BasisKind, n: nat, gates: seq<Gate>, hs: seq<Half>, start: Terms)
    requires GatesOf(gates, 2 * n) && HalvesOf(gates, hs) && TermsOf(start, 2 * n)
    ensures SameMatrix(n, OpMatrix(kind, n, Exact(kind, 2 * n, gates, start)),
      Evolved(kind, n, gates, hs, OpMatrix(kind, n, CoefOf(start))))
    decreases |gates|
  {
    hide IsHalf, Conjugated, OpMatrix, Rotated;
    if gates != [] {
      var last := |gates| - 1;
      var g, h, rest := gates[last], hs[last], gates[..last];
      var f, m := Exact(kind, 2 * n, rest, start), Evolved(kind, n, rest, hs[..last], OpMatrix(kind, n, CoefOf(start)));
      ExactIsEvolution(kind, n, rest, hs[..last], start);
      ConjugatedSame(kind, n, g.gen, h, OpMatrix(kind, n, f), m);
      assert g.sin * 1.0 == g.sin;
      GateIsConjugation(kind, n, PlainTurn(g), h, f);
    }
  }

  /** A run without truncation, deferring or not, reads out the evolution of the operator it starts with. */
  lemma {:induction false} RunIsEvolution(kind: BasisKind, n: nat, defer: bool, cut: Cutoff, gates: seq<Gate>,
                                          hs: seq<Half>, start: Terms)
    requires GatesOf(gates, 2 * n) && HalvesOf(gates, hs) && TermsOf(start, 2 * n) && Lossless(cut)
    ensures var e := Run(kind, 2 * n, defer, cut, gates, start);
      SameMatrix(n, OpMatrix(kind, n, ReadFun(kind, e)),
        Evolved(kind, n, gates, hs, OpMatrix(kind, n, CoefOf(start))))
  {
    hide HalvesOf, Evolved, Run, ReadCoef, Exact, BasisMatrix, Times;
    var e := Run(kind, 2 * n, defer, cut, gates, start);
    var f, x := ReadFun(kind, e), Exact(kind, 2 * n, gates, start);
    ExactIsEvolution(kind, n, gates, hs, start);
    forall k: Key | |k| == 2 * n ensures SameMatrix(n, TermMatrix(kind, n, f)(k), TermMatrix(kind, n, x)(k)) {
      RunIsExact(kind, 2 * n, defer, cut, gates, start, k);
    }
    TotalSame(n, 2 * n, TermMatrix(kind, n, f), TermMatrix(kind, n, x));
  }

  // ---- expectation values -------------------------------------------------------

  /** A sum over a set of keys is a sum over all keys. */
  lemma {:induction false} SumIsOver(n: nat, s: set<Key>, f: Key -> real)
    requires forall k :: k in s ==> |k| == n
    ensures SumOver(n, Kept(s, f)) == Real(FiniteSums.Sum(s, f))
    decreases |s|
  {
    if s == {} {
      OverZero(n, Kept(s, f));
    } else {
      var x :| x in s;
      SumIsOver(n, s - {x}, f);
      SumRemove(s, f, x);
      KeptSplits(n, s, f, x);
    }
  }

  /** The values on a set of keys, and 0 elsewhere. */
  function Kept(s: set<Key>, f: Key -> real): Config -> Complex { (k: Key) => if k in s then Real(f(k)) else ZERO }

  lemma {:induction false} KeptSplits(n: nat, s: set<Key>, f: Key -> real, x: Key)
    requires x in s && |x| == n
    ensures SumOver(n, Kept(s, f)) == ComplexNumbers.Plus(Real(f(x)), SumOver(n, Kept(s - {x}, f)))
  {
    hide SumOver;
    OverOne(n, x, Kept({x}, f));
    OverPlus(n, Kept({x}, f), Kept(s - {x}, f), Kept(s, f));
  }

  /**
   The expectation value of an engine in a basis state is the diagonal entry there of the
   operator the engine reads out.
   */
  lemma ExpectationIsEntry(kind: BasisKind, n: nat, e: Engine, state: seq<bool>, s: Config)
    requires FrameShape(2 * n, e.frame) && TermsOf(e.terms, 2 * n) && FrameOk(kind, 2 * n, e.frame)
    requires |s| == n && ConfigOf(state, s)
    ensures Real(Expectation(kind, e, state)) == OpMatrix(kind, n, ReadFun(kind, e))(s, s)
  {
    hide FrameOk, ReadCoef, ReadFun, ReadShare, TermMatrix, ConfigOf, Expectation, ReadKeys;
    var keys, f := ReadKeys(kind, e), ReadShare(kind, 2 * n, e, state);
    var h := (k: Key) => TermMatrix(kind, n, ReadFun(kind, e))(k)(s, s);
    ExpectationReadsOut(kind, 2 * n, e, state);
    ReadKeysLong(kind, 2 * n, e);
    forall k: Key | |k| == 2 * n ensures h(k) == Kept(keys, f)(k) {
      NotReadIsZero(kind, 2 * n, e, k);
      ReadEntry(kind, n, e, state, s, k);
    }
    OverSame(2 * n, h, Kept(keys, f));
    SumIsOver(2 * n, keys, f);
  }

  lemma ReadEntry(kind: BasisKind, n: nat, e: Engine, state: seq<bool>, s: Config, k: Key)
    requires FrameShape(2 * n, e.frame) && |s| == n && ConfigOf(state, s) && |k| == 2 * n
    ensures TermMatrix(kind, n, ReadFun(kind, e))(k)(s, s) == Real(ReadShare(kind, 2 * n, e, state)(k))
    ensures ReadCoef(kind, e, k) == 0.0 ==> ReadShare(kind, 2 * n, e, state)(k) == 0.0
  {
    hide ReadCoef, Trace, BasisMatrix, Times, ConfigOf, ReadShare;
    var c, tr := ReadCoef(kind, e, k), Trace(kind, k, state);
    var b := BasisMatrix(kind, k);
    BasisTrace(kind, k, state, s);
    ReadShareIs(kind, 2 * n, e, state, k);
    var share := ReadShare(kind, 2 * n, e, state)(k);
    RealProduct(c, tr, share);
    assert Scaled(Real(c), b)(s, s) == Times(Real(c), b(s, s));
  }

  lemma ReadKeysLong(kind: BasisKind, n: nat, e: Engine)
    requires FrameShape(n, e.frame) && TermsOf(e.terms, n)
    ensures forall k :: k in ReadKeys(kind, e) ==> |k| == n
  {
    hide Applied;
  }

  /**
   The expectation value of a whole run: the diagonal entry, in the basis state, of the operator
   the run started with, conjugated with the unitary of every gate in turn.
   */
  lemma {:induction false} RunExpectation(kind: BasisKind, n: nat, defer: bool, cut: Cutoff, gates: seq<Gate>,
                                          hs: seq<Half>, start: Terms, state: seq<bool>, s: Config)
    requires GatesOf(gates, 2 * n) && HalvesOf(gates, hs) && TermsOf(start, 2 * n) && Lossless(cut)
    requires |s| == n && ConfigOf(state, s)
    ensures Real(Expectation(kind, Run(kind, 2 * n, defer, cut, gates, start), state))
      == Evolved(kind, n, gates, hs, OpMatrix(kind, n, CoefOf(start)))(s, s)
  {
    hide HalvesOf, Evolved, Run, ConfigOf, FrameOk, Expectation, OpMatrix, ReadFun;
    var e := Run(kind, 2 * n, defer, cut, gates, start);
    RunKeepsFrame(kind, 2 * n, defer, cut, gates, start);
    ExpectationIsEntry(kind, n, e, state, s);
    RunIsEvolution(kind, n, defer, cut, gates, hs, start);
  }
}
