/**
 What a Majorana monomial is: the product of its modes from the lowest up, each of them a
 string of Zs that ends in an X or a Y, with the factor of i that makes it Hermitian.
 */
module ModeMatrices {
  import opened BasisStrings
  import opened BasisAlgebra
  import opened ComplexNumbers
  import opened JordanWigner
  import opened JwTransforms
  import opened PauliMatrices

  // ---- single modes -------------------------------------------------------------

  lemma {:induction false} SingleOfUnit(n: nat, p: nat, k: nat)
    requires n % 2 == 0 && p < n && 2 * k <= n
    ensures SingleAbove(Unit(n, p), k) == (k <= p / 2)
    decreases n - 2 * k
  {
    if 2 * k < n {
      SingleOfUnit(n, p, k + 1);
    }
  }

  /** Mode 2q is Zs below unit q and an X at it, mode 2q + 1 Zs below unit q and a Y at it. */
  lemma ModeString(n: nat, q: nat, odd: bool)
    requires n % 2 == 0 && 2 * q < n
    ensures var p := ToPauli(Unit(n, 2 * q + Bit(odd)));
      forall k: nat :: k < n / 2 ==> p[2 * k] == (k == q) && p[2 * k + 1] == (k < q || (k == q && odd))
  {
    hide ToPauli;
    var p := 2 * q + Bit(odd);
    assert p / 2 == q;
    forall k: nat | k < n / 2
      ensures ToPauli(Unit(n, p))[2 * k] == (k == q)
      ensures ToPauli(Unit(n, p))[2 * k + 1] == (k < q || (k == q && odd))
    {
      PauliAt(Unit(n, p), k);
      SingleOfUnit(n, p, k + 1);
    }
  }

  lemma {:induction false} CountOfUnit(n: nat, p: nat, j: nat)
    requires p < n && j <= n
    ensures CountFrom(Unit(n, p), j) == Bit(j <= p)
    decreases n - j
  {
    if j < n {
      CountOfUnit(n, p, j + 1);
    }
  }

  lemma {:induction false} OddOfUnit(n: nat, q: nat, odd: bool, k: nat)
    requires n % 2 == 0 && 2 * q < n && 2 * k <= n
    ensures OddModesFrom(Unit(n, 2 * q + Bit(odd)), k) == Bit(odd && k <= q)
    decreases n - 2 * k
  {
    if 2 * k < n {
      OddOfUnit(n, q, odd, k + 1);
    }
  }

  lemma {:induction false} YOfMode(p: Key, q: nat, odd: bool, k: nat)
    requires |p| % 2 == 0 && 2 * q < |p| && 2 * k <= |p|
    requires forall k: nat :: k < |p| / 2 ==> p[2 * k] == (k == q) && p[2 * k + 1] == (k < q || (k == q && odd))
    ensures YFrom(p, k) == Bit(odd && k <= q)
    decreases |p| - 2 * k
  {
    if 2 * k < |p| {
      assert k < |p| / 2;
      YOfMode(p, q, odd, k + 1);
    }
  }

  /** Every single mode is its string itself: no sign is dropped. */
  lemma ModeSign(n: nat, p: nat)
    requires n % 2 == 0 && p < n
    ensures SignExpOf(ToPauli(Unit(n, p))) == 0
  {
    hide ToPauli, ToModes;
    var q, odd := p / 2, p % 2 == 1;
    assert p == 2 * q + Bit(odd);
    ModeString(n, q, odd);
    ModesRoundTrip(Unit(n, p));
    CountOfUnit(n, p, 0);
    OddOfUnit(n, q, odd, 0);
    YOfMode(ToPauli(Unit(n, p)), q, odd, 0);
  }

  // ---- ordered products ---------------------------------------------------------

  /** The product of the modes of `m` at or above `j`, the lowest first. */
  function ModesInOrder(m: Key, j: nat): (r: Phased)
    requires |m| % 2 == 0 && j <= |m|
    ensures |r.key| == |m|
    decreases |m| - j
  {
    if j == |m| then Phased(0, Zero(|m|))
    else if m[j] then Mul(Majorana, Phased(0, Unit(|m|, j)), ModesInOrder(m, j + 1))
    else ModesInOrder(m, j + 1)
  }

  /** The modes of `m` at or above `j`. */
  function KeyAbove(m: Key, j: nat): (r: Key)
    ensures |r| == |m| && forall i :: 0 <= i < |m| ==> r[i] == (i >= j && m[i])
  {
    seq(|m|, i requires 0 <= i < |m| => i >= j && m[i])
  }

  /** The exponent left by bringing a product of `c` distinct modes into Hermitian form. */
  function OrderExp(c: nat): Exp { if c % 4 < 2 then 0 else 3 }

  lemma {:induction false} NoSwaps(m: Key, j: nat, k: nat)
    requires j < |m| && k <= |m|
    ensures SwapsFrom(Unit(|m|, j), KeyAbove(m, j + 1), k) == 0
    ensures k > j ==> CountFrom(KeyAbove(m, j + 1), k) == CountFrom(m, k)
    ensures k <= j ==> CountFrom(KeyAbove(m, j + 1), k) == CountFrom(m, j + 1)
    decreases |m| - k
  {
    if k < |m| {
      NoSwaps(m, j, k + 1);
      CountOfUnit(|m|, j, k + 1);
    }
  }

  /** A lower mode times a product of higher ones. */
  lemma LowestFirst(m: Key, j: nat)
    requires |m| % 2 == 0 && j < |m| && m[j]
    ensures Xor(Unit(|m|, j), KeyAbove(m, j + 1)) == KeyAbove(m, j)
    ensures BasisAlgebra.Plus(OrderExp(CountFrom(m, j + 1)), PhaseExp(Majorana, Unit(|m|, j), KeyAbove(m, j + 1)))
      == OrderExp(CountFrom(m, j))
  {
    hide OrderExp;
    var x, y := Unit(|m|, j), KeyAbove(m, j + 1);
    assert Xor(x, y) == KeyAbove(m, j);
    NoSwaps(m, j, 0);
    CountOfUnit(|m|, j, 0);
    CountAbove(m, j, 0);
    var c := CountFrom(m, j + 1);
    assert CountFrom(m, j) == c + 1;
    OrderNext(c);
  }

  lemma {:induction false} CountAbove(m: Key, j: nat, k: nat)
    requires j <= |m| && k <= |m|
    ensures CountFrom(KeyAbove(m, j), k) == CountFrom(m, if k < j then j else k)
    decreases |m| - k
  {
    if k < |m| {
      CountAbove(m, j, k + 1);
    }
  }

  lemma OrderNext(c: nat)
    ensures BasisAlgebra.Plus(OrderExp(c), (HermiticityExp(1) + HermiticityExp(c) - HermiticityExp(c + 1)) % 4)
      == OrderExp(c + 1)
  {
    var r := c % 4;
    if r == 0 {
    } else if r == 1 {
    } else if r == 2 {
    } else {
    }
  }

  /**
   The product of the modes of a monomial from the lowest up is the monomial, times 1 for a
   length of 0 or 1 modulo 4 and times -i otherwise.
   */
  lemma {:induction false} ProductOfModes(m: Key, j: nat)
    requires |m| % 2 == 0 && j <= |m|
    ensures ModesInOrder(m, j) == Phased(OrderExp(CountFrom(m, j)), KeyAbove(m, j))
    ensures j == 0 ==> KeyAbove(m, j) == m
    decreases |m| - j
  {
    hide PhaseExp, BasisAlgebra.Plus;
    if j == |m| {
      assert KeyAbove(m, j) == Zero(|m|);
    } else {
      ProductOfModes(m, j + 1);
      if m[j] {
        LowestFirst(m, j);
        PlusLaws(0, OrderExp(CountFrom(m, j + 1)), 0);
        PlusNothing(OrderExp(CountFrom(m, j + 1)));
      } else {
        assert KeyAbove(m, j + 1) == KeyAbove(m, j);
      }
    }
    if j == 0 {
      assert KeyAbove(m, 0) == m;
    }
  }

  lemma PlusNothing(e: Exp)
    ensures BasisAlgebra.Plus(0, e) == e && BasisAlgebra.Plus(e, 0) == e
  {
  }

  /** Two different modes in order multiply to -i times their pair. */
  lemma TwoModes(n: nat, p: nat, q: nat)
    requires n % 2 == 0 && p < q < n
    ensures PhaseExp(Majorana, Unit(n, p), Unit(n, q)) == 3
  {
    var m := Xor(Unit(n, p), Unit(n, q));
    assert KeyAbove(m, p + 1) == Unit(n, q);
    LowestFirst(m, p);
    CountAbove(m, p + 1, 0);
    CountOfUnit(n, q, 0);
  }

  /** The product of the strings of the modes of `m` at or above `j`, the lowest mode first. */
  function StringsInOrder(m: Key, j: nat): (r: Phased)
    requires |m| % 2 == 0 && j <= |m|
    ensures |r.key| == |m|
    decreases |m| - j
  {
    if j == |m| then Phased(0, Zero(|m|))
    else if m[j] then Mul(Pauli, Phased(0, ToPauli(Unit(|m|, j))), StringsInOrder(m, j + 1))
    else StringsInOrder(m, j + 1)
  }

  lemma {:induction false} StringsAreModes(m: Key, j: nat)
    requires |m| % 2 == 0 && j <= |m|
    ensures JwMap(StringsInOrder(m, j)) == ModesInOrder(m, j)
    decreases |m| - j
  {
    hide SignExpOf, ToModes, ToPauli, Mul, BasisAlgebra.Plus;
    if j == |m| {
      EmptyString(|m|);
    } else {
      StringsAreModes(m, j + 1);
      if m[j] {
        var x := Phased(0, ToPauli(Unit(|m|, j)));
        ModeSign(|m|, j);
        ModesRoundTrip(Unit(|m|, j));
        PlusNothing(0);
        assert JwMap(x) == Phased(0, Unit(|m|, j));
        JwIsomorphism(x, StringsInOrder(m, j + 1));
      }
    }
  }

  lemma EmptyString(n: nat)
    requires n % 2 == 0
    ensures JwMap(Phased(0, Zero(n))) == Phased(0, Zero(n))
  {
    hide ToModes, SignExpOf, PhaseExp;
    var z := Zero(n);
    XorSelf(z);
    ToModesLinear(z, z);
    XorSelf(ToModes(z));
    JwPhase(z, z);
    PhaseSelf(Pauli, z);
    PhaseSelf(Majorana, z);
    SignIsReal(z);
  }

  /**
   The factor a conversion divides out, from the strings of the modes alone: their product in
   order is the converted string, up to that factor and the one of the Hermitian form.
   */
  lemma DroppedSign(p: Key)
    requires |p| % 2 == 0
    ensures var m := ToModes(p);
      StringsInOrder(m, 0) == Phased(BasisAlgebra.Plus(OrderExp(Count(m)), Neg(SignExpOf(p))), p)
  {
    hide SignExpOf, ToModes, ToPauli, BasisAlgebra.Plus;
    var m := ToModes(p);
    StringsAreModes(m, 0);
    ProductOfModes(m, 0);
    JwIsomorphism(StringsInOrder(m, 0), StringsInOrder(m, 0));
    PauliRoundTrip(p);
  }

  // ---- the matrix of a basis operator -------------------------------------------

  /** The matrix of a string, or of a monomial: its string with the dropped sign put back. */
  function BasisMatrix(kind: BasisKind, key: Key): Matrix
    requires |key| % 2 == 0
  {
    match kind
    case Pauli => StringMatrix(key)
    case Majorana => Scaled(IPow(SignExpOf(ToPauli(key))), StringMatrix(ToPauli(key)))
  }

  lemma PowersOf(n: nat, e: Exp, f: Exp, a: Matrix)
    ensures SameMatrix(n, Scaled(IPow(e), Scaled(IPow(f), a)), Scaled(IPow(BasisAlgebra.Plus(e, f)), a))
    ensures SameMatrix(n, Scaled(IPow(0), a), a)
  {
    hide Times, IPow, BasisAlgebra.Plus;
    IPowPlus(e, f);
    IPowZero();
    forall s: Config, t: Config
      ensures Times(IPow(e), Times(IPow(f), a(s, t))) == Times(Times(IPow(e), IPow(f)), a(s, t))
      ensures Times(ONE, a(s, t)) == a(s, t)
    {
      ComplexLaws(IPow(e), IPow(f), a(s, t));
      ComplexLaws(a(s, t), ZERO, ZERO);
    }
  }

  /** The matrices of two basis operators multiply as their algebra says. */
  lemma BasisMultiply(kind: BasisKind, a: Key, b: Key)
    requires |a| == |b| && |a| % 2 == 0
    ensures var n := |a| / 2;
      SameMatrix(n, MatMul(n, BasisMatrix(kind, a), BasisMatrix(kind, b)),
        Scaled(IPow(PhaseExp(kind, a, b)), BasisMatrix(kind, Xor(a, b))))
  {
    match kind
    case Pauli => StringsMultiply(a, b);
    case Majorana => MonomialsMultiply(a, b);
  }

  lemma MonomialsMultiply(a: Key, b: Key)
    requires |a| == |b| && |a| % 2 == 0
    ensures var n := |a| / 2;
      SameMatrix(n, MatMul(n, BasisMatrix(Majorana, a), BasisMatrix(Majorana, b)),
        Scaled(IPow(PhaseExp(Majorana, a, b)), BasisMatrix(Majorana, Xor(a, b))))
  {
    hide PhaseExp, SignExpOf, ToPauli, ToModes, IPow, Times, MatMul, StringMatrix, BasisAlgebra.Plus;
    var n, ab := |a| / 2, Xor(a, b);
    var (p, q) := (ToPauli(a), ToPauli(b));
    var (sa, sb) := (SignExpOf(p), SignExpOf(q));
    PauliOfProduct(a, b);
    SignedPhases(a, b);
    var (x, y) := (StringMatrix(p), StringMatrix(q));
    StringsMultiply(p, q);
    MatMulScaled(n, IPow(sa), x, Scaled(IPow(sb), y));
    MatMulScaled(n, IPow(sb), x, y);
    PowersOf(n, sb, PhaseExp(Pauli, p, q), StringMatrix(Xor(p, q)));
    PowersOf(n, sa, BasisAlgebra.Plus(sb, PhaseExp(Pauli, p, q)), StringMatrix(Xor(p, q)));
    PowersOf(n, PhaseExp(Majorana, a, b), SignExpOf(ToPauli(ab)), StringMatrix(ToPauli(ab)));
  }

  /** The string of a product of monomials. */
  lemma PauliOfProduct(a: Key, b: Key)
    requires |a| == |b| && |a| % 2 == 0
    ensures ToPauli(Xor(a, b)) == Xor(ToPauli(a), ToPauli(b))
  {
    hide ToPauli, ToModes;
    ModesRoundTrip(a);
    ModesRoundTrip(b);
    ToModesLinear(ToPauli(a), ToPauli(b));
    PauliRoundTrip(Xor(ToPauli(a), ToPauli(b)));
  }

  lemma SignedPhases(a: Key, b: Key)
    requires |a| == |b| && |a| % 2 == 0
    ensures BasisAlgebra.Plus(SignExpOf(ToPauli(a)),
        BasisAlgebra.Plus(SignExpOf(ToPauli(b)), PhaseExp(Pauli, ToPauli(a), ToPauli(b))))
      == BasisAlgebra.Plus(PhaseExp(Majorana, a, b), SignExpOf(ToPauli(Xor(a, b))))
  {
    hide PhaseExp, SignExpOf, ToPauli, ToModes;
    PauliOfProduct(a, b);
    ModesRoundTrip(a);
    ModesRoundTrip(b);
    JwPhase(ToPauli(a), ToPauli(b));
    SignIsReal(ToPauli(a));
    SignIsReal(ToPauli(b));
    SignIsReal(ToPauli(Xor(a, b)));
  }

  function IdentityMatrix(): Matrix { (s: Config, t: Config) => Delta(s, t) }

  /** The empty string and the empty monomial are the identity. */
  lemma BasisIdentity(kind: BasisKind, n: nat)
    ensures SameMatrix(n, BasisMatrix(kind, Zero(2 * n)), IdentityMatrix())
  {
    hide SignExpOf, ToPauli, ToModes, StringEntry, IPow, Times;
    var z := Zero(2 * n);
    EmptyString(2 * n);
    PauliRoundTrip(z);
    PlusNothing(SignExpOf(z));
    PowersOf(n, 0, 0, StringMatrix(z));
    forall s: Config, t: Config | |s| == n && |t| == n ensures StringMatrix(z)(s, t) == Delta(s, t) {
      IdentityEntry(2 * n, s, t);
    }
  }

  /** The trace of a basis operator in a basis state is the diagonal entry of its matrix there. */
  lemma BasisTrace(kind: BasisKind, key: Key, state: seq<bool>, s: Config)
    requires |key| == 2 * |s| && ConfigOf(state, s)
    ensures BasisMatrix(kind, key)(s, s) == Complex(Trace(kind, key, state), 0.0)
  {
    hide SignExpOf, ToPauli, ToModes, StringEntry, PauliTrace, MajoranaTrace, Times, IPow;
    match kind
    case Pauli => TraceIsDiagonal(key, state, s);
    case Majorana =>
      var p := ToPauli(key);
      TraceIsDiagonal(p, state, s);
      JwTrace(p, state);
      ModesRoundTrip(key);
      SignIsReal(p);
      PowerTimes(SignExpOf(p), Complex(PauliTrace(p, state), 0.0));
      Negated(MajoranaTrace(key, state));
  }

  lemma Negated(x: real)
    ensures -1.0 * x == -x && 1.0 * x == x
  {
  }

  /** Converting a term keeps the operator, with the coefficient a conversion returns. */
  lemma ConversionKeepsOperator(p: Key, coeff: real)
    requires |p| % 2 == 0
    ensures SameMatrix(|p| / 2, Scaled(Complex(coeff, 0.0), StringMatrix(p)),
      Scaled(Complex(coeff * RealPart(SignExpOf(p)), 0.0), BasisMatrix(Majorana, ToModes(p))))
  {
    hide SignExpOf, ToPauli, ToModes, StringMatrix, Times, IPow, BasisAlgebra.Plus;
    var e, n := SignExpOf(p), |p| / 2;
    PauliRoundTrip(p);
    SignIsReal(p);
    PowersOf(n, e, e, StringMatrix(p));
    TwiceReal(e);
    var m := BasisMatrix(Majorana, ToModes(p));
    var value := coeff * RealPart(e);
    assert value == if e == 0 then coeff else -coeff;
    forall s: Config, t: Config | |s| == n && |t| == n
      ensures Times(Complex(coeff, 0.0), StringMatrix(p)(s, t)) == Times(Complex(value, 0.0), m(s, t))
    {
      assert StringMatrix(p)(s, t) == Times(IPow(e), m(s, t));
      ComplexLaws(Complex(coeff, 0.0), IPow(e), m(s, t));
      PowerTimes(e, Complex(coeff, 0.0));
      ComplexLaws(Complex(coeff, 0.0), IPow(e), ZERO);
    }
  }

  lemma TwiceReal(e: Exp)
    requires e == 0 || e == 2
    ensures BasisAlgebra.Plus(e, e) == 0
  {
  }

  /** The matrix product of the modes of `m` at or above `j`, the lowest mode leftmost. */
  function ModeProduct(m: Key, j: nat): Matrix
    requires |m| % 2 == 0 && j <= |m|
    decreases |m| - j
  {
    if j == |m| then IdentityMatrix()
    else if m[j] then MatMul(|m| / 2, StringMatrix(ToPauli(Unit(|m|, j))), ModeProduct(m, j + 1))
    else ModeProduct(m, j + 1)
  }

  lemma {:induction false} ModeProductIs(m: Key, j: nat)
    requires |m| % 2 == 0 && j <= |m|
    ensures SameMatrix(|m| / 2, ModeProduct(m, j),
      Scaled(IPow(OrderExp(CountFrom(m, j))), BasisMatrix(Majorana, KeyAbove(m, j))))
    decreases |m| - j
  {
    hide SignExpOf, ToPauli, ToModes, PhaseExp, MatMul, Times, IPow, BasisAlgebra.Plus, OrderExp, BasisMatrix,
      SameMatrix;
    var n := |m| / 2;
    if j == |m| {
      assert KeyAbove(m, j) == Zero(2 * n);
      ModeProductEnd(n);
    } else {
      ModeProductIs(m, j + 1);
      if m[j] {
        ModeProductStep(m, j, ModeProduct(m, j + 1));
      } else {
        assert KeyAbove(m, j + 1) == KeyAbove(m, j);
      }
    }
  }

  lemma ModeProductEnd(n: nat)
    ensures SameMatrix(n, IdentityMatrix(), Scaled(IPow(OrderExp(0)), BasisMatrix(Majorana, Zero(2 * n))))
  {
    hide BasisMatrix, Times, IPow;
    BasisIdentity(Majorana, n);
    PowersOf(n, 0, 0, BasisMatrix(Majorana, Zero(2 * n)));
  }

  lemma ModeProductStep(m: Key, j: nat, rest: Matrix)
    requires |m| % 2 == 0 && j < |m| && m[j]
    requires SameMatrix(|m| / 2, rest,
      Scaled(IPow(OrderExp(CountFrom(m, j + 1))), BasisMatrix(Majorana, KeyAbove(m, j + 1))))
    ensures SameMatrix(|m| / 2, MatMul(|m| / 2, StringMatrix(ToPauli(Unit(|m|, j))), rest),
      Scaled(IPow(OrderExp(CountFrom(m, j))), BasisMatrix(Majorana, KeyAbove(m, j))))
  {
    hide SignExpOf, ToPauli, PhaseExp, MatMul, Times, IPow, BasisAlgebra.Plus, OrderExp, StringMatrix;
    var n, u, c := |m| / 2, Unit(|m|, j), OrderExp(CountFrom(m, j + 1));
    ModeSign(|m|, j);
    PowersOf(n, 0, 0, StringMatrix(ToPauli(u)));
    LowestFirst(m, j);
    BasisMultiply(Majorana, u, KeyAbove(m, j + 1));
    hide BasisMatrix;
    var above := BasisMatrix(Majorana, KeyAbove(m, j + 1));
    MatMulSame(n, StringMatrix(ToPauli(u)), rest, BasisMatrix(Majorana, u), Scaled(IPow(c), above));
    MatMulScaled(n, IPow(c), BasisMatrix(Majorana, u), above);
    PowersOf(n, c, PhaseExp(Majorana, u, KeyAbove(m, j + 1)), BasisMatrix(Majorana, KeyAbove(m, j)));
  }

  /**
   The matrix of a monomial is the product of the matrices of its modes in order, times i for
   a length of 2 or 3 modulo 4.
   */
  lemma {:induction false} MonomialMatrix(m: Key)
    requires |m| % 2 == 0
    ensures SameMatrix(|m| / 2, BasisMatrix(Majorana, m),
      Scaled(IPow(if Count(m) % 4 < 2 then 0 else 1), ModeProduct(m, 0)))
  {
    hide MatMul, Times, IPow, BasisMatrix, ModeProduct, BasisAlgebra.Plus;
    var n, e, h: Exp := |m| / 2, OrderExp(Count(m)), if Count(m) % 4 < 2 then 0 else 1;
    assert KeyAbove(m, 0) == m;
    ModeProductIs(m, 0);
    PowersOf(n, h, e, BasisMatrix(Majorana, m));
    assert BasisAlgebra.Plus(h, e) == 0 by { OrderUndone(Count(m)); }
  }

  lemma OrderUndone(c: nat)
    ensures BasisAlgebra.Plus(if c % 4 < 2 then 0 else 1, OrderExp(c)) == 0
  {
  }

  // ---- letters ------------------------------------------------------------------

  /** The matrix a letter of a text stands for. */
  function CharMatrix(c: char): Matrix2
  {
    if c == 'X' then MatrixOf(X) else if c == 'Y' then MatrixOf(Y) else if c == 'Z' then MatrixOf(Z)
    else (i: nat, j: nat) => if i == j then ONE else ZERO
  }

  /** A text spells the product of its letters, the last letter on unit 0. */
  lemma TextMatrix(s: string, q: nat)
    requires IsPauliText(s) && q < |s|
    ensures UnitMatrix(KeyOf(s)[2 * q], KeyOf(s)[2 * q + 1]) == CharMatrix(s[|s| - 1 - q])
  {
    hide KeyOf, MatrixOf;
    KeyAt(s, q);
  }

  // ---- traces of monomials ------------------------------------------------------

  /** The pair of unit q alone has trace 1 where the unit is occupied and -1 where it is not. */
  lemma PairTrace(n: nat, q: nat, state: seq<bool>)
    requires n % 2 == 0 && 2 * q < n
    ensures MajoranaTrace(Xor(Unit(n, 2 * q), Unit(n, 2 * q + 1)), state)
      == if q < |state| && state[q] then 1.0 else -1.0
  {
    PairTraceFrom(n, q, state, 0);
  }

  lemma {:induction false} PairTraceFrom(n: nat, q: nat, state: seq<bool>, k: nat)
    requires n % 2 == 0 && 2 * q < n && 2 * k <= n
    ensures var m := Xor(Unit(n, 2 * q), Unit(n, 2 * q + 1));
      PairedFrom(m, k) && PairsFrom(m, k) == Bit(k <= q)
        && ProductFrom(m, state, k) == if k <= q && !(q < |state| && state[q]) then -1.0 else 1.0
    decreases n - 2 * k
  {
    if 2 * k < n {
      PairTraceFrom(n, q, state, k + 1);
    }
  }

  /** A monomial with half a pair has trace 0 in every basis state. */
  lemma HalfPairTrace(m: Key, state: seq<bool>, q: nat)
    requires |m| % 2 == 0 && 2 * q < |m| && m[2 * q] != m[2 * q + 1]
    ensures MajoranaTrace(m, state) == 0.0
  {
    HalfPairFrom(m, q, 0);
  }

  lemma {:induction false} HalfPairFrom(m: Key, q: nat, k: nat)
    requires |m| % 2 == 0 && 2 * q < |m| && m[2 * q] != m[2 * q + 1] && k <= q
    ensures !PairedFrom(m, k)
    decreases q - k
  {
    if k < q {
      HalfPairFrom(m, q, k + 1);
    }
  }

  /** Occupying unit `q` negates the trace exactly if the monomial has the pair of that unit. */
  lemma OccupyFlipsPair(m: Key, state: seq<bool>, q: nat)
    requires |m| % 2 == 0 && q < |state| && !state[q]
    ensures MajoranaTrace(m, state[q := true])
      == if 2 * q < |m| && m[2 * q] then -MajoranaTrace(m, state) else MajoranaTrace(m, state)
  {
    PairFlipFrom(m, state, q, 0);
    Negated(ProductFrom(m, state, 0));
  }

  lemma {:induction false} PairFlipFrom(m: Key, state: seq<bool>, q: nat, k: nat)
    requires |m| % 2 == 0 && 2 * k <= |m| && q < |state| && !state[q]
    ensures ProductFrom(m, state[q := true], k)
      == if k <= q && 2 * q < |m| && m[2 * q] then -ProductFrom(m, state, k) else ProductFrom(m, state, k)
    decreases |m| - 2 * k
  {
    if 2 * k < |m| {
      PairFlipFrom(m, state, q, k + 1);
    }
  }
}
