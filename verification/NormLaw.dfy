/**
 The sum of squared coefficients: what a gate does to it, exactly when a gate can raise it, and
 what follows for whole runs.
 */
module NormLaws {
  import opened Wrappers
  import opened BasisStrings
  import opened BasisAlgebra
  import opened TableauRows
  import opened Frames
  import opened JordanWigner
  import opened FiniteSums
  import opened PairRule
  import opened Propagation
  import opened RunLaws

  // ---- the norm -----------------------------------------------------------------

  function Sq(x: real): real { x * x }

  function Square(f: Key -> real): Key -> real { (k: Key) => Sq(f(k)) }

  /** The sum of squared coefficients. */
  ghost function NormSq(m: Terms): real { Sum(m.Keys, Square(CoefOf(m))) }

  /** `k` and its branch are both among the keys, `k` within the weight bound and the branch over it. */
  predicate StraddledAt(kind: BasisKind, t: Turn, cut: Cutoff, keys: set<Key>, k: Key)
    requires |t.gen| % 2 == 0
  {
    && k in keys && |k| == |t.gen| && Anticommutes(kind, t.gen, k) && Partner(t, k) in keys
    && AdmitsKey(kind, cut, k) && !AdmitsKey(kind, cut, Partner(t, k))
  }

  /** Some coefficients on these keys have a sum of squares that the gate raises. */
  ghost predicate CanGrow(kind: BasisKind, t: Turn, cut: Cutoff, keys: set<Key>)
    requires |t.gen| % 2 == 0
  {
    t.cos != 0.0 && t.sin != 0.0 && exists k :: StraddledAt(kind, t, cut, keys, k)
  }

  /** A set of keys closed under taking branches. */
  ghost predicate Closed(kind: BasisKind, t: Turn, u: set<Key>)
    requires |t.gen| % 2 == 0
  {
    forall k :: k in u ==> |k| == |t.gen| && (Anticommutes(kind, t.gen, k) ==> Partner(t, k) in u)
  }

  lemma RotationKeepsSquares(a: real, b: real, c: real, s: real, e: real)
    requires c * c + s * s == 1.0 && e * e == 1.0
    ensures Sq(c * a + b * s * e) + Sq(c * b + a * s * -e) == Sq(a) + Sq(b)
  {
    var x, y := c * a, b * s * e;
    var z, w := c * b, a * s * -e;
    assert x * y + z * w == 0.0 by {
      assert x * y == (a * b) * (c * s) * e;
      assert z * w == -((a * b) * (c * s) * e);
    }
    assert y * y == (b * b) * (s * s) by { assert y * y == (b * b) * (s * s) * (e * e); }
    assert w * w == (a * a) * (s * s) by { assert w * w == (a * a) * (s * s) * (e * e); }
    assert x * x == (a * a) * (c * c);
    assert z * z == (b * b) * (c * c);
    assert (a * a) * (c * c) + (a * a) * (s * s) == (a * a) * (c * c + s * s);
    assert (b * b) * (c * c) + (b * b) * (s * s) == (b * b) * (c * c + s * s);
  }

  lemma DampingShrinks(a: real, c: real, s: real)
    requires c * c + s * s == 1.0
    ensures Sq(c * a) <= Sq(a)
    ensures Sq(c * 0.0) == 0.0 && Sq(0.0) == 0.0 && c * 0.0 == 0.0
  {
    assert (c * a) * (c * a) == (a * a) * (c * c);
    assert (a * a) * (c * c) + (a * a) * (s * s) == (a * a) * (c * c + s * s);
    assert (a * a) * (s * s) == (a * s) * (a * s);
  }

  lemma LoneRowSquares(a: real, c: real, s: real, e: real)
    requires c * c + s * s == 1.0 && e * e == 1.0
    ensures Sq(c * a) + Sq(a * s * e) == Sq(a)
    ensures c * 0.0 == 0.0 && 0.0 * s * -e == 0.0 && Sq(0.0) == 0.0
  {
    assert (c * a) * (c * a) == (a * a) * (c * c);
    assert (a * s * e) * (a * s * e) == (a * a) * (s * s) * (e * e);
    assert (a * a) * (c * c) + (a * a) * (s * s) == (a * a) * (c * c + s * s);
  }

  /** The two coefficients of a pair after the gate, from the two before. */
  lemma PairSquares(kind: BasisKind, t: Turn, cut: Cutoff, m: Terms, k: Key)
    requires TurnOf(t, |k|) && TermsOf(m, |k|) && !CanGrow(kind, t, cut, m.Keys) && Anticommutes(kind, t.gen, k)
    ensures var f := Square(CoefOf(m));
      var h := Square(CoefOf(PairStep(kind, t, cut, m)));
      var q := Partner(t, k);
      h(k) + h(q) <= f(k) + f(q) && (Lossless(cut) ==> h(k) + h(q) == f(k) + f(q))
  {
    hide Anticommutes, Xor, StatusOf, TurnIm, PairStep, Arrives, Coef, Sq, CanGrow, PairLaw;
    var q := Partner(t, k);
    var r := PairStep(kind, t, cut, m);
    OppositeBranches(kind, t, k);
    PairArrivals(kind, t, cut, m, k);
    PairValues(kind, t, cut, m, k);
    PairArithmetic(Coef(m, k), Coef(m, q), t.cos, t.sin, TurnIm(kind, t, k),
      Arrives(kind, t, cut, m, k), Arrives(kind, t, cut, m, q), Coef(r, k), Coef(r, q));
  }

  /** What a pair with coefficients `a` and `b` becomes, given which branches arrive. */
  predicate PairLaw(a: real, b: real, c: real, s: real, e: real, x: bool, y: bool, a': real, b': real)
  {
    a' == c * a + (if x then b * s * e else 0.0) && b' == c * b + (if y then a * s * -e else 0.0)
  }

  lemma PairValues(kind: BasisKind, t: Turn, cut: Cutoff, m: Terms, k: Key)
    requires TurnOf(t, |k|) && TermsOf(m, |k|) && Anticommutes(kind, t.gen, k)
    ensures var q := Partner(t, k);
      var r := PairStep(kind, t, cut, m);
      PairLaw(Coef(m, k), Coef(m, q), t.cos, t.sin, TurnIm(kind, t, k), Arrives(kind, t, cut, m, k),
        Arrives(kind, t, cut, m, q),
              Coef(r, k), Coef(r, q))
  {
    hide Anticommutes, Xor, StatusOf, TurnIm, PairStep, Arrives, Coef, Damp, Branch, PairLaw;
    var q := Partner(t, k);
    PartnerTwice(t, k);
    PartnerAnticommutes(kind, t, k);
    OppositeBranches(kind, t, k);
    PairStepAt(kind, t, cut, m, k);
    PairStepAt(kind, t, cut, m, q);
    var r := PairStep(kind, t, cut, m);
    PairLawHolds(kind, t, k, Coef(m, k), Coef(m, q), Arrives(kind, t, cut, m, k), Arrives(kind, t, cut, m, q),
      Coef(r, k), Coef(r, q));
  }

  lemma PairLawHolds(kind: BasisKind, t: Turn, k: Key, a: real, b: real, x: bool, y: bool, a': real, b': real)
    requires |k| == |t.gen| && |k| % 2 == 0 && TurnIm(kind, t, Partner(t, k)) == -TurnIm(kind, t, k)
    requires a' == t.cos * a + (if x then Branch(kind, t, Partner(t, k), b) else 0.0)
    requires b' == t.cos * b + (if y then Branch(kind, t, k, a) else 0.0)
    ensures PairLaw(a, b, t.cos, t.sin, TurnIm(kind, t, k), x, y, a', b')
  {
    hide TurnIm, Xor;
  }

  /** A pair is rotated as a whole, left alone as a whole, or has only one live row. */
  lemma PairArrivals(kind: BasisKind, t: Turn, cut: Cutoff, m: Terms, k: Key)
    requires TurnOf(t, |k|) && TermsOf(m, |k|) && !CanGrow(kind, t, cut, m.Keys) && Anticommutes(kind, t.gen, k)
    ensures var q := Partner(t, k);
      var x := Arrives(kind, t, cut, m, k);
      var y := Arrives(kind, t, cut, m, q);
      && (x == y || Coef(m, k) == 0.0 || Coef(m, q) == 0.0 || t.cos == 0.0 || t.sin == 0.0)
      && (Lossless(cut) ==> (x || Coef(m, q) == 0.0) && (y || Coef(m, k) == 0.0))
  {
    hide Anticommutes, Xor, Branch, AdmitsKey;
    var q := Partner(t, k);
    PartnerTwice(t, k);
    PartnerAnticommutes(kind, t, k);
    if Lossless(cut) {
      LosslessAlwaysEmits(kind, t, cut, k, Coef(m, k));
      LosslessAlwaysEmits(kind, t, cut, q, Coef(m, q));
    }
    if k in m && q in m && t.cos != 0.0 && t.sin != 0.0 {
      assert !StraddledAt(kind, t, cut, m.Keys, k) && !StraddledAt(kind, t, cut, m.Keys, q);
      EvenPairArrives(kind, t, cut, m, k);
    }
  }

  /** Both branches of a live pair arrive, or neither: its keys are on the same side of the bound. */
  lemma EvenPairArrives(kind: BasisKind, t: Turn, cut: Cutoff, m: Terms, k: Key)
    requires TurnOf(t, |k|) && TermsOf(m, |k|) && Anticommutes(kind, t.gen, k) && k in m && Partner(t, k) in m
    requires AdmitsKey(kind, cut, k) == AdmitsKey(kind, cut, Partner(t, k))
    ensures Arrives(kind, t, cut, m, k) == Arrives(kind, t, cut, m, Partner(t, k))
  {
    hide Anticommutes, Xor, Branch, AdmitsChild, AdmitsKey, Declines;
    PartnerTwice(t, k);
    PartnerAnticommutes(kind, t, k);
  }

  lemma PairArithmetic(a: real, b: real, c: real, s: real, e: real, x: bool, y: bool, a': real, b': real)
    requires c * c + s * s == 1.0 && (e == 1.0 || e == -1.0)
    requires x == y || a == 0.0 || b == 0.0 || c == 0.0 || s == 0.0
    requires PairLaw(a, b, c, s, e, x, y, a', b')
    ensures Sq(a') + Sq(b') <= Sq(a) + Sq(b)
    ensures (x || b == 0.0) && (y || a == 0.0) ==> Sq(a') + Sq(b') == Sq(a) + Sq(b)
  {
    hide Sq;
    assert e * e == 1.0;
    if x && y {
      RotationKeepsSquares(a, b, c, s, e);
    } else if !x && !y {
      DampingShrinks(a, c, s);
      DampingShrinks(b, c, s);
    } else if a == 0.0 {
      LoneRowSquares(b, c, s, e);
      DampingShrinks(b, c, s);
    } else if b != 0.0 {
      OneSided(a, b, c, s, e);
    } else {
      assert c * b == 0.0 && b * s * e == 0.0;
      var f := -e;
      LoneRowSquares(a, c, s, f);
      DampingShrinks(a, c, s);
      assert a' == c * a;
      assert b' == if y then a * s * f else 0.0;
    }
  }

  /** With cosine 0 or sine 0 one branch alone adds nothing either. */
  lemma OneSided(a: real, b: real, c: real, s: real, e: real)
    requires c * c + s * s == 1.0 && e * e == 1.0 && (c == 0.0 || s == 0.0)
    ensures Sq(c * a + b * s * e) + Sq(c * b) <= Sq(a) + Sq(b)
    ensures Sq(c * a) + Sq(c * b + a * s * -e) <= Sq(a) + Sq(b)
    ensures Sq(c * a + 0.0) == Sq(c * a) && Sq(c * b + 0.0) == Sq(c * b)
  {
    if c == 0.0 {
      assert (b * s * e) * (b * s * e) == (b * b) * (s * s) * (e * e);
      assert (a * s * -e) * (a * s * -e) == (a * a) * (s * s) * (e * e);
      assert c * a == 0.0 && c * b == 0.0;
    } else {
      assert b * s * e == 0.0 && a * s * -e == 0.0;
      assert (c * a) * (c * a) == (a * a) * (c * c);
      assert (c * b) * (c * b) == (b * b) * (c * c);
    }
  }

  lemma {:induction false} ClosedSquares(kind: BasisKind, t: Turn, cut: Cutoff, m: Terms, u: set<Key>)
    requires TurnOf(t, |t.gen|) && TermsOf(m, |t.gen|) && !CanGrow(kind, t, cut, m.Keys) && Closed(kind, t, u)
    ensures Sum(u, Square(CoefOf(PairStep(kind, t, cut, m)))) <= Sum(u, Square(CoefOf(m)))
    ensures Lossless(cut) ==> Sum(u, Square(CoefOf(PairStep(kind, t, cut, m)))) == Sum(u, Square(CoefOf(m)))
    decreases |u|
  {
    hide Anticommutes, Xor, PairStep, Square, CanGrow;
    var f, h := Square(CoefOf(m)), Square(CoefOf(PairStep(kind, t, cut, m)));
    if u != {} {
      var k :| k in u;
      SumRemove(u, f, k);
      SumRemove(u, h, k);
      PartnerTwice(t, k);
      PartnerAnticommutes(kind, t, k);
      if Anticommutes(kind, t.gen, k) {
        var q := Partner(t, k);
        PartnerDiffers(kind, t, k);
        SumRemove(u - {k}, f, q);
        SumRemove(u - {k}, h, q);
        PairSquares(kind, t, cut, m, k);
        ClosedWithout(kind, t, u, k, q);
        ClosedSquares(kind, t, cut, m, u - {k} - {q});
      } else {
        CommutingUntouched(kind, t, cut, m, k);
        ClosedWithout(kind, t, u, k, k);
        assert u - {k} - {k} == u - {k};
        ClosedSquares(kind, t, cut, m, u - {k});
      }
    }
  }

  lemma PartnerDiffers(kind: BasisKind, t: Turn, k: Key)
    requires |k| == |t.gen| && |k| % 2 == 0 && Anticommutes(kind, t.gen, k)
    ensures Partner(t, k) != k
  {
    if Partner(t, k) == k {
      XorCancel(k, t.gen);
      assert t.gen == Zero(|k|);
      PhaseZero(kind, k);
      AnticommutesIsImaginary(kind, t.gen, k);
    }
  }

  lemma ClosedWithout(kind: BasisKind, t: Turn, u: set<Key>, k: Key, q: Key)
    requires |t.gen| % 2 == 0 && Closed(kind, t, u) && k in u && q in u
    requires if Anticommutes(kind, t.gen, k) then q == Partner(t, k) else q == k
    ensures Closed(kind, t, u - {k} - {q})
  {
    hide Anticommutes, Xor;
    forall x | x in u - {k} - {q} && Anticommutes(kind, t.gen, x) ensures Partner(t, x) in u - {k} - {q} {
      PartnerTwice(t, x);
      PartnerTwice(t, k);
      PartnerAnticommutes(kind, t, x);
    }
  }

  lemma CommutingUntouched(kind: BasisKind, t: Turn, cut: Cutoff, m: Terms, k: Key)
    requires |t.gen| % 2 == 0 && TermsOf(m, |t.gen|) && |k| == |t.gen| && !Anticommutes(kind, t.gen, k)
    ensures Square(CoefOf(PairStep(kind, t, cut, m)))(k) == Square(CoefOf(m))(k)
  {
    hide Anticommutes, Xor;
    PairStepAt(kind, t, cut, m, k);
    PartnerAnticommutes(kind, t, k);
  }

  /** Every key a gate can touch. */
  function Touched(kind: BasisKind, t: Turn, m: Terms): set<Key>
    requires |t.gen| % 2 == 0 && TermsOf(m, |t.gen|)
  {
    m.Keys + set p | p in m && Anticommutes(kind, t.gen, p) :: Partner(t, p)
  }

  lemma TouchedIsClosed(kind: BasisKind, t: Turn, cut: Cutoff, m: Terms)
    requires |t.gen| % 2 == 0 && TermsOf(m, |t.gen|)
    ensures Closed(kind, t, Touched(kind, t, m))
    ensures PairStep(kind, t, cut, m).Keys <= Touched(kind, t, m)
  {
    hide Anticommutes, Xor, StatusOf;
    forall k | k in Touched(kind, t, m) && Anticommutes(kind, t.gen, k) ensures Partner(t, k) in Touched(kind, t, m) {
      PartnerTwice(t, k);
      if k !in m {
        var p :| p in m && Anticommutes(kind, t.gen, p) && Partner(t, p) == k;
        PartnerTwice(t, p);
      }
    }
  }

  /**
   A gate that rotates pairs never increases the norm, whatever the magnitude cutoff or plugin,
   as long as no live pair straddles the weight bound, and keeps it exactly without truncation.
   */
  lemma PairStepNorm(kind: BasisKind, t: Turn, cut: Cutoff, m: Terms)
    requires TurnOf(t, |t.gen|) && TermsOf(m, |t.gen|) && !CanGrow(kind, t, cut, m.Keys)
    ensures NormSq(PairStep(kind, t, cut, m)) <= NormSq(m)
    ensures Lossless(cut) ==> NormSq(PairStep(kind, t, cut, m)) == NormSq(m)
  {
    hide Anticommutes, Xor, PairStep, Touched, CanGrow, Closed;
    var u, r := Touched(kind, t, m), PairStep(kind, t, cut, m);
    TouchedIsClosed(kind, t, cut, m);
    ClosedSquares(kind, t, cut, m, u);
    assert m.Keys <= u by { TouchedHasLive(kind, t, m); }
    SumExtend(m.Keys, u, Square(CoefOf(m)));
    SumExtend(r.Keys, u, Square(CoefOf(r)));
  }

  lemma TouchedHasLive(kind: BasisKind, t: Turn, m: Terms)
    requires |t.gen| % 2 == 0 && TermsOf(m, |t.gen|)
    ensures m.Keys <= Touched(kind, t, m)
  {
  }

  lemma ScaleStepNorm(kind: BasisKind, g: Key, c: real, m: Terms)
    requires |g| % 2 == 0 && TermsOf(m, |g|) && c * c == 1.0
    ensures NormSq(ScaleStep(kind, g, c, m)) == NormSq(m)
  {
    hide Anticommutes;
    var r := ScaleStep(kind, g, c, m);
    forall k | k in m.Keys ensures Square(CoefOf(r))(k) == Square(CoefOf(m))(k) {
      assert (m[k] * c) * (m[k] * c) == (m[k] * m[k]) * (c * c);
    }
    assert r.Keys == m.Keys;
    SumSame(m.Keys, Square(CoefOf(r)), Square(CoefOf(m)));
  }

  // ---- exactly when a gate can raise the norm -----------------------------------

  /** The magnitude the branches have to reach. */
  function Hurdle(cut: Cutoff): (r: real)
    ensures r > 0.0 && (cut.minCoeff.Some? ==> r >= cut.minCoeff.value)
  {
    if cut.minCoeff.Some? && cut.minCoeff.value > 0.0 then cut.minCoeff.value else 1.0
  }

  /** Large enough for every branch of the example to reach it. */
  function Large(cut: Cutoff, c: real, s: real): real
    requires c != 0.0 && s != 0.0
  {
    SquarePositive(c);
    SquarePositive(s);
    PositiveProduct(Sq(c), Sq(s));
    Hurdle(cut) / (Sq(c) * Sq(s))
  }

  lemma UnitParts(c: real, s: real)
    requires c * c + s * s == 1.0 && c != 0.0 && s != 0.0
    ensures 0.0 < Sq(c) < 1.0 && 0.0 < Sq(s) < 1.0
  {
    SquarePositive(c);
    SquarePositive(s);
  }

  lemma SquarePositive(x: real)
    requires x != 0.0
    ensures Sq(x) > 0.0
  {
    hide Sq, Multiple;
    PositiveMultiple(Abs(x), Abs(x));
    SquareIsMultiple(Abs(x));
    NegatedSquare(x);
  }

  lemma PositiveMultiple(x: real, y: real)
    requires x > 0.0 && y > 0.0
    ensures Multiple(x, y) > 0.0
  {
  }

  lemma SquareIsMultiple(x: real)
    ensures Sq(x) == Multiple(x, x)
  {
  }

  lemma PositiveProduct(x: real, y: real)
    requires x > 0.0 && y > 0.0
    ensures x * y > 0.0
  {
  }

  lemma NegatedSquare(x: real)
    ensures Sq(-x) == Sq(x) == Sq(Abs(x))
  {
  }

  lemma Quotient(m: real, p: real, r: real)
    requires 0.0 < p < 1.0 && 0.0 < r < 1.0 && m > 0.0
    ensures p * r > 0.0 && var big := m / (p * r); big * p * r == m && big * r >= m && big >= m
  {
    var d := p * r;
    var big := m / d;
    assert big * d == m;
    assert big * p * r == big * d;
    assert big * r - m == big * r * (1.0 - p);
    assert big - big * r == big * (1.0 - r);
  }

  lemma AbsAbove(x: real, m: real)
    requires m > 0.0 && Sq(x) >= Sq(m)
    ensures Abs(x) >= m
  {
    var y := Abs(x);
    NegatedSquare(x);
    if y < m {
      PositiveProduct(m - y, m + y);
      DifferenceOfSquares(m, y);
    }
  }

  lemma DifferenceOfSquares(x: real, y: real)
    ensures (x - y) * (x + y) == Sq(x) - Sq(y)
  {
  }

  lemma LargeIs(cut: Cutoff, c: real, s: real)
    requires c * c + s * s == 1.0 && c != 0.0 && s != 0.0
    ensures var big, m := Large(cut, c, s), Hurdle(cut);
      && big >= m && big * Sq(s) >= m && big * Sq(c) * Sq(s) == m
      && 0.0 < Sq(c) < 1.0 && 0.0 < Sq(s) < 1.0 && Sq(c) + Sq(s) == 1.0
  {
    UnitParts(c, s);
    Quotient(Hurdle(cut), Sq(c), Sq(s));
    assert Sq(c) + Sq(s) == 1.0;
  }

  /** Every branch of the example reaches the hurdle. */
  lemma LargeClears(cut: Cutoff, c: real, s: real, u: real, big: real)
    requires c * c + s * s == 1.0 && c != 0.0 && s != 0.0 && (u == s || u == -s) && big == Large(cut, c, s)
    ensures
      && big > 0.0 && 0.0 < Sq(c) < 1.0 && 0.0 < Sq(s) < 1.0 && Sq(c) + Sq(s) == 1.0
      && Abs(Multiple(Multiple(big, c), s)) >= Hurdle(cut) && Abs(Multiple(Multiple(big, u), s)) >= Hurdle(cut)
      && Abs(Multiple(Multiple(big, u), u)) >= Hurdle(cut)
  {
    hide Sq, Large, Abs, Hurdle, Multiple;
    LargeIs(cut, c, s);
    var m := Hurdle(cut);
    SignedSquares(big, u, s);
    AbsIs(Multiple(Multiple(big, u), u), big * Sq(s));
    AbsIs(Multiple(Multiple(big, u), s), big * Sq(s));
    SquareOfThree(big, c, s);
    AtLeastSquare(big, m);
    AbsAbove(Multiple(Multiple(big, c), s), m);
  }

  lemma AbsIs(x: real, y: real)
    requires y >= 0.0 && (x == y || x == -y)
    ensures Abs(x) == y
  {
  }

  lemma SignedSquares(big: real, u: real, s: real)
    requires u == s || u == -s
    ensures Multiple(Multiple(big, u), u) == big * Sq(s)
    ensures Multiple(Multiple(big, u), s) == big * Sq(s) || Multiple(Multiple(big, u), s) == -(big * Sq(s))
  {
    assert big * s * s == big * (s * s);
    if u == -s {
      assert big * u * u == big * (s * s);
      assert big * u * s == -(big * (s * s));
    }
  }

  lemma SquareOfThree(big: real, c: real, s: real)
    ensures Sq(Multiple(Multiple(big, c), s)) == big * (big * Sq(c) * Sq(s))
  {
    assert (big * c * s) * (big * c * s) == big * (big * (c * c) * (s * s));
  }

  lemma AtLeastSquare(big: real, m: real)
    requires big >= m > 0.0
    ensures big * m >= Sq(m)
  {
  }

  /**
   The example: `k` within the bound and its branch over it, with coefficients in the ratio of
   the cosine to the sine; every other key has coefficient 0.
   */
  function Example(kind: BasisKind, t: Turn, cut: Cutoff, keys: set<Key>, k: Key): (m: Terms)
    requires |k| == |t.gen| && |k| % 2 == 0 && t.cos != 0.0 && t.sin != 0.0
    ensures m.Keys == keys
  {
    var q, big := Partner(t, k), Large(cut, t.cos, t.sin);
    map x | x in keys ::
      if x == k then Multiple(big, t.cos) else if x == q then Multiple(big, SineInto(kind, t, q)) else 0.0
  }

  function Multiple(x: real, y: real): real { x * y }

  /** The factor of the sine branch of `q`, sign included. */
  function SineInto(kind: BasisKind, t: Turn, q: Key): real
    requires |q| == |t.gen| && |q| % 2 == 0
  {
    t.sin * -TurnIm(kind, t, q)
  }

  lemma SineIntoIs(kind: BasisKind, t: Turn, q: Key)
    requires TurnOf(t, |q|) && Anticommutes(kind, t.gen, q)
    ensures SineInto(kind, t, q) == t.sin || SineInto(kind, t, q) == -t.sin
    ensures forall a: real {:trigger Branch(kind, t, q, a)} :: Branch(kind, t, q, a) == a * SineInto(kind, t, q)
  {
    hide Anticommutes, TurnIm;
    OppositeBranches(kind, t, q);
    forall a: real ensures Branch(kind, t, q, a) == a * SineInto(kind, t, q) {
      Regrouped(a, t.sin, -TurnIm(kind, t, q));
    }
  }

  lemma Regrouped(a: real, s: real, e: real)
    ensures a * s * e == a * (s * e)
  {
  }

  /** The branch over the bound is refused, the branch back arrives. */
  lemma {:induction false} ExampleArrives(kind: BasisKind, t: Turn, cut: Cutoff, keys: set<Key>, k: Key)
    requires TurnOf(t, |t.gen|) && t.cos != 0.0 && t.sin != 0.0 && StraddledAt(kind, t, cut, keys, k)
    requires forall x :: x in keys ==> |x| == |t.gen|
    ensures var m, q := Example(kind, t, cut, keys, k), Partner(t, k);
      Arrives(kind, t, cut, m, k) && !Arrives(kind, t, cut, m, q)
  {
    hide Anticommutes, Xor, TurnIm, AdmitsKey, Declines, AdmitsChild, Branch, Example;
    var m, q := Example(kind, t, cut, keys, k), Partner(t, k);
    PartnerTwice(t, k);
    PartnerDiffers(kind, t, k);
    PartnerAnticommutes(kind, t, k);
    KeyOverBound(kind, cut, q);
    ExampleClears(kind, t, cut, keys, k);
    assert Has(kind, t, cut, m, q, Emit) && Has(kind, t, cut, m, k, Dropped);
  }

  /** No magnitude test stops a branch of the example. */
  lemma {:induction false} ExampleClears(kind: BasisKind, t: Turn, cut: Cutoff, keys: set<Key>, k: Key)
    requires TurnOf(t, |t.gen|) && t.cos != 0.0 && t.sin != 0.0 && |k| == |t.gen| && Anticommutes(kind, t.gen, k)
    requires k in keys && Partner(t, k) in keys && cut.kernel.None?
    ensures var m, q := Example(kind, t, cut, keys, k), Partner(t, k);
      !Declines(t, cut, m[k]) && !Declines(t, cut, m[q]) && AdmitsChild(kind, cut, k, Branch(kind, t, q, m[q]))
  {
    hide Anticommutes, Xor, TurnIm, SineInto, Large, Sq, Hurdle, Abs, Branch, Unphased, Multiple;
    var m, q := Example(kind, t, cut, keys, k), Partner(t, k);
    PartnerDiffers(kind, t, k);
    PartnerAnticommutes(kind, t, k);
    SineIntoIs(kind, t, q);
    var big, u := Large(cut, t.cos, t.sin), SineInto(kind, t, q);
    LargeClears(cut, t.cos, t.sin, u, big);
    HurdleIs(cut);
    UnphasedClears(t, big, t.cos, Hurdle(cut));
    UnphasedClears(t, big, u, Hurdle(cut));
    BranchClears(kind, t, q, big, u, Hurdle(cut));
  }

  lemma HurdleIs(cut: Cutoff)
    ensures cut.minCoeff.Some? ==> Hurdle(cut) >= cut.minCoeff.value
  {
  }

  lemma UnphasedClears(t: Turn, big: real, x: real, h: real)
    requires Abs(Multiple(Multiple(big, x), t.sin)) >= h
    ensures Abs(Unphased(t, Multiple(big, x))) >= h
  {
  }

  lemma BranchClears(kind: BasisKind, t: Turn, q: Key, big: real, u: real, h: real)
    requires TurnOf(t, |q|) && Anticommutes(kind, t.gen, q) && u == SineInto(kind, t, q)
      && Abs(Multiple(Multiple(big, u), u)) >= h
    ensures Abs(Branch(kind, t, q, Multiple(big, u))) >= h
  {
    hide Anticommutes, SineInto, Branch;
    SineIntoIs(kind, t, q);
    var a := Multiple(big, u);
    assert Branch(kind, t, q, a) == a * u == Multiple(a, u);
  }

  lemma KeyOverBound(kind: BasisKind, cut: Cutoff, q: Key)
    requires |q| % 2 == 0 && !AdmitsKey(kind, cut, q)
    ensures cut.kernel.None?
  {
  }

  lemma {:induction false} ExampleGrows(kind: BasisKind, t: Turn, cut: Cutoff, keys: set<Key>, k: Key)
    requires TurnOf(t, |t.gen|) && t.cos != 0.0 && t.sin != 0.0 && StraddledAt(kind, t, cut, keys, k)
    requires forall x :: x in keys ==> |x| == |t.gen|
    ensures Grows(kind, t, cut, Example(kind, t, cut, keys, k))
  {
    hide Anticommutes, Xor, TurnIm, AdmitsKey, SineInto, Large, PairStep, NormSq, Branch, Sq;
    var m, q := Example(kind, t, cut, keys, k), Partner(t, k);
    var r := PairStep(kind, t, cut, m);
    PartnerDiffers(kind, t, k);
    PartnerAnticommutes(kind, t, k);
    SineIntoIs(kind, t, q);
    var big, u := Large(cut, t.cos, t.sin), SineInto(kind, t, q);
    LargeClears(cut, t.cos, t.sin, u, big);
    ExampleValues(kind, t, cut, keys, k);
    SparseNorm(m, k, q);
    SparseNorm(r, k, q);
    ExampleSquares(big, t.cos, t.sin, u, m[k], m[q], r[k], r[q]);
  }

  /** What the gate makes of the example. */
  lemma {:induction false} ExampleValues(kind: BasisKind, t: Turn, cut: Cutoff, keys: set<Key>, k: Key)
    requires TurnOf(t, |t.gen|) && t.cos != 0.0 && t.sin != 0.0 && StraddledAt(kind, t, cut, keys, k)
    requires forall x :: x in keys ==> |x| == |t.gen|
    ensures var (q, m) := (Partner(t, k), Example(kind, t, cut, keys, k));
      var r := PairStep(kind, t, cut, m);
      && k in r && q in r && k in m && q in m
      && r[k] == t.cos * m[k] + m[q] * SineInto(kind, t, q) && r[q] == t.cos * m[q]
      && forall x :: x in r && x != k && x != q ==> r[x] == 0.0
  {
    hide Anticommutes, Xor, TurnIm, AdmitsKey, SineInto, Large, PairStep, Arrives, Branch;
    var m, q := Example(kind, t, cut, keys, k), Partner(t, k);
    var r := PairStep(kind, t, cut, m);
    PartnerTwice(t, k);
    PartnerDiffers(kind, t, k);
    PartnerAnticommutes(kind, t, k);
    ExampleArrives(kind, t, cut, keys, k);
    SineIntoIs(kind, t, q);
    PairStepAt(kind, t, cut, m, k);
    PairStepAt(kind, t, cut, m, q);
    forall x | x in r && x != k && x != q ensures r[x] == 0.0 {
      PairStepAt(kind, t, cut, m, x);
      ElsewhereNothing(kind, t, cut, keys, k, x);
    }
  }

  /** Keys outside the pair stay without a coefficient. */
  lemma {:induction false} ElsewhereNothing(kind: BasisKind, t: Turn, cut: Cutoff, keys: set<Key>, k: Key, x: Key)
    requires TurnOf(t, |t.gen|) && t.cos != 0.0 && t.sin != 0.0 && |k| == |x| == |t.gen| && x != k && x != Partner(t, k)
    ensures NewCoef(kind, t, cut, Example(kind, t, cut, keys, k), x) == 0.0
  {
    hide Anticommutes, Xor, TurnIm, SineInto, Large, Arrives;
    PartnerTwice(t, x);
    PartnerTwice(t, k);
    var m := Example(kind, t, cut, keys, k);
    assert Coef(m, x) == 0.0 && Coef(m, Partner(t, x)) == 0.0;
    assert t.cos * 0.0 == 0.0;
    BranchOfNothing(kind, t, Partner(t, x));
  }

  /** Only two coefficients are not 0. */
  lemma {:induction false} SparseNorm(m: Terms, k: Key, q: Key)
    requires k in m && q in m && k != q && forall x :: x in m && x != k && x != q ==> m[x] == 0.0
    ensures NormSq(m) == Sq(m[k]) + Sq(m[q])
  {
    var f := Square(CoefOf(m));
    SumRemove({k, q}, f, k);
    assert {k, q} - {k} == {q};
    SumRemove({q}, f, q);
    assert {q} - {q} == {};
    SumZero({}, f);
    SumExtend({k, q}, m.Keys, f);
  }

  lemma ExampleSquares(big: real, c: real, s: real, u: real, a: real, b: real, a': real, b': real)
    requires big > 0.0 && Sq(c) + Sq(s) == 1.0 && Sq(c) > 0.0 && Sq(s) > 0.0 && (u == s || u == -s)
    requires a == big * c && b == big * u && a' == c * a + b * u && b' == c * b
    ensures Sq(a') + Sq(b') > Sq(a) + Sq(b)
  {
    NegatedSquare(s);
    SquarePositive(big);
    SumBack(big, c, u);
    SquareAcross(big, c, u);
    SumOfSquares(big, c, u);
    hide Sq;
    TimesUnit(big, Sq(c) + Sq(u));
    TimesUnit(Sq(big), Sq(c) + Sq(u));
    PositiveProduct(Sq(big), Sq(c));
    PositiveProduct(Sq(big) * Sq(c), Sq(u));
  }

  lemma TimesUnit(x: real, one: real)
    requires one == 1.0
    ensures x * one == x
  {
  }

  lemma SumBack(big: real, c: real, u: real)
    ensures c * (big * c) + (big * u) * u == big * (Sq(c) + Sq(u))
  {
  }

  lemma SquareAcross(big: real, c: real, u: real)
    ensures Sq(c * (big * u)) == Sq(big) * Sq(c) * Sq(u)
  {
    assert (c * (big * u)) * (c * (big * u)) == (big * big) * (c * c) * (u * u);
  }

  lemma SumOfSquares(big: real, c: real, u: real)
    ensures Sq(big * c) + Sq(big * u) == Sq(big) * (Sq(c) + Sq(u))
  {
    assert (big * c) * (big * c) == (big * big) * (c * c);
    assert (big * u) * (big * u) == (big * big) * (u * u);
  }

  /** The gate raises the sum of squares of `m`. */
  ghost predicate Grows(kind: BasisKind, t: Turn, cut: Cutoff, m: Terms)
  {
    |t.gen| % 2 == 0 && TermsOf(m, |t.gen|) && NormSq(PairStep(kind, t, cut, m)) > NormSq(m)
  }

  /**
   A gate that rotates pairs can raise the sum of squares of an operator with these keys
   exactly if it has a cosine and a sine and some live pair has one key within the weight bound
   and the other over it. Whether it does so depends on the coefficients, which no one need know.
   */
  lemma {:induction false} NormGrowsIff(kind: BasisKind, t: Turn, cut: Cutoff, keys: set<Key>)
    requires TurnOf(t, |t.gen|) && forall x :: x in keys ==> |x| == |t.gen|
    ensures (exists m: Terms :: m.Keys == keys && Grows(kind, t, cut, m)) <==> CanGrow(kind, t, cut, keys)
  {
    hide NormSq, PairStep, StraddledAt;
    if m: Terms :| m.Keys == keys && Grows(kind, t, cut, m) {
      if !CanGrow(kind, t, cut, keys) {
        PairStepNorm(kind, t, cut, m);
      }
    }
    if CanGrow(kind, t, cut, keys) {
      var k :| StraddledAt(kind, t, cut, keys, k);
      assert |k| == |t.gen| by { StraddledWidth(kind, t, cut, keys, k); }
      ExampleGrows(kind, t, cut, keys, k);
    }
  }

  lemma StraddledWidth(kind: BasisKind, t: Turn, cut: Cutoff, keys: set<Key>, k: Key)
    requires |t.gen| % 2 == 0 && StraddledAt(kind, t, cut, keys, k)
    ensures |k| == |t.gen|
  {
  }

  // ---- one gate of the engine ---------------------------------------------------

  /** What a caller can see before a gate: it is carried out with cutoffs on, and a live pair straddles the bound. */
  ghost predicate MayGrow(kind: BasisKind, n: nat, defer: bool, cut: Cutoff, f: Frame, keys: set<Key>, g: Gate)
    requires FrameShape(n, f) && GateOf(g, n)
  {
    var cut' := AtSize(cut, |keys|);
    keys != {} && !Defers(kind, defer, cut', g) && CanGrow(kind, PulledBack(kind, f, g), cut', keys)
  }

  ghost predicate StepGrows(kind: BasisKind, n: nat, defer: bool, cut: Cutoff, e: Engine, g: Gate)
  {
    && FrameShape(n, e.frame) && TermsOf(e.terms, n) && GateOf(g, n)
    && NormSq(EngineStep(kind, n, defer, cut, e, g).terms) > NormSq(e.terms)
  }

  /**
   One gate of the engine never raises the norm unless it may, whatever the floor and the other
   cutoffs, and conserves it without truncation.
   */
  lemma StepNorm(kind: BasisKind, n: nat, defer: bool, cut: Cutoff, e: Engine, g: Gate)
    requires FrameShape(n, e.frame) && TermsOf(e.terms, n) && GateOf(g, n)
      && !MayGrow(kind, n, defer, cut, e.frame, e.terms.Keys, g)
    ensures var r := EngineStep(kind, n, defer, cut, e, g);
      && NormSq(r.terms) <= NormSq(e.terms)
      && (Lossless(cut) ==> NormSq(r.terms) == NormSq(e.terms))
  {
    hide Image, ComposeFrames, RotationRows, Anticommutes, Xor, NormSq, ChangesSupport, CanGrow, ScaleStep, PairStep;
    var t, cut' := PulledBack(kind, e.frame, g), AtSize(cut, |e.terms|);
    PulledShape(kind, n, e.frame, g);
    assert |e.terms.Keys| == |e.terms|;
    if e.terms != map[] && !Defers(kind, defer, cut', g) {
      if g.sin == 0.0 {
        ScaleStepNorm(kind, t.gen, t.cos, e.terms);
      } else {
        assert !CanGrow(kind, t, cut', e.terms.Keys);
        PairStepNorm(kind, t, cut', e.terms);
      }
    }
  }

  /** The engine's gate can raise the norm on these keys exactly if it may. */
  lemma {:induction false} StepGrowsIff(kind: BasisKind, n: nat, defer: bool, cut: Cutoff, f: Frame, keys: set<Key>,
                                        g: Gate)
    requires FrameShape(n, f) && GateOf(g, n) && forall x :: x in keys ==> |x| == n
    ensures (exists m: Terms :: m.Keys == keys && StepGrows(kind, n, defer, cut, Engine(f, m), g))
       <==> MayGrow(kind, n, defer, cut, f, keys, g)
  {
    hide Image, ComposeFrames, RotationRows, Anticommutes, Xor, NormSq, ChangesSupport, StraddledAt, ScaleStep,
      PairStep;
    var t, cut' := PulledBack(kind, f, g), AtSize(cut, |keys|);
    PulledShape(kind, n, f, g);
    if m: Terms :| m.Keys == keys && StepGrows(kind, n, defer, cut, Engine(f, m), g) {
      if !MayGrow(kind, n, defer, cut, f, keys, g) {
        StepNorm(kind, n, defer, cut, Engine(f, m), g);
      }
    }
    if MayGrow(kind, n, defer, cut, f, keys, g) {
      NormGrowsIff(kind, t, cut', keys);
      var m: Terms :| m.Keys == keys && Grows(kind, t, cut', m);
      assert |m| == |m.Keys| && m != map[];
      assert StepGrows(kind, n, defer, cut, Engine(f, m), g);
    }
  }

  /** Inside the weight bound no pair straddles it. */
  lemma BoundedNeverGrows(kind: BasisKind, n: nat, defer: bool, cut: Cutoff, e: Engine, g: Gate)
    requires FrameShape(n, e.frame) && TermsOf(e.terms, n) && GateOf(g, n) && WithinBound(kind, cut, e.terms, n)
    ensures !MayGrow(kind, n, defer, cut, e.frame, e.terms.Keys, g)
  {
    hide Anticommutes, Weight, PulledBack;
  }

  // ---- whole runs ---------------------------------------------------------------

  /** The `i`-th gate of the run may raise the norm. */
  ghost predicate MayGrowAt(kind: BasisKind, n: nat, defer: bool, cut: Cutoff, gates: seq<Gate>, start: Terms, i: nat)
    requires n % 2 == 0 && TermsOf(start, n) && GatesOf(gates, n) && i < |gates|
  {
    var e := Run(kind, n, defer, cut, gates[..i], start);
    MayGrow(kind, n, defer, cut, e.frame, e.terms.Keys, gates[i])
  }

  /**
   Over a whole run the norm never grows as long as no gate meets a live pair that straddles
   the weight bound, whatever the term floor; a lossless run conserves it.
   */
  lemma {:induction false} RunNorm(kind: BasisKind, n: nat, defer: bool, cut: Cutoff, gates: seq<Gate>, start: Terms)
    requires n % 2 == 0 && TermsOf(start, n) && GatesOf(gates, n)
    requires forall i: nat :: i < |gates| ==> !MayGrowAt(kind, n, defer, cut, gates, start, i)
    ensures var r := Run(kind, n, defer, cut, gates, start);
      && NormSq(r.terms) <= NormSq(start)
      && (Lossless(cut) ==> NormSq(r.terms) == NormSq(start))
    decreases |gates|
  {
    hide EngineStep, MayGrow, NormSq;
    if gates != [] {
      var last := |gates| - 1;
      var rest := gates[..last];
      forall i: nat | i < last ensures !MayGrowAt(kind, n, defer, cut, rest, start, i) {
        assert !MayGrowAt(kind, n, defer, cut, gates, start, i);
        assert rest[..i] == gates[..i];
      }
      RunNorm(kind, n, defer, cut, rest, start);
      assert !MayGrowAt(kind, n, defer, cut, gates, start, last);
      StepNorm(kind, n, defer, cut, Run(kind, n, defer, cut, rest, start), gates[last]);
    }
  }

  /** With no weight bound, so in particular without truncation, the law holds under any term floor. */
  lemma {:induction false} RunNormUnbounded(kind: BasisKind, n: nat, defer: bool, cut: Cutoff, gates: seq<Gate>,
                                            start: Terms)
    requires n % 2 == 0 && TermsOf(start, n) && GatesOf(gates, n) && cut.maxWeight.None?
    ensures var r := Run(kind, n, defer, cut, gates, start);
      && NormSq(r.terms) <= NormSq(start)
      && (Lossless(cut) ==> NormSq(r.terms) == NormSq(start))
  {
    hide EngineStep, NormSq, Run, MayGrow;
    forall i: nat | i < |gates| ensures !MayGrowAt(kind, n, defer, cut, gates, start, i) {
      BoundedNeverGrows(kind, n, defer, cut, Run(kind, n, defer, cut, gates[..i], start), gates[i]);
    }
    RunNorm(kind, n, defer, cut, gates, start);
  }

  /** Without a floor a run that starts inside the weight bound never raises the norm either. */
  lemma {:induction false} RunNormInBound(kind: BasisKind, n: nat, defer: bool, cut: Cutoff, gates: seq<Gate>,
                                          start: Terms)
    requires n % 2 == 0 && TermsOf(start, n) && GatesOf(gates, n)
    requires NoFloor(cut) && WithinBound(kind, cut, start, n)
    ensures var r := Run(kind, n, defer, cut, gates, start);
      && WithinBound(kind, cut, r.terms, n)
      && NormSq(r.terms) <= NormSq(start)
  {
    hide EngineStep, WithinBound, NormSq, Run, MayGrow;
    forall i: nat | i < |gates| ensures !MayGrowAt(kind, n, defer, cut, gates, start, i) {
      RunInBound(kind, n, defer, cut, gates[..i], start);
      BoundedNeverGrows(kind, n, defer, cut, Run(kind, n, defer, cut, gates[..i], start), gates[i]);
    }
    RunNorm(kind, n, defer, cut, gates, start);
    RunInBound(kind, n, defer, cut, gates, start);
  }

  // ---- a run whose norm grows ---------------------------------------------------

  /** A rotation about ZZ by an angle with these parts. */
  function AboutZZ(s: real): Gate { Gate([false, true, false, true], 0.6, s) }

  const X_ALONE: Key := [true, false, false, false]
  const Y_AND_Z: Key := [true, true, false, true]

  /**
   With a floor of two terms and a bound of one letter the norm of a run can grow, although its
   start is admitted: the first gate makes YZ while the cutoffs are off, the second meets the
   pair X, YZ with the cutoffs on, refuses the branch of X and lets the branch of YZ arrive.
   */
  lemma {:induction false} RunNormCanGrow(defer: bool)
    ensures var cut := Cutoff(Some(1), None, None, Some(2));
      var start: Terms := map[X_ALONE := 1.0];
      var gates := [AboutZZ(0.8), AboutZZ(-0.8)];
      && TermsOf(start, 4) && GatesOf(gates, 4) && WithinBound(Pauli, cut, start, 4) && NormSq(start) == 1.0
      && NormSq(Run(Pauli, 4, defer, cut, gates[..1], start).terms) == 1.0
      && NormSq(Run(Pauli, 4, defer, cut, gates, start).terms) == 1.2304
  {
    hide Run, NormSq, EngineStep, PairStep, Weight, Anticommutes, TurnIm, Xor;
    var cut := Cutoff(Some(1), None, None, Some(2));
    var start: Terms := map[X_ALONE := 1.0];
    var gates := [AboutZZ(0.8), AboutZZ(-0.8)];
    XMeetsZZ(0.8);
    var s := TurnIm(Pauli, PlainTurn(AboutZZ(0.8)), X_ALONE);
    var between := Between(s);
    FirstGate(s);
    SecondGate(s);
    PlainStep(defer, cut, start, gates[0]);
    PlainStep(defer, cut, between, gates[1]);
    TwoGates(defer, cut, gates, start, between);
    NormOfOne(start);
    SparseNorm(between, X_ALONE, Y_AND_Z);
    SparseNorm(After(s), X_ALONE, Y_AND_Z);
  }

  /** The operator after the first gate, and after the second. */
  function Between(s: real): (m: Terms) { map[X_ALONE := 0.6, Y_AND_Z := 0.8 * -s] }

  function After(s: real): (m: Terms) { map[X_ALONE := 1.0, Y_AND_Z := 0.48 * -s] }

  lemma {:induction false} NormOfOne(m: Terms)
    requires m == map[X_ALONE := 1.0]
    ensures NormSq(m) == 1.0
  {
    var f := Square(CoefOf(m));
    assert m.Keys == {X_ALONE};
    SumRemove({X_ALONE}, f, X_ALONE);
    assert {X_ALONE} - {X_ALONE} == {};
    SumZero({}, f);
  }

  lemma XMeetsZZ(sine: real)
    ensures var t := PlainTurn(AboutZZ(sine));
      && Anticommutes(Pauli, t.gen, X_ALONE) && Anticommutes(Pauli, t.gen, Y_AND_Z)
      && Partner(t, X_ALONE) == Y_AND_Z && Partner(t, Y_AND_Z) == X_ALONE && X_ALONE != Y_AND_Z
      && IsSign(TurnIm(Pauli, t, X_ALONE)) && TurnIm(Pauli, t, Y_AND_Z) == -TurnIm(Pauli, t, X_ALONE)
    ensures Weight(Pauli, X_ALONE) == 1 && Weight(Pauli, Y_AND_Z) == 2
  {
    var t, plain := PlainTurn(AboutZZ(sine)), PlainTurn(AboutZZ(0.8));
    assert X_ALONE[1] != Y_AND_Z[1];
    assert Partner(t, X_ALONE) == Y_AND_Z && Partner(t, Y_AND_Z) == X_ALONE;
    FourBits(X_ALONE, PairSwap(t.gen));
    FourBits(Y_AND_Z, PairSwap(t.gen));
    hide Anticommutes, PhaseExp, Support;
    OppositeBranches(Pauli, plain, X_ALONE);
    assert TurnIm(Pauli, t, X_ALONE) == TurnIm(Pauli, plain, X_ALONE)
      && TurnIm(Pauli, t, Y_AND_Z) == TurnIm(Pauli, plain, Y_AND_Z);
  }

  lemma {:induction false} FourBits(a: Key, b: Key)
    requires |a| == |b| == 4
    ensures CountAnd(a, b) == Bit(a[0] && b[0]) + Bit(a[1] && b[1]) + Bit(a[2] && b[2]) + Bit(a[3] && b[3])
    ensures Support(a) == Bit(a[0] || a[1]) + Bit(a[2] || a[3])
  {
    assert CountAndFrom(a, b, 3) == Bit(a[3] && b[3]);
    assert CountAndFrom(a, b, 2) == Bit(a[2] && b[2]) + Bit(a[3] && b[3]);
    assert CountAndFrom(a, b, 1) == CountAndFrom(a, b, 2) + Bit(a[1] && b[1]);
    assert SupportFrom(a, 1) == Bit(a[2] || a[3]);
  }

  /** With the identity frame a gate with cosine and sine rotates the stored pairs about its own generator. */
  lemma PlainStep(defer: bool, cut: Cutoff, m: Terms, g: Gate)
    requires GateOf(g, 4) && TermsOf(m, 4) && m != map[] && g.cos != 0.0 && g.sin != 0.0
    ensures FrameShape(4, IdentityFrame(4))
    ensures EngineStep(Pauli, 4, defer, cut, Engine(IdentityFrame(4), m), g)
         == Engine(IdentityFrame(4), PairStep(Pauli, PlainTurn(g), AtSize(cut, |m|), m))
  {
    hide Image, IdentityRows, PairStep, FrameOk;
    IdentityFrameOk(Pauli, 4);
    IdentityBothWays(Pauli, 4, IdentityFrame(4), g.gen);
  }

  lemma {:induction false} TwoGates(defer: bool, cut: Cutoff, gates: seq<Gate>, start: Terms, between: Terms)
    requires |gates| == 2 && TermsOf(start, 4) && GatesOf(gates, 4) && TermsOf(between, 4)
      && FrameShape(4, IdentityFrame(4))
    requires EngineStep(Pauli, 4, defer, cut, Engine(IdentityFrame(4), start), gates[0])
      == Engine(IdentityFrame(4), between)
    ensures Run(Pauli, 4, defer, cut, gates[..1], start) == Engine(IdentityFrame(4), between)
    ensures Run(Pauli, 4, defer, cut, gates, start)
      == EngineStep(Pauli, 4, defer, cut, Engine(IdentityFrame(4), between), gates[1])
  {
    hide EngineStep, IdentityRows;
    assert gates[..1][..0] == [] && gates[..1][0] == gates[0];
    assert Run(Pauli, 4, defer, cut, [], start) == Engine(IdentityFrame(4), start);
  }

  /** Below the floor X simply branches. */
  lemma {:induction false} FirstGate(s: real)
    requires s == TurnIm(Pauli, PlainTurn(AboutZZ(0.8)), X_ALONE)
    ensures var start: Terms := map[X_ALONE := 1.0];
      PairStep(Pauli, PlainTurn(AboutZZ(0.8)), AtSize(Cutoff(Some(1), None, None, Some(2)), |start|), start)
        == Between(s)
  {
    hide Anticommutes, Xor, TurnIm, Weight, PairStep;
    XMeetsZZ(0.8);
    var start: Terms := map[X_ALONE := 1.0];
    var t, cut := PlainTurn(AboutZZ(0.8)), Cutoff(None, None, None, Some(2));
    assert start.Keys == {X_ALONE} && |start| == 1;
    assert Has(Pauli, t, cut, start, X_ALONE, Emit);
    PairStepAt(Pauli, t, cut, start, X_ALONE);
    PairStepAt(Pauli, t, cut, start, Y_AND_Z);
    OnlyThePair(t, cut, start);
    OfTwo(PairStep(Pauli, t, cut, start), 0.6, 0.8 * -s);
  }

  /** Above it the branch of X is refused and that of YZ arrives. */
  lemma {:induction false} SecondGate(s: real)
    requires s == TurnIm(Pauli, PlainTurn(AboutZZ(0.8)), X_ALONE)
    ensures PairStep(Pauli, PlainTurn(AboutZZ(-0.8)), AtSize(Cutoff(Some(1), None, None, Some(2)), |Between(s)|),
      Between(s)) == After(s)
  {
    hide Anticommutes, Xor, TurnIm, Weight, PairStep;
    XMeetsZZ(0.8);
    XMeetsZZ(-0.8);
    SameIm();
    var m := Between(s);
    var t, cut := PlainTurn(AboutZZ(-0.8)), Cutoff(Some(1), None, None, Some(2));
    assert m.Keys == {X_ALONE, Y_AND_Z} && |m| == |m.Keys| == 2;
    assert Has(Pauli, t, cut, m, Y_AND_Z, Emit) && Has(Pauli, t, cut, m, X_ALONE, Dropped);
    hide StatusOf, Branch;
    PairStepAt(Pauli, t, cut, m, X_ALONE);
    PairStepAt(Pauli, t, cut, m, Y_AND_Z);
    BackToX(s);
    OnlyThePair(t, cut, m);
    OfTwo(PairStep(Pauli, t, cut, m), 1.0, 0.48 * -s);
  }

  lemma BackToX(s: real)
    requires IsSign(s) && TurnIm(Pauli, PlainTurn(AboutZZ(-0.8)), Y_AND_Z) == -s
    ensures Branch(Pauli, PlainTurn(AboutZZ(-0.8)), Y_AND_Z, 0.8 * -s) == 0.64
    ensures 0.6 * (0.8 * -s) == 0.48 * -s
  {
    hide TurnIm;
  }

  lemma SameIm()
    ensures TurnIm(Pauli, PlainTurn(AboutZZ(-0.8)), X_ALONE) == TurnIm(Pauli, PlainTurn(AboutZZ(0.8)), X_ALONE)
  {
  }

  /** Nothing outside the pair comes up. */
  lemma {:induction false} OnlyThePair(t: Turn, cut: Cutoff, m: Terms)
    requires |t.gen| == 4 && TermsOf(m, 4) && m.Keys <= {X_ALONE, Y_AND_Z}
    requires Partner(t, X_ALONE) == Y_AND_Z && Partner(t, Y_AND_Z) == X_ALONE
    ensures PairStep(Pauli, t, cut, m).Keys <= {X_ALONE, Y_AND_Z}
  {
    hide Anticommutes, Xor, PairStep;
    forall x | x in PairStep(Pauli, t, cut, m) ensures x in {X_ALONE, Y_AND_Z} {
      PairStepAt(Pauli, t, cut, m, x);
      PartnerTwice(t, x);
    }
  }

  lemma OfTwo(r: Terms, a: real, b: real)
    requires r.Keys == {X_ALONE, Y_AND_Z} && r[X_ALONE] == a && r[Y_AND_Z] == b && X_ALONE != Y_AND_Z
    ensures r == map[X_ALONE := a, Y_AND_Z := b]
  {
  }
}
