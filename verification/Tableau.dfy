/**
 Deferred Clifford conjugation.

 A tableau records where each generator (a string with one bit set) goes, with a sign. It
 is applied to a string by multiplying the images of the string's bits together. The laws
 here say that this is a homomorphism of phased operators whenever the tableau was built
 from Clifford rotations and composition, and that the two directions undo each other.
 */
module TableauRows {
  import opened BasisStrings
  import opened BasisAlgebra

  /** Where one generator maps, and with what sign (1 or -1). */
  datatype Row = Row(image: Key, sign: real)

  predicate IsSign(sign: real) { sign == 1.0 || sign == -1.0 }

  predicate RowsOf(rows: seq<Row>, n: nat)
  {
    |rows| == n && n % 2 == 0 && forall p :: 0 <= p < n ==> |rows[p].image| == n && IsSign(rows[p].sign)
  }

  function SignExp(sign: real): Exp
  {
    if sign < 0.0 then 2 else 0
  }

  /** The imaginary part of i^e. */
  function PhaseIm(e: Exp): real
  {
    if e == 1 then 1.0 else if e == 3 then -1.0 else 0.0
  }

  function RowPhased(row: Row): Phased { Phased(SignExp(row.sign), row.image) }

  function Shift(k: Exp, x: Phased): Phased { Phased(Plus(k, x.exp), x.key) }

  /** The running products of the fold: the rebuilt source, and its image. */
  datatype Fold = Fold(source: Phased, image: Phased)

  /** The state of the fold after the positions below `upto`. */
  function FoldRows(kind: BasisKind, rows: seq<Row>, mono: Key, upto: nat): (f: Fold)
    requires RowsOf(rows, |mono|) && upto <= |mono|
    ensures |f.source.key| == |f.image.key| == |mono|
  {
    var n := |mono|;
    if upto == 0 then Fold(Phased(0, Zero(n)), Phased(0, Zero(n)))
    else
      var f := FoldRows(kind, rows, mono, upto - 1);
      if mono[upto - 1] then
        Fold(Mul(kind, Phased(0, Unit(n, upto - 1)), f.source), Mul(kind, RowPhased(rows[upto - 1]), f.image))
      else f
  }

  /** The image of `mono` as a phased operator. */
  function Image(kind: BasisKind, rows: seq<Row>, mono: Key): (r: Phased)
    requires RowsOf(rows, |mono|)
    ensures |r.key| == |mono|
  {
    var f := FoldRows(kind, rows, mono, |mono|);
    Phased(Plus(f.image.exp, Neg(f.source.exp)), f.image.key)
  }

  /** The image of `mono` as a string and a sign, the way the tableau reports it. */
  function Applied(kind: BasisKind, rows: seq<Row>, mono: Key): (r: Row)
    requires RowsOf(rows, |mono|)
    ensures |r.image| == |mono| && IsSign(r.sign)
  {
    var x := Image(kind, rows, mono);
    Row(x.key, if x.exp == 2 then -1.0 else 1.0)
  }

  /** The rows of the tableau that conjugates nothing. */
  function IdentityRows(n: nat): (rows: seq<Row>)
    ensures |rows| == n && forall p :: 0 <= p < n ==> rows[p] == Row(Unit(n, p), 1.0)
  {
    seq(n, p requires 0 <= p < n => Row(Unit(n, p), 1.0))
  }

  // ---- homomorphisms ------------------------------------------------------------

  /** `f` sends products to products, with the phase of the product. */
  ghost predicate Homomorphism(kind: BasisKind, n: nat, f: Key -> Phased)
  {
    && (forall a: Key | IsKey(a, n) :: |f(a).key| == n)
    && (forall a: Key, b: Key {:trigger Mul(kind, f(a), f(b))} | IsKey(a, n) && IsKey(b, n) ::
          Mul(kind, f(a), f(b)) == Shift(PhaseExp(kind, a, b), f(Xor(a, b))))
  }

  /** A homomorphism maps Hermitian strings to plus or minus Hermitian strings. */
  lemma HomomorphismIsSigned(kind: BasisKind, n: nat, f: Key -> Phased, a: Key)
    requires Homomorphism(kind, n, f) && IsKey(a, n)
    ensures f(Zero(n)) == Phased(0, Zero(n))
    ensures f(a).exp == 0 || f(a).exp == 2
  {
    hide PhaseExp, Anticommutes, Xor, Zero;
    var z := Zero(n);
    XorSelf(z);
    XorSelf(f(z).key);
    PhaseSelf(kind, z);
    PhaseSelf(kind, f(z).key);
    XorSelf(a);
    PhaseSelf(kind, a);
    PhaseSelf(kind, f(a).key);
    assert Mul(kind, f(z), f(z)) == Shift(0, f(z));
    assert Mul(kind, f(a), f(a)) == Shift(0, f(z));
  }

  lemma ShiftShift(k: Exp, l: Exp, x: Phased)
    ensures Shift(k, Shift(l, x)) == Shift(Plus(k, l), x)
    ensures Shift(0, x) == x
  {
    PlusLaws(k, l, x.exp);
  }

  lemma PlusZero(k: Exp)
    ensures Plus(0, k) == k && Plus(k, 0) == k
  {
  }

  lemma MulShift(kind: BasisKind, k: Exp, l: Exp, x: Phased, y: Phased)
    requires |x.key| == |y.key| && |x.key| % 2 == 0
    ensures Mul(kind, Shift(k, x), Shift(l, y)) == Shift(Plus(k, l), Mul(kind, x, y))
    ensures Mul(kind, x, Shift(l, y)) == Shift(l, Mul(kind, x, y))
    ensures Mul(kind, Shift(k, x), y) == Shift(k, Mul(kind, x, y))
  {
    hide PhaseExp, Xor, Plus;
    var p := PhaseExp(kind, x.key, y.key);
    PlusExchange(k, x.exp, l, y.exp);
    PlusLaws(Plus(k, l), Plus(x.exp, y.exp), p);
    PlusLaws(x.exp, l, y.exp);
    PlusLaws(l, x.exp, y.exp);
    PlusLaws(l, Plus(x.exp, y.exp), p);
    PlusLaws(k, x.exp, y.exp);
    PlusLaws(k, Plus(x.exp, y.exp), p);
  }

  /** One step of the fold, seen through a homomorphism. */
  lemma ExtendStep(kind: BasisKind, n: nat, f: Key -> Phased, p: nat, source: Phased)
    requires Homomorphism(kind, n, f) && n % 2 == 0 && p < n && |source.key| == n
    ensures var next := Mul(kind, Phased(0, Unit(n, p)), source);
      Mul(kind, f(Unit(n, p)), Shift(source.exp, f(source.key))) == Shift(next.exp, f(next.key))
  {
    hide PhaseExp, Plus;
    var u := Unit(n, p);
    var e := PhaseExp(kind, u, source.key);
    var product := Mul(kind, f(u), f(source.key));
    PlusZero(source.exp);
    MulShift(kind, 0, source.exp, f(u), f(source.key));
    ShiftShift(source.exp, e, f(Xor(u, source.key)));
  }

  /** The bits of `mono` below `upto`. */
  function Below(mono: Key, upto: nat): (r: Key)
    ensures |r| == |mono| && forall i :: 0 <= i < |mono| ==> r[i] == (i < upto && mono[i])
  {
    seq(|mono|, i requires 0 <= i < |mono| => i < upto && mono[i])
  }

  lemma XorBelow(mono: Key, p: nat)
    requires p < |mono| && mono[p]
    ensures Xor(Unit(|mono|, p), Below(mono, p)) == Below(mono, p + 1)
  {
  }

  /**
   The universal property of the fold: a homomorphism that agrees with the rows on every
   generator agrees with the fold on every string.
   */
  lemma {:induction false} FoldExtends(kind: BasisKind, rows: seq<Row>, f: Key -> Phased, mono: Key, upto: nat)
    requires RowsOf(rows, |mono|) && upto <= |mono|
    requires Homomorphism(kind, |mono|, f)
    requires forall p :: 0 <= p < |mono| ==> f(Unit(|mono|, p)) == RowPhased(rows[p])
    ensures var fold := FoldRows(kind, rows, mono, upto);
      fold.source.key == Below(mono, upto) && fold.image == Shift(fold.source.exp, f(fold.source.key))
  {
    hide PhaseExp, Xor, Zero, Plus, Homomorphism;
    var n := |mono|;
    if upto == 0 {
      PlusZero(0);
      HomomorphismIsSigned(kind, n, f, Zero(n));
      assert Below(mono, 0) == Zero(n);
    } else {
      var p := upto - 1;
      FoldExtends(kind, rows, f, mono, p);
      var prev := FoldRows(kind, rows, mono, p);
      if mono[p] {
        XorBelow(mono, p);
        ExtendStep(kind, n, f, p, prev.source);
      } else {
        assert Below(mono, p) == Below(mono, upto);
      }
    }
  }

  lemma ImageExtends(kind: BasisKind, rows: seq<Row>, f: Key -> Phased, mono: Key)
    requires RowsOf(rows, |mono|)
    requires Homomorphism(kind, |mono|, f)
    requires forall p :: 0 <= p < |mono| ==> f(Unit(|mono|, p)) == RowPhased(rows[p])
    ensures Image(kind, rows, mono) == f(mono)
    ensures Applied(kind, rows, mono) == Row(f(mono).key, if f(mono).exp == 2 then -1.0 else 1.0)
  {
    hide PhaseExp, Anticommutes, Xor, Zero;
    FoldExtends(kind, rows, f, mono, |mono|);
    assert Below(mono, |mono|) == mono;
  }

  /** The map a list of rows stands for, made total. */
  function MapOf(kind: BasisKind, rows: seq<Row>): Key -> Phased
  {
    (m: Key) => if RowsOf(rows, |m|) then Image(kind, rows, m) else Phased(0, m)
  }

  ghost predicate HomRows(kind: BasisKind, rows: seq<Row>)
  {
    RowsOf(rows, |rows|) && Homomorphism(kind, |rows|, MapOf(kind, rows))
  }

  /** Rows read back their own images on the generators. */
  lemma ImageOfUnit(kind: BasisKind, rows: seq<Row>, p: nat)
    requires RowsOf(rows, |rows|) && p < |rows|
    ensures Image(kind, rows, Unit(|rows|, p)) == RowPhased(rows[p])
  {
    hide PhaseExp, Anticommutes, Xor, Zero;
    var n := |rows|;
    var u := Unit(n, p);
    FoldSkips(kind, rows, p, p);
    FoldSkips(kind, rows, p, n);
    XorZero(u);
    PhaseZero(kind, u);
    XorZero(rows[p].image);
    PhaseZero(kind, rows[p].image);
  }

  lemma {:induction false} FoldSkips(kind: BasisKind, rows: seq<Row>, p: nat, upto: nat)
    requires RowsOf(rows, |rows|) && p < |rows| && upto <= |rows|
    ensures FoldRows(kind, rows, Unit(|rows|, p), upto)
         == FoldRows(kind, rows, Unit(|rows|, p), if upto <= p then 0 else p + 1)
  {
    if upto != 0 && upto != p + 1 {
      FoldSkips(kind, rows, p, upto - 1);
    }
  }

  /** A homomorphism with the same generator images is what the rows compute. */
  lemma RowsAreHomomorphism(kind: BasisKind, rows: seq<Row>, f: Key -> Phased)
    requires RowsOf(rows, |rows|)
    requires Homomorphism(kind, |rows|, f)
    requires forall p :: 0 <= p < |rows| ==> f(Unit(|rows|, p)) == RowPhased(rows[p])
    ensures HomRows(kind, rows)
    ensures forall m: Key | |m| == |rows| :: Image(kind, rows, m) == f(m)
  {
    hide PhaseExp, Xor, Mul, Plus, Image;
    var n, g := |rows|, MapOf(kind, rows);
    forall m: Key | |m| == n ensures Image(kind, rows, m) == f(m) && g(m) == f(m) {
      ImageExtends(kind, rows, f, m);
    }
    forall a: Key, b: Key | IsKey(a, n) && IsKey(b, n)
      ensures Mul(kind, g(a), g(b)) == Shift(PhaseExp(kind, a, b), g(Xor(a, b)))
    {
      assert g(Xor(a, b)) == f(Xor(a, b));
    }
  }

  lemma IdentityIsHomomorphism(kind: BasisKind, n: nat)
    requires n % 2 == 0
    ensures HomRows(kind, IdentityRows(n))
    ensures forall m: Key | |m| == n :: Image(kind, IdentityRows(n), m) == Phased(0, m)
  {
    var f := (m: Key) => Phased(0, m);
    RowsAreHomomorphism(kind, IdentityRows(n), f);
  }

  // ---- conjugation by one Clifford rotation -------------------------------------

  /**
   The exact action of a rotation with cosine 0 about `g`: a string that anticommutes with
   `g` goes to `i^k g m`, every other string stays. `k` is 1 for sine 1 and 3 for sine -1.
   */
  function CliffordImage(kind: BasisKind, g: Key, k: Exp, m: Key): Phased
    requires |g| == |m| && |g| % 2 == 0
  {
    if Anticommutes(kind, g, m) then Shift(k, Mul(kind, Phased(0, g), Phased(0, m))) else Phased(0, m)
  }

  function CliffordMap(kind: BasisKind, g: Key, k: Exp): Key -> Phased
  {
    (m: Key) => if |m| == |g| && |g| % 2 == 0 then CliffordImage(kind, g, k, m) else Phased(0, m)
  }

  /** Moves the generator of a second branch to the front. */
  lemma SwapGenerator(kind: BasisKind, g: Key, a: Key, b: Key)
    requires |g| == |a| == |b| && |g| % 2 == 0
    ensures Mul(kind, Phased(0, a), Mul(kind, Phased(0, g), Phased(0, b)))
         == Shift(if Anticommutes(kind, g, a) then 2 else 0,
                  Mul(kind, Phased(0, g), Mul(kind, Phased(0, a), Phased(0, b))))
  {
    hide PhaseExp, Anticommutes, Xor, Zero;
    var x, y, z := Phased(0, a), Phased(0, g), Phased(0, b);
    MulAssoc(kind, x, y, z);
    MulAssoc(kind, y, x, z);
    PhaseSwap(kind, g, a);
    XorComm(g, a);
  }

  lemma GeneratorTwice(kind: BasisKind, g: Key, x: Phased)
    requires |g| == |x.key| && |g| % 2 == 0
    ensures Mul(kind, Phased(0, g), Mul(kind, Phased(0, g), x)) == x
  {
    hide PhaseExp, Anticommutes, Xor, Zero;
    PhaseTwice(kind, g, x.key);
    XorCancel(g, x.key);
  }

  /** Conjugation by a Clifford rotation is a homomorphism, phases included. */
  lemma CliffordIsHomomorphism(kind: BasisKind, g: Key, k: Exp)
    requires |g| % 2 == 0 && (k == 1 || k == 3)
    ensures Homomorphism(kind, |g|, CliffordMap(kind, g, k))
  {
    var n, f := |g|, CliffordMap(kind, g, k);
    forall a: Key, b: Key | IsKey(a, n) && IsKey(b, n)
      ensures Mul(kind, f(a), f(b)) == Shift(PhaseExp(kind, a, b), f(Xor(a, b)))
    {
      CliffordProduct(kind, g, k, a, b);
    }
  }

  lemma CliffordProduct(kind: BasisKind, g: Key, k: Exp, a: Key, b: Key)
    requires |g| == |a| == |b| && |g| % 2 == 0 && (k == 1 || k == 3)
    ensures Mul(kind, CliffordImage(kind, g, k, a), CliffordImage(kind, g, k, b))
         == Shift(PhaseExp(kind, a, b), CliffordImage(kind, g, k, Xor(a, b)))
  {
    hide PhaseExp, Anticommutes, Xor, Mul, Plus;
    var x, y, z, ab := Phased(0, g), Phased(0, a), Phased(0, b), Phased(0, Xor(a, b));
    var e := PhaseExp(kind, a, b);
    MulPlain(kind, a, b);
    AnticommutesLinear(kind, g, a, b);
    MulShift(kind, 0, e, x, ab);
    if Anticommutes(kind, g, a) {
      var xy, xz := Mul(kind, x, y), Mul(kind, x, z);
      MulAssoc(kind, x, y, z);
      if Anticommutes(kind, g, b) {
        MulShift(kind, k, k, xy, xz);
        MulAssoc(kind, x, y, xz);
        SwapGenerator(kind, g, a, b);
        MulShift(kind, 0, 2, x, Mul(kind, x, Mul(kind, y, z)));
        GeneratorTwice(kind, g, Mul(kind, y, z));
        ShiftShift(Plus(k, k), 2, Mul(kind, y, z));
        PlusHalf(k);
      } else {
        MulShift(kind, k, 0, xy, z);
        ShiftTwice(k, e, Mul(kind, x, ab));
      }
    } else if Anticommutes(kind, g, b) {
      MulShift(kind, 0, k, y, Mul(kind, x, z));
      SwapGenerator(kind, g, a, b);
      ShiftShift(0, 0, Mul(kind, x, Mul(kind, y, z)));
      ShiftTwice(k, e, Mul(kind, x, ab));
    }
  }

  lemma PlusHalf(k: Exp)
    requires k == 1 || k == 3
    ensures Plus(Plus(k, k), 2) == 0
  {
  }

  lemma ShiftTwice(k: Exp, e: Exp, x: Phased)
    ensures Shift(k, Shift(e, x)) == Shift(e, Shift(k, x))
  {
    ShiftShift(k, e, x);
    ShiftShift(e, k, x);
    PlusLaws(k, e, 0);
  }

  lemma MulPlain(kind: BasisKind, a: Key, b: Key)
    requires |a| == |b| && |a| % 2 == 0
    ensures Mul(kind, Phased(0, a), Phased(0, b)) == Shift(PhaseExp(kind, a, b), Phased(0, Xor(a, b)))
  {
  }

  /** The opposite rotation undoes it. */
  lemma CliffordInverse(kind: BasisKind, g: Key, k: Exp, m: Key)
    requires |g| == |m| && |g| % 2 == 0 && (k == 1 || k == 3)
    ensures var x := CliffordImage(kind, g, k, m);
      Shift(x.exp, CliffordImage(kind, g, 4 - k, x.key)) == Phased(0, m)
  {
    hide PhaseExp, Anticommutes, Xor, Zero;
    AnticommutesBranch(kind, g, m);
    GeneratorTwice(kind, g, Phased(0, m));
    PhaseTwice(kind, g, m);
  }
}
