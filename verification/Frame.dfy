/**
 Frames: a deferred Clifford in both directions, what one rotation and one composition make
 of it, and when a step keeps the weight of every string.
 */
module Frames {
  import opened BasisStrings
  import opened BasisAlgebra
  import opened TableauRows

  /** The readout map and the generator map, which is its inverse. */
  datatype Frame = Frame(readout: seq<Row>, generator: seq<Row>)

  function IdentityFrame(n: nat): Frame { Frame(IdentityRows(n), IdentityRows(n)) }

  function ApplyTo(kind: BasisKind, rows: seq<Row>, x: Phased): (r: Phased)
    requires RowsOf(rows, |x.key|)
    ensures |r.key| == |x.key|
  {
    Shift(x.exp, Image(kind, rows, x.key))
  }

  /** Going through `there` and then through `back` returns `m` with its sign. */
  predicate Undoes(kind: BasisKind, there: seq<Row>, back: seq<Row>, m: Key)
    requires RowsOf(there, |m|) && RowsOf(back, |m|)
  {
    ApplyTo(kind, back, Image(kind, there, m)) == Phased(0, m)
  }

  /** Both maps are homomorphisms of phased operators, and each undoes the other. */
  ghost predicate FrameOk(kind: BasisKind, n: nat, f: Frame)
  {
    && RowsOf(f.readout, n) && RowsOf(f.generator, n)
    && HomRows(kind, f.readout) && HomRows(kind, f.generator)
    && UndoesAll(kind, n, f.readout, f.generator)
    && UndoesAll(kind, n, f.generator, f.readout)
  }

  ghost predicate UndoesAll(kind: BasisKind, n: nat, there: seq<Row>, back: seq<Row>)
    requires RowsOf(there, n) && RowsOf(back, n)
  {
    forall m: Key {:trigger Undoes(kind, there, back, m)} | |m| == n :: Undoes(kind, there, back, m)
  }

  lemma IdentityFrameOk(kind: BasisKind, n: nat)
    requires n % 2 == 0
    ensures FrameOk(kind, n, IdentityFrame(n))
  {
    IdentityIsHomomorphism(kind, n);
  }

  // ---- laws of a homomorphic row list -------------------------------------------

  lemma RowsMultiply(kind: BasisKind, rows: seq<Row>, a: Key, b: Key)
    requires HomRows(kind, rows) && |a| == |b| == |rows|
    ensures Mul(kind, Image(kind, rows, a), Image(kind, rows, b))
         == Shift(PhaseExp(kind, a, b), Image(kind, rows, Xor(a, b)))
  {
    hide Mul, Image, PhaseExp, Xor;
    var f := MapOf(kind, rows);
    assert Mul(kind, f(a), f(b)) == Shift(PhaseExp(kind, a, b), f(Xor(a, b)));
  }

  lemma RowsSigned(kind: BasisKind, rows: seq<Row>, a: Key)
    requires HomRows(kind, rows) && |a| == |rows|
    ensures Image(kind, rows, a).exp == 0 || Image(kind, rows, a).exp == 2
    ensures RowPhased(Applied(kind, rows, a)) == Image(kind, rows, a)
  {
    hide Image;
    HomomorphismIsSigned(kind, |rows|, MapOf(kind, rows), a);
  }

  /** The image of a phased product is the product of the images. */
  lemma ApplyToMul(kind: BasisKind, rows: seq<Row>, x: Phased, y: Phased)
    requires HomRows(kind, rows) && |x.key| == |y.key| == |rows|
    ensures Mul(kind, ApplyTo(kind, rows, x), ApplyTo(kind, rows, y)) == ApplyTo(kind, rows, Mul(kind, x, y))
  {
    hide Image, PhaseExp, Xor, Plus;
    var e := PhaseExp(kind, x.key, y.key);
    var ix, iy := Image(kind, rows, x.key), Image(kind, rows, y.key);
    RowsMultiply(kind, rows, x.key, y.key);
    MulShift(kind, x.exp, y.exp, ix, iy);
    ShiftShift(Plus(x.exp, y.exp), e, Image(kind, rows, Xor(x.key, y.key)));
  }

  lemma ApplyToShift(kind: BasisKind, rows: seq<Row>, k: Exp, x: Phased)
    requires RowsOf(rows, |x.key|)
    ensures ApplyTo(kind, rows, Shift(k, x)) == Shift(k, ApplyTo(kind, rows, x))
  {
    hide Image, Plus;
    ShiftShift(k, x.exp, Image(kind, rows, x.key));
  }

  // ---- composition --------------------------------------------------------------

  function TimesSign(r: Row, sign: real): Row { Row(r.image, r.sign * sign) }

  /** The rows of `inner` pushed through `outer`, signs multiplied. */
  function ComposeRows(kind: BasisKind, outer: seq<Row>, inner: seq<Row>): (rows: seq<Row>)
    requires RowsOf(outer, |inner|) && RowsOf(inner, |inner|)
    ensures RowsOf(rows, |inner|)
  {
    seq(|inner|, p requires 0 <= p < |inner| && RowsOf(outer, |inner|) && RowsOf(inner, |inner|) =>
      TimesSign(Applied(kind, outer, inner[p].image), inner[p].sign))
  }

  lemma ComposedSign(r: real, s: real)
    requires IsSign(r) && IsSign(s)
    ensures IsSign(r * s) && SignExp(r * s) == Plus(SignExp(s), SignExp(r))
  {
  }

  function ThroughBoth(kind: BasisKind, outer: seq<Row>, inner: seq<Row>): Key -> Phased
  {
    (m: Key) => if RowsOf(inner, |m|)
      && RowsOf(outer, |m|) then ApplyTo(kind, outer, Image(kind, inner, m)) else Phased(0, m)
  }

  lemma ThroughBothMultiplies(kind: BasisKind, outer: seq<Row>, inner: seq<Row>, a: Key, b: Key)
    requires |outer| == |inner| == |a| == |b| && HomRows(kind, outer) && HomRows(kind, inner)
    ensures Mul(kind, ApplyTo(kind, outer, Image(kind, inner, a)), ApplyTo(kind, outer, Image(kind, inner, b)))
         == Shift(PhaseExp(kind, a, b), ApplyTo(kind, outer, Image(kind, inner, Xor(a, b))))
  {
    hide Image, PhaseExp, Xor, Mul, Plus, Homomorphism, ApplyTo;
    ApplyToMul(kind, outer, Image(kind, inner, a), Image(kind, inner, b));
    RowsMultiply(kind, inner, a, b);
    ApplyToShift(kind, outer, PhaseExp(kind, a, b), Image(kind, inner, Xor(a, b)));
  }

  lemma ThroughBothHomomorphism(kind: BasisKind, outer: seq<Row>, inner: seq<Row>)
    requires |outer| == |inner| && HomRows(kind, outer) && HomRows(kind, inner)
    ensures Homomorphism(kind, |inner|, ThroughBoth(kind, outer, inner))
  {
    hide Image, PhaseExp, Xor, Mul, Plus, ApplyTo, HomRows;
    assert RowsOf(outer, |inner|) && RowsOf(inner, |inner|) by { RowsShape(kind, outer); RowsShape(kind, inner); }
    var n, f := |inner|, ThroughBoth(kind, outer, inner);
    forall a: Key, b: Key | IsKey(a, n) && IsKey(b, n)
      ensures Mul(kind, f(a), f(b)) == Shift(PhaseExp(kind, a, b), f(Xor(a, b)))
    {
      ThroughBothMultiplies(kind, outer, inner, a, b);
    }
  }

  lemma RowsShape(kind: BasisKind, rows: seq<Row>)
    requires HomRows(kind, rows)
    ensures RowsOf(rows, |rows|)
  {
  }

  lemma ComposedRow(kind: BasisKind, outer: seq<Row>, row: Row)
    requires HomRows(kind, outer) && |row.image| == |outer| && IsSign(row.sign)
    requires RowsOf(outer, |row.image|)
    ensures RowPhased(TimesSign(Applied(kind, outer, row.image), row.sign)) == ApplyTo(kind, outer, RowPhased(row))
  {
    hide Image, HomRows, Plus, SignExp, IsSign;
    RowsSigned(kind, outer, row.image);
    ComposedSign(Applied(kind, outer, row.image).sign, row.sign);
  }

  lemma ComposedAt(kind: BasisKind, outer: seq<Row>, inner: seq<Row>, p: nat)
    requires RowsOf(outer, |inner|) && RowsOf(inner, |inner|) && p < |inner|
    ensures ComposeRows(kind, outer, inner)[p] == TimesSign(Applied(kind, outer, inner[p].image), inner[p].sign)
  {
    hide Applied, TimesSign;
  }

  lemma ThroughBothUnit(kind: BasisKind, outer: seq<Row>, inner: seq<Row>, p: nat)
    requires |outer| == |inner| && HomRows(kind, outer) && RowsOf(inner, |inner|) && p < |inner|
    requires RowsOf(outer, |inner|)
    ensures ThroughBoth(kind, outer, inner)(Unit(|inner|, p)) == RowPhased(ComposeRows(kind, outer, inner)[p])
  {
    hide Image, HomRows, Plus, SignExp, IsSign, ApplyTo, Applied, RowPhased, ComposeRows, Unit, TimesSign;
    ImageOfUnit(kind, inner, p);
    ComposedAt(kind, outer, inner, p);
    ComposedRow(kind, outer, inner[p]);
  }

  /** Composing rows composes the maps, on every string and with the sign. */
  lemma ComposeRowsIsComposition(kind: BasisKind, outer: seq<Row>, inner: seq<Row>, m: Key)
    requires |outer| == |inner| == |m| && HomRows(kind, outer) && HomRows(kind, inner)
    ensures HomRows(kind, ComposeRows(kind, outer, inner))
    ensures Image(kind, ComposeRows(kind, outer, inner), m) == ApplyTo(kind, outer, Image(kind, inner, m))
  {
    hide Image, Homomorphism, ApplyTo, ComposeRows, RowPhased;
    var n, f := |inner|, ThroughBoth(kind, outer, inner);
    var rows := ComposeRows(kind, outer, inner);
    ThroughBothHomomorphism(kind, outer, inner);
    forall p | 0 <= p < n ensures f(Unit(n, p)) == RowPhased(rows[p]) {
      ThroughBothUnit(kind, outer, inner, p);
    }
    RowsAreHomomorphism(kind, rows, f);
  }

  /** What composing `next` after `f` leaves: readout forward, generator backward. */
  function ComposeFrames(kind: BasisKind, f: Frame, next: Frame): (r: Frame)
    requires RowsOf(f.readout, |f.readout|) && RowsOf(f.generator, |f.readout|)
    requires RowsOf(next.readout, |f.readout|) && RowsOf(next.generator, |f.readout|)
    ensures RowsOf(r.readout, |f.readout|) && RowsOf(r.generator, |f.readout|)
  {
    if next.readout == IdentityRows(|next.readout|) then f
    else Frame(ComposeRows(kind, next.readout, f.readout), ComposeRows(kind, f.generator, next.generator))
  }

  /** With an identity readout the generator map is the identity too. */
  lemma IdentityBothWays(kind: BasisKind, n: nat, f: Frame, m: Key)
    requires FrameOk(kind, n, f) && f.readout == IdentityRows(n) && |m| == n
    ensures Image(kind, f.readout, m) == Phased(0, m)
    ensures Image(kind, f.generator, m) == Phased(0, m)
  {
    hide Image, HomRows, IdentityRows, Plus;
    IdentityIsHomomorphism(kind, n);
    assert Undoes(kind, f.readout, f.generator, m);
    PlusZero(Image(kind, f.generator, m).exp);
  }

  /** Composition composes both maps, the generator map in the opposite order. */
  lemma ComposeFramesImage(kind: BasisKind, n: nat, f: Frame, next: Frame, m: Key)
    requires FrameOk(kind, n, f) && FrameOk(kind, n, next) && |m| == n
    ensures var c := ComposeFrames(kind, f, next);
      && RowsOf(c.readout, n) && RowsOf(c.generator, n)
      && HomRows(kind, c.readout) && HomRows(kind, c.generator)
      && Image(kind, c.readout, m) == ApplyTo(kind, next.readout, Image(kind, f.readout, m))
      && Image(kind, c.generator, m) == ApplyTo(kind, f.generator, Image(kind, next.generator, m))
  {
    hide Image, HomRows, IdentityRows, ComposeRows, Plus, UndoesAll;
    if next.readout == IdentityRows(n) {
      IdentityBothWays(kind, n, next, m);
      IdentityBothWays(kind, n, next, Image(kind, f.readout, m).key);
      PlusZero(Image(kind, f.readout, m).exp);
      PlusZero(Image(kind, f.generator, m).exp);
    } else {
      hide ApplyTo;
      ComposeRowsIsComposition(kind, next.readout, f.readout, m);
      ComposeRowsIsComposition(kind, f.generator, next.generator, m);
    }
  }

  /** Composition keeps the frame lawful. */
  lemma ComposeFramesOk(kind: BasisKind, n: nat, f: Frame, next: Frame)
    requires FrameOk(kind, n, f) && FrameOk(kind, n, next)
    ensures FrameOk(kind, n, ComposeFrames(kind, f, next))
  {
    hide Image, HomRows, ApplyTo, ComposeFrames, Undoes;
    var c := ComposeFrames(kind, f, next);
    ComposeFramesImage(kind, n, f, next, Zero(n));
    forall m: Key | |m| == n
      ensures Undoes(kind, c.readout, c.generator, m) && Undoes(kind, c.generator, c.readout, m)
    {
      ComposeUndoes(kind, n, f, next, m);
    }
  }

  lemma ComposeUndoes(kind: BasisKind, n: nat, f: Frame, next: Frame, m: Key)
    requires FrameOk(kind, n, f) && FrameOk(kind, n, next) && |m| == n
    ensures var c := ComposeFrames(kind, f, next);
      && RowsOf(c.readout, n) && RowsOf(c.generator, n)
      && Undoes(kind, c.readout, c.generator, m) && Undoes(kind, c.generator, c.readout, m)
  {
    hide Image, HomRows, ApplyTo, ComposeFrames, Undoes;
    var c := ComposeFrames(kind, f, next);
    ComposeFramesImage(kind, n, f, next, m);
    ComposeFramesImage(kind, n, f, next, Image(kind, c.readout, m).key);
    ComposeFramesImage(kind, n, f, next, Image(kind, c.generator, m).key);
    assert Undoes(kind, next.readout, next.generator, Image(kind, f.readout, m).key);
    assert Undoes(kind, f.generator, f.readout, Image(kind, next.generator, m).key);
    UndoesTwice(kind, f.readout, next.readout, f.generator, next.generator, c.readout, c.generator, m);
    UndoesTwice(kind, next.generator, f.generator, next.readout, f.readout, c.generator, c.readout, m);
  }

  /** Two steps there and two steps back, when each single step can be undone. */
  lemma UndoesTwice(kind: BasisKind, t1: seq<Row>, t2: seq<Row>, b1: seq<Row>, b2: seq<Row>,
                    there: seq<Row>, back: seq<Row>, m: Key)
    requires RowsOf(t1, |m|) && RowsOf(t2, |m|) && RowsOf(b1, |m|) && RowsOf(b2, |m|)
    requires RowsOf(there, |m|) && RowsOf(back, |m|)
    requires Undoes(kind, t1, b1, m) && Undoes(kind, t2, b2, Image(kind, t1, m).key)
    requires Image(kind, there, m) == ApplyTo(kind, t2, Image(kind, t1, m))
    requires var k := Image(kind, there, m).key; Image(kind, back, k) == ApplyTo(kind, b1, Image(kind, b2, k))
    ensures Undoes(kind, there, back, m)
  {
    hide Image, Plus;
    var x1 := Image(kind, t1, m);
    var x2 := Image(kind, t2, x1.key);
    var x := Image(kind, there, m);
    assert x == Shift(x1.exp, x2);
    calc {
      ApplyTo(kind, back, x);
      Shift(x.exp, ApplyTo(kind, b1, Image(kind, b2, x.key)));
      { ApplyToShift(kind, b1, x.exp, Image(kind, b2, x.key)); }
      ApplyTo(kind, b1, ApplyTo(kind, b2, x));
      { ApplyToShift(kind, b2, x1.exp, x2); PlusZero(x1.exp); }
      ApplyTo(kind, b1, x1);
    }
  }

  // ---- one Clifford rotation ----------------------------------------------------

  /** The row of position `p`: untouched when it commutes, else the signed sine branch. */
  function RotationRow(kind: BasisKind, g: Key, s: real, p: nat): Row
    requires |g| % 2 == 0 && p < |g|
  {
    var u := Unit(|g|, p);
    if Anticommutes(kind, g, u) then Row(Xor(g, u), s * -PhaseIm(PhaseExp(kind, g, u))) else Row(u, 1.0)
  }

  function RotationRows(kind: BasisKind, g: Key, s: real): (rows: seq<Row>)
    requires |g| % 2 == 0 && IsSign(s)
    ensures RowsOf(rows, |g|)
    ensures forall p :: 0 <= p < |g| ==> rows[p] == RotationRow(kind, g, s, p)
  {
    assert forall p :: 0 <= p < |g| ==> IsSign(RotationRow(kind, g, s, p).sign) by {
      forall p | 0 <= p < |g| ensures IsSign(RotationRow(kind, g, s, p).sign) {
        AnticommutesIsImaginary(kind, g, Unit(|g|, p));
      }
    }
    seq(|g|, p requires 0 <= p < |g| && |g| % 2 == 0 => RotationRow(kind, g, s, p))
  }

  function RotationFrame(kind: BasisKind, g: Key, s: real): Frame
    requires |g| % 2 == 0 && IsSign(s)
  {
    Frame(RotationRows(kind, g, s), RotationRows(kind, g, -s))
  }

  /** The power of i a Clifford rotation multiplies its branches with. */
  function CliffordExp(s: real): Exp { if s == 1.0 then 1 else 3 }

  lemma BranchSign(s: real, e: Exp)
    requires IsSign(s) && Odd(e)
    ensures SignExp(s * -PhaseIm(e)) == Plus(CliffordExp(s), e)
  {
  }

  /** The tableau of a rotation is conjugation by it, in both directions. */
  lemma RotationRowsAreConjugation(kind: BasisKind, g: Key, s: real, m: Key)
    requires |g| == |m| && |g| % 2 == 0 && IsSign(s)
    ensures HomRows(kind, RotationRows(kind, g, s))
    ensures Image(kind, RotationRows(kind, g, s), m) == CliffordImage(kind, g, CliffordExp(s), m)
  {
    hide Image, Xor, PhaseExp, Mul, Plus, Anticommutes;
    var n, rows, f := |g|, RotationRows(kind, g, s), CliffordMap(kind, g, CliffordExp(s));
    CliffordIsHomomorphism(kind, g, CliffordExp(s));
    forall p | 0 <= p < n ensures f(Unit(n, p)) == RowPhased(rows[p]) {
      var u := Unit(n, p);
      if Anticommutes(kind, g, u) {
        AnticommutesIsImaginary(kind, g, u);
        MulPlain(kind, g, u);
        BranchSign(s, PhaseExp(kind, g, u));
        PlusZero(PhaseExp(kind, g, u));
      }
    }
    RowsAreHomomorphism(kind, rows, f);
  }

  lemma RotationFrameOk(kind: BasisKind, g: Key, s: real)
    requires |g| % 2 == 0 && IsSign(s)
    ensures FrameOk(kind, |g|, RotationFrame(kind, g, s))
  {
    hide Image, HomRows, RotationRows, Undoes;
    RotationRowsAreConjugation(kind, g, s, g);
    RotationRowsAreConjugation(kind, g, -s, g);
    forall m: Key | |m| == |g|
      ensures Undoes(kind, RotationRows(kind, g, s), RotationRows(kind, g, -s), m)
      ensures Undoes(kind, RotationRows(kind, g, -s), RotationRows(kind, g, s), m)
    {
      RotationUndoes(kind, g, s, m);
      RotationUndoes(kind, g, -s, m);
    }
  }

  lemma RotationUndoes(kind: BasisKind, g: Key, s: real, m: Key)
    requires |g| == |m| && |g| % 2 == 0 && IsSign(s)
    ensures Undoes(kind, RotationRows(kind, g, s), RotationRows(kind, g, -s), m)
  {
    hide Image, CliffordImage, HomRows, RotationRows;
    RotationRowsAreConjugation(kind, g, s, m);
    RotationRowsAreConjugation(kind, g, -s, Image(kind, RotationRows(kind, g, s), m).key);
    CliffordInverse(kind, g, CliffordExp(s), m);
  }

  // ---- every frame a run can build ----------------------------------------------

  /** One deferred step: a generator and the sine of its rotation. */
  datatype Deferred = Deferred(gen: Key, sine: real)

  predicate DeferredOf(steps: seq<Deferred>, n: nat)
  {
    n % 2 == 0 && forall i :: 0 <= i < |steps| ==> |steps[i].gen| == n && IsSign(steps[i].sine)
  }

  /** The frame after deferring `steps` in order, starting from the identity. */
  ghost function FrameAfter(kind: BasisKind, n: nat, steps: seq<Deferred>): (f: Frame)
    requires DeferredOf(steps, n)
    ensures FrameOk(kind, n, f)
  {
    if steps == [] then
      IdentityFrameOk(kind, n);
      IdentityFrame(n)
    else
      var last := |steps| - 1;
      var f := FrameAfter(kind, n, steps[..last]);
      RotationFrameOk(kind, steps[last].gen, steps[last].sine);
      ComposeFramesOk(kind, n, f, RotationFrame(kind, steps[last].gen, steps[last].sine));
      ComposeFrames(kind, f, RotationFrame(kind, steps[last].gen, steps[last].sine))
  }

  /** The same steps applied one after the other to a phased operator. */
  function ConjugateAll(kind: BasisKind, n: nat, steps: seq<Deferred>, x: Phased): (r: Phased)
    requires DeferredOf(steps, n) && |x.key| == n
    ensures |r.key| == n
  {
    if steps == [] then x
    else
      var y := ConjugateAll(kind, n, steps[..|steps| - 1], x);
      Shift(y.exp, CliffordImage(kind, steps[|steps| - 1].gen, CliffordExp(steps[|steps| - 1].sine), y.key))
  }

  lemma {:induction false} FrameReadout(kind: BasisKind, n: nat, steps: seq<Deferred>, a: Key)
    requires DeferredOf(steps, n) && |a| == n
    ensures Image(kind, FrameAfter(kind, n, steps).readout, a) == ConjugateAll(kind, n, steps, Phased(0, a))
  {
    hide Image, CliffordImage, HomRows, ComposeFrames, RotationRows;
    if steps == [] {
      IdentityFrameOk(kind, n);
      IdentityBothWays(kind, n, IdentityFrame(n), a);
    } else {
      var last := steps[|steps| - 1];
      var f := FrameAfter(kind, n, steps[..|steps| - 1]);
      FrameReadout(kind, n, steps[..|steps| - 1], a);
      RotationFrameOk(kind, last.gen, last.sine);
      ComposeFramesImage(kind, n, f, RotationFrame(kind, last.gen, last.sine), a);
      RotationRowsAreConjugation(kind, last.gen, last.sine, Image(kind, f.readout, a).key);
    }
  }

  /**
   Through any sequence of rotations and compositions the readout map is conjugation by
   every deferred step in order, the generator map undoes it, and both keep products.
   */
  lemma {:induction false} ReachableFrame(kind: BasisKind, n: nat, steps: seq<Deferred>, a: Key, b: Key)
    requires DeferredOf(steps, n) && |a| == |b| == n
    ensures var f := FrameAfter(kind, n, steps);
      && Image(kind, f.readout, a) == ConjugateAll(kind, n, steps, Phased(0, a))
      && ApplyTo(kind, f.generator, Image(kind, f.readout, a)) == Phased(0, a)
      && ApplyTo(kind, f.readout, Image(kind, f.generator, a)) == Phased(0, a)
      && Mul(kind, Image(kind, f.readout, a), Image(kind, f.readout, b))
         == Shift(PhaseExp(kind, a, b), Image(kind, f.readout, Xor(a, b)))
      && Mul(kind, Image(kind, f.generator, a), Image(kind, f.generator, b))
         == Shift(PhaseExp(kind, a, b), Image(kind, f.generator, Xor(a, b)))
  {
    hide Image, Xor, PhaseExp, Plus, Mul, HomRows, FrameAfter, ConjugateAll;
    var f := FrameAfter(kind, n, steps);
    assert Undoes(kind, f.readout, f.generator, a) && Undoes(kind, f.generator, f.readout, a);
    RowsMultiply(kind, f.readout, a, b);
    RowsMultiply(kind, f.generator, a, b);
    FrameReadout(kind, n, steps, a);
  }

  // ---- weight -------------------------------------------------------------------

  /** The test that decides whether a Clifford may be deferred under a weight cutoff. */
  predicate ChangesSupport(rows: seq<Row>)
    requires RowsOf(rows, |rows|)
  {
    exists p :: 0 <= p < |rows| && Support(rows[p].image) != Support(Unit(|rows|, p))
  }

  lemma {:induction false} OutsideSupport(g: Key, m: Key, q: nat)
    requires |g| == |m| && |g| % 2 == 0 && 2 * q <= |g| && SupportFrom(g, q) == 0
    ensures SupportFrom(Xor(g, m), q) == SupportFrom(m, q) && CountAndFrom(m, PairSwap(g), 2 * q) == 0
    decreases |g| - 2 * q
  {
    if 2 * q < |g| {
      OutsideSupport(g, m, q + 1);
      assert CountAndFrom(m, PairSwap(g), 2 * q + 1) == 0;
    }
  }

  lemma {:induction false} OneUnitFrom(g: Key, m: Key, q: nat)
    requires |g| == |m| && |g| % 2 == 0 && 2 * q <= |g|
    requires SupportFrom(g, q) <= 1 && Odd(CountAndFrom(m, PairSwap(g), 2 * q))
    ensures SupportFrom(Xor(g, m), q) == SupportFrom(m, q)
    decreases |g| - 2 * q
  {
    hide Xor, PairSwap, CountAndFrom;
    if 2 * q < |g| {
      UnitCount(g, m, q);
      UnitXor(g, m, q);
      if g[2 * q] || g[2 * q + 1] {
        OutsideSupport(g, m, q + 1);
        assert (m[2 * q + 1] && g[2 * q]) || (m[2 * q] && g[2 * q + 1]);
      } else {
        OneUnitFrom(g, m, q + 1);
      }
    } else {
      assert CountAndFrom(m, PairSwap(g), 2 * q) == 0 by { NoneLeft(g, m); }
    }
  }

  lemma {:induction false} UnitCount(g: Key, m: Key, q: nat)
    requires |g| == |m| && |g| % 2 == 0 && 2 * q < |g|
    ensures CountAndFrom(m, PairSwap(g), 2 * q)
         == CountAndFrom(m, PairSwap(g), 2 * (q + 1)) + Bit(m[2 * q + 1] && g[2 * q]) + Bit(m[2 * q] && g[2 * q + 1])
  {
    assert CountAndFrom(m, PairSwap(g), 2 * q + 1)
      == CountAndFrom(m, PairSwap(g), 2 * q + 2) + Bit(m[2 * q + 1] && g[2 * q]);
  }

  lemma {:induction false} NoneLeft(g: Key, m: Key)
    requires |g| == |m| && |g| % 2 == 0
    ensures CountAndFrom(m, PairSwap(g), |g|) == 0
  {
  }

  lemma UnitXor(g: Key, m: Key, q: nat)
    requires |g| == |m| && |g| % 2 == 0 && 2 * q < |g|
    ensures Xor(g, m)[2 * q] == (g[2 * q] != m[2 * q]) && Xor(g, m)[2 * q + 1] == (g[2 * q + 1] != m[2 * q + 1])
  {
  }

  /** A Pauli generator on at most one unit keeps the weight of everything it branches. */
  lemma OneUnitKeepsSupport(g: Key, m: Key)
    requires |g| == |m| && |g| % 2 == 0 && Support(g) <= 1 && Anticommutes(Pauli, g, m)
    ensures Support(Xor(g, m)) == Support(m)
  {
    OneUnitFrom(g, m, 0);
  }

  lemma {:induction false} UnitSupportFrom(n: nat, p: nat, q: nat)
    requires n % 2 == 0 && p < n && 2 * q <= n
    ensures SupportFrom(Unit(n, p), q) == if 2 * q <= p then 1 else 0
    decreases n - 2 * q
  {
    if 2 * q < n {
      UnitSupportFrom(n, p, q + 1);
    }
  }

  lemma {:induction false} OccupiedUnit(g: Key, q: nat) returns (u: nat)
    requires |g| % 2 == 0 && 2 * q <= |g| && SupportFrom(g, q) > 0
    ensures 2 * u < |g| && (g[2 * u] || g[2 * u + 1])
    decreases |g| - 2 * q
  {
    if g[2 * q] || g[2 * q + 1] {
      u := q;
    } else {
      u := OccupiedUnit(g, q + 1);
    }
  }

  lemma {:induction false} UnitAnticommutesFrom(g: Key, p: nat, j: nat)
    requires |g| % 2 == 0 && p < |g| && j <= |g|
    ensures CountAndFrom(Unit(|g|, p), PairSwap(g), j) == Bit(j <= p && PairSwap(g)[p])
    decreases |g| - j
  {
    if j < |g| {
      UnitAnticommutesFrom(g, p, j + 1);
    }
  }

  /** For Pauli strings the test is exact: it fires iff the generator spans two units. */
  lemma ChangesSupportIffTwoUnits(g: Key, s: real)
    requires |g| % 2 == 0 && IsSign(s)
    ensures ChangesSupport(RotationFrame(Pauli, g, s).readout) <==> Support(g) >= 2
  {
    var n, rows := |g|, RotationRows(Pauli, g, s);
    if Support(g) >= 2 {
      var u := OccupiedUnit(g, 0);
      var p := if g[2 * u + 1] then 2 * u else 2 * u + 1;
      var e := Unit(n, p);
      UnitAnticommutesFrom(g, p, 0);
      assert Anticommutes(Pauli, g, e);
      AnticommutesSymmetric(Pauli, g, e);
      UnitSupportFrom(n, p, 0);
      OneUnitKeepsSupport(e, g);
      XorComm(e, g);
      assert Support(rows[p].image) != Support(e);
    } else {
      forall p | 0 <= p < n ensures Support(rows[p].image) == Support(Unit(n, p)) {
        if Anticommutes(Pauli, g, Unit(n, p)) {
          OneUnitKeepsSupport(g, Unit(n, p));
        }
      }
    }
  }

  /** A Pauli Clifford the test clears keeps the weight of every string. */
  lemma ClearedStepKeepsWeight(g: Key, s: real, m: Key)
    requires |g| == |m| && |g| % 2 == 0 && IsSign(s)
    requires !ChangesSupport(RotationFrame(Pauli, g, s).readout)
    ensures Support(Image(Pauli, RotationFrame(Pauli, g, s).readout, m).key) == Support(m)
  {
    hide Image, RotationRows, ChangesSupport, Anticommutes, PhaseExp, Support, HomRows, Plus;
    ChangesSupportIffTwoUnits(g, s);
    RotationRowsAreConjugation(Pauli, g, s, m);
    if Anticommutes(Pauli, g, m) {
      OneUnitKeepsSupport(g, m);
    }
  }
}
