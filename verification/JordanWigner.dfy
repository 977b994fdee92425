/**
 The Jordan-Wigner map between Pauli strings and Majorana monomials.

 Both sides are keys: position 2q holds the X component (the even mode) of unit q, position
 2q + 1 the Z component (the odd mode). The string of Zs of a mode runs over the units below
 it, so both directions walk the units from the highest one down, carrying a parity.
 */
module JordanWigner {
  import opened BasisStrings
  import opened BasisAlgebra

  /** Parity of the X components at or above unit `q`. */
  function XAbove(p: Key, q: nat): bool
    requires |p| % 2 == 0 && 2 * q <= |p|
    decreases |p| - 2 * q
  {
    if 2 * q == |p| then false else XAbove(p, q + 1) != p[2 * q]
  }

  /** Parity of the units at or above `q` that carry exactly one mode. */
  function SingleAbove(m: Key, q: nat): bool
    requires |m| % 2 == 0 && 2 * q <= |m|
    decreases |m| - 2 * q
  {
    if 2 * q == |m| then false else SingleAbove(m, q + 1) != (m[2 * q] != m[2 * q + 1])
  }

  /** The mode at unit `q` that the Z component and the string from above select. */
  predicate OddMode(p: Key, q: nat)
    requires |p| % 2 == 0 && 2 * q < |p|
  {
    XAbove(p, q + 1) != p[2 * q + 1]
  }

  /** The modes of the monomial a Pauli string maps to. */
  function ToModes(p: Key): (m: Key)
    requires |p| % 2 == 0
    ensures |m| == |p|
  {
    seq(|p|, i requires 0 <= i < |p| && |p| % 2 == 0 =>
      if i % 2 == 1 then OddMode(p, i / 2) else p[i] != OddMode(p, i / 2))
  }

  /** The Pauli string of a monomial: the letters of the one-pass inverse transform. */
  function ToPauli(m: Key): (p: Key)
    requires |m| % 2 == 0
    ensures |p| == |m|
  {
    seq(|m|, i requires 0 <= i < |m| && |m| % 2 == 0 =>
      if i % 2 == 1 then m[i] != SingleAbove(m, i / 2 + 1) else m[i] != m[i + 1])
  }

  /** One unit of the monomial of a Pauli string. */
  lemma ModesAt(p: Key, q: nat)
    requires |p| % 2 == 0 && 2 * q < |p|
    ensures ToModes(p)[2 * q + 1] == OddMode(p, q)
    ensures ToModes(p)[2 * q] == (p[2 * q] != OddMode(p, q))
  {
    assert (2 * q + 1) / 2 == q && (2 * q) / 2 == q;
    assert (2 * q + 1) % 2 == 1 && (2 * q) % 2 == 0;
  }

  /** One letter of the Pauli string of a monomial. */
  lemma {:induction false} PauliAt(m: Key, q: nat)
    requires |m| % 2 == 0 && 2 * q < |m|
    ensures ToPauli(m)[2 * q] == (m[2 * q] != m[2 * q + 1])
    ensures ToPauli(m)[2 * q + 1] == (m[2 * q + 1] != SingleAbove(m, q + 1))
  {
    assert (2 * q + 1) / 2 == q && (2 * q) / 2 == q;
    assert (2 * q + 1) % 2 == 1 && (2 * q) % 2 == 0;
  }

  // ---- the two transforms undo each other ---------------------------------------

  lemma {:induction false} ParityOfModes(p: Key, q: nat)
    requires |p| % 2 == 0 && 2 * q <= |p|
    ensures SingleAbove(ToModes(p), q) == XAbove(p, q)
    decreases |p| - 2 * q
  {
    hide ToModes;
    if 2 * q < |p| {
      ParityOfModes(p, q + 1);
      ModesAt(p, q);
    }
  }

  lemma {:induction false} ParityOfPauli(m: Key, q: nat)
    requires |m| % 2 == 0 && 2 * q <= |m|
    ensures XAbove(ToPauli(m), q) == SingleAbove(m, q)
    decreases |m| - 2 * q
  {
    hide ToPauli;
    if 2 * q < |m| {
      ParityOfPauli(m, q + 1);
      PauliAt(m, q);
    }
  }

  predicate SameUnit(a: Key, b: Key, q: nat)
    requires |a| == |b| && |a| % 2 == 0 && 2 * q < |a|
  {
    a[2 * q] == b[2 * q] && a[2 * q + 1] == b[2 * q + 1]
  }

  lemma KeysByUnit(a: Key, b: Key)
    requires |a| == |b| && |a| % 2 == 0
    requires forall q: nat :: q < |a| / 2 ==> SameUnit(a, b, q)
    ensures a == b
  {
    forall i | 0 <= i < |a| ensures a[i] == b[i] {
      assert SameUnit(a, b, i / 2);
    }
  }

  /** Mapping to modes and back gives the string, and the other way round. */
  lemma PauliRoundTrip(p: Key)
    requires |p| % 2 == 0
    ensures ToPauli(ToModes(p)) == p
  {
    hide ToModes, ToPauli;
    var m := ToModes(p);
    forall q: nat | q < |p| / 2 ensures SameUnit(ToPauli(m), p, q) {
      PauliAt(m, q);
      ModesAt(p, q);
      ParityOfModes(p, q + 1);
    }
    KeysByUnit(ToPauli(m), p);
  }

  lemma ModesRoundTrip(m: Key)
    requires |m| % 2 == 0
    ensures ToModes(ToPauli(m)) == m
  {
    hide ToModes, ToPauli;
    var p := ToPauli(m);
    forall q: nat | q < |m| / 2 ensures SameUnit(ToModes(p), m, q) {
      ModesAt(p, q);
      PauliAt(m, q);
      ParityOfPauli(m, q + 1);
    }
    KeysByUnit(ToModes(p), m);
  }

  // ---- the transform is linear --------------------------------------------------

  lemma {:induction false} XAboveLinear(a: Key, b: Key, q: nat)
    requires |a| == |b| && |a| % 2 == 0 && 2 * q <= |a|
    ensures XAbove(Xor(a, b), q) == (XAbove(a, q) != XAbove(b, q))
    decreases |a| - 2 * q
  {
    if 2 * q < |a| {
      XAboveLinear(a, b, q + 1);
    }
  }

  lemma ToModesLinear(a: Key, b: Key)
    requires |a| == |b| && |a| % 2 == 0
    ensures ToModes(Xor(a, b)) == Xor(ToModes(a), ToModes(b))
  {
    hide ToModes;
    var l, r := ToModes(Xor(a, b)), Xor(ToModes(a), ToModes(b));
    forall q: nat | q < |a| / 2 ensures SameUnit(l, r, q) {
      ModesAt(a, q);
      ModesAt(b, q);
      ModesAt(Xor(a, b), q);
      XAboveLinear(a, b, q + 1);
    }
    KeysByUnit(l, r);
  }

  // ---- phases -------------------------------------------------------------------

  /** Odd modes at or above unit `q`. */
  function OddModesFrom(m: Key, q: nat): nat
    requires |m| % 2 == 0 && 2 * q <= |m|
    decreases |m| - 2 * q
  {
    if 2 * q == |m| then 0 else OddModesFrom(m, q + 1) + Bit(m[2 * q + 1])
  }

  /** Odd modes of both monomials at or above unit `q`. */
  function OddModesAndFrom(a: Key, b: Key, q: nat): nat
    requires |a| == |b| && |a| % 2 == 0 && 2 * q <= |a|
    decreases |a| - 2 * q
  {
    if 2 * q == |a| then 0 else OddModesAndFrom(a, b, q + 1) + Bit(a[2 * q + 1] && b[2 * q + 1])
  }

  /**
   The phase both transforms accumulate, in closed form: one factor of i for every odd mode,
   less one for every Y.
   */
  function ForwardExp(p: Key): Exp
    requires |p| % 2 == 0
  {
    (OddModesFrom(ToModes(p), 0) - YFrom(p, 0)) % 4
  }

  /**
   The factor the conversion divides out: `P == i^(-h - f) M` with `h` the Hermiticity
   exponent of the monomial and `f` the forward phase.
   */
  function SignExpOf(p: Key): Exp
    requires |p| % 2 == 0
  {
    (-HermiticityExp(Count(ToModes(p))) - ForwardExp(p)) % 4
  }

  /** A phased Pauli string as a phased monomial. */
  function JwMap(x: Phased): (r: Phased)
    requires |x.key| % 2 == 0
    ensures |r.key| == |x.key|
  {
    Phased(Plus(x.exp, SignExpOf(x.key)), ToModes(x.key))
  }

  /** The way back, with the factor of the string restored. */
  function JwUnmap(x: Phased): (r: Phased)
    requires |x.key| % 2 == 0
    ensures |r.key| == |x.key|
  {
    Phased(Plus(x.exp, Neg(SignExpOf(ToPauli(x.key)))), ToPauli(x.key))
  }

  lemma {:induction false} OddModesXor(a: Key, b: Key, q: nat)
    requires |a| == |b| && |a| % 2 == 0 && 2 * q <= |a|
    ensures OddModesFrom(Xor(a, b), q) + 2 * OddModesAndFrom(a, b, q) == OddModesFrom(a, q) + OddModesFrom(b, q)
    decreases |a| - 2 * q
  {
    if 2 * q < |a| {
      OddModesXor(a, b, q + 1);
    }
  }

  lemma {:induction false} CountParityIsSingle(m: Key, q: nat)
    requires |m| % 2 == 0 && 2 * q <= |m|
    ensures Odd(CountFrom(m, 2 * q)) == SingleAbove(m, q)
    decreases |m| - 2 * q
  {
    if 2 * q < |m| {
      CountParityIsSingle(m, q + 1);
      assert CountFrom(m, 2 * q) == CountFrom(m, 2 * q + 2) + Bit(m[2 * q]) + Bit(m[2 * q + 1]);
    }
  }

  /**
   The reordering sign of two monomials is the reordering sign of their Pauli strings, up to
   the odd modes they share.
   */
  lemma {:induction false} SwapsAreZX(a: Key, b: Key, q: nat)
    requires |a| == |b| && |a| % 2 == 0 && 2 * q <= |a|
    ensures Odd(SwapsFrom(ToModes(a), ToModes(b), 2 * q))
         == (Odd(ZXFrom(a, b, q)) != Odd(OddModesAndFrom(ToModes(a), ToModes(b), q)))
    decreases |a| - 2 * q
  {
    hide ToModes;
    if 2 * q < |a| {
      ModesAt(a, q);
      ModesAt(b, q);
      SwapsAreZX(a, b, q + 1);
      SwapsUnit(ToModes(a), ToModes(b), q);
      CountParityIsSingle(ToModes(a), q + 1);
      ParityOfModes(a, q + 1);
      OddSum(ZXFrom(a, b, q + 1), Bit(a[2 * q + 1] && b[2 * q]));
      OddSum(OddModesAndFrom(ToModes(a), ToModes(b), q + 1), Bit(ToModes(a)[2 * q + 1] && ToModes(b)[2 * q + 1]));
    }
  }

  /** Two modes of one unit, taken together. */
  lemma {:induction false} SwapsUnit(a: Key, b: Key, q: nat)
    requires |a| == |b| && |a| % 2 == 0 && 2 * q < |a|
    ensures Odd(SwapsFrom(a, b, 2 * q)) == (Odd(SwapsFrom(a, b, 2 * q + 2))
      != ((b[2 * q + 1] && Odd(CountFrom(a, 2 * q + 2)))
      != (b[2 * q] && (Odd(CountFrom(a, 2 * q + 2)) != a[2 * q + 1]))))
  {
    var s, c := SwapsFrom(a, b, 2 * q + 2), CountFrom(a, 2 * q + 2);
    var u := if b[2 * q + 1] then c else 0;
    var v := if b[2 * q] then c + Bit(a[2 * q + 1]) else 0;
    assert SwapsFrom(a, b, 2 * q + 1) == s + u;
    assert CountFrom(a, 2 * q + 1) == c + Bit(a[2 * q + 1]);
    assert SwapsFrom(a, b, 2 * q) == s + u + v;
    OddSum(s, u);
    OddSum(s + u, v);
    OddSum(c, Bit(a[2 * q + 1]));
  }

  /** The dropped factor is always plus or minus one. */
  lemma SignIsReal(p: Key)
    requires |p| % 2 == 0
    ensures SignExpOf(p) == 0 || SignExpOf(p) == 2
  {
    hide ToModes;
    var m := ToModes(p);
    SwapsAreZX(p, p, 0);
    CrossDiagonal(Majorana, m);
    CrossDiagonal(Pauli, p);
    OddModesSelf(m, 0);
    assert Odd(HermiticityExp(Count(m))) == (Odd(YFrom(p, 0)) != Odd(OddModesFrom(m, 0)));
    RealSign(HermiticityExp(Count(m)), OddModesFrom(m, 0), YFrom(p, 0));
  }

  lemma RealSign(h: int, o: int, y: int)
    requires Odd(h) == (Odd(y) != Odd(o))
    ensures var e := (-h - (o - y) % 4) % 4; e == 0 || e == 2
  {
    OddSum(o, -y);
    OddNegates(y);
    OddSum(-h, -(o - y));
    OddNegates(h);
    OddNegates(o - y);
    SignMod(h, o - y);
    EvenMod(-h - (o - y));
  }

  lemma OddNegates(x: int)
    ensures Odd(-x) == Odd(x)
  {
  }

  lemma EvenMod(x: int)
    requires !Odd(x)
    ensures x % 4 == 0 || x % 4 == 2
  {
    var q, r := x / 4, x % 4;
    if r == 1 {
      Halves(x, 2 * q, 1);
    } else if r == 3 {
      Halves(x, 2 * q + 1, 1);
    }
  }

  lemma {:induction false} OddModesSelf(m: Key, q: nat)
    requires |m| % 2 == 0 && 2 * q <= |m|
    ensures OddModesAndFrom(m, m, q) == OddModesFrom(m, q)
    decreases |m| - 2 * q
  {
    if 2 * q < |m| {
      OddModesSelf(m, q + 1);
    }
  }

  /** The map sends products to products, phase included. */
  lemma JwPhase(a: Key, b: Key)
    requires |a| == |b| && |a| % 2 == 0
    ensures Plus(Plus(SignExpOf(a), SignExpOf(b)), PhaseExp(Majorana, ToModes(a), ToModes(b)))
         == Plus(PhaseExp(Pauli, a, b), SignExpOf(Xor(a, b)))
  {
    hide ToModes, Plus, HermiticityExp;
    var ma, mb := ToModes(a), ToModes(b);
    var ab := Xor(a, b);
    ToModesLinear(a, b);
    SwapsAreZX(a, b, 0);
    OddModesXor(ma, mb, 0);
    var (ha, hb, hab) := (HermiticityExp(Count(ma)), HermiticityExp(Count(mb)), HermiticityExp(Count(ToModes(ab))));
    var (oa, ob, oab) := (OddModesFrom(ma, 0), OddModesFrom(mb, 0), OddModesFrom(ToModes(ab), 0));
    var (ya, yb, yab) := (YFrom(a, 0), YFrom(b, 0), YFrom(ab, 0));
    var (sm, sp, t) := (SwapsFrom(ma, mb, 0), ZXFrom(a, b, 0), OddModesAndFrom(ma, mb, 0));
    PlusMod(SignExpOf(a), SignExpOf(b));
    PlusMod(Plus(SignExpOf(a), SignExpOf(b)), PhaseExp(Majorana, ma, mb));
    PlusMod(PhaseExp(Pauli, a, b), SignExpOf(ab));
    JwPhaseArithmetic(ha, hb, hab, oa, ob, oab, ya, yb, yab, sm, sp, t);
  }

  lemma JwPhaseArithmetic(ha: int, hb: int, hab: int, oa: int, ob: int, oab: int,
                          ya: int, yb: int, yab: int, sm: int, sp: int, t: int)
    requires oab + 2 * t == oa + ob
    requires Odd(sm) == (Odd(sp) != Odd(t))
    ensures (((-ha - (oa - ya) % 4) % 4 + (-hb - (ob - yb) % 4) % 4) % 4 + (ha + hb - hab + 2 * sm) % 4) % 4
         == ((ya + yb - yab + 2 * sp) % 4 + (-hab - (oab - yab) % 4) % 4) % 4
  {
    MajoranaSide(ha, hb, hab, oa - ya, ob - yb, sm);
    PauliSide(ya + yb - yab + 2 * sp, hab, oab - yab);
    SidesMeet(ha, hb, hab, oa, ob, oab, ya, yb, yab, sm, sp, t);
  }

  lemma SidesMeet(ha: int, hb: int, hab: int, oa: int, ob: int, oab: int,
                  ya: int, yb: int, yab: int, sm: int, sp: int, t: int)
    requires oab + 2 * t == oa + ob
    requires Odd(sm) == (Odd(sp) != Odd(t))
    ensures (-ha - (oa - ya) - hb - (ob - yb) + ha + hb - hab + 2 * sm) % 4
         == (ya + yb - yab + 2 * sp - hab - (oab - yab)) % 4
  {
    hide Odd;
    OddSum(sp, t);
    EvenDouble(sm, sp + t);
    ModSame(-ha - (oa - ya) - hb - (ob - yb) + ha + hb - hab + 2 * sm, ya + yb - yab + 2 * sp - hab - (oab - yab));
  }

  lemma MajoranaSide(ha: int, hb: int, hab: int, fa: int, fb: int, sm: int)
    ensures (((-ha - fa % 4) % 4 + (-hb - fb % 4) % 4) % 4 + (ha + hb - hab + 2 * sm) % 4) % 4
         == (-ha - fa - hb - fb + ha + hb - hab + 2 * sm) % 4
  {
    SignMod(ha, fa);
    SignMod(hb, fb);
    ModSum3(-ha - fa, -hb - fb, ha + hb - hab + 2 * sm);
  }

  lemma PauliSide(e: int, hab: int, f: int)
    ensures (e % 4 + (-hab - f % 4) % 4) % 4 == (e - hab - f) % 4
  {
    SignMod(hab, f);
    ModSum3(e, -hab - f, 0);
  }

  lemma EvenDouble(x: int, y: int)
    requires Odd(x) == Odd(y)
    ensures (2 * (x - y)) % 4 == 0
  {
    OddSum(x - y, y);
    var d := (x - y) / 2;
    assert 2 * (x - y) == 4 * d;
  }

  lemma SignMod(h: int, f: int)
    ensures (-h - f % 4) % 4 == (-h - f) % 4
  {
  }

  lemma ModSum3(x: int, y: int, z: int)
    ensures ((x % 4 + y % 4) % 4 + z % 4) % 4 == (x + y + z) % 4
  {
  }

  lemma ModSame(l: int, r: int)
    requires (l - r) % 4 == 0
    ensures l % 4 == r % 4
  {
  }

  /** Jordan-Wigner is an isomorphism of the two phased groups. */
  lemma JwIsomorphism(x: Phased, y: Phased)
    requires |x.key| == |y.key| && |x.key| % 2 == 0
    ensures Mul(Majorana, JwMap(x), JwMap(y)) == JwMap(Mul(Pauli, x, y))
    ensures JwUnmap(JwMap(x)) == x && JwMap(JwUnmap(x)) == x
  {
    hide PhaseExp, SignExpOf, Plus, ToModes, ToPauli;
    ToModesLinear(x.key, y.key);
    JwPhase(x.key, y.key);
    var (sx, sy) := (SignExpOf(x.key), SignExpOf(y.key));
    var pm, pp := PhaseExp(Majorana, ToModes(x.key), ToModes(y.key)), PhaseExp(Pauli, x.key, y.key);
    PlusExchange(x.exp, sx, y.exp, sy);
    PlusLaws(Plus(x.exp, y.exp), Plus(sx, sy), pm);
    PlusLaws(Plus(x.exp, y.exp), pp, SignExpOf(Xor(x.key, y.key)));
    PauliRoundTrip(x.key);
    ModesRoundTrip(x.key);
    PlusNeg(x.exp, sx);
    PlusNeg(x.exp, SignExpOf(ToPauli(x.key)));
  }

  lemma PlusNeg(x: Exp, s: Exp)
    ensures Plus(Plus(x, s), Neg(s)) == x && Plus(Plus(x, Neg(s)), s) == x
  {
  }

  /** Strings anticommute exactly when their monomials do. */
  lemma JwAnticommutes(a: Key, b: Key)
    requires |a| == |b| && |a| % 2 == 0
    ensures Anticommutes(Majorana, ToModes(a), ToModes(b)) == Anticommutes(Pauli, a, b)
  {
    hide PhaseExp, SignExpOf, Anticommutes;
    AnticommutesIsImaginary(Majorana, ToModes(a), ToModes(b));
    AnticommutesIsImaginary(Pauli, a, b);
    JwPhase(a, b);
    SignIsReal(a);
    SignIsReal(b);
    SignIsReal(Xor(a, b));
  }

  // ---- diagonal expectation values ----------------------------------------------

  /** The occupation of unit `q` in a basis state; units past its end are empty. */
  predicate Occupied(state: seq<bool>, q: nat) { q < |state| && state[q] }

  /** The string is a product of Zs at and above unit `q`. */
  predicate DiagonalFrom(p: Key, q: nat)
    requires |p| % 2 == 0 && 2 * q <= |p|
    decreases |p| - 2 * q
  {
    2 * q == |p| || (!p[2 * q] && DiagonalFrom(p, q + 1))
  }

  /** Parity of the occupied units under a Z. */
  predicate FlippedFrom(p: Key, state: seq<bool>, q: nat)
    requires |p| % 2 == 0 && 2 * q <= |p|
    decreases |p| - 2 * q
  {
    if 2 * q == |p| then false else FlippedFrom(p, state, q + 1) != (p[2 * q + 1] && Occupied(state, q))
  }

  function PauliTrace(p: Key, state: seq<bool>): real
    requires |p| % 2 == 0
  {
    if !DiagonalFrom(p, 0) then 0.0 else if FlippedFrom(p, state, 0) then -1.0 else 1.0
  }

  /** Every unit at or above `q` carries both modes or none. */
  predicate PairedFrom(m: Key, q: nat)
    requires |m| % 2 == 0 && 2 * q <= |m|
    decreases |m| - 2 * q
  {
    2 * q == |m| || (m[2 * q] == m[2 * q + 1] && PairedFrom(m, q + 1))
  }

  /** Units at or above `q` carrying their even mode. */
  function PairsFrom(m: Key, q: nat): nat
    requires |m| % 2 == 0 && 2 * q <= |m|
    decreases |m| - 2 * q
  {
    if 2 * q == |m| then 0 else PairsFrom(m, q + 1) + Bit(m[2 * q])
  }

  /** The product of `2 n_k - 1` over the occupied pairs at or above `q`. */
  function ProductFrom(m: Key, state: seq<bool>, q: nat): real
    requires |m| % 2 == 0 && 2 * q <= |m|
    decreases |m| - 2 * q
  {
    if 2 * q == |m| then 1.0
    else ProductFrom(m, state, q + 1) * (if !m[2 * q] then 1.0 else if Occupied(state, q) then 1.0 else -1.0)
  }

  function MajoranaTrace(m: Key, state: seq<bool>): real
    requires |m| % 2 == 0
  {
    if !PairedFrom(m, 0) then 0.0
    else (if (PairsFrom(m, 0) / 2) % 2 == 0 then 1.0 else -1.0) * ProductFrom(m, state, 0)
  }

  lemma {:induction false} TraceFrom(p: Key, state: seq<bool>, q: nat)
    requires |p| % 2 == 0 && 2 * q <= |p|
    ensures DiagonalFrom(p, q) ==> !XAbove(p, q)
    ensures PairedFrom(ToModes(p), q) == DiagonalFrom(p, q)
    ensures DiagonalFrom(p, q) ==>
      && YFrom(p, q) == 0
      && OddModesFrom(ToModes(p), q) == PairsFrom(ToModes(p), q)
      && CountFrom(ToModes(p), 2 * q) == 2 * PairsFrom(ToModes(p), q)
      && ProductFrom(ToModes(p), state, q)
         == (if FlippedFrom(p, state, q) then -1.0 else 1.0) * (if Odd(PairsFrom(ToModes(p), q)) then -1.0 else 1.0)
    decreases |p| - 2 * q
  {
    hide ToModes;
    if 2 * q < |p| {
      TraceFrom(p, state, q + 1);
      ModesAt(p, q);
      var m := ToModes(p);
      assert CountFrom(m, 2 * q) == CountFrom(m, 2 * q + 2) + Bit(m[2 * q]) + Bit(m[2 * q + 1]);
    }
  }

  lemma DiagonalSign(w: nat)
    ensures var e := (-HermiticityExp(2 * w) - (w - 0) % 4) % 4;
      (if e == 2 then -1.0 else 1.0)
      == (if (w / 2) % 2 == 0 then 1.0 else -1.0) * (if Odd(w) then -1.0 else 1.0)
  {
    var k := w / 4;
    if w % 4 == 0 {
      DiagonalSignAt(k, 0);
    } else if w % 4 == 1 {
      DiagonalSignAt(k, 1);
    } else if w % 4 == 2 {
      DiagonalSignAt(k, 2);
    } else {
      DiagonalSignAt(k, 3);
    }
  }

  lemma DiagonalSignAt(k: nat, r: nat)
    requires r < 4
    ensures (4 * k + r) % 4 == r && (2 * (4 * k + r)) % 4 == (2 * r) % 4
    ensures ((4 * k + r) / 2) % 2 == r / 2 && Odd(4 * k + r) == Odd(r)
  {
    var w := 4 * k + r;
    assert w % 4 == r by { FoursDrop(w, k, r); }
    assert (2 * w) % 4 == (2 * r) % 4 by { FoursDrop(2 * w, 2 * k, 2 * r); }
    assert (w / 2) % 2 == r / 2 by { HalfOf(k, r); }
    assert Odd(w) == Odd(r) by { EvenDrops(w, 2 * k, r); }
  }

  lemma FoursDrop(w: int, k: int, r: int)
    requires w == 4 * k + r
    ensures w % 4 == r % 4
  {
  }

  lemma EvenDrops(w: int, k: int, r: int)
    requires w == 2 * k + r
    ensures Odd(w) == Odd(r)
  {
  }

  lemma HalfOf(k: nat, r: nat)
    requires r < 4
    ensures ((4 * k + r) / 2) % 2 == r / 2
  {
    assert (4 * k + r) / 2 == 2 * k + r / 2;
  }

  /** Traces map to traces, with the sign of the string. */
  lemma JwTrace(p: Key, state: seq<bool>)
    requires |p| % 2 == 0
    ensures PauliTrace(p, state) == (if SignExpOf(p) == 2 then -1.0 else 1.0) * MajoranaTrace(ToModes(p), state)
  {
    hide ToModes;
    TraceFrom(p, state, 0);
    if DiagonalFrom(p, 0) {
      DiagonalSign(PairsFrom(ToModes(p), 0));
    }
  }

  // ---- the engine's view of a basis ---------------------------------------------

  /** Non-identity letters of a string, or of the Jordan-Wigner image of a monomial. */
  function Weight(kind: BasisKind, key: Key): nat
    requires |key| % 2 == 0
  {
    match kind
    case Pauli => Support(key)
    case Majorana => Support(ToPauli(key))
  }

  /** The diagonal expectation value of a basis operator. */
  function Trace(kind: BasisKind, key: Key, state: seq<bool>): real
    requires |key| % 2 == 0
  {
    match kind
    case Pauli => PauliTrace(key, state)
    case Majorana => MajoranaTrace(key, state)
  }
}
