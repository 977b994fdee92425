/**
 What the contraction of a chain means: the amplitude of a configuration is a product of
 tensor slices, and contracting the chain with operators in is the expectation value of their
 product in the state with these amplitudes.
 */
module Amplitudes {
  import opened Wrappers
  import opened BasisStrings
  import opened ComplexNumbers
  import opened JordanWigner
  import opened PauliMatrices
  import opened MatrixProducts

  // ---- amplitudes ---------------------------------------------------------------

  /** One physical index of a tensor. */
  function Slice(t: Tensor, b: bool): (nat, nat) -> Complex { (l: nat, a: nat) => t.at(l, Bit(b), a) }

  /** The product of the slices a configuration selects, by right bond. */
  function Amp(ts: seq<Tensor>, s: Config): nat -> Complex
    requires |s| <= |ts|
  {
    if s == [] then (a: nat) => if a == 0 then ONE else ZERO
    else
      var q := |s| - 1;
      RowTimes(ts[q].chiL, Amp(ts, s[..q]), Slice(ts[q], s[q]))
  }

  /** The amplitude of a configuration of the whole chain. */
  function Amplitude(ts: seq<Tensor>): Config -> Complex
  {
    (s: Config) => if |s| == |ts| then Amp(ts, s)(0) else ZERO
  }

  /** The entry of one site's operator; without one the site is left alone. */
  function SiteEntry(o: Option<Matrix2>, b: bool, c: bool): Complex
  {
    if o.Some? then o.value(Bit(b), Bit(c)) else if b == c then ONE else ZERO
  }

  /** The entry of the product of the operators on the lowest sites. */
  function OpEntry(op: nat -> Option<Matrix2>, s: Config, t: Config): Complex
    requires |s| == |t|
  {
    if s == [] then ONE
    else
      var q := |s| - 1;
      Times(OpEntry(op, s[..q], t[..q]), SiteEntry(op(q), s[q], t[q]))
  }

  function SitesMatrix(op: nat -> Option<Matrix2>): Matrix
  {
    (s: Config, t: Config) => if |s| == |t| then OpEntry(op, s, t) else ZERO
  }

  /** `<f| m |f>` over `n` units. */
  function Braket(n: nat, f: Config -> Complex, m: Matrix): Complex { SumOver(n, RowsOver(n, Bracket(f, m, f))) }

  /** One summand: a bra configuration, an entry of the operator, a ket configuration. */
  function Bracket(f: Config -> Complex, m: Matrix, g: Config -> Complex): (Config, Config) -> Complex
  {
    (s: Config, t: Config) => Times(Conj(f(s)), Times(m(s, t), g(t)))
  }

  // ---- linearity of one transfer ------------------------------------------------

  lemma {:induction false} ConjSum(n: nat, f: nat -> Complex, g: nat -> Complex)
    requires forall i: nat :: i < n ==> g(i) == Conj(f(i))
    ensures Sum(n, g) == Conj(Sum(n, f))
  {
    hide Plus, Conj;
    if n > 0 {
      ConjSum(n - 1, f, g);
      ConjPlus(Sum(n - 1, f), f(n - 1));
    } else {
      ConjOf(0.0, 0.0);
    }
  }

  lemma DotPlus(n: nat, x: nat -> Complex, x': nat -> Complex, y: nat -> Complex, w: nat -> Complex)
    requires forall i: nat :: i < n ==> w(i) == Plus(x(i), x'(i))
    ensures Dot(n, w, y) == Plus(Dot(n, x, y), Dot(n, x', y))
  {
    hide Times, Plus;
    var f, g := (i: nat) => Times(x(i), y(i)), (i: nat) => Times(x'(i), y(i));
    SumPlus(n, f, g);
    forall i: nat | i < n ensures Times(w(i), y(i)) == Plus(f(i), g(i)) {
      SumLeft(x(i), x'(i), y(i));
    }
    SumSame(n, (i: nat) => Times(w(i), y(i)), (i: nat) => Plus(f(i), g(i)));
  }

  lemma DotTimes(n: nat, k: Complex, x: nat -> Complex, y: nat -> Complex, w: nat -> Complex)
    requires forall i: nat :: i < n ==> w(i) == Times(k, x(i))
    ensures Dot(n, w, y) == Times(k, Dot(n, x, y))
  {
    hide Times, Plus;
    var f := (i: nat) => Times(x(i), y(i));
    SumTimes(n, k, f);
    forall i: nat | i < n ensures Times(w(i), y(i)) == Times(k, f(i)) {
      ComplexLaws(k, x(i), y(i));
    }
    SumSame(n, (i: nat) => Times(w(i), y(i)), (i: nat) => Times(k, f(i)));
  }

  /** Entries by two bond indices. */
  type Table = (nat, nat) -> Complex

  /** One row of the environment pushed through one physical index. */
  function Inner(p: nat, l: Table, x: Table, a: nat): nat -> Complex
  {
    (bra: nat) => Dot(p, (ket: nat) => l(ket, bra), (ket: nat) => x(ket, a))
  }

  function Column(y: Table, a: nat): nat -> Complex { (bra: nat) => y(bra, a) }

  lemma ThroughIsDot(p: nat, l: Table, x: Table, y: Table, a: nat, a': nat)
    ensures Through(p, l, x, y)(a, a') == Dot(p, Inner(p, l, x, a), Column(y, a'))
  {
    DotSame(p, (bra: nat) => Dot(p, (ket: nat) => l(ket, bra), (ket: nat) => x(ket, a)), (bra: nat) => y(bra, a'),
      Inner(p, l, x, a), Column(y, a'));
  }

  lemma ThroughSame(p: nat, l: Table, l': Table, x: Table, y: Table, a: nat, a': nat)
    requires forall i: nat, j: nat :: i < p && j < p ==> l(i, j) == l'(i, j)
    ensures Through(p, l, x, y)(a, a') == Through(p, l', x, y)(a, a')
  {
    ThroughIsDot(p, l, x, y, a, a');
    ThroughIsDot(p, l', x, y, a, a');
    forall bra: nat | bra < p ensures Inner(p, l, x, a)(bra) == Inner(p, l', x, a)(bra) {
      DotSame(p, (ket: nat) => l(ket, bra), (ket: nat) => x(ket, a), (ket: nat) => l'(ket, bra),
        (ket: nat) => x(ket, a));
    }
    DotSame(p, Inner(p, l, x, a), Column(y, a'), Inner(p, l', x, a), Column(y, a'));
  }

  lemma ThroughBoth(p: nat, u: Table, v: Table, x: Table, y: Table, a: nat, a': nat)
    ensures Through(p, Both(u, v), x, y)(a, a') == Plus(Through(p, u, x, y)(a, a'), Through(p, v, x, y)(a, a'))
  {
    hide Plus, Dot;
    ThroughIsDot(p, Both(u, v), x, y, a, a');
    ThroughIsDot(p, u, x, y, a, a');
    ThroughIsDot(p, v, x, y, a, a');
    forall bra: nat | bra < p
      ensures Inner(p, Both(u, v), x, a)(bra) == Plus(Inner(p, u, x, a)(bra), Inner(p, v, x, a)(bra))
    {
      DotPlus(p, (ket: nat) => u(ket, bra), (ket: nat) => v(ket, bra), (ket: nat) => x(ket, a),
        (ket: nat) => Both(u, v)(ket, bra));
    }
    DotPlus(p, Inner(p, u, x, a), Inner(p, v, x, a), Column(y, a'), Inner(p, Both(u, v), x, a));
  }

  /** The environment `l` is the sum of the environments `f(c)` over the configurations of `m` units. */
  ghost predicate IsTotal(m: nat, p: nat, f: Config -> Table, l: Table)
  {
    forall i: nat, j: nat :: i < p && j < p ==> l(i, j) == SumOver(m, (c: Config) => f(c)(i, j))
  }

  /** The environments with the last unit summed out. */
  function TableOut(f: Config -> Table): Config -> Table { (c: Config) => Both(f(c + [false]), f(c + [true])) }

  lemma TotalLess(m: nat, p: nat, f: Config -> Table, l: Table)
    requires IsTotal(m + 1, p, f, l)
    ensures IsTotal(m, p, TableOut(f), l)
  {
    hide Plus;
    var g := TableOut(f);
    forall i: nat, j: nat | i < p && j < p ensures l(i, j) == SumOver(m, (c: Config) => g(c)(i, j)) {
      var fij, gij := (c: Config) => f(c)(i, j), (c: Config) => g(c)(i, j);
      forall c: Config | |c| == m ensures SumOut(fij)(c) == gij(c) {
        assert g(c) == Both(f(c + [false]), f(c + [true]));
      }
      OverSame(m, SumOut(fij), gij);
    }
  }

  /** A transfer distributes over a sum of environments. */
  lemma {:induction false} ThroughOver(m: nat, p: nat, f: Config -> Table, l: Table, x: Table, y: Table,
                                       a: nat, a': nat)
    requires IsTotal(m, p, f, l)
    ensures Through(p, l, x, y)(a, a') == SumOver(m, (c: Config) => Through(p, f(c), x, y)(a, a'))
    decreases m
  {
    hide Plus, Through;
    if m == 0 {
      ThroughSame(p, l, f([]), x, y, a, a');
    } else {
      TotalLess(m - 1, p, f, l);
      hide IsTotal;
      var g, h := TableOut(f), (c: Config) => Through(p, f(c), x, y)(a, a');
      ThroughOver(m - 1, p, g, l, x, y, a, a');
      forall c: Config | |c| == m - 1 ensures Through(p, g(c), x, y)(a, a') == SumOut(h)(c) {
        ThroughBoth(p, f(c + [false]), f(c + [true]), x, y, a, a');
      }
      OverSame(m - 1, (c: Config) => Through(p, g(c), x, y)(a, a'), SumOut(h));
    }
  }

  /** A product environment stays one. */
  lemma ThroughProduct(p: nat, c: nat -> Complex, w: nat -> Complex, l: Table, x: Table, y: Table,
                       a: nat, a': nat)
    requires forall ket: nat, bra: nat :: ket < p && bra < p ==> l(ket, bra) == Times(c(bra), w(ket))
    ensures Through(p, l, x, y)(a, a') == Times(RowTimes(p, c, y)(a'), RowTimes(p, w, x)(a))
  {
    hide Times, Plus;
    ThroughIsDot(p, l, x, y, a, a');
    var r := RowTimes(p, w, x)(a);
    RowIsDot(p, w, x, a);
    RowIsDot(p, c, y, a');
    forall bra: nat | bra < p ensures Inner(p, l, x, a)(bra) == Times(r, c(bra)) {
      DotTimes(p, c(bra), w, (ket: nat) => x(ket, a), (ket: nat) => l(ket, bra));
      DotSame(p, w, (ket: nat) => x(ket, a), w, Column(x, a));
      ComplexLaws(c(bra), r, ZERO);
    }
    DotTimes(p, r, c, Column(y, a'), Inner(p, l, x, a));
    ComplexLaws(r, RowTimes(p, c, y)(a'), ZERO);
  }

  lemma RowIsDot(p: nat, w: nat -> Complex, x: Table, a: nat)
    ensures RowTimes(p, w, x)(a) == Dot(p, w, Column(x, a))
  {
    hide Times;
    var f, g := (k: nat) => Times(w(k), x(k, a)), (k: nat) => Times(w(k), Column(x, a)(k));
    forall k: nat | k < p ensures f(k) == g(k) {
      assert Column(x, a)(k) == x(k, a);
    }
    SumSame(p, f, g);
    assert RowTimes(p, w, x)(a) == Sum(p, f);
    assert Dot(p, w, Column(x, a)) == Sum(p, g);
  }

  // ---- one site -----------------------------------------------------------------

  lemma {:induction false} AmpNext(ts: seq<Tensor>, s: Config, b: bool)
    requires |s| < |ts|
    ensures Amp(ts, s + [b]) == RowTimes(ts[|s|].chiL, Amp(ts, s), Slice(ts[|s|], b))
  {
    assert (s + [b])[..|s|] == s;
  }

  lemma {:induction false} OpEntryNext(op: nat -> Option<Matrix2>, s: Config, t: Config, b: bool, c: bool)
    requires |s| == |t|
    ensures OpEntry(op, s + [b], t + [c]) == Times(OpEntry(op, s, t), SiteEntry(op(|s|), b, c))
  {
    hide Times;
    assert (s + [b])[..|s|] == s && (t + [c])[..|t|] == t;
  }

  function Conjugate(f: nat -> Complex): nat -> Complex { (i: nat) => Conj(f(i)) }

  function Multiple(k: Complex, f: nat -> Complex): nat -> Complex { (i: nat) => Times(k, f(i)) }

  /** The bra side of a site: the conjugated amplitude of one more unit. */
  lemma {:induction false} BraRow(ts: seq<Tensor>, s: Config, b: bool, a: nat)
    requires |s| < |ts|
    ensures RowTimes(ts[|s|].chiL, Conjugate(Amp(ts, s)), Bra(ts[|s|], Bit(b)))(a) == Conj(Amp(ts, s + [b])(a))
  {
    hide Times, Conj, Amp;
    var p, t, f := ts[|s|].chiL, ts[|s|], Amp(ts, s);
    AmpNext(ts, s, b);
    var plain, conj := (k: nat) => Times(f(k), Slice(t, b)(k, a)),
      (k: nat) => Times(Conjugate(f)(k), Bra(t, Bit(b))(k, a));
    forall k: nat | k < p ensures conj(k) == Conj(plain(k)) {
      ConjTimes(f(k), Slice(t, b)(k, a));
      assert Bra(t, Bit(b))(k, a) == Conj(Slice(t, b)(k, a));
      assert Conjugate(f)(k) == Conj(f(k));
    }
    ConjSum(p, plain, conj);
    SumSame(p, conj, (k: nat) => Times(Conjugate(f)(k), Bra(t, Bit(b))(k, a)));
    SumSame(p, plain, (k: nat) => Times(f(k), Slice(t, b)(k, a)));
  }

  /** The ket tensor with an operator in is a combination of its two slices. */
  lemma KetIs(t: Tensor, op: Option<Matrix2>, b: bool, l: nat, a: nat)
    ensures Ket(t, op, Bit(b))(l, a)
      == Plus(Times(SiteEntry(op, b, false), Slice(t, false)(l, a)),
        Times(SiteEntry(op, b, true), Slice(t, true)(l, a)))
  {
    hide Times, Plus;
    var (x, y) := (t.at(l, 0, a), t.at(l, 1, a));
    ComplexLaws(x, SiteEntry(op, b, false), ZERO);
    ComplexLaws(y, SiteEntry(op, b, true), ZERO);
    ComplexLaws(x, ZERO, ZERO);
    ComplexLaws(y, ZERO, ZERO);
    ComplexSums(x, ZERO, ZERO);
    ComplexSums(ZERO, y, ZERO);
    ComplexSums(y, ZERO, ZERO);
    ComplexSums(ZERO, Times(x, SiteEntry(op, b, false)), ZERO);
    ComplexSums(Times(x, SiteEntry(op, b, false)), ZERO, ZERO);
    assert Bit(false) == 0 && Bit(true) == 1;
    assert Slice(t, false)(l, a) == x && Slice(t, true)(l, a) == y;
    if op.Some? {
      assert Ket(t, op, Bit(b))(l, a)
          == Plus(Plus(ZERO, Times(x, op.value(Bit(b), 0))), Times(y, op.value(Bit(b), 1)));
    } else {
      assert Ket(t, op, Bit(b))(l, a) == t.at(l, Bit(b), a);
    }
  }

  /** A row applied to a combination of two matrices. */
  lemma RowLinear(p: nat, w: nat -> Complex, x: Table, k: Complex, u: Table, m: Complex, v: Table, a: nat)
    requires forall l: nat :: l < p ==> x(l, a) == Plus(Times(k, u(l, a)), Times(m, v(l, a)))
    ensures RowTimes(p, w, x)(a) == Plus(Times(k, RowTimes(p, w, u)(a)), Times(m, RowTimes(p, w, v)(a)))
  {
    hide Times, Plus;
    var f, g := (l: nat) => Times(k, Times(w(l), u(l, a))), (l: nat) => Times(m, Times(w(l), v(l, a)));
    var fu, gv := (l: nat) => Times(w(l), u(l, a)), (l: nat) => Times(w(l), v(l, a));
    forall l: nat | l < p ensures Times(w(l), x(l, a)) == Plus(f(l), g(l)) {
      ComplexLaws(w(l), Times(k, u(l, a)), Times(m, v(l, a)));
      MovedOut(k, w(l), u(l, a));
      MovedOut(m, w(l), v(l, a));
    }
    SumSame(p, (l: nat) => Times(w(l), x(l, a)), (l: nat) => Plus(f(l), g(l)));
    SumPlus(p, f, g);
    SumTimes(p, k, fu);
    SumTimes(p, m, gv);
    SumSame(p, f, (l: nat) => Times(k, fu(l)));
    SumSame(p, g, (l: nat) => Times(m, gv(l)));
    SumSame(p, fu, (l: nat) => Times(w(l), u(l, a)));
    SumSame(p, gv, (l: nat) => Times(w(l), v(l, a)));
  }

  /** The ket side of a site: both ways to go on, each with its entry of the operator. */
  lemma {:induction false} KetRow(ts: seq<Tensor>, op: nat -> Option<Matrix2>, s: Config, t: Config, b: bool, a: nat)
    requires |s| == |t| < |ts|
    ensures RowTimes(ts[|t|].chiL, Multiple(OpEntry(op, s, t), Amp(ts, t)), Ket(ts[|t|], op(|t|), Bit(b)))(a)
      == Plus(Times(OpEntry(op, s + [b], t + [false]), Amp(ts, t + [false])(a)),
        Times(OpEntry(op, s + [b], t + [true]), Amp(ts, t + [true])(a)))
  {
    hide Times, Plus, Amp, OpEntry, SiteEntry, Ket, Slice;
    var p, k, f, o := ts[|t|].chiL, ts[|t|], Amp(ts, t), OpEntry(op, s, t);
    var (s0, s1) := (SiteEntry(op(|t|), b, false), SiteEntry(op(|t|), b, true));
    var w := Multiple(o, f);
    forall l: nat | l < p
      ensures Ket(k, op(|t|), Bit(b))(l, a) == Plus(Times(s0, Slice(k, false)(l, a)), Times(s1, Slice(k, true)(l, a)))
    {
      KetIs(k, op(|t|), b, l, a);
    }
    RowLinear(p, w, Ket(k, op(|t|), Bit(b)), s0, Slice(k, false), s1, Slice(k, true), a);
    OneWayOn(ts, op, s, t, b, false, a);
    OneWayOn(ts, op, s, t, b, true, a);
  }

  lemma {:induction false} OneWayOn(ts: seq<Tensor>, op: nat -> Option<Matrix2>, s: Config, t: Config, b: bool,
                                    c: bool, a: nat)
    requires |s| == |t| < |ts|
    ensures Times(SiteEntry(op(|t|), b, c),
        RowTimes(ts[|t|].chiL, Multiple(OpEntry(op, s, t), Amp(ts, t)), Slice(ts[|t|], c))(a))
      == Times(OpEntry(op, s + [b], t + [c]), Amp(ts, t + [c])(a))
  {
    hide Times, Plus, Amp, OpEntry, SiteEntry, Slice, RowTimes, Dot;
    var p, k, f, o, e := ts[|t|].chiL, ts[|t|], Amp(ts, t), OpEntry(op, s, t), SiteEntry(op(|t|), b, c);
    AmpNext(ts, t, c);
    OpEntryNext(op, s, t, b, c);
    RowIsDot(p, Multiple(o, f), Slice(k, c), a);
    RowIsDot(p, f, Slice(k, c), a);
    DotTimes(p, o, f, Column(Slice(k, c), a), Multiple(o, f));
    var r := RowTimes(p, f, Slice(k, c))(a);
    ComplexLaws(e, o, r);
    ComplexLaws(o, e, ZERO);
  }

  /** One summand of a contraction up to some site, by ket and bra bond. */
  function Summand(ts: seq<Tensor>, op: nat -> Option<Matrix2>, i: nat, j: nat): (Config, Config) -> Complex
  {
    (s: Config, t: Config) =>
      if |s| == |t| <= |ts| then Times(Conj(Amp(ts, s)(j)), Times(OpEntry(op, s, t), Amp(ts, t)(i))) else ZERO
  }

  function SummandEnv(ts: seq<Tensor>, op: nat -> Option<Matrix2>, s: Config, t: Config): Table
  {
    (i: nat, j: nat) => Summand(ts, op, i, j)(s, t)
  }

  /** A summand pushed through a site, with the bra index there fixed. */
  lemma SummandNext(ts: seq<Tensor>, op: nat -> Option<Matrix2>, s: Config, t: Config, b: bool, a: nat, a': nat)
    requires |s| == |t| < |ts|
    ensures var k := ts[|t|];
      Through(k.chiL, SummandEnv(ts, op, s, t), Ket(k, op(|t|), Bit(b)), Bra(k, Bit(b)))(a, a')
      == SumOut((u: Config) => Summand(ts, op, a, a')(s + [b], u))(t)
  {
    hide Times, Plus, Amp, OpEntry, Through, RowTimes, Ket, Bra, Conj;
    var k, c, w := ts[|t|], Conjugate(Amp(ts, s)), Multiple(OpEntry(op, s, t), Amp(ts, t));
    forall i: nat, j: nat | i < k.chiL && j < k.chiL ensures SummandEnv(ts, op, s, t)(i, j) == Times(c(j), w(i)) {
      SummandIs(ts, op, s, t, i, j);
      assert c(j) == Conj(Amp(ts, s)(j)) && w(i) == Times(OpEntry(op, s, t), Amp(ts, t)(i));
    }
    ThroughProduct(k.chiL, c, w, SummandEnv(ts, op, s, t), Ket(k, op(|t|), Bit(b)), Bra(k, Bit(b)), a, a');
    BraRow(ts, s, b, a');
    KetRow(ts, op, s, t, b, a);
    ComplexLaws(Conj(Amp(ts, s + [b])(a')), Times(OpEntry(op, s + [b], t + [false]), Amp(ts, t + [false])(a)),
      Times(OpEntry(op, s + [b], t + [true]), Amp(ts, t + [true])(a)));
    var u := (u: Config) => Summand(ts, op, a, a')(s + [b], u);
    SummandIs(ts, op, s + [b], t + [false], a, a');
    SummandIs(ts, op, s + [b], t + [true], a, a');
    assert SumOut(u)(t) == Plus(u(t + [false]), u(t + [true]));
  }

  lemma {:induction false} SummandIs(ts: seq<Tensor>, op: nat -> Option<Matrix2>, s: Config, t: Config, i: nat, j: nat)
    requires |s| == |t| <= |ts|
    ensures Summand(ts, op, i, j)(s, t) == Times(Conj(Amp(ts, s)(j)), Times(OpEntry(op, s, t), Amp(ts, t)(i)))
  {
  }

  // ---- the whole chain ----------------------------------------------------------

  /** The contraction up to site `k`, as a double sum over configurations. */
  function LeftSum(ts: seq<Tensor>, op: nat -> Option<Matrix2>, k: nat, i: nat, j: nat): Complex
  {
    SumOver(k, RowsOver(k, Summand(ts, op, i, j)))
  }

  /** The sum over ket configurations, as an environment. */
  function KetSum(ts: seq<Tensor>, op: nat -> Option<Matrix2>, k: nat, s: Config): Table
  {
    (i: nat, j: nat) => RowsOver(k, Summand(ts, op, i, j))(s)
  }

  /** Pushing the double sum through one physical index of the bra. */
  lemma {:induction false} PushIndex(ts: seq<Tensor>, op: nat -> Option<Matrix2>, k: nat, l: Table, b: bool, a: nat,
                                     a': nat)
    requires k < |ts|
      && forall i: nat, j: nat :: i < ts[k].chiL && j < ts[k].chiL ==> l(i, j) == LeftSum(ts, op, k, i, j)
    ensures var t := ts[k];
      Through(t.chiL, l, Ket(t, op(k), Bit(b)), Bra(t, Bit(b)))(a, a')
      == SumOver(k, (s: Config) => RowsOver(k + 1, Summand(ts, op, a, a'))(s + [b]))
  {
    hide Plus, Through, Ket, Bra, Summand;
    var t, g := ts[k], (s: Config) => KetSum(ts, op, k, s);
    var (p, x, y) := (t.chiL, Ket(t, op(k), Bit(b)), Bra(t, Bit(b)));
    forall i: nat, j: nat | i < p && j < p ensures l(i, j) == SumOver(k, (s: Config) => g(s)(i, j)) {
      OverSame(k, RowsOver(k, Summand(ts, op, i, j)), (s: Config) => g(s)(i, j));
    }
    ThroughOver(k, p, g, l, x, y, a, a');
    var pushed, next := (s: Config) => Through(p, g(s), x, y)(a, a'),
      (s: Config) => RowsOver(k + 1, Summand(ts, op, a, a'))(s + [b]);
    forall s: Config | |s| == k ensures pushed(s) == next(s) {
      PushKet(ts, op, k, s, b, a, a');
    }
    OverSame(k, pushed, next);
  }

  lemma PushKet(ts: seq<Tensor>, op: nat -> Option<Matrix2>, k: nat, s: Config, b: bool, a: nat, a': nat)
    requires |s| == k < |ts|
    ensures var t := ts[k];
      Through(t.chiL, KetSum(ts, op, k, s), Ket(t, op(k), Bit(b)), Bra(t, Bit(b)))(a, a')
      == RowsOver(k + 1, Summand(ts, op, a, a'))(s + [b])
  {
    hide Plus, Through, Ket, Bra, Summand;
    var t, g := ts[k], (u: Config) => SummandEnv(ts, op, s, u);
    var (p, x, y) := (t.chiL, Ket(t, op(k), Bit(b)), Bra(t, Bit(b)));
    forall i: nat, j: nat | i < p && j < p
      ensures KetSum(ts, op, k, s)(i, j) == SumOver(k, (u: Config) => g(u)(i, j))
    {
      var f := Summand(ts, op, i, j);
      forall u: Config ensures g(u)(i, j) == f(s, u) {
        assert g(u) == SummandEnv(ts, op, s, u);
      }
      OverSame(k, (t: Config) => f(s, t), (u: Config) => g(u)(i, j));
      assert RowsOver(k, f)(s) == SumOver(k, (t: Config) => f(s, t));
      assert KetSum(ts, op, k, s)(i, j) == RowsOver(k, f)(s);
    }
    ThroughOver(k, p, g, KetSum(ts, op, k, s), x, y, a, a');
    var pushed, next := (u: Config) => Through(p, g(u), x, y)(a, a'),
      (u: Config) => Summand(ts, op, a, a')(s + [b], u);
    forall u: Config | |u| == k ensures pushed(u) == SumOut(next)(u) {
      SummandNext(ts, op, s, u, b, a, a');
    }
    OverSame(k, pushed, SumOut(next));
  }

  /** The left environment is the double sum over the configurations of the sites passed. */
  lemma {:induction false} LeftIsSum(ts: seq<Tensor>, op: nat -> Option<Matrix2>, k: nat, a: nat, a': nat)
    requires ChainOk(ts) && k <= |ts| && a < Bond(ts, k) && a' < Bond(ts, k)
    ensures Entry(Left(ts, op, k))(a, a') == LeftSum(ts, op, k, a, a')
    decreases k
  {
    hide Plus, Through, Ket, Bra, Summand;
    if k == 0 {
      FirstSummand(ts, op);
    } else {
      var q := k - 1;
      var t, l := ts[q], Entry(Left(ts, op, q));
      forall i: nat, j: nat | i < t.chiL && j < t.chiL ensures l(i, j) == LeftSum(ts, op, q, i, j) {
        LeftIsSum(ts, op, q, i, j);
      }
      PushIndex(ts, op, q, l, false, a, a');
      PushIndex(ts, op, q, l, true, a, a');
      var f := RowsOver(k, Summand(ts, op, a, a'));
      OverPlus(q, (s: Config) => f(s + [false]), (s: Config) => f(s + [true]), SumOut(f));
      LastTransfer(ts, op, k, a, a');
    }
  }

  lemma LastTransfer(ts: seq<Tensor>, op: nat -> Option<Matrix2>, k: nat, a: nat, a': nat)
    requires ChainOk(ts) && 0 < k <= |ts| && a < Bond(ts, k) && a' < Bond(ts, k)
    ensures var (t, l) := (ts[k - 1], Entry(Left(ts, op, k - 1)));
      Entry(Left(ts, op, k))(a, a')
      == Plus(Through(t.chiL, l, Ket(t, op(k - 1), Bit(false)), Bra(t, Bit(false)))(a, a'),
        Through(t.chiL, l, Ket(t, op(k - 1), Bit(true)), Bra(t, Bit(true)))(a, a'))
  {
    hide Plus, Through, Ket, Bra;
    assert Bit(false) == 0 && Bit(true) == 1;
  }

  lemma FirstSummand(ts: seq<Tensor>, op: nat -> Option<Matrix2>)
    ensures LeftSum(ts, op, 0, 0, 0) == ONE && Entry(Edge())(0, 0) == ONE
  {
    hide Times, Plus;
    ComplexLaws(ONE, ONE, ONE);
    ConjOf(1.0, 0.0);
    SummandIs(ts, op, [], [], 0, 0);
  }

  /** Contracting a chain with operators in is the expectation value of their product. */
  lemma FullIsBraket(ts: seq<Tensor>, op: nat -> Option<Matrix2>)
    requires ChainOk(ts)
    ensures Full(ts, op) == Braket(|ts|, Amplitude(ts), SitesMatrix(op))
  {
    hide Amp, OpEntry, Times, Conj, Left;
    var n := |ts|;
    LeftIsSum(ts, op, n, 0, 0);
    var f, g := Summand(ts, op, 0, 0), Bracket(Amplitude(ts), SitesMatrix(op), Amplitude(ts));
    forall s: Config | |s| == n ensures RowsOver(n, f)(s) == RowsOver(n, g)(s) {
      OverSame(n, (t: Config) => f(s, t), (t: Config) => g(s, t));
    }
    OverSame(n, RowsOver(n, f), RowsOver(n, g));
  }

  // ---- Pauli strings ------------------------------------------------------------

  /** The interleaved key of two planes, cut to `units` units. */
  function Interleaved(x: seq<bool>, z: seq<bool>, units: nat): (p: Key)
    requires |x| == |z|
    ensures |p| == 2 * units
    ensures forall q: nat :: q < units ==> p[2 * q] == (q < |x| && x[q]) && p[2 * q + 1] == (q < |x| && z[q])
  {
    seq(2 * units, i requires 0 <= i < 2 * units && |x| == |z| =>
      if i / 2 < |x| then (if i % 2 == 0 then x[i / 2] else z[i / 2]) else false)
  }

  lemma {:induction false} LookupFrom(x: seq<bool>, z: seq<bool>, units: nat, q: nat, k: nat)
    requires |x| == |z| && q <= |x| && k < units
    ensures Lookup(SitesFrom(x, z, units, q), k)
      == if q <= k < |x| && (x[k] || z[k]) then Some(UnitMatrix(x[k], z[k])) else None
    decreases |x| - q
  {
    hide MatrixOf;
    if q < |x| {
      LookupFrom(x, z, units, q + 1, k);
      var rest := SitesFrom(x, z, units, q + 1);
      if (x[q] || z[q]) && q < units {
        var site := (q, if x[q] && z[q] then Y else if x[q] then X else Z);
        assert ([site] + rest)[0] == site && ([site] + rest)[1..] == rest;
      } else {
        assert [] + rest == rest;
      }
    }
  }

  /** What is put in at the sites of a decoded key is the matrix of its string. */
  lemma {:induction false} DecodedEntry(x: seq<bool>, z: seq<bool>, units: nat, s: Config, t: Config)
    requires |x| == |z| && |s| == |t| <= units
    ensures OpEntry(OpAt(SitesFrom(x, z, units, 0)), s, t) == StringEntry(Interleaved(x, z, units), s, t)
    decreases |s|
  {
    hide Times, UnitMatrix, Lookup, SitesFrom, Interleaved;
    if s != [] {
      var q := |s| - 1;
      DecodedEntry(x, z, units, s[..q], t[..q]);
      DecodedSite(x, z, units, q, s[q], t[q]);
    }
  }

  lemma {:induction false} DecodedSite(x: seq<bool>, z: seq<bool>, units: nat, q: nat, b: bool, c: bool)
    requires |x| == |z| && q < units
    ensures var p := Interleaved(x, z, units);
      SiteEntry(Lookup(SitesFrom(x, z, units, 0), q), b, c) == UnitMatrix(p[2 * q], p[2 * q + 1])(Bit(b), Bit(c))
  {
    hide Lookup, SitesFrom, UnitMatrix;
    LookupFrom(x, z, units, 0, q);
    UnitEntry(false, false, Bit(b), Bit(c));
  }

  /** The interleaved string of a key that holds its X plane and then its Z plane. */
  function StringOf(key: seq<bool>, span: nat, units: nat): (p: Key)
    requires |key| == 2 * span
    ensures |p| == 2 * units && |p| % 2 == 0
  {
    Interleaved(key[..span], key[span..], units)
  }

  /** Contracting a decoded key over a chain is the expectation value of its string. */
  lemma KeyIsBraket(ts: seq<Tensor>, key: seq<bool>, span: nat)
    requires ChainOk(ts) && |key| == 2 * span
    ensures Full(ts, OpAt(LettersOf(key, span, |ts|)))
      == Braket(|ts|, Amplitude(ts), StringMatrix(StringOf(key, span, |ts|)))
  {
    hide SitesFrom, Times, StringEntry, OpEntry, Full;
    var n, x, z := |ts|, key[..span], key[span..];
    var op := OpAt(SitesFrom(x, z, n, 0));
    FullIsBraket(ts, op);
    forall s: Config, t: Config | |s| == n && |t| == n
      ensures SitesMatrix(op)(s, t) == StringMatrix(Interleaved(x, z, n))(s, t)
    {
      DecodedEntry(x, z, n, s, t);
    }
    BraketSame(n, Amplitude(ts), SitesMatrix(op), StringMatrix(Interleaved(x, z, n)));
  }

  lemma BraketSame(n: nat, f: Config -> Complex, a: Matrix, b: Matrix)
    requires SameMatrix(n, a, b)
    ensures Braket(n, f, a) == Braket(n, f, b)
  {
    hide Times, Conj;
    var (x, y) := (Bracket(f, a, f), Bracket(f, b, f));
    forall s: Config | |s| == n ensures RowsOver(n, x)(s) == RowsOver(n, y)(s) {
      OverSame(n, (t: Config) => x(s, t), (t: Config) => y(s, t));
    }
    OverSame(n, RowsOver(n, x), RowsOver(n, y));
  }

  // ---- whole operators ----------------------------------------------------------

  /** The matrix of the first terms of an operator: every coefficient times its string. */
  function TermsMatrix(terms: seq<(seq<bool>, real)>, span: nat, units: nat): Matrix
    requires forall i :: 0 <= i < |terms| ==> |terms[i].0| == 2 * span
  {
    if terms == [] then (s: Config, t: Config) => ZERO
    else
      var last := terms[|terms| - 1];
      Added(TermsMatrix(terms[..|terms| - 1], span, units),
        Scaled(Complex(last.1, 0.0), StringMatrix(StringOf(last.0, span, units))))
  }

  lemma BraketAdded(n: nat, f: Config -> Complex, a: Matrix, b: Matrix)
    ensures Braket(n, f, Added(a, b)) == Plus(Braket(n, f, a), Braket(n, f, b))
  {
    hide Times, Conj, Plus;
    var (x, y, w) := (Bracket(f, a, f), Bracket(f, b, f), Bracket(f, Added(a, b), f));
    forall s: Config | |s| == n ensures RowsOver(n, w)(s) == Plus(RowsOver(n, x)(s), RowsOver(n, y)(s)) {
      forall t: Config | |t| == n ensures w(s, t) == Plus(x(s, t), y(s, t)) {
        SumLeft(a(s, t), b(s, t), f(t));
        ComplexLaws(Conj(f(s)), Times(a(s, t), f(t)), Times(b(s, t), f(t)));
      }
      OverPlus(n, (t: Config) => x(s, t), (t: Config) => y(s, t), (t: Config) => w(s, t));
    }
    OverPlus(n, RowsOver(n, x), RowsOver(n, y), RowsOver(n, w));
  }

  lemma BraketScaled(n: nat, f: Config -> Complex, k: Complex, a: Matrix)
    ensures Braket(n, f, Scaled(k, a)) == Times(k, Braket(n, f, a))
  {
    hide Times, Conj, Plus;
    var (x, w) := (Bracket(f, a, f), Bracket(f, Scaled(k, a), f));
    forall s: Config | |s| == n ensures RowsOver(n, w)(s) == Times(k, RowsOver(n, x)(s)) {
      forall t: Config | |t| == n ensures w(s, t) == Times(k, x(s, t)) {
        ComplexLaws(k, a(s, t), f(t));
        MovedOut(k, Conj(f(s)), Times(a(s, t), f(t)));
      }
      OverTimes(n, k, (t: Config) => x(s, t), (t: Config) => w(s, t));
    }
    OverTimes(n, k, RowsOver(n, x), RowsOver(n, w));
  }

  /** The weighted sum over the terms is the expectation value of the whole operator. */
  lemma {:induction false} SumIsBraket(ts: seq<Tensor>, terms: seq<(seq<bool>, real)>, span: nat)
    requires ChainOk(ts) && forall i :: 0 <= i < |terms| ==> |terms[i].0| == 2 * span
    ensures WeightedSum(ts, terms, span) == Braket(|ts|, Amplitude(ts), TermsMatrix(terms, span, |ts|))
    decreases |terms|
  {
    hide Times, Plus, Full, Braket, LettersOf;
    var n, f := |ts|, Amplitude(ts);
    if terms == [] {
      EmptyBraket(n, f);
    } else {
      var rest, last := terms[..|terms| - 1], terms[|terms| - 1];
      var m := StringMatrix(StringOf(last.0, span, n));
      SumIsBraket(ts, rest, span);
      KeyIsBraket(ts, last.0, span);
      BraketScaled(n, f, Complex(last.1, 0.0), m);
      BraketAdded(n, f, TermsMatrix(rest, span, n), Scaled(Complex(last.1, 0.0), m));
      ComplexLaws(Complex(last.1, 0.0), Braket(n, f, m), ZERO);
    }
  }

  lemma EmptyBraket(n: nat, f: Config -> Complex)
    ensures Braket(n, f, (s: Config, t: Config) => ZERO) == ZERO
  {
    hide Times, Conj, Plus;
    var x := Bracket(f, (s: Config, t: Config) => ZERO, f);
    forall s: Config | |s| == n ensures RowsOver(n, x)(s) == ZERO {
      forall t: Config ensures x(s, t) == ZERO {
        ComplexLaws(f(t), ZERO, ZERO);
        ComplexLaws(ZERO, f(t), ZERO);
        ComplexLaws(Conj(f(s)), ZERO, ZERO);
      }
      OverZero(n, (t: Config) => x(s, t));
    }
    OverZero(n, RowsOver(n, x));
  }

  // ---- basis states -------------------------------------------------------------

  /** A chain of bond 1 that stands for one configuration. */
  predicate BasisChain(ts: seq<Tensor>, state: Config)
  {
    |state| == |ts| > 0 && forall k :: 0 <= k < |ts| ==> SiteOf(ts[k], state[k])
  }

  /** A bond-1 tensor with entry 1 at one physical index and 0 at the other. */
  predicate SiteOf(t: Tensor, b: bool)
  {
    t.chiL == 1 && t.chiR == 1 && t.at(0, Bit(b), 0) == ONE && t.at(0, Bit(!b), 0) == ZERO
  }

  lemma {:induction false} BasisAmp(ts: seq<Tensor>, state: Config, s: Config)
    requires BasisChain(ts, state) && |s| <= |ts|
    ensures Amp(ts, s)(0) == Delta(s, state[..|s|])
    decreases |s|
  {
    hide Times, Plus;
    if s != [] {
      var q := |s| - 1;
      BasisAmp(ts, state, s[..q]);
      assert SiteOf(ts[q], state[q]);
      var f, g := Amp(ts, s[..q]), Slice(ts[q], s[q]);
      OneTerm((l: nat) => Times(f(l), g(l, 0)));
      var d := Delta(s[..q], state[..q]);
      ComplexLaws(d, ZERO, ZERO);
      assert s == s[..q] + [s[q]] && state[..|s|] == state[..q] + [state[q]];
    }
  }

  lemma BasisChainOk(ts: seq<Tensor>, state: Config)
    requires BasisChain(ts, state)
    ensures ChainOk(ts)
  {
    var n := |ts|;
    assert SiteOf(ts[0], state[0]) && SiteOf(ts[n - 1], state[n - 1]);
    forall k | 0 <= k < n - 1 ensures ts[k].chiR == ts[k + 1].chiL {
      assert SiteOf(ts[k], state[k]) && SiteOf(ts[k + 1], state[k + 1]);
    }
  }

  /** On a chain that stands for a basis state, a decoded key is worth its trace in that state. */
  lemma BasisChainTrace(ts: seq<Tensor>, state: Config, key: seq<bool>, span: nat)
    requires BasisChain(ts, state) && |key| == 2 * span
    ensures Full(ts, OpAt(LettersOf(key, span, |ts|)))
      == Complex(PauliTrace(StringOf(key, span, |ts|), state), 0.0)
  {
    hide Times, Plus, Full, PauliTrace, StringEntry, LettersOf, Amp;
    var n, f, p := |ts|, Amplitude(ts), StringOf(key, span, |ts|);
    BasisChainOk(ts, state);
    KeyIsBraket(ts, key, span);
    forall s: Config | |s| == n ensures f(s) == Delta(s, state) {
      BasisAmp(ts, state, s);
      assert state[..n] == state;
    }
    DeltaBraket(n, f, StringMatrix(p), state);
    TraceIsDiagonal(p, state, state);
  }

  lemma DeltaBraket(n: nat, f: Config -> Complex, m: Matrix, state: Config)
    requires |state| == n && forall s: Config :: |s| == n ==> f(s) == Delta(s, state)
    ensures Braket(n, f, m) == m(state, state)
  {
    hide Times, Plus, Conj;
    var x := Bracket(f, m, f);
    ConjOf(0.0, 0.0);
    ConjOf(1.0, 0.0);
    forall s: Config | |s| == n ensures RowsOver(n, x)(s) == if s == state then m(state, state) else ZERO {
      forall t: Config | |t| == n ensures x(s, t) == if s == state && t == state then m(state, state) else ZERO {
        var e := m(s, t);
        ComplexLaws(e, ZERO, ZERO);
        ComplexLaws(Times(e, f(t)), ZERO, ZERO);
        ComplexLaws(ZERO, Times(e, f(t)), ZERO);
        ComplexLaws(ONE, ZERO, ZERO);
      }
      if s == state {
        OverOne(n, state, (t: Config) => x(s, t));
      } else {
        OverZero(n, (t: Config) => x(s, t));
      }
    }
    OverOne(n, state, RowsOver(n, x));
  }
}
