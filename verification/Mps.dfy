/**
 Matrix-product states: the two transfer steps, the environments built from them, and the
 window contraction of a Pauli string.
 */
module MatrixProducts {
  import opened Wrappers
  import opened BitPositions
  import opened ComplexNumbers
  import opened JwWeights
  import opened PauliMatrices

  // ---- bilinear forms -----------------------------------------------------------

  /** A row of coefficients applied to the columns of a matrix. */
  function RowTimes(p: nat, a: nat -> Complex, g: (nat, nat) -> Complex): nat -> Complex
  {
    (j: nat) => Sum(p, (k: nat) => Times(a(k), g(k, j)))
  }

  function TimesCol(n: nat, g: (nat, nat) -> Complex, b: nat -> Complex): nat -> Complex
  {
    (k: nat) => Sum(n, (j: nat) => Times(g(k, j), b(j)))
  }

  function Dot(n: nat, x: nat -> Complex, y: nat -> Complex): Complex { Sum(n, (i: nat) => Times(x(i), y(i))) }

  lemma DotSame(n: nat, x: nat -> Complex, y: nat -> Complex, u: nat -> Complex, v: nat -> Complex)
    requires forall i: nat :: i < n ==> x(i) == u(i) && y(i) == v(i)
    ensures Dot(n, x, y) == Dot(n, u, v)
  {
    SumSame(n, (i: nat) => Times(x(i), y(i)), (i: nat) => Times(u(i), v(i)));
  }

  /** `(a G) b == a (G b)`. */
  lemma Bilinear(p: nat, n: nat, a: nat -> Complex, g: (nat, nat) -> Complex, b: nat -> Complex)
    ensures Dot(n, RowTimes(p, a, g), b) == Dot(p, a, TimesCol(n, g, b))
  {
    hide Times, Plus;
    var f := (k: nat, j: nat) => Times(a(k), Times(g(k, j), b(j)));
    forall k: nat | k < p ensures RowSums(n, f)(k) == Times(a(k), TimesCol(n, g, b)(k)) {
      SumTimes(n, a(k), (j: nat) => Times(g(k, j), b(j)));
      SumSame(n, (j: nat) => f(k, j), (j: nat) => Times(a(k), ((j: nat) => Times(g(k, j), b(j)))(j)));
    }
    forall j: nat | j < n ensures ColSums(p, f)(j) == Times(RowTimes(p, a, g)(j), b(j)) {
      SumTimes(p, b(j), (k: nat) => Times(a(k), g(k, j)));
      forall k: nat ensures f(k, j) == Times(Times(a(k), g(k, j)), b(j)) {
        ComplexLaws(a(k), g(k, j), b(j));
      }
      SumSame(p, (k: nat) => f(k, j), (k: nat) => Times(((k: nat) => Times(a(k), g(k, j)))(k), b(j)));
    }
    SumSwap(p, n, f);
    SumSame(p, RowSums(n, f), (k: nat) => Times(a(k), TimesCol(n, g, b)(k)));
    SumSame(n, ColSums(p, f), (j: nat) => Times(RowTimes(p, a, g)(j), b(j)));
  }

  /** The pairing of two environments: no conjugation. */
  function Pair(n: nat, f: (nat, nat) -> Complex, g: (nat, nat) -> Complex): Complex { Sum(n, RowDots(n, f, g)) }

  function RowDots(n: nat, f: (nat, nat) -> Complex, g: (nat, nat) -> Complex): nat -> Complex
  {
    (i: nat) => Dot(n, (j: nat) => f(i, j), (j: nat) => g(i, j))
  }

  /** Left environment through one physical index: `X^T L Y`. */
  function Through(p: nat, l: (nat, nat) -> Complex, x: (nat, nat) -> Complex, y: (nat, nat) -> Complex): (nat,
                   nat) -> Complex
  {
    (a: nat, a': nat) =>
      Dot(p, (bra: nat) => Dot(p, (ket: nat) => l(ket, bra), (ket: nat) => x(ket, a)), (bra: nat) => y(bra, a'))
  }

  /** Right environment back through one physical index: `X R Y^T`. */
  function Back(n: nat, r: (nat, nat) -> Complex, x: (nat, nat) -> Complex, y: (nat, nat) -> Complex): (nat,
                nat) -> Complex
  {
    (ket: nat, bra: nat) =>
      Dot(n, (a': nat) => Dot(n, (a: nat) => x(ket, a), (a: nat) => r(a, a')), (a': nat) => y(bra, a'))
  }

  /** Pushing the left environment through is pulling the right one back. */
  lemma ThroughIsBack(p: nat, n: nat, l: (nat, nat) -> Complex, r: (nat, nat) -> Complex, x: (nat, nat) -> Complex,
                      y: (nat, nat) -> Complex)
    ensures Pair(n, Through(p, l, x, y), r) == Pair(p, l, Back(n, r, x, y))
  {
    hide Times, Plus;
    var u := (a: nat, bra: nat) => Dot(p, (ket: nat) => l(ket, bra), (ket: nat) => x(ket, a));
    var s := (a: nat, bra: nat) => Dot(n, (a': nat) => r(a, a'), (a': nat) => y(bra, a'));
    var f := (a: nat, bra: nat) => Times(u(a, bra), s(a, bra));
    var w := (ket: nat, bra: nat) => Dot(n, (a: nat) => x(ket, a), (a: nat) => s(a, bra));
    var h := (ket: nat, bra: nat) => Times(l(ket, bra), w(ket, bra));
    forall a: nat | a < n ensures RowDots(n, Through(p, l, x, y), r)(a) == RowSums(p, f)(a) {
      InnerA(p, n, l, r, x, y, a, u, s, f);
    }
    SumSame(n, RowDots(n, Through(p, l, x, y), r), RowSums(p, f));
    SumSwap(n, p, f);
    forall bra: nat | bra < p ensures ColSums(n, f)(bra) == ColSums(p, h)(bra) {
      InnerB(p, n, l, x, bra, u, s, f, w, h);
    }
    SumSame(p, ColSums(n, f), ColSums(p, h));
    SumSwap(p, p, h);
    forall ket: nat | ket < p ensures RowSums(p, h)(ket) == RowDots(p, l, Back(n, r, x, y))(ket) {
      InnerC(p, n, l, r, x, y, ket, s, w, h);
    }
    SumSame(p, RowSums(p, h), RowDots(p, l, Back(n, r, x, y)));
  }

  lemma InnerA(p: nat, n: nat, l: (nat, nat) -> Complex, r: (nat, nat) -> Complex, x: (nat, nat) -> Complex,
               y: (nat, nat) -> Complex, a: nat, u: (nat, nat) -> Complex, s: (nat, nat) -> Complex,
                 f: (nat, nat) -> Complex)
    requires forall a: nat, bra: nat :: u(a, bra) == Dot(p, (ket: nat) => l(ket, bra), (ket: nat) => x(ket, a))
    requires forall a: nat, bra: nat :: s(a, bra) == Dot(n, (a': nat) => r(a, a'), (a': nat) => y(bra, a'))
    requires forall a: nat, bra: nat :: f(a, bra) == Times(u(a, bra), s(a, bra))
    ensures RowDots(n, Through(p, l, x, y), r)(a) == RowSums(p, f)(a)
  {
    hide Times, Plus;
    var row, col := (bra: nat) => u(a, bra), (a': nat) => r(a, a');
    Bilinear(p, n, row, y, col);
    forall a': nat | a' < n ensures Through(p, l, x, y)(a, a') == RowTimes(p, row, y)(a') {
      DotSame(p, (bra: nat) => Dot(p, (ket: nat) => l(ket, bra), (ket: nat) => x(ket, a)), (bra: nat) => y(bra, a'),
        row, (bra: nat) => y(bra, a'));
      SumSame(p, (bra: nat) => Times(row(bra), ((bra: nat) => y(bra, a'))(bra)),
        (bra: nat) => Times(row(bra), y(bra, a')));
    }
    DotSame(n, (a': nat) => Through(p, l, x, y)(a, a'), (a': nat) => r(a, a'), RowTimes(p, row, y), col);
    forall bra: nat | bra < p ensures TimesCol(n, y, col)(bra) == s(a, bra) {
      forall a': nat ensures Times(y(bra, a'), col(a')) == Times(r(a, a'), y(bra, a')) {
        ComplexLaws(y(bra, a'), col(a'), ZERO);
      }
      SumSame(n, (a': nat) => Times(y(bra, a'), col(a')),
        (a': nat) => Times(((a': nat) => r(a, a'))(a'), ((a': nat) => y(bra, a'))(a')));
    }
    SumSame(p, (bra: nat) => Times(row(bra), TimesCol(n, y, col)(bra)), (bra: nat) => f(a, bra));
  }

  lemma InnerB(p: nat, n: nat, l: (nat, nat) -> Complex, x: (nat, nat) -> Complex, bra: nat, u: (nat, nat) -> Complex,
               s: (nat, nat) -> Complex, f: (nat, nat) -> Complex, w: (nat, nat) -> Complex, h: (nat, nat) -> Complex)
    requires forall a: nat, bra: nat :: u(a, bra) == Dot(p, (ket: nat) => l(ket, bra), (ket: nat) => x(ket, a))
    requires forall a: nat, bra: nat :: f(a, bra) == Times(u(a, bra), s(a, bra))
    requires forall ket: nat, bra: nat :: w(ket, bra) == Dot(n, (a: nat) => x(ket, a), (a: nat) => s(a, bra))
    requires forall ket: nat, bra: nat :: h(ket, bra) == Times(l(ket, bra), w(ket, bra))
    ensures ColSums(n, f)(bra) == ColSums(p, h)(bra)
  {
    hide Times, Plus;
    var row, col := (ket: nat) => l(ket, bra), (a: nat) => s(a, bra);
    Bilinear(p, n, row, x, col);
    forall a: nat | a < n ensures RowTimes(p, row, x)(a) == u(a, bra) {
      SumSame(p, (ket: nat) => Times(row(ket), x(ket, a)),
        (ket: nat) => Times(((ket: nat) => l(ket, bra))(ket), ((ket: nat) => x(ket, a))(ket)));
    }
    SumSame(n, (a: nat) => Times(RowTimes(p, row, x)(a), col(a)), (a: nat) => f(a, bra));
    forall ket: nat | ket < p ensures TimesCol(n, x, col)(ket) == w(ket, bra) {
      SumSame(n, (a: nat) => Times(x(ket, a), col(a)),
        (a: nat) => Times(((a: nat) => x(ket, a))(a), ((a: nat) => s(a, bra))(a)));
    }
    SumSame(p, (ket: nat) => Times(row(ket), TimesCol(n, x, col)(ket)), (ket: nat) => h(ket, bra));
  }

  lemma InnerC(p: nat, n: nat, l: (nat, nat) -> Complex, r: (nat, nat) -> Complex, x: (nat, nat) -> Complex,
               y: (nat, nat) -> Complex, ket: nat, s: (nat, nat) -> Complex, w: (nat, nat) -> Complex,
                 h: (nat, nat) -> Complex)
    requires forall a: nat, bra: nat :: s(a, bra) == Dot(n, (a': nat) => r(a, a'), (a': nat) => y(bra, a'))
    requires forall ket: nat, bra: nat :: w(ket, bra) == Dot(n, (a: nat) => x(ket, a), (a: nat) => s(a, bra))
    requires forall ket: nat, bra: nat :: h(ket, bra) == Times(l(ket, bra), w(ket, bra))
    ensures RowSums(p, h)(ket) == RowDots(p, l, Back(n, r, x, y))(ket)
  {
    hide Times, Plus;
    var row := (a: nat) => x(ket, a);
    forall bra: nat | bra < p ensures w(ket, bra) == Back(n, r, x, y)(ket, bra) {
      var col := (a': nat) => y(bra, a');
      Bilinear(n, n, row, r, col);
      forall a': nat | a' < n ensures RowTimes(n, row, r)(a') == Dot(n, (a: nat) => x(ket, a), (a: nat) => r(a, a')) {
        SumSame(n, (a: nat) => Times(row(a), r(a, a')),
          (a: nat) => Times(((a: nat) => x(ket, a))(a), ((a: nat) => r(a, a'))(a)));
      }
      DotSame(n, RowTimes(n, row, r), col, (a': nat) => Dot(n, (a: nat) => x(ket, a), (a: nat) => r(a, a')),
        (a': nat) => y(bra, a'));
      forall a: nat | a < n ensures TimesCol(n, r, col)(a) == s(a, bra) {
        SumSame(n, (a': nat) => Times(r(a, a'), col(a')),
          (a': nat) => Times(((a': nat) => r(a, a'))(a'), ((a': nat) => y(bra, a'))(a')));
      }
      DotSame(n, row, TimesCol(n, r, col), (a: nat) => x(ket, a), (a: nat) => s(a, bra));
    }
    SumSame(p, (bra: nat) => h(ket, bra),
      (bra: nat) => Times(((bra: nat) => l(ket, bra))(bra), ((bra: nat) => Back(n, r, x, y)(ket, bra))(bra)));
  }

  // ---- tensors and transfer steps -----------------------------------------------

  /** A site tensor: entries by left bond, physical index and right bond. */
  datatype Tensor = Tensor(chiL: nat, chiR: nat, at: (nat, nat, nat) -> Complex)

  /** A boundary environment: rows by ket index, columns by bra index. */
  type Env = seq<seq<Complex>>

  function Entry(e: Env): (nat, nat) -> Complex { (i: nat, j: nat) => if i < |e| && j < |e[i]| then e[i][j] else ZERO }

  function Tabulate(n: nat, f: (nat, nat) -> Complex): (e: Env)
    ensures |e| == n && forall i, j :: 0 <= i < n && 0 <= j < n ==> |e[i]| == n && e[i][j] == f(i, j)
  {
    seq(n, i requires 0 <= i < n => seq(n, j requires 0 <= j < n => f(i, j)))
  }

  /** One physical index of the ket tensor, with the operator put in if there is one. */
  function Ket(t: Tensor, op: Option<Matrix2>, s: nat): (nat, nat) -> Complex
  {
    (l: nat, a: nat) =>
      if op.None? then t.at(l, s, a)
        else Plus(Plus(ZERO, Times(t.at(l, 0, a), op.value(s, 0))), Times(t.at(l, 1, a), op.value(s, 1)))
  }

  function Bra(t: Tensor, s: nat): (nat, nat) -> Complex { (l: nat, a: nat) => Conj(t.at(l, s, a)) }

  function Both(f: (nat, nat) -> Complex, g: (nat, nat) -> Complex): (nat, nat) -> Complex
  {
    (i: nat, j: nat) => Plus(f(i, j), g(i, j))
  }

  /** The left environment pushed through a site. */
  function Transfer(e: Env, t: Tensor, op: Option<Matrix2>): Env
  {
    Tabulate(t.chiR,
      Both(Through(t.chiL, Entry(e), Ket(t, op, 0), Bra(t, 0)), Through(t.chiL, Entry(e), Ket(t, op, 1), Bra(t, 1))))
  }

  /** The right environment pulled back through a site. */
  function Reverse(e: Env, t: Tensor): Env
  {
    Tabulate(t.chiL,
      Both(Back(t.chiR, Entry(e), Ket(t, None, 0), Bra(t, 0)), Back(t.chiR, Entry(e), Ket(t, None, 1), Bra(t, 1))))
  }

  lemma PairSame(n: nat, f: (nat, nat) -> Complex, g: (nat, nat) -> Complex, u: (nat, nat) -> Complex,
                 v: (nat, nat) -> Complex)
    requires forall i: nat, j: nat :: i < n && j < n ==> f(i, j) == u(i, j) && g(i, j) == v(i, j)
    ensures Pair(n, f, g) == Pair(n, u, v)
  {
    forall i: nat | i < n ensures RowDots(n, f, g)(i) == RowDots(n, u, v)(i) {
      DotSame(n, (j: nat) => f(i, j), (j: nat) => g(i, j), (j: nat) => u(i, j), (j: nat) => v(i, j));
    }
    SumSame(n, RowDots(n, f, g), RowDots(n, u, v));
  }

  lemma PairComm(n: nat, f: (nat, nat) -> Complex, g: (nat, nat) -> Complex)
    ensures Pair(n, f, g) == Pair(n, g, f)
  {
    hide Times, Plus;
    forall i: nat | i < n ensures RowDots(n, f, g)(i) == RowDots(n, g, f)(i) {
      var x, y := (j: nat) => f(i, j), (j: nat) => g(i, j);
      forall j: nat ensures Times(x(j), y(j)) == Times(y(j), x(j)) {
        ComplexLaws(x(j), y(j), ZERO);
      }
      SumSame(n, (j: nat) => Times(x(j), y(j)), (j: nat) => Times(y(j), x(j)));
    }
    SumSame(n, RowDots(n, f, g), RowDots(n, g, f));
  }

  lemma PairPlus(n: nat, f: (nat, nat) -> Complex, g: (nat, nat) -> Complex, h: (nat, nat) -> Complex)
    ensures Pair(n, Both(f, g), h) == Plus(Pair(n, f, h), Pair(n, g, h))
  {
    hide Times, Plus;
    var x, y := RowDots(n, f, h), RowDots(n, g, h);
    forall i: nat | i < n ensures RowDots(n, Both(f, g), h)(i) == Plus(x(i), y(i)) {
      var u, v := (j: nat) => Times(f(i, j), h(i, j)), (j: nat) => Times(g(i, j), h(i, j));
      SumPlus(n, u, v);
      forall j: nat ensures Times(Both(f, g)(i, j), h(i, j)) == Plus(u(j), v(j)) {
        ComplexLaws(h(i, j), f(i, j), g(i, j));
        ComplexLaws(h(i, j), g(i, j), ZERO);
        ComplexLaws(h(i, j), Plus(f(i, j), g(i, j)), ZERO);
      }
      DotIs(n, Both(f, g), h, i, (j: nat) => Plus(u(j), v(j)));
      DotIs(n, f, h, i, u);
      DotIs(n, g, h, i, v);
    }
    SumPlus(n, x, y);
    SumSame(n, RowDots(n, Both(f, g), h), (i: nat) => Plus(x(i), y(i)));
  }

  lemma {:induction false} DotIs(n: nat, f: (nat, nat) -> Complex, g: (nat, nat) -> Complex, i: nat, u: nat -> Complex)
    requires forall j: nat :: u(j) == Times(f(i, j), g(i, j))
    ensures RowDots(n, f, g)(i) == Sum(n, u)
  {
    var x, y := (j: nat) => f(i, j), (j: nat) => g(i, j);
    SumSame(n, (j: nat) => Times(x(j), y(j)), u);
  }

  /** The two transfer steps are adjoint under the bilinear pairing. */
  lemma TransfersAdjoint(l: Env, r: Env, t: Tensor)
    ensures Pair(t.chiR, Entry(Transfer(l, t, None)), Entry(r)) == Pair(t.chiL, Entry(l), Entry(Reverse(r, t)))
  {
    hide Times, Plus, Pair, Through, Back;
    var n, p, f, g := t.chiR, t.chiL, Entry(l), Entry(r);
    var x0, x1, y0, y1 := Ket(t, None, 0), Ket(t, None, 1), Bra(t, 0), Bra(t, 1);
    var u0, u1 := Through(p, f, x0, y0), Through(p, f, x1, y1);
    var v0, v1 := Back(n, g, x0, y0), Back(n, g, x1, y1);
    PairSame(n, Entry(Transfer(l, t, None)), g, Both(u0, u1), g);
    PairPlus(n, u0, u1, g);
    ThroughIsBack(p, n, f, g, x0, y0);
    ThroughIsBack(p, n, f, g, x1, y1);
    PairComm(p, f, v0);
    PairComm(p, f, v1);
    PairPlus(p, v0, v1, f);
    PairComm(p, Both(v0, v1), f);
    PairSame(p, f, Both(v0, v1), f, Entry(Reverse(r, t)));
  }

  // ---- chains -------------------------------------------------------------------

  /** Boundary bonds are 1 and adjacent bonds agree. */
  predicate ChainOk(ts: seq<Tensor>)
  {
    && |ts| > 0 && ts[0].chiL == 1 && ts[|ts| - 1].chiR == 1
    && forall k :: 0 <= k < |ts| - 1 ==> ts[k].chiR == ts[k + 1].chiL
  }

  /** The bond to the left of site `k`. */
  function Bond(ts: seq<Tensor>, k: nat): nat
    requires ChainOk(ts) && k <= |ts|
  {
    if k == 0 then 1 else ts[k - 1].chiR
  }

  function Edge(): Env { [[ONE]] }

  /** The chain contracted from the left up to site `k`, with `op(j)` put in at site `j`. */
  function Left(ts: seq<Tensor>, op: nat -> Option<Matrix2>, k: nat): Env
    requires k <= |ts|
  {
    if k == 0 then Edge() else Transfer(Left(ts, op, k - 1), ts[k - 1], op(k - 1))
  }

  /** The chain contracted from the right down to site `k`. */
  function Right(ts: seq<Tensor>, k: nat): Env
    requires k <= |ts|
    decreases |ts| - k
  {
    if k == |ts| then Edge() else Reverse(Right(ts, k + 1), ts[k])
  }

  function NoOps(): nat -> Option<Matrix2> { (k: nat) => None }

  /** The whole chain contracted with the operators in. */
  function Full(ts: seq<Tensor>, op: nat -> Option<Matrix2>): Complex { Entry(Left(ts, op, |ts|))(0, 0) }

  /**
   Cut the chain anywhere past the last operator: pairing the two sides gives the full
   contraction. Without operators every cut gives the norm.
   */
  lemma {:induction false} CutAnywhere(ts: seq<Tensor>, op: nat -> Option<Matrix2>, k: nat)
    requires ChainOk(ts) && k <= |ts| && forall j: nat :: k <= j < |ts| ==> op(j).None?
    ensures Pair(Bond(ts, k), Entry(Left(ts, op, k)), Entry(Right(ts, k))) == Full(ts, op)
    decreases |ts| - k
  {
    hide Transfer, Reverse;
    if k == |ts| {
      PairOfOne(Bond(ts, k), Entry(Left(ts, op, k)), Right(ts, k));
    } else {
      CutAnywhere(ts, op, k + 1);
      TransfersAdjoint(Left(ts, op, k), Right(ts, k + 1), ts[k]);
    }
  }

  lemma PairOfOne(n: nat, f: (nat, nat) -> Complex, e: Env)
    requires n == 1 && e == Edge()
    ensures Pair(n, f, Entry(e)) == f(0, 0)
  {
    hide Times, Plus;
    var x, g := f(0, 0), Entry(e);
    var u := (j: nat) => Times(f(0, j), g(0, j));
    DotIs(n, f, g, 0, u);
    ComplexLaws(x, ZERO, ZERO);
    ComplexSums(x, ZERO, ZERO);
    OneTerm(u);
    OneTerm(RowDots(n, f, g));
  }

  lemma OneTerm(u: nat -> Complex)
    ensures Sum(1, u) == u(0)
  {
    ComplexSums(u(0), ZERO, ZERO);
    ComplexSums(ZERO, u(0), ZERO);
    assert Sum(1, u) == Plus(Sum(0, u), u(0));
  }

  // ---- the contractions as they run ---------------------------------------------

  /** One entry of the pushed environment, accumulated over the bra bond and the physical index. */
  method TransferCell(e: Env, t: Tensor, op: Option<Matrix2>, a: nat, a': nat) returns (acc: Complex)
    ensures acc
      == Both(Through(t.chiL, Entry(e), Ket(t, op, 0), Bra(t, 0)),
        Through(t.chiL, Entry(e), Ket(t, op, 1), Bra(t, 1)))(a, a')
  {
    hide Plus, Times;
    var l, p := Entry(e), t.chiL;
    ghost var g0 :=
      (bra: nat) => Times(Dot(p, (ket: nat) => l(ket, bra), (ket: nat) => Ket(t, op, 0)(ket, a)), Bra(t, 0)(bra, a'));
    ghost var g1 :=
      (bra: nat) => Times(Dot(p, (ket: nat) => l(ket, bra), (ket: nat) => Ket(t, op, 1)(ket, a)), Bra(t, 1)(bra, a'));
    acc := ZERO;
    assert Plus(ZERO, ZERO) == ZERO by { ComplexSums(ZERO, ZERO, ZERO); }
    for bra: nat := 0 to p
      invariant acc == Plus(Sum(bra, g0), Sum(bra, g1))
    {
      var tmp0 := Dot(p, (ket: nat) => l(ket, bra), (ket: nat) => Ket(t, op, 0)(ket, a));
      var tmp1 := Dot(p, (ket: nat) => l(ket, bra), (ket: nat) => Ket(t, op, 1)(ket, a));
      DotSame(p, (ket: nat) => l(ket, bra), (ket: nat) => Ket(t, op, 0)(ket, a), (ket: nat) => l(ket, bra),
        (ket: nat) => Ket(t, op, 0)(ket, a));
      assert g0(bra) == Times(tmp0, Bra(t, 0)(bra, a')) && g1(bra) == Times(tmp1, Bra(t, 1)(bra, a'));
      PlusFour(Sum(bra, g0), Sum(bra, g1), g0(bra), g1(bra));
      ComplexSums(acc, Times(tmp0, Bra(t, 0)(bra, a')), Times(tmp1, Bra(t, 1)(bra, a')));
      acc := Plus(Plus(acc, Times(tmp0, Bra(t, 0)(bra, a'))), Times(tmp1, Bra(t, 1)(bra, a')));
    }
    ThroughIs(p, l, Ket(t, op, 0), Bra(t, 0), a, a', g0);
    ThroughIs(p, l, Ket(t, op, 1), Bra(t, 1), a, a', g1);
  }

  lemma {:induction false} ThroughIs(p: nat, l: (nat, nat) -> Complex, x: (nat, nat) -> Complex,
                                     y: (nat, nat) -> Complex, a: nat, a': nat, g: nat -> Complex)
    requires forall bra: nat ::
      bra < p ==> g(bra) == Times(Dot(p, (ket: nat) => l(ket, bra), (ket: nat) => x(ket, a)), y(bra, a'))
    ensures Through(p, l, x, y)(a, a') == Sum(p, g)
  {
    var u, v := (bra: nat) => Dot(p, (ket: nat) => l(ket, bra), (ket: nat) => x(ket, a)), (bra: nat) => y(bra, a');
    SumSame(p, (bra: nat) => Times(u(bra), v(bra)), g);
  }

  /** Pushes a running left environment through a site, with an operator put in or not. */
  method ApplyTransfer(current: Env, t: Tensor, op: Option<Matrix2>) returns (out: Env)
    ensures out == Transfer(current, t, op)
  {
    hide Through, Ket, Bra, Both;
    out := [];
    for a: nat := 0 to t.chiR
      invariant |out| == a && forall i :: 0 <= i < a ==> out[i] == Transfer(current, t, op)[i]
    {
      var row: seq<Complex> := [];
      for a': nat := 0 to t.chiR
        invariant |row| == a' && forall j :: 0 <= j < a' ==> row[j] == Transfer(current, t, op)[a][j]
      {
        var cell := TransferCell(current, t, op, a, a');
        row := row + [cell];
      }
      assert row == Transfer(current, t, op)[a];
      out := out + [row];
    }
    assert out == Transfer(current, t, op);
  }

  /** The environments of the bare chain, at every cut. */
  ghost predicate EnvironmentsOf(ts: seq<Tensor>, l: seq<Env>, r: seq<Env>)
  {
    |l| == |r| == |ts| + 1 && forall k :: 0 <= k <= |ts| ==> l[k] == Left(ts, NoOps(), k) && r[k] == Right(ts, k)
  }

  /** Left and right environments at every cut. */
  method BuildEnvironments(ts: seq<Tensor>) returns (l: seq<Env>, r: seq<Env>)
    requires ChainOk(ts)
    ensures EnvironmentsOf(ts, l, r)
  {
    hide Transfer, Reverse;
    l := [Edge()];
    for k: nat := 0 to |ts|
      invariant |l| == k + 1 && forall j :: 0 <= j <= k ==> l[j] == Left(ts, NoOps(), j)
    {
      var next := ApplyTransfer(l[k], ts[k], None);
      l := l + [next];
    }
    r := seq(|ts| + 1, k => Edge());
    for k: nat := |ts| downto 0
      invariant |r| == |ts| + 1 && forall j :: k <= j <= |ts| ==> r[j] == Right(ts, j)
    {
      r := r[k := Reverse(r[k + 1], ts[k])];
    }
  }

  // ---- Pauli strings over a chain -----------------------------------------------

  type Site = (nat, PauliOp)

  /** The letters of a string at unit `q` and above, leaving out units past the chain. */
  function SitesFrom(x: seq<bool>, z: seq<bool>, units: nat, q: nat): seq<Site>
    requires |x| == |z| && q <= |x|
    decreases |x| - q
  {
    if q == |x| then []
    else (if (x[q] || z[q]) && q < units then [(q, if x[q] && z[q] then Y else if x[q] then X else Z)] else [])
         + SitesFrom(x, z, units, q + 1)
  }

  lemma {:induction false} SitesSkip(x: seq<bool>, z: seq<bool>, units: nat, q: nat, k: nat)
    requires |x| == |z| && q <= k <= |x| && forall i :: q <= i < k ==> !x[i] && !z[i]
    ensures SitesFrom(x, z, units, q) == SitesFrom(x, z, units, k)
    decreases k - q
  {
    if q < k {
      SitesSkip(x, z, units, q + 1, k);
    }
  }

  lemma AppendTwice(a: seq<Site>, b: seq<Site>, c: seq<Site>)
    ensures a + (b + c) == a + b + c
  {
  }

  /** Merges the sorted X and Z positions of a row into its letters. */
  method DecodeSites(xs: seq<nat>, zs: seq<nat>, units: nat, ghost x: seq<bool>, ghost z: seq<bool>)
      returns (sites: seq<Site>)
    requires |x| == |z| && xs == Positions(x) && zs == Positions(z)
    ensures sites == SitesFrom(x, z, units, 0)
  {
    hide PositionsFrom, SitesFrom;
    sites := [];
    var i: nat, j: nat := 0, 0;
    ghost var q: nat := 0;
    while i < |xs| || j < |zs|
      invariant i <= |xs| && j <= |zs| && q <= |x|
      invariant xs[i..] == PositionsFrom(x, q) && zs[j..] == PositionsFrom(z, q)
      invariant sites + SitesFrom(x, z, units, q) == SitesFrom(x, z, units, 0)
      decreases |xs| - i + |zs| - j
    {
      SkipTo(x, q);
      SkipTo(z, q);
      assert i < |xs| ==> xs[i..][0] == xs[i] && xs[i..][1..] == xs[i + 1..];
      assert j < |zs| ==> zs[j..][0] == zs[j] && zs[j..][1..] == zs[j + 1..];
      var at: nat, op: PauliOp;
      if i < |xs| && j < |zs| && xs[i] == zs[j] {
        at, op := xs[i], Y;
        i, j := i + 1, j + 1;
      } else if i < |xs| && (j == |zs| || xs[i] < zs[j]) {
        at, op := xs[i], X;
        i := i + 1;
      } else {
        at, op := zs[j], Z;
        j := j + 1;
      }
      SiteStep(x, z, units, q, at, op);
      var site: seq<Site> := if at < units then [(at, op)] else [];
      AppendTwice(sites, site, SitesFrom(x, z, units, at + 1));
      sites := sites + site;
      q := at + 1;
    }
    SkipTo(x, q);
    SkipTo(z, q);
    SitesSkip(x, z, units, q, |x|);
    assert SitesFrom(x, z, units, |x|) == [] by { NoSites(x, z, units); }
    assert sites + [] == sites;
  }

  lemma {:induction false} NoSites(x: seq<bool>, z: seq<bool>, units: nat)
    requires |x| == |z|
    ensures SitesFrom(x, z, units, |x|) == []
  {
  }

  /** The next letter after `q`, and what comes after it. */
  lemma SiteStep(x: seq<bool>, z: seq<bool>, units: nat, q: nat, at: nat, op: PauliOp)
    requires |x| == |z| && q <= at < |x| && (forall i :: q <= i < at ==> !x[i] && !z[i]) && (x[at] || z[at])
    requires op == if x[at] && z[at] then Y else if x[at] then X else Z
    ensures SitesFrom(x, z, units, q) == (if at < units then [(at, op)] else []) + SitesFrom(x, z, units, at + 1)
    ensures PositionsFrom(x, q) == (if x[at] then [at] else []) + PositionsFrom(x, at + 1)
    ensures PositionsFrom(z, q) == (if z[at] then [at] else []) + PositionsFrom(z, at + 1)
  {
    SitesSkip(x, z, units, q, at);
    PositionsSplit(x, q, at);
    PositionsSplit(z, q, at);
    NextAfter(x, at);
    NextAfter(z, at);
  }

  lemma NextAfter(a: seq<bool>, at: nat)
    requires at < |a|
    ensures PositionsFrom(a, at) == if a[at] then [at] + PositionsFrom(a, at + 1) else PositionsFrom(a, at + 1)
  {
  }

  predicate SitesOk(sites: seq<Site>, n: nat)
  {
    (forall i :: 0 <= i < |sites| ==> sites[i].0 < n) && forall i, j :: 0 <= i < j < |sites| ==> sites[i].0 < sites[j].0
  }

  /** What a decoder returns is in order and inside the chain. */
  lemma {:induction false} SitesInOrder(x: seq<bool>, z: seq<bool>, units: nat, q: nat)
    requires |x| == |z| && q <= |x|
    ensures SitesOk(SitesFrom(x, z, units, q), units)
      && forall i :: 0 <= i < |SitesFrom(x, z, units, q)| ==> SitesFrom(x, z, units, q)[i].0 >= q
    decreases |x| - q
  {
    if q < |x| {
      SitesInOrder(x, z, units, q + 1);
    }
  }

  /** The operator a list of sites puts in at site `k`. */
  function OpAt(sites: seq<Site>): nat -> Option<Matrix2> { (k: nat) => Lookup(sites, k) }

  function Lookup(sites: seq<Site>, k: nat): Option<Matrix2>
  {
    if sites == [] then None else if sites[0].0 == k then Some(MatrixOf(sites[0].1)) else Lookup(sites[1..], k)
  }

  lemma {:induction false} LookupIs(sites: seq<Site>, n: nat, k: nat, idx: nat)
    requires SitesOk(sites, n) && idx <= |sites|
    requires (forall i :: 0 <= i < idx ==> sites[i].0 < k) && forall i :: idx <= i < |sites| ==> sites[i].0 >= k
    ensures Lookup(sites, k) == if idx < |sites| && sites[idx].0 == k then Some(MatrixOf(sites[idx].1)) else None
    decreases |sites|
  {
    if sites != [] {
      if idx > 0 {
        LookupIs(sites[1..], n, k, idx - 1);
      } else if sites[0].0 != k {
        LookupIs(sites[1..], n, k, 0);
      }
    }
  }

  lemma {:induction false} LeftSame(ts: seq<Tensor>, f: nat -> Option<Matrix2>, g: nat -> Option<Matrix2>, k: nat)
    requires k <= |ts| && forall j: nat :: j < k ==> f(j) == g(j)
    ensures Left(ts, f, k) == Left(ts, g, k)
  {
    hide Transfer;
    if k > 0 {
      LeftSame(ts, f, g, k - 1);
    }
  }

  /**
   Contracting only the window between the first and the last letter, against the prepared
   environments, is contracting the whole chain with the letters in.
   */
  method WindowExpectation(ts: seq<Tensor>, l: seq<Env>, r: seq<Env>, sites: seq<Site>) returns (value: Complex)
    requires ChainOk(ts) && SitesOk(sites, |ts|) && EnvironmentsOf(ts, l, r)
    ensures value == Full(ts, OpAt(sites))
  {
    hide Transfer, Reverse, Pair;
    ghost var ops := OpAt(sites);
    if sites == [] {
      LeftSame(ts, NoOps(), ops, |ts|);
      return Entry(l[|ts|])(0, 0);
    }
    var sMin, sMax := sites[0].0, sites[|sites| - 1].0;
    var current, idx, k := l[sMin], 0, sMin;
    forall j: nat | j < sMin ensures ops(j) == NoOps()(j) {
      LookupIs(sites, |ts|, j, 0);
    }
    LeftSame(ts, NoOps(), ops, sMin);
    while k <= sMax
      invariant sMin <= k <= sMax + 1 && 0 <= idx <= |sites| && current == Left(ts, ops, k)
      invariant (forall i :: 0 <= i < idx ==> sites[i].0 < k) && forall i :: idx <= i < |sites| ==> sites[i].0 >= k
    {
      LookupIs(sites, |ts|, k, idx);
      var op := None;
      if idx < |sites| && sites[idx].0 == k {
        op := Some(MatrixOf(sites[idx].1));
        idx := idx + 1;
      }
      current := ApplyTransfer(current, ts[k], op);
      k := k + 1;
    }
    forall j: nat | k <= j < |ts| ensures ops(j).None? {
      LookupIs(sites, |ts|, j, |sites|);
    }
    CutAnywhere(ts, ops, k);
    value := Pair(Bond(ts, k), Entry(current), Entry(r[k]));
  }

  // ---- rows of an operator ------------------------------------------------------

  function Raised(ps: seq<nat>, offset: nat): (r: seq<nat>)
    ensures |r| == |ps| && forall i :: 0 <= i < |ps| ==> r[i] == ps[i] + offset
  {
    seq(|ps|, i requires 0 <= i < |ps| => ps[i] + offset)
  }

  /** The positions in the second plane. */
  lemma {:induction false} SecondPlane(key: seq<bool>, span: nat, z: seq<bool>, j: nat)
    requires |key| == span + |z| && z == key[span..] && j <= |z|
    ensures PositionsFrom(key, span + j) == Raised(PositionsFrom(z, j), span)
    decreases |z| - j
  {
    hide PositionsFrom, Raised;
    if j == |z| {
      NoneLeft(z);
      NoneLeft(key);
      RaisedNothing(span);
    } else {
      SecondPlane(key, span, z, j + 1);
      assert z[j] == key[span + j];
      NextAfter(key, span + j);
      NextAfter(z, j);
      RaisedNext(j, PositionsFrom(z, j + 1), span);
    }
  }

  /** The positions of a key are those of its first plane and then those of its second. */
  lemma {:induction false} PlanesJoin(key: seq<bool>, x: seq<bool>, z: seq<bool>, j: nat)
    requires |key| == |x| + |z| && x == key[..|x|] && z == key[|x|..] && j <= |x|
    ensures PositionsFrom(key, j) == PositionsFrom(x, j) + Raised(PositionsFrom(z, 0), |x|)
    decreases |x| - j
  {
    hide PositionsFrom, Raised;
    var second := Raised(PositionsFrom(z, 0), |x|);
    if j == |x| {
      SecondPlane(key, |x|, z, 0);
      NoneLeft(x);
      assert [] + second == second;
    } else {
      PlanesJoin(key, x, z, j + 1);
      assert x[j] == key[j];
      NextAfter(key, j);
      NextAfter(x, j);
      JoinedNext(j, PositionsFrom(x, j + 1), second);
    }
  }

  lemma {:induction false} NoneLeft(a: seq<bool>)
    ensures PositionsFrom(a, |a|) == []
  {
  }

  lemma RaisedNothing(offset: nat)
    ensures Raised([], offset) == []
  {
  }

  lemma RaisedNext(p: nat, ps: seq<nat>, offset: nat)
    ensures Raised([p] + ps, offset) == [p + offset] + Raised(ps, offset)
  {
  }

  lemma JoinedNext(p: nat, a: seq<nat>, b: seq<nat>)
    ensures [p] + (a + b) == ([p] + a) + b
  {
  }

  /** Splits a row's positions into its two planes, the second counted from its own start. */
  method SplitPlanes(row: seq<nat>, span: nat, ghost key: seq<bool>) returns (xs: seq<nat>, zs: seq<nat>)
    requires |key| == 2 * span && row == Positions(key)
    ensures xs == Positions(key[..span]) && zs == Positions(key[span..])
  {
    hide Positions, PositionsFrom;
    ghost var x, z := Positions(key[..span]), Positions(key[span..]);
    PlanesCut(key, span);
    var h := 0;
    while h < |row| && row[h] < span
      invariant h <= |x|
    {
      h := h + 1;
    }
    assert h == |x|;
    xs := row[..h];
    zs := seq(|row| - h, i requires 0 <= i < |row| - h => if row[h + i] >= span then row[h + i] - span else 0);
    assert zs == z;
  }

  /** The first plane's positions lie below the span, the second's do not. */
  lemma PlanesCut(key: seq<bool>, span: nat)
    requires |key| == 2 * span
    ensures var (row, x, z) := (Positions(key), Positions(key[..span]), Positions(key[span..]));
      row == x + Raised(z, span) && forall i :: 0 <= i < |row| ==> (row[i] < span <==> i < |x|)
  {
    hide PositionsFrom;
    PlanesJoin(key, key[..span], key[span..], 0);
    PositionsFromAre(key[..span], 0);
  }

  /** The letters a key stands for, inside a chain of `units` sites. */
  function LettersOf(key: seq<bool>, span: nat, units: nat): seq<Site>
    requires |key| == 2 * span
  {
    SitesFrom(key[..span], key[span..], units, 0)
  }

  /** Decodes a row straight from its positions. */
  method DecodeRow(row: seq<nat>, span: nat, units: nat, ghost key: seq<bool>) returns (sites: seq<Site>)
    requires |key| == 2 * span && row == Positions(key)
    ensures sites == LettersOf(key, span, units) && SitesOk(sites, units)
  {
    hide SitesFrom;
    var xs, zs := SplitPlanes(row, span, key);
    sites := DecodeSites(xs, zs, units, key[..span], key[span..]);
    SitesInOrder(key[..span], key[span..], units, 0);
  }

  /** The weighted sum over the terms of an operator, each contracted over the whole chain. */
  function WeightedSum(ts: seq<Tensor>, terms: seq<(seq<bool>, real)>, span: nat): Complex
    requires forall i :: 0 <= i < |terms| ==> |terms[i].0| == 2 * span
  {
    if terms == [] then ZERO
    else
      var last := terms[|terms| - 1];
      Plus(WeightedSum(ts, terms[..|terms| - 1], span),
        Times(Full(ts, OpAt(LettersOf(last.0, span, |ts|))), Complex(last.1, 0.0)))
  }

  /** Every row holds the set positions of its term's key, and its coefficient. */
  ghost predicate RowsHold(rows: seq<(seq<nat>, real)>, terms: seq<(seq<bool>, real)>, span: nat)
  {
    |rows| == |terms|
      && forall i ::
        0 <= i < |rows| ==> |terms[i].0| == 2 * span && rows[i].0 == Positions(terms[i].0) && rows[i].1 == terms[i].1
  }

  /** The weighted sum over every row, decoded and contracted over its window. */
  method HybridExpectationSum(ts: seq<Tensor>, rows: seq<(seq<nat>, real)>, span: nat,
                              ghost terms: seq<(seq<bool>, real)>) returns (acc: Complex)
    requires ChainOk(ts) && RowsHold(rows, terms, span)
    ensures acc == WeightedSum(ts, terms, span)
  {
    hide Plus, Times, Full, LettersOf;
    var l, r := BuildEnvironments(ts);
    acc := ZERO;
    for i := 0 to |rows|
      invariant acc == WeightedSum(ts, terms[..i], span)
    {
      var sites := DecodeRow(rows[i].0, span, |ts|, terms[i].0);
      var value := WindowExpectation(ts, l, r, sites);
      assert terms[..i + 1][..i] == terms[..i];
      acc := Plus(acc, Times(value, Complex(rows[i].1, 0.0)));
    }
    assert terms[..|rows|] == terms;
  }
}
