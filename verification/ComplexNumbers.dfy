/** Complex numbers, finite sums of them, and sums over all configurations of a row of units. */
module ComplexNumbers {
  datatype Complex = Complex(re: real, im: real)

  const ZERO := Complex(0.0, 0.0)
  const ONE := Complex(1.0, 0.0)

  function Plus(x: Complex, y: Complex): Complex { Complex(x.re + y.re, x.im + y.im) }

  function Times(x: Complex, y: Complex): Complex
  {
    Complex(x.re * y.re - x.im * y.im, x.re * y.im + x.im * y.re)
  }

  function Conj(x: Complex): Complex { Complex(x.re, -x.im) }

  lemma ComplexSums(x: Complex, y: Complex, z: Complex)
    ensures Plus(x, y) == Plus(y, x) && Plus(Plus(x, y), z) == Plus(x, Plus(y, z)) && Plus(x, ZERO) == x
  {
  }

  lemma ComplexLaws(x: Complex, y: Complex, z: Complex)
    ensures Times(x, y) == Times(y, x) && Times(x, ONE) == x && Times(ONE, x) == x && Times(x, ZERO) == ZERO
    ensures Times(Times(x, y), z) == Times(x, Times(y, z))
    ensures Times(x, Plus(y, z)) == Plus(Times(x, y), Times(x, z))
  {
    assert (x.re * y.re - x.im * y.im) * z.re == x.re * (y.re * z.re) - x.im * (y.im * z.re);
    assert (x.re * y.re - x.im * y.im) * z.im == x.re * (y.re * z.im) - x.im * (y.im * z.im);
    assert (x.re * y.im + x.im * y.re) * z.re == x.re * (y.im * z.re) + x.im * (y.re * z.re);
    assert (x.re * y.im + x.im * y.re) * z.im == x.re * (y.im * z.im) + x.im * (y.re * z.im);
    assert x.re * (y.re * z.re - y.im * z.im) == x.re * (y.re * z.re) - x.re * (y.im * z.im);
    assert x.im * (y.re * z.im + y.im * z.re) == x.im * (y.re * z.im) + x.im * (y.im * z.re);
    assert x.re * (y.re * z.im + y.im * z.re) == x.re * (y.re * z.im) + x.re * (y.im * z.re);
    assert x.im * (y.re * z.re - y.im * z.im) == x.im * (y.re * z.re) - x.im * (y.im * z.im);
  }

  lemma ConjOf(x: real, y: real)
    ensures Conj(Complex(x, y)) == Complex(x, -y)
  {
  }

  lemma ConjTimes(x: Complex, y: Complex)
    ensures Conj(Times(x, y)) == Times(Conj(x), Conj(y))
  {
  }

  lemma ConjPlus(x: Complex, y: Complex)
    ensures Conj(Plus(x, y)) == Plus(Conj(x), Conj(y))
  {
  }

  /** The sum of the first `n` values. */
  function Sum(n: nat, f: nat -> Complex): Complex
  {
    if n == 0 then ZERO else Plus(Sum(n - 1, f), f(n - 1))
  }

  lemma {:induction false} SumSame(n: nat, f: nat -> Complex, g: nat -> Complex)
    requires forall i: nat :: i < n ==> f(i) == g(i)
    ensures Sum(n, f) == Sum(n, g)
  {
    if n > 0 {
      SumSame(n - 1, f, g);
    }
  }

  lemma {:induction false} SumPlus(n: nat, f: nat -> Complex, g: nat -> Complex)
    ensures Sum(n, (i: nat) => Plus(f(i), g(i))) == Plus(Sum(n, f), Sum(n, g))
  {
    hide Plus;
    if n == 0 {
      ComplexSums(ZERO, ZERO, ZERO);
    } else {
      SumPlus(n - 1, f, g);
      PlusFour(Sum(n - 1, f), Sum(n - 1, g), f(n - 1), g(n - 1));
    }
  }

  lemma PlusFour(a: Complex, b: Complex, c: Complex, d: Complex)
    ensures Plus(Plus(a, b), Plus(c, d)) == Plus(Plus(a, c), Plus(b, d))
  {
  }

  lemma {:induction false} SumZero(n: nat)
    ensures Sum(n, (i: nat) => ZERO) == ZERO
  {
    if n > 0 {
      SumZero(n - 1);
    }
  }

  lemma {:induction false} SumTimes(n: nat, c: Complex, f: nat -> Complex)
    ensures Sum(n, (i: nat) => Times(c, f(i))) == Times(c, Sum(n, f))
    ensures Sum(n, (i: nat) => Times(f(i), c)) == Times(Sum(n, f), c)
  {
    hide Plus, Times;
    ComplexLaws(c, ZERO, ZERO);
    ComplexLaws(Sum(n, f), c, ZERO);
    if n > 0 {
      SumTimes(n - 1, c, f);
      ComplexLaws(c, Sum(n - 1, f), f(n - 1));
      ComplexLaws(Sum(n - 1, f), c, ZERO);
      ComplexLaws(f(n - 1), c, ZERO);
    }
  }

  /** For every first index the sum over the second, and the other way round. */
  function RowSums(n: nat, f: (nat, nat) -> Complex): nat -> Complex { (i: nat) => Sum(n, (j: nat) => f(i, j)) }

  function ColSums(m: nat, f: (nat, nat) -> Complex): nat -> Complex { (j: nat) => Sum(m, (i: nat) => f(i, j)) }

  /** Double sums may be taken in either order. */
  lemma {:induction false} SumSwap(m: nat, n: nat, f: (nat, nat) -> Complex)
    ensures Sum(m, RowSums(n, f)) == Sum(n, ColSums(m, f))
  {
    hide Plus;
    if m == 0 {
      SumZero(n);
      SumSame(n, (j: nat) => ZERO, ColSums(0, f));
    } else {
      var last := m - 1;
      var row := (j: nat) => f(last, j);
      SumSwap(last, n, f);
      SumPlus(n, ColSums(last, f), row);
      forall j: nat | j < n ensures Plus(ColSums(last, f)(j), row(j)) == ColSums(m, f)(j) {
        SumSame(last, (i: nat) => f(i, j), (i: nat) => f(i, j));
      }
      SumSame(n, (j: nat) => Plus(ColSums(last, f)(j), row(j)), ColSums(m, f));
      SumSame(n, row, (j: nat) => f(last, j));
    }
  }

  // ---- sums over configurations -------------------------------------------------

  /** One physical index for every unit, the lowest unit first. */
  type Config = seq<bool>

  /** Sums out the last unit. */
  function SumOut(f: Config -> Complex): Config -> Complex { (c: Config) => Plus(f(c + [false]), f(c + [true])) }

  /** The sum over all configurations of `n` units. */
  function SumOver(n: nat, f: Config -> Complex): Complex { if n == 0 then f([]) else SumOver(n - 1, SumOut(f)) }

  lemma {:induction false} OverSame(n: nat, f: Config -> Complex, g: Config -> Complex)
    requires forall c: Config :: |c| == n ==> f(c) == g(c)
    ensures SumOver(n, f) == SumOver(n, g)
  {
    if n > 0 {
      OverSame(n - 1, SumOut(f), SumOut(g));
    }
  }

  lemma {:induction false} OverPlus(n: nat, f: Config -> Complex, g: Config -> Complex, h: Config -> Complex)
    requires forall c: Config :: |c| == n ==> h(c) == Plus(f(c), g(c))
    ensures SumOver(n, h) == Plus(SumOver(n, f), SumOver(n, g))
  {
    hide Plus;
    if n > 0 {
      forall c: Config | |c| == n - 1 ensures SumOut(h)(c) == Plus(SumOut(f)(c), SumOut(g)(c)) {
        PlusFour(f(c + [false]), g(c + [false]), f(c + [true]), g(c + [true]));
      }
      OverPlus(n - 1, SumOut(f), SumOut(g), SumOut(h));
    }
  }

  lemma {:induction false} OverTimes(n: nat, k: Complex, f: Config -> Complex, h: Config -> Complex)
    requires forall c: Config :: |c| == n ==> h(c) == Times(k, f(c))
    ensures SumOver(n, h) == Times(k, SumOver(n, f))
  {
    hide Plus, Times;
    if n > 0 {
      forall c: Config | |c| == n - 1 ensures SumOut(h)(c) == Times(k, SumOut(f)(c)) {
        ComplexLaws(k, f(c + [false]), f(c + [true]));
      }
      OverTimes(n - 1, k, SumOut(f), SumOut(h));
    }
  }

  lemma {:induction false} OverZero(n: nat, f: Config -> Complex)
    requires forall c: Config :: |c| == n ==> f(c) == ZERO
    ensures SumOver(n, f) == ZERO
  {
    if n > 0 {
      OverZero(n - 1, SumOut(f));
    }
  }

  /** For every first configuration the sum over the second, and the other way round. */
  function RowsOver(m: nat, f: (Config, Config) -> Complex): Config -> Complex
  {
    (s: Config) => SumOver(m, (t: Config) => f(s, t))
  }

  function ColsOver(n: nat, f: (Config, Config) -> Complex): Config -> Complex
  {
    (t: Config) => SumOver(n, (s: Config) => f(s, t))
  }

  /** Double sums over configurations may be taken in either order. */
  lemma {:induction false} OverSwap(n: nat, m: nat, f: (Config, Config) -> Complex)
    ensures SumOver(n, RowsOver(m, f)) == SumOver(m, ColsOver(n, f))
  {
    hide Plus;
    if n == 0 {
      OverSame(m, (t: Config) => f([], t), ColsOver(0, f));
    } else {
      var g := (s: Config, t: Config) => Plus(f(s + [false], t), f(s + [true], t));
      forall s: Config | |s| == n - 1 ensures SumOut(RowsOver(m, f))(s) == RowsOver(m, g)(s) {
        OverPlus(m, (t: Config) => f(s + [false], t), (t: Config) => f(s + [true], t), (t: Config) => g(s, t));
      }
      OverSame(n - 1, SumOut(RowsOver(m, f)), RowsOver(m, g));
      OverSwap(n - 1, m, g);
      forall t: Config | |t| == m ensures ColsOver(n - 1, g)(t) == ColsOver(n, f)(t) {
        OverSame(n - 1, (s: Config) => g(s, t), SumOut((s: Config) => f(s, t)));
      }
      OverSame(m, ColsOver(n - 1, g), ColsOver(n, f));
    }
  }

  function Delta(s: Config, t: Config): Complex { if s == t then ONE else ZERO }

  /** Only one configuration contributes. */
  lemma {:induction false} OverOne(n: nat, s: Config, f: Config -> Complex)
    requires |s| == n && forall c: Config :: |c| == n && c != s ==> f(c) == ZERO
    ensures SumOver(n, f) == f(s)
  {
    hide Plus;
    if n > 0 {
      var rest, last := s[..n - 1], s[n - 1];
      assert s == rest + [last];
      ComplexSums(f(s), ZERO, ZERO);
      ComplexSums(ZERO, f(s), ZERO);
      ComplexSums(ZERO, ZERO, ZERO);
      forall c: Config | |c| == n - 1 && c != rest ensures SumOut(f)(c) == ZERO {
        assert (c + [false])[..n - 1] == c && (c + [true])[..n - 1] == c;
      }
      assert (rest + [!last])[n - 1] != s[n - 1];
      OverOne(n - 1, rest, SumOut(f));
    }
  }

  // ---- matrices over configurations ---------------------------------------------

  /** An operator: its entries by row and column configuration. */
  type Matrix = (Config, Config) -> Complex

  /** The product of two operators on `n` units. */
  function MatMul(n: nat, a: Matrix, b: Matrix): Matrix
  {
    (s: Config, t: Config) => SumOver(n, (u: Config) => Times(a(s, u), b(u, t)))
  }

  function Scaled(k: Complex, a: Matrix): Matrix { (s: Config, t: Config) => Times(k, a(s, t)) }

  function Added(a: Matrix, b: Matrix): Matrix { (s: Config, t: Config) => Plus(a(s, t), b(s, t)) }

  /** The two matrices have the same entries on `n` units. */
  ghost predicate SameMatrix(n: nat, a: Matrix, b: Matrix)
  {
    forall s: Config, t: Config :: |s| == n && |t| == n ==> a(s, t) == b(s, t)
  }

  lemma MatMulSame(n: nat, a: Matrix, b: Matrix, c: Matrix, d: Matrix)
    requires SameMatrix(n, a, c) && SameMatrix(n, b, d)
    ensures SameMatrix(n, MatMul(n, a, b), MatMul(n, c, d))
  {
    hide Times;
    forall s: Config, t: Config | |s| == n && |t| == n ensures MatMul(n, a, b)(s, t) == MatMul(n, c, d)(s, t) {
      OverSame(n, (u: Config) => Times(a(s, u), b(u, t)), (u: Config) => Times(c(s, u), d(u, t)));
    }
  }

  lemma MatMulAdded(n: nat, a: Matrix, b: Matrix, c: Matrix)
    ensures SameMatrix(n, MatMul(n, Added(a, b), c), Added(MatMul(n, a, c), MatMul(n, b, c)))
    ensures SameMatrix(n, MatMul(n, c, Added(a, b)), Added(MatMul(n, c, a), MatMul(n, c, b)))
  {
    hide Times, Plus;
    forall s: Config, t: Config | |s| == n && |t| == n
      ensures MatMul(n, Added(a, b), c)(s, t) == Added(MatMul(n, a, c), MatMul(n, b, c))(s, t)
      ensures MatMul(n, c, Added(a, b))(s, t) == Added(MatMul(n, c, a), MatMul(n, c, b))(s, t)
    {
      forall u: Config
        ensures Times(Plus(a(s, u), b(s, u)), c(u, t)) == Plus(Times(a(s, u), c(u, t)), Times(b(s, u), c(u, t)))
        ensures Times(c(s, u), Plus(a(u, t), b(u, t))) == Plus(Times(c(s, u), a(u, t)), Times(c(s, u), b(u, t)))
      {
        SumLeft(a(s, u), b(s, u), c(u, t));
        ComplexLaws(c(s, u), a(u, t), b(u, t));
      }
      OverPlus(n, (u: Config) => Times(a(s, u), c(u, t)), (u: Config) => Times(b(s, u), c(u, t)),
        (u: Config) => Times(Added(a, b)(s, u), c(u, t)));
      OverPlus(n, (u: Config) => Times(c(s, u), a(u, t)), (u: Config) => Times(c(s, u), b(u, t)),
        (u: Config) => Times(c(s, u), Added(a, b)(u, t)));
    }
  }

  lemma SumLeft(x: Complex, y: Complex, z: Complex)
    ensures Times(Plus(x, y), z) == Plus(Times(x, z), Times(y, z))
  {
    hide Times, Plus;
    ComplexLaws(Plus(x, y), z, ZERO);
    ComplexLaws(x, z, ZERO);
    ComplexLaws(y, z, ZERO);
    ComplexLaws(z, x, y);
  }

  lemma MatMulScaled(n: nat, k: Complex, a: Matrix, b: Matrix)
    ensures SameMatrix(n, MatMul(n, Scaled(k, a), b), Scaled(k, MatMul(n, a, b)))
    ensures SameMatrix(n, MatMul(n, a, Scaled(k, b)), Scaled(k, MatMul(n, a, b)))
  {
    hide Times, Plus;
    forall s: Config, t: Config | |s| == n && |t| == n
      ensures MatMul(n, Scaled(k, a), b)(s, t) == Scaled(k, MatMul(n, a, b))(s, t)
      ensures MatMul(n, a, Scaled(k, b))(s, t) == Scaled(k, MatMul(n, a, b))(s, t)
    {
      forall u: Config
        ensures Times(Times(k, a(s, u)), b(u, t)) == Times(k, Times(a(s, u), b(u, t)))
        ensures Times(a(s, u), Times(k, b(u, t))) == Times(k, Times(a(s, u), b(u, t)))
      {
        MovedOut(k, a(s, u), b(u, t));
      }
      OverTimes(n, k, (u: Config) => Times(a(s, u), b(u, t)), (u: Config) => Times(Scaled(k, a)(s, u), b(u, t)));
      OverTimes(n, k, (u: Config) => Times(a(s, u), b(u, t)), (u: Config) => Times(a(s, u), Scaled(k, b)(u, t)));
    }
  }

  lemma MovedOut(k: Complex, x: Complex, y: Complex)
    ensures Times(Times(k, x), y) == Times(k, Times(x, y)) && Times(x, Times(k, y)) == Times(k, Times(x, y))
  {
    hide Times, Plus;
    ComplexLaws(k, x, y);
    ComplexLaws(x, k, y);
    ComplexLaws(k, x, ZERO);
  }

  // ---- sums of operators --------------------------------------------------------

  /** The sum of the operators `f(k)` over all configurations `k` of `m` units. */
  function Total(m: nat, f: Config -> Matrix): Matrix
  {
    (s: Config, t: Config) => SumOver(m, (k: Config) => f(k)(s, t))
  }

  lemma TotalSame(n: nat, m: nat, f: Config -> Matrix, g: Config -> Matrix)
    requires forall k: Config :: |k| == m ==> SameMatrix(n, f(k), g(k))
    ensures SameMatrix(n, Total(m, f), Total(m, g))
  {
    forall s: Config, t: Config | |s| == n && |t| == n ensures Total(m, f)(s, t) == Total(m, g)(s, t) {
      forall k: Config | |k| == m ensures f(k)(s, t) == g(k)(s, t) {
        assert SameMatrix(n, f(k), g(k));
      }
      OverSame(m, (k: Config) => f(k)(s, t), (k: Config) => g(k)(s, t));
    }
  }

  /** Products distribute over sums of operators, on both sides. */
  lemma MatMulTotal(n: nat, m: nat, a: Matrix, f: Config -> Matrix)
    ensures SameMatrix(n, MatMul(n, a, Total(m, f)), Total(m, (k: Config) => MatMul(n, a, f(k))))
    ensures SameMatrix(n, MatMul(n, Total(m, f), a), Total(m, (k: Config) => MatMul(n, f(k), a)))
  {
    hide Times, Plus;
    forall s: Config, t: Config | |s| == n && |t| == n
      ensures MatMul(n, a, Total(m, f))(s, t) == Total(m, (k: Config) => MatMul(n, a, f(k)))(s, t)
      ensures MatMul(n, Total(m, f), a)(s, t) == Total(m, (k: Config) => MatMul(n, f(k), a))(s, t)
    {
      var g := (u: Config, k: Config) => Times(a(s, u), f(k)(u, t));
      var h := (u: Config, k: Config) => Times(f(k)(s, u), a(u, t));
      forall u: Config | |u| == n
        ensures RowsOver(m, g)(u) == Times(a(s, u), Total(m, f)(u, t))
        ensures RowsOver(m, h)(u) == Times(Total(m, f)(s, u), a(u, t))
      {
        OverTimes(m, a(s, u), (k: Config) => f(k)(u, t), (k: Config) => g(u, k));
        forall k: Config ensures h(u, k) == Times(a(u, t), f(k)(s, u)) {
          ComplexLaws(a(u, t), f(k)(s, u), ZERO);
        }
        OverTimes(m, a(u, t), (k: Config) => f(k)(s, u), (k: Config) => h(u, k));
        ComplexLaws(a(u, t), Total(m, f)(s, u), ZERO);
      }
      OverSame(n, RowsOver(m, g), (u: Config) => Times(a(s, u), Total(m, f)(u, t)));
      OverSame(n, RowsOver(m, h), (u: Config) => Times(Total(m, f)(s, u), a(u, t)));
      OverSwap(n, m, g);
      OverSwap(n, m, h);
      forall k: Config | |k| == m
        ensures ColsOver(n, g)(k) == MatMul(n, a, f(k))(s, t) && ColsOver(n, h)(k) == MatMul(n, f(k), a)(s, t)
      {
        OverSame(n, (u: Config) => g(u, k), (u: Config) => Times(a(s, u), f(k)(u, t)));
        OverSame(n, (u: Config) => h(u, k), (u: Config) => Times(f(k)(s, u), a(u, t)));
      }
      OverSame(m, ColsOver(n, g), (k: Config) => ((k: Config) => MatMul(n, a, f(k)))(k)(s, t));
      OverSame(m, ColsOver(n, h), (k: Config) => ((k: Config) => MatMul(n, f(k), a))(k)(s, t));
    }
  }
}
