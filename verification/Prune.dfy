/**
 Pruning a symbolic coefficient: monomials with too many trig factors go, and so do those
 whose scalar is provably below the cutoff. Pruning is first said of the tree a coefficient
 unfolds to; the walk over the shared graph is then proved to build just that tree.
 */
module Pruning {
  import opened Wrappers
  import opened SymbolicCoeffs

  datatype Tree =
    | Leaf(c: real)
    | Sum(left: Tree, right: Tree)
    | Scaled(factor: real, inner: Tree)
    | Trig(param: nat, isSin: bool, inner: Tree)

  /** A monomial: its scalar and its trig factors, the outermost first. */
  datatype Mono = Mono(scalar: real, factors: seq<(nat, bool)>)

  function Rescaled(ms: seq<Mono>, k: real): (r: seq<Mono>)
    ensures |r| == |ms| && forall i :: 0 <= i < |ms| ==> r[i] == Mono(Times(k, ms[i].scalar), ms[i].factors)
  {
    seq(|ms|, i requires 0 <= i < |ms| => Mono(Times(k, ms[i].scalar), ms[i].factors))
  }

  function Multiplied(ms: seq<Mono>, p: nat, isSin: bool): (r: seq<Mono>)
    ensures |r| == |ms| && forall i :: 0 <= i < |ms| ==> r[i] == Mono(ms[i].scalar, [(p, isSin)] + ms[i].factors)
  {
    seq(|ms|, i requires 0 <= i < |ms| => Mono(ms[i].scalar, [(p, isSin)] + ms[i].factors))
  }

  /** All monomials of a coefficient, from left to right. */
  function Monos(t: Tree): (r: seq<Mono>)
    ensures |r| > 0
  {
    match t
    case Leaf(c) => [Mono(c, [])]
    case Sum(a, b) => Monos(a) + Monos(b)
    case Scaled(k, a) => Rescaled(Monos(a), k)
    case Trig(p, isSin, a) => Multiplied(Monos(a), p, isSin)
  }

  // ---- what every node caches ---------------------------------------------------

  const U32_MAX: nat := 0xFFFF_FFFF

  function SatAdd(x: nat, y: nat): nat { if x + y > U32_MAX then U32_MAX else x + y }

  function Min(x: nat, y: nat): nat { if x < y then x else y }

  function Max(x: nat, y: nat): nat { if x < y then y else x }

  function MaxReal(x: real, y: real): real { if x < y then y else x }

  function MinFreq(t: Tree): nat
  {
    match t
    case Leaf(_) => 0
    case Sum(a, b) => Min(MinFreq(a), MinFreq(b))
    case Scaled(_, a) => MinFreq(a)
    case Trig(_, _, a) => SatAdd(MinFreq(a), 1)
  }

  function MaxFreq(t: Tree): nat
  {
    match t
    case Leaf(_) => 0
    case Sum(a, b) => Max(MaxFreq(a), MaxFreq(b))
    case Scaled(_, a) => MaxFreq(a)
    case Trig(_, _, a) => SatAdd(MaxFreq(a), 1)
  }

  function Upper(t: Tree): real
  {
    match t
    case Leaf(c) => Abs(c)
    case Sum(a, b) => MaxReal(Upper(a), Upper(b))
    case Scaled(k, a) => Times(Abs(k), Upper(a))
    case Trig(_, _, a) => Upper(a)
  }

  /** The monomial lies within the given limits on its factors (saturated) and its magnitude. */
  predicate Bounded(m: Mono, low: nat, high: nat, upper: real)
  {
    low <= SatAdd(0, |m.factors|) <= high && Abs(m.scalar) <= upper
  }

  /** Every monomial is bounded by the caches. */
  ghost predicate AllBounded(t: Tree)
  {
    forall m :: m in Monos(t) ==> Bounded(m, MinFreq(t), MaxFreq(t), Upper(t))
  }

  lemma SumBounded(a: Tree, b: Tree)
    requires AllBounded(a) && AllBounded(b)
    ensures AllBounded(Sum(a, b))
  {
    hide Abs;
    forall m | m in Monos(Sum(a, b)) ensures Bounded(m, MinFreq(Sum(a, b)), MaxFreq(Sum(a, b)), Upper(Sum(a, b))) {
      assert m in Monos(a) || m in Monos(b);
    }
  }

  lemma ScaledBounded(k: real, a: Tree)
    requires AllBounded(a)
    ensures AllBounded(Scaled(k, a))
  {
    hide Times, Abs;
    var t := Scaled(k, a);
    forall m | m in Monos(t) ensures Bounded(m, MinFreq(t), MaxFreq(t), Upper(t)) {
      var i :| 0 <= i < |Monos(a)| && Monos(t)[i] == m;
      assert Monos(a)[i] in Monos(a);
      AbsTimes(k, Monos(a)[i].scalar, Upper(a));
    }
  }

  lemma TrigBounded(p: nat, isSin: bool, a: Tree)
    requires AllBounded(a)
    ensures AllBounded(Trig(p, isSin, a))
  {
    hide Abs;
    var t := Trig(p, isSin, a);
    forall m | m in Monos(t) ensures Bounded(m, MinFreq(t), MaxFreq(t), Upper(t)) {
      var i :| 0 <= i < |Monos(a)| && Monos(t)[i] == m;
      assert Monos(a)[i] in Monos(a) && |m.factors| == |Monos(a)[i].factors| + 1;
    }
  }

  /** The caches bound the monomials below. */
  lemma {:induction false} CachesBound(t: Tree)
    ensures AllBounded(t) && 0.0 <= Upper(t)
  {
    match t
    case Leaf(c) => AbsLaws(c, c);
    case Sum(a, b) =>
      CachesBound(a);
      CachesBound(b);
      SumBounded(a, b);
    case Scaled(k, a) =>
      CachesBound(a);
      AbsLaws(k, Upper(a));
      ScaledBounded(k, a);
    case Trig(p, isSin, a) =>
      CachesBound(a);
      TrigBounded(p, isSin, a);
  }

  lemma AbsLaws(x: real, y: real)
    ensures 0.0 <= Abs(x) && (0.0 <= y ==> 0.0 <= Times(Abs(x), y))
  {
  }

  lemma AbsTimes(k: real, x: real, bound: real)
    requires Abs(x) <= bound
    ensures Abs(Times(k, x)) == Times(Abs(k), Abs(x)) <= Times(Abs(k), bound)
  {
    var d := bound - Abs(x);
    assert Abs(k) * bound == Abs(k) * Abs(x) + Abs(k) * d;
  }

  // ---- pruning ------------------------------------------------------------------

  /**
   The two limits, and how the cutoff test rounds: `scale(e)` is the e-th power of two and
   `ceilLog(k)` an exponent whose power is at least the magnitude of `k`.
   */
  datatype Limits = Limits(frequency: Option<nat>, cutoff: Option<real>, scale: int -> real, ceilLog: real -> int)

  /** The powers are positive, grow by doubling sums, and the rounding is upward. */
  ghost predicate LimitsOk(l: Limits)
  {
    && (l.frequency.Some? ==> l.frequency.value <= U32_MAX)
    && (forall e :: l.scale(e) > 0.0) && l.scale(0) == 1.0
    && (forall e, f {:trigger Times(l.scale(e), l.scale(f))} :: l.scale(e + f) == Times(l.scale(e), l.scale(f)))
    && (forall k {:trigger l.ceilLog(k)} :: Abs(k) <= l.scale(l.ceilLog(k)))
  }

  function Pow2(e: nat): (r: real)
    ensures r > 0.0
  {
    if e == 0 then 1.0 else 2.0 * Pow2(e - 1)
  }

  /** The e-th power of two. */
  function Power(e: int): (r: real)
    ensures r > 0.0
  {
    if e >= 0 then Pow2(e) else 1.0 / Pow2(-e)
  }

  lemma PowerNext(e: int)
    ensures Power(e + 1) == 2.0 * Power(e)
  {
    if e < 0 {
      var p := Pow2(-e - 1);
      assert Pow2(-e) == 2.0 * p;
      assert 2.0 * (1.0 / (2.0 * p)) == 1.0 / p;
    }
  }

  lemma {:induction false} PowerSum(e: int, f: int)
    ensures Power(e + f) == Times(Power(e), Power(f))
    decreases if f < 0 then -f else f
  {
    hide Power, Times;
    if f == 0 {
      assert Power(0) == 1.0 by { PowerZero(); }
      TimesLaws(Power(e), 0.0, 0.0);
    } else if f > 0 {
      PowerSum(e, f - 1);
      PowerNext(e + f - 1);
      PowerNext(f - 1);
      DoubledTimes(Power(e), Power(f - 1));
    } else {
      PowerSum(e, f + 1);
      PowerNext(e + f);
      PowerNext(f);
      DoubledTimes(Power(e), Power(f));
    }
  }

  lemma PowerZero()
    ensures Power(0) == 1.0
  {
  }

  lemma DoubledTimes(x: real, y: real)
    ensures Times(x, 2.0 * y) == 2.0 * Times(x, y)
  {
  }

  lemma {:induction false} PowerGrows(e: nat)
    ensures Pow2(e) >= e as real + 1.0
  {
    if e > 0 {
      PowerGrows(e - 1);
    }
  }

  /** Powers of two meet what is asked of the limits, for every setting of them. */
  lemma LimitsExist(frequency: Option<nat>, cutoff: Option<real>) returns (l: Limits)
    requires frequency.Some? ==> frequency.value <= U32_MAX
    ensures LimitsOk(l) && l.frequency == frequency && l.cutoff == cutoff
  {
    hide Power, Times;
    PowerZero();
    l := Limits(frequency, cutoff, Power, (k: real) => Abs(k).Floor + 1);
    forall e, f ensures l.scale(e + f) == Times(l.scale(e), l.scale(f)) {
      PowerSum(e, f);
    }
    forall k ensures Abs(k) <= l.scale(l.ceilLog(k)) {
      PowerAbove(Abs(k));
    }
  }

  lemma PowerAbove(x: real)
    requires x >= 0.0
    ensures x <= Power(x.Floor + 1)
  {
    PowerGrows(x.Floor + 1);
  }

  function Cap(l: Limits): nat { if l.frequency.Some? then l.frequency.value else U32_MAX }

  predicate TooManyFactors(l: Limits, t: Tree, depth: nat) { l.frequency.Some? && SatAdd(depth, MinFreq(t)) > Cap(l) }

  predicate TooSmall(l: Limits, t: Tree, exp: int)
  {
    l.cutoff.Some? && l.cutoff.value > 0.0 && Times(l.scale(exp), Upper(t)) < l.cutoff.value
  }

  predicate Safe(l: Limits, t: Tree, depth: nat)
  {
    (l.frequency.Some? && l.cutoff.None? && SatAdd(depth, MaxFreq(t)) <= Cap(l))
      || (l.frequency.None? && l.cutoff.None?)
  }

  function PruneAt(l: Limits, t: Tree, depth: nat, exp: int): Option<Tree>
  {
    if TooManyFactors(l, t, depth) || TooSmall(l, t, exp) then None
    else if Safe(l, t, depth) then Some(t)
    else
      match t
      case Leaf(_) => Some(t)
      case Sum(a, b) =>
        var x, y := PruneAt(l, a, depth, exp), PruneAt(l, b, depth, exp);
        if x.None? then y else if y.None? then x else Some(Sum(x.value, y.value))
      case Scaled(k, a) =>
        var x := PruneAt(l, a, depth, if l.cutoff.Some? then exp + l.ceilLog(k) else exp);
        if x.None? then None else Some(Scaled(k, x.value))
      case Trig(p, isSin, a) =>
        var x := PruneAt(l, a, SatAdd(depth, 1), exp);
        if x.None? then None else Some(Trig(p, isSin, x.value))
  }

  function MonosOf(t: Option<Tree>): seq<Mono> { if t.None? then [] else Monos(t.value) }

  /** The monomials whose mark is set, in order. */
  function Selected(ms: seq<Mono>, mask: seq<bool>): seq<Mono>
    requires |ms| == |mask|
  {
    if ms == [] then []
    else
      var last := |ms| - 1;
      Selected(ms[..last], mask[..last]) + if mask[last] then [ms[last]] else []
  }

  lemma {:induction false} SelectedAppend(a: seq<Mono>, b: seq<Mono>, p: seq<bool>, q: seq<bool>)
    requires |a| == |p| && |b| == |q|
    ensures Selected(a + b, p + q) == Selected(a, p) + Selected(b, q)
    decreases |b|
  {
    if b == [] {
      assert a + b == a && p + q == p;
    } else {
      var last := |b| - 1;
      SelectedAppend(a, b[..last], p, q[..last]);
      assert (a + b)[..|a + b| - 1] == a + b[..last];
      assert (p + q)[..|a + b| - 1] == p + q[..last];
    }
  }

  function Marks(n: nat, b: bool): (r: seq<bool>)
    ensures |r| == n && forall i :: 0 <= i < n ==> r[i] == b
  {
    seq(n, i => b)
  }

  lemma {:induction false} SelectedSame(ms: seq<Mono>, b: bool)
    ensures Selected(ms, Marks(|ms|, b)) == if b then ms else []
    decreases |ms|
  {
    if ms != [] {
      SelectedSame(ms[..|ms| - 1], b);
      assert Marks(|ms|, b)[..|ms| - 1] == Marks(|ms| - 1, b);
    }
  }

  lemma {:induction false} SelectedRescaled(ms: seq<Mono>, k: real, mask: seq<bool>)
    requires |mask| == |ms|
    ensures Selected(Rescaled(ms, k), mask) == Rescaled(Selected(ms, mask), k)
    decreases |ms|
  {
    if ms != [] {
      var last := |ms| - 1;
      SelectedRescaled(ms[..last], k, mask[..last]);
      assert Rescaled(ms, k)[..last] == Rescaled(ms[..last], k);
    }
  }

  lemma {:induction false} SelectedMultiplied(ms: seq<Mono>, p: nat, isSin: bool, mask: seq<bool>)
    requires |mask| == |ms|
    ensures Selected(Multiplied(ms, p, isSin), mask) == Multiplied(Selected(ms, mask), p, isSin)
    decreases |ms|
  {
    if ms != [] {
      var last := |ms| - 1;
      SelectedMultiplied(ms[..last], p, isSin, mask[..last]);
      assert Multiplied(ms, p, isSin)[..last] == Multiplied(ms[..last], p, isSin);
    }
  }

  /** The monomial is within the frequency limit when `depth` factors lie above it. */
  predicate InCap(l: Limits, m: Mono, depth: nat)
  {
    l.frequency.Some? ==> SatAdd(depth, |m.factors|) <= l.frequency.value
  }

  /** The monomial, times a power of two that bounds what lies above it, reaches the cutoff. */
  predicate InScale(l: Limits, m: Mono, exp: int)
  {
    l.cutoff.Some? && l.cutoff.value > 0.0 ==> Times(l.scale(exp), Abs(m.scalar)) >= l.cutoff.value
  }

  /** The marks keep nothing beyond the limit, and everything within it that is large enough. */
  ghost predicate MarksFit(l: Limits, ms: seq<Mono>, mask: seq<bool>, depth: nat, exp: int)
  {
    && |mask| == |ms|
    && (forall i :: 0 <= i < |ms| && mask[i] ==> InCap(l, ms[i], depth))
    && (forall i :: 0 <= i < |ms| && InCap(l, ms[i], depth) && InScale(l, ms[i], exp) ==> mask[i])
  }

  lemma {:induction false} DoomedFits(l: Limits, t: Tree, depth: nat, exp: int)
    requires LimitsOk(l) && (TooManyFactors(l, t, depth) || TooSmall(l, t, exp))
    ensures MarksFit(l, Monos(t), Marks(|Monos(t)|, false), depth, exp)
  {
    hide Times, Abs, Monos, Upper, MinFreq, MaxFreq;
    CachesBound(t);
    var ms := Monos(t);
    forall i | 0 <= i < |ms| ensures !InCap(l, ms[i], depth) || !InScale(l, ms[i], exp) {
      assert ms[i] in ms;
      if TooSmall(l, t, exp) {
        TimesMono(l.scale(exp), Abs(ms[i].scalar), Upper(t));
      }
    }
  }

  lemma {:induction false} SafeFits(l: Limits, t: Tree, depth: nat, exp: int)
    requires Safe(l, t, depth)
    ensures MarksFit(l, Monos(t), Marks(|Monos(t)|, true), depth, exp)
  {
    hide Times, Abs, Monos, Upper, MinFreq, MaxFreq;
    CachesBound(t);
    var ms := Monos(t);
    forall i | 0 <= i < |ms| ensures InCap(l, ms[i], depth) {
      assert ms[i] in ms;
    }
  }

  lemma TimesMono(k: real, x: real, y: real)
    requires 0.0 <= k && x <= y
    ensures Times(k, x) <= Times(k, y)
  {
  }

  /** A scaling moves into the power of two above. */
  lemma ScaleFits(l: Limits, ms: seq<Mono>, k: real, mask: seq<bool>, depth: nat, exp: int)
    requires LimitsOk(l) && MarksFit(l, ms, mask, depth, if l.cutoff.Some? then exp + l.ceilLog(k) else exp)
    ensures MarksFit(l, Rescaled(ms, k), mask, depth, exp)
  {
    hide Times, Abs;
    var rs := Rescaled(ms, k);
    forall i | 0 <= i < |ms| && InCap(l, rs[i], depth) && InScale(l, rs[i], exp) ensures mask[i] {
      assert InCap(l, ms[i], depth);
      if l.cutoff.Some? {
        ScaleUp(l, k, ms[i].scalar, exp);
      }
    }
    forall i | 0 <= i < |ms| && mask[i] ensures InCap(l, rs[i], depth) {
      assert InCap(l, ms[i], depth);
    }
  }

  lemma ScaleUp(l: Limits, k: real, c: real, exp: int)
    requires LimitsOk(l)
    ensures Times(l.scale(exp), Abs(Times(k, c))) <= Times(l.scale(exp + l.ceilLog(k)), Abs(c))
  {
    var e, f, x := l.scale(exp), l.scale(l.ceilLog(k)), Abs(c);
    AbsTimes(k, c, x);
    assert l.scale(exp + l.ceilLog(k)) == Times(e, f);
    Regrouped(e, Abs(k), f, x);
  }

  lemma Regrouped(e: real, k: real, f: real, x: real)
    requires e > 0.0 && k <= f && 0.0 <= x
    ensures Times(e, Times(k, x)) <= Times(Times(e, f), x)
  {
    var d := f - k;
    assert d * x >= 0.0;
    assert k * x + d * x == f * x;
    assert e * (f * x) == (e * f) * x;
    assert e * (k * x) <= e * (f * x);
  }

  lemma TrigFits(l: Limits, ms: seq<Mono>, p: nat, isSin: bool, mask: seq<bool>, depth: nat, exp: int)
    requires LimitsOk(l) && MarksFit(l, ms, mask, SatAdd(depth, 1), exp)
    ensures MarksFit(l, Multiplied(ms, p, isSin), mask, depth, exp)
  {
    hide Times, Abs;
    var rs := Multiplied(ms, p, isSin);
    forall i | 0 <= i < |ms| ensures InCap(l, rs[i], depth) == InCap(l, ms[i], SatAdd(depth, 1)) {
      assert |rs[i].factors| == |ms[i].factors| + 1;
    }
    forall i | 0 <= i < |ms| ensures InScale(l, rs[i], exp) == InScale(l, ms[i], exp) {
    }
  }

  lemma SumFits(l: Limits, a: seq<Mono>, b: seq<Mono>, p: seq<bool>, q: seq<bool>, depth: nat, exp: int)
    requires MarksFit(l, a, p, depth, exp) && MarksFit(l, b, q, depth, exp)
    ensures MarksFit(l, a + b, p + q, depth, exp)
  {
    hide InCap, InScale;
  }

  lemma MarksLength(l: Limits, ms: seq<Mono>, mask: seq<bool>, depth: nat, exp: int)
    requires MarksFit(l, ms, mask, depth, exp)
    ensures |mask| == |ms|
  {
  }

  lemma {:induction false} LeafFits(l: Limits, t: Tree, depth: nat, exp: int)
    requires t.Leaf? && !TooManyFactors(l, t, depth)
    ensures MarksFit(l, Monos(t), Marks(1, true), depth, exp)
  {
  }

  /**
   For every monomial the magnitude of its innermost scalar, times the rounded powers of the
   scalings above it.
   */
  function RoundedSizes(l: Limits, t: Tree, exp: int): (r: seq<real>)
    ensures |r| == |Monos(t)|
  {
    match t
    case Leaf(c) => [Times(l.scale(exp), Abs(c))]
    case Sum(a, b) => RoundedSizes(l, a, exp) + RoundedSizes(l, b, exp)
    case Scaled(k, a) => RoundedSizes(l, a, if l.cutoff.Some? then exp + l.ceilLog(k) else exp)
    case Trig(_, _, a) => RoundedSizes(l, a, exp)
  }

  /** No monomial is kept whose rounded magnitude is below the cutoff. */
  predicate NoneSmall(l: Limits, sizes: seq<real>, mask: seq<bool>)
  {
    |mask| == |sizes|
      && forall i ::
        0 <= i < |sizes| && mask[i] && l.cutoff.Some? && l.cutoff.value > 0.0 ==> sizes[i] >= l.cutoff.value
  }

  lemma NoneSmallJoins(l: Limits, a: seq<real>, b: seq<real>, p: seq<bool>, q: seq<bool>)
    requires NoneSmall(l, a, p) && NoneSmall(l, b, q)
    ensures NoneSmall(l, a + b, p + q)
  {
  }

  lemma {:induction false} LeafNotSmall(l: Limits, t: Tree, exp: int)
    requires t.Leaf? && !TooSmall(l, t, exp)
    ensures NoneSmall(l, RoundedSizes(l, t, exp), Marks(1, true))
  {
  }

  lemma {:induction false} NoneSmallIf(l: Limits, t: Tree, exp: int, mask: seq<bool>)
    requires |mask| == |Monos(t)|
    requires l.cutoff.None? || forall i :: 0 <= i < |mask| ==> !mask[i]
    ensures NoneSmall(l, RoundedSizes(l, t, exp), mask)
  {
    hide RoundedSizes;
  }

  lemma SafeHasNoCutoff(l: Limits, t: Tree, depth: nat)
    requires Safe(l, t, depth)
    ensures l.cutoff.None?
  {
  }

  /**
   What pruning leaves is a selection of the monomials, in their order: none with too many
   factors, none whose rounded magnitude is below the cutoff, and every one within the limit on
   factors whose own magnitude reaches the cutoff.
   */
  lemma {:induction false} PruneSelects(l: Limits, t: Tree, depth: nat, exp: int) returns (mask: seq<bool>)
    requires LimitsOk(l)
    ensures MarksFit(l, Monos(t), mask, depth, exp) && NoneSmall(l, RoundedSizes(l, t, exp), mask)
    ensures MonosOf(PruneAt(l, t, depth, exp)) == Selected(Monos(t), mask)
    decreases t
  {
    hide MarksFit, NoneSmall, LimitsOk, TooManyFactors, TooSmall, Safe, Selected, Times, Upper, MinFreq, MaxFreq;
    if TooManyFactors(l, t, depth) || TooSmall(l, t, exp) {
      mask := Marks(|Monos(t)|, false);
      DoomedFits(l, t, depth, exp);
      NoneSmallIf(l, t, exp, mask);
      SelectedSame(Monos(t), false);
    } else if Safe(l, t, depth) {
      mask := Marks(|Monos(t)|, true);
      SafeFits(l, t, depth, exp);
      SafeHasNoCutoff(l, t, depth);
      NoneSmallIf(l, t, exp, mask);
      SelectedSame(Monos(t), true);
    } else {
      match t
      case Leaf(_) =>
        mask := Marks(1, true);
        LeafFits(l, t, depth, exp);
        LeafNotSmall(l, t, exp);
        SelectedSame(Monos(t), true);
      case Sum(a, b) =>
        var p := PruneSelects(l, a, depth, exp);
        var q := PruneSelects(l, b, depth, exp);
        mask := p + q;
        NoneSmallJoins(l, RoundedSizes(l, a, exp), RoundedSizes(l, b, exp), p, q);
        SumFits(l, Monos(a), Monos(b), p, q, depth, exp);
        MarksLength(l, Monos(a), p, depth, exp);
        MarksLength(l, Monos(b), q, depth, exp);
        SelectedAppend(Monos(a), Monos(b), p, q);
      case Scaled(k, a) =>
        mask := PruneSelects(l, a, depth, if l.cutoff.Some? then exp + l.ceilLog(k) else exp);
        ScaleFits(l, Monos(a), k, mask, depth, exp);
        MarksLength(l, Monos(t), mask, depth, exp);
        SelectedRescaled(Monos(a), k, mask);
      case Trig(p, isSin, a) =>
        mask := PruneSelects(l, a, SatAdd(depth, 1), exp);
        TrigFits(l, Monos(a), p, isSin, mask, depth, exp);
        MarksLength(l, Monos(t), mask, depth, exp);
        SelectedMultiplied(Monos(a), p, isSin, mask);
    }
  }

  lemma AllSmall(l: Limits, sizes: seq<real>, mask: seq<bool>)
    requires NoneSmall(l, sizes, mask) && l.cutoff.Some? && l.cutoff.value > 0.0
    requires forall i :: 0 <= i < |sizes| ==> sizes[i] < l.cutoff.value
    ensures mask == Marks(|sizes|, false)
  {
  }

  /** A coefficient all of whose monomials stay small is pruned to nothing. */
  lemma {:induction false} SmallIsPruned(l: Limits, t: Tree, depth: nat, exp: int)
    requires LimitsOk(l) && l.cutoff.Some? && l.cutoff.value > 0.0
    requires forall i :: 0 <= i < |RoundedSizes(l, t, exp)| ==> RoundedSizes(l, t, exp)[i] < l.cutoff.value
    ensures PruneAt(l, t, depth, exp).None?
  {
    hide LimitsOk, PruneAt, Monos, RoundedSizes, MarksFit, NoneSmall;
    var mask := PruneSelects(l, t, depth, exp);
    AllSmall(l, RoundedSizes(l, t, exp), mask);
    SelectedSame(Monos(t), false);
  }

  /** A lone scalar is dropped exactly if it is below the cutoff. */
  lemma {:induction false} ScalarDroppedIff(l: Limits, c: real)
    requires LimitsOk(l)
    ensures PruneAt(l, Leaf(c), 0, 0)
      == if l.cutoff.Some? && l.cutoff.value > 0.0 && Abs(c) < l.cutoff.value then None else Some(Leaf(c))
  {
    TimesLaws(Abs(c), 0.0, 0.0);
    assert Times(l.scale(0), Abs(c)) == Abs(c);
  }

  /** The monomials with at most as many factors as the limit allows, in order. */
  function Within(l: Limits, ms: seq<Mono>): seq<Mono>
  {
    if ms == [] then []
    else Within(l, ms[..|ms| - 1]) + if InCap(l, ms[|ms| - 1], 0) then [ms[|ms| - 1]] else []
  }

  lemma {:induction false} ExactMarks(l: Limits, ms: seq<Mono>, mask: seq<bool>)
    requires |mask| == |ms| && forall i :: 0 <= i < |ms| ==> mask[i] == InCap(l, ms[i], 0)
    ensures Selected(ms, mask) == Within(l, ms)
    decreases |ms|
  {
    if ms != [] {
      ExactMarks(l, ms[..|ms| - 1], mask[..|ms| - 1]);
    }
  }

  /** With the frequency limit alone, pruning is an exact filter. */
  lemma {:induction false} FrequencyIsExactFilter(l: Limits, t: Tree)
    requires LimitsOk(l) && l.cutoff.None?
    ensures MonosOf(PruneAt(l, t, 0, 0)) == Within(l, Monos(t))
  {
    hide InCap, PruneAt, Monos;
    var mask := PruneSelects(l, t, 0, 0);
    ExactMarks(l, Monos(t), mask);
  }
}
