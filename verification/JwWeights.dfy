/**
 The Jordan-Wigner weight of a monomial, three ways: a prefix parity by doubling shifts, a
 plane carried along through products, and set counts over sorted positions. All three are
 the number of letters the one-pass inverse transform would write.
 */
module JwWeights {
  import opened BasisStrings
  import opened BasisAlgebra
  import opened JordanWigner
  import opened BitPositions

  /** Parity of the first `k` bits. */
  function Parity(s: seq<bool>, k: nat): bool
    requires k <= |s|
  {
    if k == 0 then false else Parity(s, k - 1) != s[k - 1]
  }

  /** The units carrying exactly one mode, and the units carrying any. */
  function SinglePlane(m: Key): (r: seq<bool>)
    requires |m| % 2 == 0
    ensures |r| == |m| / 2 && forall q :: 0 <= q < |r| ==> r[q] == (m[2 * q] != m[2 * q + 1])
  {
    seq(|m| / 2, q requires 0 <= q < |m| / 2 => m[2 * q] != m[2 * q + 1])
  }

  function OccupiedPlane(m: Key): (r: seq<bool>)
    requires |m| % 2 == 0
    ensures |r| == |m| / 2 && forall q :: 0 <= q < |r| ==> r[q] == (m[2 * q] || m[2 * q + 1])
  {
    seq(|m| / 2, q requires 0 <= q < |m| / 2 => m[2 * q] || m[2 * q + 1])
  }

  /** For every unit the parity of the single units up to and including it. */
  function PrefixPlane(m: Key): (r: seq<bool>)
    requires |m| % 2 == 0
    ensures |r| == |m| / 2 && forall q :: 0 <= q < |r| ==> r[q] == Parity(SinglePlane(m), q + 1)
  {
    seq(|m| / 2, q requires 0 <= q < |m| / 2 => Parity(SinglePlane(m), q + 1))
  }

  function Max(x: int, y: int): int { if x < y then y else x }

  /** The plane XORed with itself moved up; what leaves the register is masked off. */
  function XorShifted(src: seq<bool>, shift: nat): (r: seq<bool>)
    ensures |r| == |src|
  {
    seq(|src|, i requires 0 <= i < |src| => if i >= shift then src[i] != src[i - shift] else src[i])
  }

  /** Every bit holds the parity of the `shift` bits up to and including it. */
  ghost predicate Spans(single: seq<bool>, p: seq<bool>, shift: nat)
  {
    |p| == |single|
      && forall i :: 0 <= i < |p| ==> p[i] == (Parity(single, i + 1) != Parity(single, Max(0, i + 1 - shift)))
  }

  lemma SpansDouble(single: seq<bool>, p: seq<bool>, shift: nat)
    requires Spans(single, p, shift)
    ensures Spans(single, XorShifted(p, shift), 2 * shift)
  {
    var r := XorShifted(p, shift);
    forall i | 0 <= i < |r| ensures r[i] == (Parity(single, i + 1) != Parity(single, Max(0, i + 1 - 2 * shift))) {
      if i >= shift {
        assert p[i - shift] == (Parity(single, i - shift + 1) != Parity(single, Max(0, i - shift + 1 - shift)));
      }
    }
  }

  /** The prefix parity by doubling shifts. */
  method ScanP(single: seq<bool>) returns (p: seq<bool>)
    ensures |p| == |single| && forall i :: 0 <= i < |p| ==> p[i] == Parity(single, i + 1)
  {
    p := single;
    var shift: nat := 1;
    while shift < |single|
      invariant 1 <= shift && Spans(single, p, shift)
      decreases |single| - shift
    {
      SpansDouble(single, p, shift);
      p := XorShifted(p, shift);
      shift := 2 * shift;
    }
  }

  lemma {:induction false} ParityOfCount(s: seq<bool>, j: nat)
    requires j <= |s|
    ensures Odd(CountFrom(s, j)) == (Parity(s, |s|) != Parity(s, j))
    decreases |s| - j
  {
    if j < |s| {
      ParityOfCount(s, j + 1);
    }
  }

  lemma {:induction false} SingleAboveIsSuffix(m: Key, q: nat)
    requires |m| % 2 == 0 && 2 * q <= |m|
    ensures var s := SinglePlane(m); SingleAbove(m, q) == (Parity(s, |s|) != Parity(s, q))
    decreases |m| - 2 * q
  {
    if 2 * q < |m| {
      SingleAboveIsSuffix(m, q + 1);
    }
  }

  lemma {:induction false} CountIsSupport(plane: seq<bool>, p: Key, q: nat)
    requires |p| % 2 == 0 && |plane| == |p| / 2 && q <= |plane|
    requires forall i :: 0 <= i < |plane| ==> plane[i] == (p[2 * i] || p[2 * i + 1])
    ensures CountFrom(plane, q) == SupportFrom(p, q)
    decreases |plane| - q
  {
    if q < |plane| {
      CountIsSupport(plane, p, q + 1);
    }
  }

  /** The bits of the letters, from the three planes. */
  function LetterPlane(single: seq<bool>, occupied: seq<bool>, p: seq<bool>): (r: seq<bool>)
    requires |single| == |occupied| == |p|
    ensures |r| == |p|
  {
    var flip := Odd(Count(single));
    seq(|p|, q requires 0 <= q < |p| && |single| == |occupied| == |p| => single[q] || (occupied[q] != (p[q] != flip)))
  }

  lemma LettersFromPlanes(m: Key, q: nat)
    requires |m| % 2 == 0 && 2 * q < |m|
    ensures LetterPlane(SinglePlane(m), OccupiedPlane(m), PrefixPlane(m))[q]
      == (ToPauli(m)[2 * q] || ToPauli(m)[2 * q + 1])
  {
    hide ToPauli;
    PauliAt(m, q);
    ParityOfCount(SinglePlane(m), 0);
    SingleAboveIsSuffix(m, q + 1);
  }

  /** The final count: single units always carry a letter, the others where the string differs. */
  method WeightFromParts(ghost m: Key, single: seq<bool>, occupied: seq<bool>, p: seq<bool>) returns (weight: nat)
    requires |m| % 2 == 0 && single == SinglePlane(m) && occupied == OccupiedPlane(m) && p == PrefixPlane(m)
    ensures weight == Weight(Majorana, m)
  {
    hide ToPauli, LetterPlane;
    forall q | 0 <= q < |p|
      ensures LetterPlane(single, occupied, p)[q] == (ToPauli(m)[2 * q] || ToPauli(m)[2 * q + 1])
    {
      LettersFromPlanes(m, q);
    }
    CountIsSupport(LetterPlane(single, occupied, p), ToPauli(m), 0);
    weight := Count(LetterPlane(single, occupied, p));
  }

  // ---- monomials ----------------------------------------------------------------

  /** A monomial with its weight and its prefix plane alongside. */
  datatype Monomial = Monomial(modes: Key, weight: nat, p: seq<bool>)

  ghost predicate MonomialOk(x: Monomial)
  {
    |x.modes| % 2 == 0 && x.weight == Weight(Majorana, x.modes) && x.p == PrefixPlane(x.modes)
  }

  /** Weight and plane from scratch. */
  method FromModes(modes: Key) returns (x: Monomial)
    requires |modes| % 2 == 0
    ensures MonomialOk(x) && x.modes == modes
  {
    var single, occupied := SinglePlane(modes), OccupiedPlane(modes);
    var p := ScanP(single);
    assert p == PrefixPlane(modes);
    var weight := WeightFromParts(modes, single, occupied, p);
    x := Monomial(modes, weight, p);
  }

  lemma {:induction false} ParityLinear(a: Key, b: Key, k: nat)
    requires |a| == |b| && |a| % 2 == 0 && 2 * k <= |a|
    ensures Parity(SinglePlane(Xor(a, b)), k) == (Parity(SinglePlane(a), k) != Parity(SinglePlane(b), k))
  {
    if k > 0 {
      ParityLinear(a, b, k - 1);
    }
  }

  /** The plane of a product is the XOR of the planes: no scan is needed. */
  lemma PrefixPlaneLinear(a: Key, b: Key)
    requires |a| == |b| && |a| % 2 == 0
    ensures PrefixPlane(Xor(a, b)) == Xor(PrefixPlane(a), PrefixPlane(b))
  {
    forall q | 0 <= q < |a| / 2 ensures PrefixPlane(Xor(a, b))[q] == Xor(PrefixPlane(a), PrefixPlane(b))[q] {
      ParityLinear(a, b, q + 1);
    }
  }

  /** The sign parity of reordering two mode sets, with one running count. */
  method ResortingParity(a: Key, b: Key) returns (odd: bool)
    requires |a| == |b|
    ensures odd == Odd(SwapsFrom(a, b, 0))
  {
    var total, running, count := Count(a), 0, 0;
    for j := 0 to |b|
      invariant running + CountFrom(a, j) == total
      invariant count + SwapsFrom(a, b, j) == SwapsFrom(a, b, 0)
    {
      running := running + Bit(a[j]);
      if b[j] {
        count := count + (total - running);
      }
    }
    odd := Odd(count);
  }

  /** The product of two monomials: phase, modes, and the derived weight and plane. */
  method MatMul(x: Monomial, y: Monomial) returns (phase: Exp, r: Monomial)
    requires MonomialOk(x) && MonomialOk(y) && |x.modes| == |y.modes|
    ensures MonomialOk(r) && r.modes == Xor(x.modes, y.modes)
    ensures phase == PhaseExp(Majorana, x.modes, y.modes)
  {
    var modes := Xor(x.modes, y.modes);
    PrefixPlaneLinear(x.modes, y.modes);
    var p := Xor(x.p, y.p);
    var weight := WeightFromParts(modes, SinglePlane(modes), OccupiedPlane(modes), p);
    r := Monomial(modes, weight, p);
    var odd := ResortingParity(x.modes, y.modes);
    var e := HermiticityExp(Count(x.modes)) + HermiticityExp(Count(y.modes)) - HermiticityExp(Count(modes))
      + 2 * Bit(odd);
    SwapsModulo(HermiticityExp(Count(x.modes)) + HermiticityExp(Count(y.modes)) - HermiticityExp(Count(modes)),
      SwapsFrom(x.modes, y.modes, 0));
    phase := e % 4;
  }

  lemma SwapsModulo(h: int, swaps: nat)
    ensures (h + 2 * Bit(Odd(swaps))) % 4 == (h + 2 * swaps) % 4
  {
    var k := swaps / 2;
    assert swaps == 2 * k + Bit(Odd(swaps));
    assert h + 2 * swaps == h + 2 * Bit(Odd(swaps)) + 4 * k;
  }

  // ---- weight from sorted positions ---------------------------------------------

  /** Units at or above `q` by what they carry. */
  datatype QubitSets = QubitSets(occupied: nat, single: nat, p: nat, occupiedAndP: nat, singleAndP: nat)

  function SetsFrom(m: Key, plane: seq<bool>, q: nat): QubitSets
    requires |m| == 2 * |plane| && q <= |plane|
    decreases |plane| - q
  {
    if q == |plane| then QubitSets(0, 0, 0, 0, 0)
    else
      var rest := SetsFrom(m, plane, q + 1);
      var s, o := m[2 * q] != m[2 * q + 1], m[2 * q] || m[2 * q + 1];
      QubitSets(rest.occupied + Bit(o), rest.single + Bit(s), rest.p + Bit(plane[q]),
                rest.occupiedAndP + Bit(o && plane[q]), rest.singleAndP + Bit(s && plane[q]))
  }

  /** Inclusion and exclusion: the counts give the number of letters. */
  function WeightFromSets(sets: QubitSets, units: nat, flip: bool): int
  {
    if !flip then sets.occupied + sets.p - 2 * sets.occupiedAndP + sets.singleAndP
    else units + 2 * sets.occupiedAndP - sets.occupied - sets.p + sets.single - sets.singleAndP
  }

  lemma {:induction false} SetsCountLetters(m: Key, plane: seq<bool>, flip: bool, letters: seq<bool>, q: nat)
    requires |m| == 2 * |plane| == 2 * |letters| && q <= |plane|
    requires forall i :: 0 <= i < |plane| ==>
      letters[i] == ((m[2 * i] != m[2 * i + 1]) || ((m[2 * i] || m[2 * i + 1]) != (plane[i] != flip)))
    ensures WeightFromSets(SetsFrom(m, plane, q), |plane| - q, flip) == CountFrom(letters, q)
    decreases |plane| - q
  {
    if q < |plane| {
      SetsCountLetters(m, plane, flip, letters, q + 1);
    }
  }

  lemma {:induction false} SingleIsCount(m: Key, plane: seq<bool>, q: nat)
    requires |m| == 2 * |plane| && q <= |plane|
    ensures SetsFrom(m, plane, q).single == CountFrom(SinglePlane(m), q)
    decreases |plane| - q
  {
    if q < |plane| {
      SingleIsCount(m, plane, q + 1);
    }
  }

  /** The first set position at or above `j` has nothing but clear bits before it. */
  lemma {:induction false} SkipTo(a: Key, j: nat)
    requires j <= |a|
    ensures var ps := PositionsFrom(a, j);
      if ps == [] then forall i :: j <= i < |a| ==> !a[i]
      else j <= ps[0] < |a| && a[ps[0]] && (forall i :: j <= i < ps[0] ==> !a[i])
           && ps == [ps[0]] + PositionsFrom(a, ps[0] + 1)
    decreases |a| - j
  {
    if j < |a| && !a[j] {
      SkipTo(a, j + 1);
    }
  }

  /** Positions below `k` dropped one by one: what is left starts at `k` or above. */
  lemma {:induction false} PositionsSplit(a: Key, j: nat, k: nat)
    requires j <= k <= |a| && forall i :: j <= i < k ==> !a[i]
    ensures PositionsFrom(a, j) == PositionsFrom(a, k)
    decreases k - j
  {
    if j < k {
      PositionsSplit(a, j + 1, k);
    }
  }

  /** Units without modes only add their prefix bits. */
  lemma {:induction false} EmptyUnits(m: Key, plane: seq<bool>, q: nat, k: nat)
    requires |m| == 2 * |plane| && q <= k <= |plane| && forall i :: 2 * q <= i < 2 * k ==> !m[i]
    ensures var x, y := SetsFrom(m, plane, q), SetsFrom(m, plane, k);
      x.(p := 0) == y.(p := 0)
    decreases k - q
  {
    if q < k {
      EmptyUnits(m, plane, q + 1, k);
    }
  }

  lemma {:induction false} SetsP(m: Key, plane: seq<bool>, q: nat)
    requires |m| == 2 * |plane| && q <= |plane|
    ensures SetsFrom(m, plane, q).p == |PositionsFrom(plane, q)|
    decreases |plane| - q
  {
    if q < |plane| {
      SetsP(m, plane, q + 1);
    }
  }

  /** Moves `j` to the first prefix position at or above unit `k`. */
  method AdvanceTo(ps: seq<nat>, from: nat, k: nat, ghost plane: seq<bool>, ghost f: nat) returns (j: nat)
    requires from <= |ps| && f <= k < |plane| && ps[from..] == PositionsFrom(plane, f)
    ensures j <= |ps| && ps[j..] == PositionsFrom(plane, k)
    ensures plane[k] <==> j < |ps| && ps[j] == k
  {
    j := from;
    ghost var g: nat := f;
    while j < |ps| && ps[j] < k
      invariant j <= |ps| && g <= k && ps[j..] == PositionsFrom(plane, g)
    {
      SkipTo(plane, g);
      assert ps[j..] == [ps[j]] + ps[j + 1..];
      g := ps[j] + 1;
      j := j + 1;
    }
    SkipTo(plane, g);
    assert j < |ps| ==> ps[j] == ps[j..][0];
    PositionsSplit(plane, g, k);
  }

  /** The set positions of one unit, and the rest. */
  lemma {:induction false} UnitPositions(m: Key, q: nat)
    requires |m| % 2 == 0 && 2 * q < |m|
    ensures var rest := PositionsFrom(m, 2 * q + 2);
      && (rest == [] || rest[0] >= 2 * q + 2)
      && PositionsFrom(m, 2 * q) ==
        if m[2 * q] && m[2 * q + 1] then [2 * q, 2 * q + 1] + rest
        else if m[2 * q] then [2 * q] + rest
        else if m[2 * q + 1] then [2 * q + 1] + rest
        else rest
  {
    SkipTo(m, 2 * q + 2);
    var rest := PositionsFrom(m, 2 * q + 2);
    assert PositionsFrom(m, 2 * q + 1) == if m[2 * q + 1] then [2 * q + 1] + rest else rest;
    assert [2 * q] + ([2 * q + 1] + rest) == [2 * q, 2 * q + 1] + rest;
  }

  /** The next occupied unit after `q`, from the head of the remaining positions. */
  lemma {:induction false} NextUnit(m: Key, plane: seq<bool>, q: nat, rest: seq<nat>)
    requires |m| == 2 * |plane| && q <= |plane| && rest == PositionsFrom(m, 2 * q) && rest != []
    ensures var k := rest[0] / 2;
      var paired := |rest| > 1 && rest[1] / 2 == k;
      && q <= k < |plane| && (m[2 * k] || m[2 * k + 1]) && paired == (m[2 * k] && m[2 * k + 1])
      && rest[if paired then 2 else 1..] == PositionsFrom(m, 2 * k + 2)
      && SetsFrom(m, plane, q).(p := 0) == SetsFrom(m, plane, k).(p := 0)
  {
    hide PositionsFrom, SetsFrom;
    SkipTo(m, 2 * q);
    var k := rest[0] / 2;
    EmptyUnits(m, plane, q, k);
    PositionsSplit(m, 2 * q, 2 * k);
    UnitPositions(m, k);
  }

  lemma {:induction false} SetsEnd(m: Key, plane: seq<bool>)
    requires |m| == 2 * |plane|
    ensures SetsFrom(m, plane, |plane|) == QubitSets(0, 0, 0, 0, 0)
  {
  }

  /** The counts so far and the counts of the units from `q` on make the whole. */
  ghost predicate CountedTo(sets: QubitSets, m: Key, plane: seq<bool>, q: nat)
    requires |m| == 2 * |plane| && q <= |plane|
  {
    var rest, all := SetsFrom(m, plane, q), SetsFrom(m, plane, 0);
    && sets.p == all.p && sets.occupied + rest.occupied == all.occupied && sets.single + rest.single == all.single
    && sets.occupiedAndP + rest.occupiedAndP == all.occupiedAndP && sets.singleAndP + rest.singleAndP == all.singleAndP
  }

  lemma {:induction false} CountUnit(before: QubitSets, after: QubitSets, m: Key, plane: seq<bool>, q: nat, k: nat)
    requires |m| == 2 * |plane| && q <= k < |plane| && CountedTo(before, m, plane, q) && (m[2 * k] || m[2 * k + 1])
    requires SetsFrom(m, plane, q).(p := 0) == SetsFrom(m, plane, k).(p := 0)
    requires var s := m[2 * k] != m[2 * k + 1];
      after == QubitSets(before.occupied + 1, before.single + Bit(s), before.p, before.occupiedAndP + Bit(plane[k]),
        before.singleAndP + Bit(s && plane[k]))
    ensures CountedTo(after, m, plane, k + 1)
  {
  }

  /** The counts read off two sorted position lists in one merge. */
  method QubitSetsOf(modes: seq<nat>, ps: seq<nat>, ghost m: Key, ghost plane: seq<bool>) returns (sets: QubitSets)
    requires |m| == 2 * |plane| && modes == Positions(m) && ps == Positions(plane)
    ensures sets == SetsFrom(m, plane, 0)
  {
    hide SetsFrom, PositionsFrom;
    SetsP(m, plane, 0);
    sets := QubitSets(0, 0, |ps|, 0, 0);
    var i: nat, j: nat := 0, 0;
    ghost var q: nat, f: nat := 0, 0;
    while i < |modes|
      invariant i <= |modes| && j <= |ps| && f <= q <= |plane|
      invariant modes[i..] == PositionsFrom(m, 2 * q) && ps[j..] == PositionsFrom(plane, f)
      invariant CountedTo(sets, m, plane, q)
      decreases |modes| - i
    {
      NextUnit(m, plane, q, modes[i..]);
      var k := modes[i] / 2;
      var paired := i + 1 < |modes| && modes[i + 1] / 2 == k;
      assert modes[i..][if paired then 2 else 1..] == modes[i + (if paired then 2 else 1)..];
      i := i + if paired then 2 else 1;
      ghost var before := sets;
      sets := sets.(occupied := sets.occupied + 1);
      if !paired {
        sets := sets.(single := sets.single + 1);
      }
      j := AdvanceTo(ps, j, k, plane, f);
      if j < |ps| && ps[j] == k {
        sets := sets.(occupiedAndP := sets.occupiedAndP + 1);
        if !paired {
          sets := sets.(singleAndP := sets.singleAndP + 1);
        }
      }
      CountUnit(before, sets, m, plane, q, k);
      q, f := k + 1, k;
    }
    SkipTo(m, 2 * q);
    EmptyUnits(m, plane, q, |plane|);
    assert SetsFrom(m, plane, |plane|) == QubitSets(0, 0, 0, 0, 0) by { SetsEnd(m, plane); }
  }

  /** The weight of a monomial stored as sorted positions of modes and prefix plane. */
  method WeightSparse(modes: seq<nat>, ps: seq<nat>, units: nat, ghost m: Key) returns (weight: int)
    requires |m| == 2 * units && modes == Positions(m) && ps == Positions(PrefixPlane(m))
    ensures weight == Weight(Majorana, m)
  {
    hide ToPauli;
    ghost var plane := PrefixPlane(m);
    var sets := QubitSetsOf(modes, ps, m, plane);
    var flip := sets.single % 2 != 0;
    weight := WeightFromSets(sets, units, flip);
    SingleIsCount(m, plane, 0);
    ghost var letters := LetterPlane(SinglePlane(m), OccupiedPlane(m), plane);
    SetsCountLetters(m, plane, flip, letters, 0);
    forall q | 0 <= q < |plane| ensures letters[q] == (ToPauli(m)[2 * q] || ToPauli(m)[2 * q + 1]) {
      LettersFromPlanes(m, q);
    }
    CountIsSupport(letters, ToPauli(m), 0);
  }

  /** Two sorted lists of modes give the same reordering parity as the masks. */
  method ResortingParitySparse(a: seq<nat>, b: seq<nat>, ghost x: Key, ghost y: Key) returns (odd: bool)
    requires |x| == |y| && a == Positions(x) && b == Positions(y)
    ensures odd == Odd(SwapsFrom(x, y, 0))
  {
    hide PositionsFrom, SwapsFrom;
    var i, count := 0, 0;
    ghost var f: nat := 0;
    ghost var h: nat := 0;
    for s := 0 to |b|
      invariant i <= |a| && f <= h <= |x|
      invariant b[s..] == PositionsFrom(y, h) && a[i..] == PositionsFrom(x, f)
      invariant count + SwapsFrom(x, y, h) == SwapsFrom(x, y, 0)
    {
      assert b[s..] == [b[s]] + b[s + 1..];
      NextSwap(x, y, h, b[s], b[s + 1..]);
      i := DropUpTo(a, i, b[s], x, f);
      count := count + (|a| - i);
      assert |a[i..]| == |PositionsFrom(x, b[s] + 1)|;
      h, f := b[s] + 1, b[s] + 1;
    }
    LastSwap(x, y, h);
    odd := Odd(count);
  }

  /** The next position of `y` is exchanged with the positions of `x` above it. */
  lemma NextSwap(x: Key, y: Key, h: nat, v: nat, rest: seq<nat>)
    requires |x| == |y| && h <= |y| && PositionsFrom(y, h) == [v] + rest
    ensures h <= v < |y| && rest == PositionsFrom(y, v + 1)
    ensures SwapsFrom(x, y, h) == |PositionsFrom(x, v + 1)| + SwapsFrom(x, y, v + 1)
  {
    SkipTo(y, h);
    assert PositionsFrom(y, h)[0] == v && PositionsFrom(y, h)[1..] == rest;
    NoSwaps(x, y, h, v);
  }

  lemma {:induction false} LastSwap(x: Key, y: Key, h: nat)
    requires |x| == |y| && h <= |y| && PositionsFrom(y, h) == []
    ensures SwapsFrom(x, y, h) == 0
  {
    SkipTo(y, h);
    NoSwaps(x, y, h, |x|);
  }

  method DropUpTo(a: seq<nat>, from: nat, v: nat, ghost x: Key, ghost f: nat) returns (i: nat)
    requires from <= |a| && f <= v < |x| && a[from..] == PositionsFrom(x, f)
    ensures i <= |a| && a[i..] == PositionsFrom(x, v + 1)
  {
    i := from;
    ghost var g: nat := f;
    while i < |a| && a[i] <= v
      invariant i <= |a| && g <= v + 1 && a[i..] == PositionsFrom(x, g)
    {
      SkipTo(x, g);
      assert a[i..] == [a[i]] + a[i + 1..];
      g := a[i] + 1;
      i := i + 1;
    }
    SkipTo(x, g);
    assert i < |a| ==> a[i] == a[i..][0];
    PositionsSplit(x, g, v + 1);
  }

  lemma {:induction false} NoSwaps(x: Key, y: Key, h: nat, k: nat)
    requires |x| == |y| && h <= k <= |x| && forall i :: h <= i < k ==> !y[i]
    ensures SwapsFrom(x, y, h) == SwapsFrom(x, y, k)
    decreases k - h
  {
    if h < k {
      NoSwaps(x, y, h + 1, k);
    }
  }
}
