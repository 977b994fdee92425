/**
 Simplifying symbolic coefficients: every coefficient is expanded into trig monomials, equal
 monomials are added up, and what is left is rebuilt as a balanced sum.
 */
module Simplification {
  import opened Wrappers
  import opened SymbolicCoeffs
  import opened CompiledTapes

  /** How often the cosine and the sine of one parameter occur. */
  datatype Powers = Powers(cos: nat, sin: nat)

  /** The trig factors of a monomial, by parameter. */
  type Run = map<nat, Powers>

  datatype Term = Term(run: Run, scalar: real)

  /** No parameter is listed without a factor, and all lie below `bound`. */
  predicate RunOk(run: Run, bound: nat) { forall p :: p in run ==> p < bound && run[p].cos + run[p].sin > 0 }

  ghost predicate TermsOk(ts: seq<Term>, bound: nat)
  {
    && (forall i :: 0 <= i < |ts| ==> RunOk(ts[i].run, bound))
    && (forall i, j :: 0 <= i < j < |ts| ==> ts[i].run != ts[j].run)
  }

  function PowersAt(run: Run, p: nat): Powers { if p in run then run[p] else Powers(0, 0) }

  /** One more factor of parameter `p`. */
  function Incremented(run: Run, p: nat, isSin: bool): Run
  {
    var e := PowersAt(run, p);
    run[p := if isSin then Powers(e.cos, e.sin + 1) else Powers(e.cos + 1, e.sin)]
  }

  lemma IncrementedOk(run: Run, p: nat, isSin: bool, bound: nat)
    requires RunOk(run, bound) && p < bound
    ensures RunOk(Incremented(run, p, isSin), bound)
  {
  }

  /** Different monomials stay different. */
  lemma IncrementedDiffers(r: Run, s: Run, p: nat, isSin: bool, bound: nat)
    requires RunOk(r, bound) && RunOk(s, bound) && r != s
    ensures Incremented(r, p, isSin) != Incremented(s, p, isSin)
  {
    var r', s' := Incremented(r, p, isSin), Incremented(s, p, isSin);
    if r' == s' {
      forall q ensures q in r <==> q in s {
        if q == p {
          assert r'[p] == s'[p];
        } else {
          assert q in r' <==> q in s';
        }
      }
      forall q | q in r ensures r[q] == s[q] {
        assert r'[q] == s'[q];
      }
    }
  }

  // ---- values -------------------------------------------------------------------

  function Power(x: real, k: nat): real { if k == 0 then 1.0 else Times(x, Power(x, k - 1)) }

  function FactorOf(run: Run, lut: seq<real>, p: nat): real
  {
    Times(Power(CosOf(lut, p), PowersAt(run, p).cos), Power(SinOf(lut, p), PowersAt(run, p).sin))
  }

  /** The product of the factors of parameters below `k`. */
  function RunValue(run: Run, lut: seq<real>, k: nat): real
  {
    if k == 0 then 1.0 else Times(FactorOf(run, lut, k - 1), RunValue(run, lut, k - 1))
  }

  function TermsValue(ts: seq<Term>, lut: seq<real>, bound: nat): real
  {
    if ts == [] then 0.0
    else TermsValue(ts[..|ts| - 1], lut, bound) + Times(ts[|ts| - 1].scalar, RunValue(ts[|ts| - 1].run, lut, bound))
  }

  function Trig(lut: seq<real>, p: nat, isSin: bool): real { if isSin then SinOf(lut, p) else CosOf(lut, p) }

  lemma {:induction false} IncrementedValue(run: Run, p: nat, isSin: bool, lut: seq<real>, k: nat)
    ensures RunValue(Incremented(run, p, isSin), lut, k) == if p < k
      then Times(Trig(lut, p, isSin), RunValue(run, lut, k)) else RunValue(run, lut, k)
  {
    hide Times;
    if k > 0 {
      IncrementedValue(run, p, isSin, lut, k - 1);
      var run', t := Incremented(run, p, isSin), Trig(lut, p, isSin);
      var c, s := Power(CosOf(lut, p), PowersAt(run, p).cos), Power(SinOf(lut, p), PowersAt(run, p).sin);
      if p == k - 1 {
        TimesLaws(t, c, s);
        TimesLaws(c, t, s);
        TimesLaws(t, Times(c, s), RunValue(run, lut, p));
      } else {
        TimesLaws(t, FactorOf(run, lut, k - 1), RunValue(run, lut, k - 1));
      }
    }
  }

  /** Every term scaled. */
  function Scaled(ts: seq<Term>, k: real): (r: seq<Term>)
    ensures |r| == |ts| && forall i :: 0 <= i < |ts| ==> r[i] == Term(ts[i].run, Times(ts[i].scalar, k))
  {
    seq(|ts|, i requires 0 <= i < |ts| => Term(ts[i].run, Times(ts[i].scalar, k)))
  }

  /** Every term with one more factor. */
  function Factored(ts: seq<Term>, p: nat, isSin: bool): (r: seq<Term>)
    ensures |r| == |ts| && forall i :: 0 <= i < |ts| ==> r[i] == Term(Incremented(ts[i].run, p, isSin), ts[i].scalar)
  {
    seq(|ts|, i requires 0 <= i < |ts| => Term(Incremented(ts[i].run, p, isSin), ts[i].scalar))
  }

  lemma {:induction false} ScaledValue(ts: seq<Term>, k: real, lut: seq<real>, bound: nat)
    ensures TermsValue(Scaled(ts, k), lut, bound) == Times(k, TermsValue(ts, lut, bound))
    decreases |ts|
  {
    hide Times;
    TimesLaws(k, 0.0, 0.0);
    if ts != [] {
      var last := |ts| - 1;
      ScaledValue(ts[..last], k, lut, bound);
      assert Scaled(ts, k)[..last] == Scaled(ts[..last], k);
      var v := RunValue(ts[last].run, lut, bound);
      TimesLaws(k, ts[last].scalar, v);
      TimesLaws(ts[last].scalar, k, v);
      TimesLaws(k, TermsValue(ts[..last], lut, bound), Times(ts[last].scalar, v));
    }
  }

  lemma {:induction false} FactoredValue(ts: seq<Term>, p: nat, isSin: bool, lut: seq<real>, bound: nat)
    requires p < bound
    ensures TermsValue(Factored(ts, p, isSin), lut, bound) == Times(Trig(lut, p, isSin), TermsValue(ts, lut, bound))
    decreases |ts|
  {
    hide Times, Trig;
    var t := Trig(lut, p, isSin);
    TimesLaws(t, 0.0, 0.0);
    if ts != [] {
      var last := |ts| - 1;
      FactoredValue(ts[..last], p, isSin, lut, bound);
      assert Factored(ts, p, isSin)[..last] == Factored(ts[..last], p, isSin);
      IncrementedValue(ts[last].run, p, isSin, lut, bound);
      var v := RunValue(ts[last].run, lut, bound);
      TimesLaws(t, ts[last].scalar, v);
      TimesLaws(t, TermsValue(ts[..last], lut, bound), Times(ts[last].scalar, v));
    }
  }

  lemma FactoredOk(ts: seq<Term>, p: nat, isSin: bool, bound: nat)
    requires TermsOk(ts, bound) && p < bound
    ensures TermsOk(Factored(ts, p, isSin), bound)
  {
    var r := Factored(ts, p, isSin);
    forall i | 0 <= i < |r| ensures RunOk(r[i].run, bound) {
      IncrementedOk(ts[i].run, p, isSin, bound);
    }
    forall i, j | 0 <= i < j < |r| ensures r[i].run != r[j].run {
      IncrementedDiffers(ts[i].run, ts[j].run, p, isSin, bound);
    }
  }

  lemma FactoredRunsOk(ts: seq<Term>, p: nat, isSin: bool, bound: nat)
    requires (forall i :: 0 <= i < |ts| ==> RunOk(ts[i].run, bound)) && p < bound
    ensures forall i :: 0 <= i < |ts| ==> RunOk(Factored(ts, p, isSin)[i].run, bound)
  {
    forall i | 0 <= i < |ts| ensures RunOk(Factored(ts, p, isSin)[i].run, bound) {
      IncrementedOk(ts[i].run, p, isSin, bound);
    }
  }

  lemma {:induction false} AppendedValue(a: seq<Term>, b: seq<Term>, lut: seq<real>, bound: nat)
    ensures TermsValue(a + b, lut, bound) == TermsValue(a, lut, bound) + TermsValue(b, lut, bound)
    decreases |b|
  {
    if b == [] {
      assert a + b == a;
    } else {
      var last := |b| - 1;
      AppendedValue(a, b[..last], lut, bound);
      assert (a + b)[..|a + b| - 1] == a + b[..last];
    }
  }

  // ---- grouping -----------------------------------------------------------------

  lemma {:induction false} RaisedValue(ts: seq<Term>, i: nat, x: real, lut: seq<real>, bound: nat)
    requires i < |ts|
    ensures TermsValue(ts[i := Term(ts[i].run, ts[i].scalar + x)], lut, bound)
         == TermsValue(ts, lut, bound) + Times(x, RunValue(ts[i].run, lut, bound))
    decreases |ts|
  {
    hide Times, RunValue;
    var last, after := |ts| - 1, ts[i := Term(ts[i].run, ts[i].scalar + x)];
    TimesLaws(ts[i].scalar, x, RunValue(ts[i].run, lut, bound));
    TimesLaws(x, ts[i].scalar, 0.0);
    if i < last {
      RaisedValue(ts[..last], i, x, lut, bound);
      assert after[..last] == ts[..last][i := Term(ts[i].run, ts[i].scalar + x)];
    } else {
      assert after[..last] == ts[..last];
      TimesSum(ts[i].scalar, x, RunValue(ts[i].run, lut, bound));
    }
  }

  lemma TimesSum(x: real, y: real, z: real)
    ensures Times(x + y, z) == Times(x, z) + Times(y, z)
  {
  }

  /** Where the run is among the terms, if it is. */
  method FindRun(ts: seq<Term>, run: Run) returns (at: Option<nat>)
    ensures if at.Some? then at.value < |ts|
      && ts[at.value].run == run else forall i :: 0 <= i < |ts| ==> ts[i].run != run
  {
    for i := 0 to |ts|
      invariant forall j :: 0 <= j < i ==> ts[j].run != run
    {
      if ts[i].run == run {
        return Some(i);
      }
    }
    at := None;
  }

  /** The terms with one more added: its scalar goes to the term at `at`, or it goes behind. */
  function Joined(r: seq<Term>, t: Term, at: Option<nat>): (joined: seq<Term>)
    requires at.Some? ==> at.value < |r|
    ensures |joined| == if at.Some? then |r| else |r| + 1
  {
    if at.Some? then r[at.value := Term(t.run, r[at.value].scalar + t.scalar)] else r + [t]
  }

  lemma NoTermsOk(bound: nat)
    ensures TermsOk([], bound)
  {
  }

  lemma JoinedOk(r: seq<Term>, t: Term, at: Option<nat>, bound: nat)
    requires TermsOk(r, bound) && RunOk(t.run, bound)
    requires if at.Some? then at.value < |r|
      && r[at.value].run == t.run else forall i :: 0 <= i < |r| ==> r[i].run != t.run
    ensures TermsOk(Joined(r, t, at), bound)
  {
    hide RunOk;
  }

  lemma {:induction false} JoinedValue(r: seq<Term>, t: Term, at: Option<nat>, bound: nat, lut: seq<real>)
    requires TermsOk(r, bound)
    requires at.Some? ==> at.value < |r| && r[at.value].run == t.run
    ensures TermsValue(Joined(r, t, at), lut, bound) == TermsValue(r + [t], lut, bound)
  {
    assert (r + [t])[..|r|] == r;
    if at.Some? {
      RaisedValue(r, at.value, t.scalar, lut, bound);
    }
  }

  lemma {:induction false} MoreTerms(r: seq<Term>, s: seq<Term>, t: Term, bound: nat, lut: seq<real>)
    requires TermsValue(r, lut, bound) == TermsValue(s, lut, bound)
    ensures TermsValue(r + [t], lut, bound) == TermsValue(s + [t], lut, bound)
  {
    assert (r + [t])[..|r|] == r && (s + [t])[..|s|] == s;
  }

  // ---- totals -------------------------------------------------------------------

  /** The scalars of one run, added up. */
  function TotalOf(ts: seq<Term>, run: Run): real
  {
    if ts == [] then 0.0
    else TotalOf(ts[..|ts| - 1], run) + if ts[|ts| - 1].run == run then ts[|ts| - 1].scalar else 0.0
  }

  /** The same polynomial: every run has the same total in both. */
  ghost predicate SameTotals(ts: seq<Term>, us: seq<Term>)
  {
    forall run {:trigger TotalOf(ts, run)} :: TotalOf(ts, run) == TotalOf(us, run)
  }

  predicate RunsOk(ts: seq<Term>, bound: nat) { forall i :: 0 <= i < |ts| ==> RunOk(ts[i].run, bound) }

  lemma {:induction false} TotalAppended(a: seq<Term>, b: seq<Term>, run: Run)
    ensures TotalOf(a + b, run) == TotalOf(a, run) + TotalOf(b, run)
    decreases |b|
  {
    if b == [] {
      assert a + b == a;
    } else {
      var last := |b| - 1;
      TotalAppended(a, b[..last], run);
      assert (a + b)[..|a + b| - 1] == a + b[..last];
    }
  }

  lemma {:induction false} TotalOfOne(t: Term, run: Run)
    ensures TotalOf([t], run) == if t.run == run then t.scalar else 0.0
  {
    assert [t][..0] == [];
  }

  lemma {:induction false} TotalScaled(ts: seq<Term>, k: real, run: Run)
    ensures TotalOf(Scaled(ts, k), run) == Times(TotalOf(ts, run), k)
    decreases |ts|
  {
    hide Times;
    TimesLaws(0.0, 0.0, 0.0);
    TimesLaws(k, 0.0, 0.0);
    if ts != [] {
      var last := |ts| - 1;
      TotalScaled(ts[..last], k, run);
      assert Scaled(ts, k)[..last] == Scaled(ts[..last], k);
      TimesSum(TotalOf(ts[..last], run), if ts[last].run == run then ts[last].scalar else 0.0, k);
    }
  }

  /** One more factor moves every total to the longer run. */
  lemma {:induction false} TotalFactored(ts: seq<Term>, p: nat, isSin: bool, bound: nat, run: Run)
    requires RunsOk(ts, bound) && RunOk(run, bound)
    ensures TotalOf(Factored(ts, p, isSin), Incremented(run, p, isSin)) == TotalOf(ts, run)
    decreases |ts|
  {
    hide RunOk, Incremented;
    if ts != [] {
      var last := |ts| - 1;
      TotalFactored(ts[..last], p, isSin, bound, run);
      assert Factored(ts, p, isSin)[..last] == Factored(ts[..last], p, isSin);
      if ts[last].run != run {
        IncrementedDiffers(ts[last].run, run, p, isSin, bound);
      }
    }
  }

  /** A run that no listed run leads to has no total. */
  lemma {:induction false} TotalElsewhere(ts: seq<Term>, p: nat, isSin: bool, bound: nat, run: Run)
    requires RunsOk(ts, bound) && forall r :: RunOk(r, bound) ==> Incremented(r, p, isSin) != run
    ensures TotalOf(Factored(ts, p, isSin), run) == 0.0
    decreases |ts|
  {
    hide RunOk, Incremented;
    if ts != [] {
      var last := |ts| - 1;
      TotalElsewhere(ts[..last], p, isSin, bound, run);
      assert Factored(ts, p, isSin)[..last] == Factored(ts[..last], p, isSin);
    }
  }

  lemma SameFactored(ts: seq<Term>, us: seq<Term>, p: nat, isSin: bool, bound: nat)
    requires SameTotals(ts, us) && RunsOk(ts, bound) && RunsOk(us, bound)
    ensures SameTotals(Factored(ts, p, isSin), Factored(us, p, isSin))
  {
    hide RunOk, Incremented, RunsOk;
    forall run ensures TotalOf(Factored(ts, p, isSin), run) == TotalOf(Factored(us, p, isSin), run) {
      if r :| RunOk(r, bound) && Incremented(r, p, isSin) == run {
        TotalFactored(ts, p, isSin, bound, r);
        TotalFactored(us, p, isSin, bound, r);
        assert TotalOf(ts, r) == TotalOf(us, r);
      } else {
        TotalElsewhere(ts, p, isSin, bound, run);
        TotalElsewhere(us, p, isSin, bound, run);
      }
    }
  }

  lemma SameScaled(ts: seq<Term>, us: seq<Term>, k: real)
    requires SameTotals(ts, us)
    ensures SameTotals(Scaled(ts, k), Scaled(us, k))
  {
    forall run ensures TotalOf(Scaled(ts, k), run) == TotalOf(Scaled(us, k), run) {
      TotalScaled(ts, k, run);
      TotalScaled(us, k, run);
      assert TotalOf(ts, run) == TotalOf(us, run);
    }
  }

  lemma SameAppended(a: seq<Term>, b: seq<Term>, c: seq<Term>, d: seq<Term>)
    requires SameTotals(a, c) && SameTotals(b, d)
    ensures SameTotals(a + b, c + d)
  {
    forall run ensures TotalOf(a + b, run) == TotalOf(c + d, run) {
      TotalAppended(a, b, run);
      TotalAppended(c, d, run);
      assert TotalOf(a, run) == TotalOf(c, run) && TotalOf(b, run) == TotalOf(d, run);
    }
  }

  lemma {:induction false} TotalRaised(ts: seq<Term>, i: nat, x: real, run: Run)
    requires i < |ts|
    ensures TotalOf(ts[i := Term(ts[i].run, ts[i].scalar + x)], run)
      == TotalOf(ts, run) + if ts[i].run == run then x else 0.0
    decreases |ts|
  {
    var last, after := |ts| - 1, ts[i := Term(ts[i].run, ts[i].scalar + x)];
    if i < last {
      TotalRaised(ts[..last], i, x, run);
      assert after[..last] == ts[..last][i := Term(ts[i].run, ts[i].scalar + x)];
    } else {
      assert after[..last] == ts[..last];
    }
  }

  /** Merging a term into its run keeps every total. */
  lemma JoinedTotals(r: seq<Term>, s: seq<Term>, t: Term, at: Option<nat>)
    requires SameTotals(r, s) && (at.Some? ==> at.value < |r| && r[at.value].run == t.run)
    ensures SameTotals(Joined(r, t, at), s + [t])
  {
    forall run ensures TotalOf(Joined(r, t, at), run) == TotalOf(s + [t], run) {
      assert TotalOf(r, run) == TotalOf(s, run);
      TotalAppended(s, [t], run);
      TotalOfOne(t, run);
      if at.Some? {
        TotalRaised(r, at.value, t.scalar, run);
      } else {
        TotalAppended(r, [t], run);
      }
    }
  }

  lemma NoTotals()
    ensures SameTotals([], [])
  {
  }

  /** Adds up the scalars of equal runs. */
  method Group(ts: seq<Term>, ghost bound: nat) returns (r: seq<Term>)
    requires forall i :: 0 <= i < |ts| ==> RunOk(ts[i].run, bound)
    ensures TermsOk(r, bound) && |r| <= |ts| && SameTotals(r, ts)
    ensures forall lut {:trigger TermsValue(r, lut, bound)} :: TermsValue(r, lut, bound) == TermsValue(ts, lut, bound)
  {
    hide TermsValue, RunOk, TermsOk, Joined, SameTotals;
    r := [];
    NoTermsOk(bound);
    NoTotals();
    assert ts[..0] == [];
    var k := 0;
    while k < |ts|
      invariant k <= |ts| && TermsOk(r, bound) && |r| <= k && SameTotals(r, ts[..k])
      invariant forall lut {:trigger TermsValue(r, lut, bound)} ::
        TermsValue(r, lut, bound) == TermsValue(ts[..k], lut, bound)
    {
      ghost var before := r;
      assert ts[..k + 1] == ts[..k] + [ts[k]];
      var at := FindRun(r, ts[k].run);
      JoinedOk(r, ts[k], at, bound);
      JoinedTotals(r, ts[..k], ts[k], at);
      r := Joined(r, ts[k], at);
      forall lut ensures TermsValue(r, lut, bound) == TermsValue(ts[..k + 1], lut, bound) {
        assert TermsValue(before, lut, bound) == TermsValue(ts[..k], lut, bound);
        JoinedValue(before, ts[k], at, bound, lut);
        MoreTerms(before, ts[..k], ts[k], bound, lut);
      }
      k := k + 1;
    }
    assert ts[..k] == ts;
  }

  // ---- remaining consumers ------------------------------------------------------

  /** How many child slots of the node hold `c`. */
  function Mult(x: Node, c: nat): nat
  {
    match x
    case Scalar(_) => 0
    case Add(a, b) => (if a == c then 1 else 0) + if b == c then 1 else 0
    case Scale(_, a) => if a == c then 1 else 0
    case Cos(_, a) => if a == c then 1 else 0
    case Sin(_, a) => if a == c then 1 else 0
  }

  lemma MultIsChild(x: Node, c: nat)
    ensures Mult(x, c) > 0 <==> Child(x, c)
  {
  }

  /** The uses of `c` by the nodes of `open` below `k`. */
  function UsesBelow(h: Heap, open: set<nat>, c: nat, k: nat): nat
    requires k <= |h|
  {
    if k == 0 then 0 else UsesBelow(h, open, c, k - 1) + if k - 1 in open then Mult(h[k - 1], c) else 0
  }

  function RootUses(coeffs: seq<Option<nat>>, c: nat): nat
  {
    if coeffs == [] then 0 else RootUses(coeffs[..|coeffs| - 1], c) + if coeffs[|coeffs| - 1] == Some(c) then 1 else 0
  }

  /** Coefficients and open nodes that still need `c`. */
  function Uses(h: Heap, coeffs: seq<Option<nat>>, open: set<nat>, c: nat): nat
  {
    RootUses(coeffs, c) + UsesBelow(h, open, c, |h|)
  }

  lemma {:induction false} UsesWithout(h: Heap, open: set<nat>, n: nat, c: nat, k: nat)
    requires k <= |h| && n in open
    ensures UsesBelow(h, open, c, k) == UsesBelow(h, open - {n}, c, k) + if n < k then Mult(h[n], c) else 0
  {
    if k > 0 {
      UsesWithout(h, open, n, c, k - 1);
    }
  }

  lemma {:induction false} UsesAtLeast(h: Heap, open: set<nat>, n: nat, c: nat, k: nat)
    requires k <= |h| && n in open && n < k
    ensures UsesBelow(h, open, c, k) >= Mult(h[n], c)
  {
    if n < k - 1 {
      UsesAtLeast(h, open, n, c, k - 1);
    }
  }

  lemma {:induction false} NoUses(h: Heap, open: set<nat>, c: nat, k: nat)
    requires k <= |h| && forall p :: p in open && p < k ==> Mult(h[p], c) == 0
    ensures UsesBelow(h, open, c, k) == 0
  {
    if k > 0 {
      NoUses(h, open, c, k - 1);
    }
  }

  lemma {:induction false} RootCounts(coeffs: seq<Option<nat>>, c: nat)
    ensures RootUses(coeffs, c) > 0 <==> Some(c) in coeffs
    decreases |coeffs|
  {
    if coeffs != [] {
      RootCounts(coeffs[..|coeffs| - 1], c);
      assert coeffs == coeffs[..|coeffs| - 1] + [coeffs[|coeffs| - 1]];
    }
  }

  function CountIn(m: map<nat, nat>, c: nat): nat { if c in m then m[c] else 0 }

  function Bumped(m: map<nat, nat>, c: nat): map<nat, nat> { m[c := CountIn(m, c) + 1] }

  /** Every child slot of a node counted. */
  function BumpedBy(m: map<nat, nat>, x: Node): map<nat, nat>
  {
    match x
    case Scalar(_) => m
    case Add(a, b) => Bumped(Bumped(m, a), b)
    case Scale(_, a) => Bumped(m, a)
    case Cos(_, a) => Bumped(m, a)
    case Sin(_, a) => Bumped(m, a)
  }

  lemma BumpedCounts(m: map<nat, nat>, x: Node, c: nat)
    ensures CountIn(BumpedBy(m, x), c) == CountIn(m, c) + Mult(x, c)
  {
  }

  /** The counts cover the coefficients and the nodes visited, and the walk has not left the graph. */
  ghost predicate CountingOk(h: Heap, coeffs: seq<Option<nat>>, work: seq<nat>, seen: set<nat>,
                             remaining: map<nat, nat>)
    requires HeapOk(h)
  {
    && (forall i :: 0 <= i < |work| ==> work[i] < |h| && work[i] in seen)
    && (forall i, j :: 0 <= i < j < |work| ==> work[i] != work[j])
    && (forall x :: x in seen ==> x < |h| && FromRoots(h, coeffs, x))
    && (forall x :: Some(x) in coeffs ==> x in seen)
    && (forall p, c :: p in seen && p !in work && ChildOf(h, p, c) ==> c in seen)
    && (forall c: nat {:trigger CountIn(remaining, c)} ::
      CountIn(remaining, c) == Uses(h, coeffs, Visited(seen, work), c))
  }

  ghost function Visited(seen: set<nat>, work: seq<nat>): set<nat> { set x | x in seen && x !in work }

  lemma {:induction false} SeenBelow(h: Heap, seen: set<nat>, x: nat, y: nat)
    requires HeapOk(h) && x < |h| && x in seen && Reaches(h, x, y)
    requires forall p, c :: p in seen && ChildOf(h, p, c) ==> c in seen
    ensures y in seen
    decreases x
  {
    ReachesIs(h, x, y);
    if x != y {
      var c :| Child(h[x], c) && Reaches(h, c, y);
      assert ChildOf(h, x, c);
      SeenBelow(h, seen, c, y);
    }
  }

  /** Puts a child on the work list the first time it is met. */
  method MeetChild(h: Heap, ghost coeffs: seq<Option<nat>>, ghost n: nat, c: nat, work: seq<nat>, seen: set<nat>)
      returns (work': seq<nat>, seen': set<nat>)
    requires HeapOk(h) && ChildOf(h, n, c) && FromRoots(h, coeffs, n)
    requires (forall i :: 0 <= i < |work| ==> work[i] in seen)
      && forall i, j :: 0 <= i < j < |work| ==> work[i] != work[j]
    ensures if c in seen then work' == work && seen' == seen else work' == work + [c] && seen' == seen + {c}
    ensures c < |h| && FromRoots(h, coeffs, c)
    ensures (forall i :: 0 <= i < |work'| ==> work'[i] in seen')
      && forall i, j :: 0 <= i < j < |work'| ==> work'[i] != work'[j]
  {
    ChildFromRoots(h, coeffs, n, c);
    work', seen' := work, seen;
    if c !in seen {
      work', seen' := work + [c], seen + {c};
    }
  }

  lemma ChildFromRoots(h: Heap, coeffs: seq<Option<nat>>, n: nat, c: nat)
    requires HeapOk(h) && ChildOf(h, n, c) && FromRoots(h, coeffs, n)
    ensures c < |h| && FromRoots(h, coeffs, c)
  {
    var i :| 0 <= i < |coeffs| && RootReaches(h, coeffs[i], n);
    ReachesIs(h, n, c);
    assert Reaches(h, c, c);
    ReachesTrans(h, coeffs[i].value, n, c);
    assert RootReaches(h, coeffs[i], c);
  }

  /** The children of a node are met: `rest` stays, what is new goes behind it. */
  ghost predicate MetChildren(h: Heap, coeffs: seq<Option<nat>>, n: nat, rest: seq<nat>, seen: set<nat>,
                              work': seq<nat>, seen': set<nat>)
    requires HeapOk(h)
  {
    && rest <= work' && seen <= seen'
    && (forall i :: |rest| <= i < |work'| ==> work'[i] !in seen && work'[i] in seen')
    && (forall i, j :: 0 <= i < j < |work'| ==> work'[i] != work'[j])
    && (forall x :: x in seen' ==> x in seen || (x in work' && x < |h| && FromRoots(h, coeffs, x)))
    && (forall c :: ChildOf(h, n, c) ==> c in seen')
    && (seen' == seen ==> work' == rest)
  }

  method MeetChildren(h: Heap, ghost coeffs: seq<Option<nat>>, n: nat, rest: seq<nat>, seen: set<nat>)
      returns (work': seq<nat>, seen': set<nat>)
    requires HeapOk(h) && n < |h| && FromRoots(h, coeffs, n)
    requires (forall i :: 0 <= i < |rest| ==> rest[i] in seen)
      && forall i, j :: 0 <= i < j < |rest| ==> rest[i] != rest[j]
    ensures MetChildren(h, coeffs, n, rest, seen, work', seen')
  {
    hide FromRoots;
    work', seen' := rest, seen;
    match h[n] {
      case Scalar(_) =>
      case Add(a, b) =>
        work', seen' := MeetChild(h, coeffs, n, a, work', seen');
        work', seen' := MeetChild(h, coeffs, n, b, work', seen');
      case Scale(_, a) => work', seen' := MeetChild(h, coeffs, n, a, work', seen');
      case Cos(_, a) => work', seen' := MeetChild(h, coeffs, n, a, work', seen');
      case Sin(_, a) => work', seen' := MeetChild(h, coeffs, n, a, work', seen');
    }
  }

  lemma OldInRest(rest: seq<nat>, work': seq<nat>, seen: set<nat>, x: nat)
    requires rest <= work' && (forall i :: |rest| <= i < |work'| ==> work'[i] !in seen) && x in seen && x in work'
    ensures x in rest
  {
    var i :| 0 <= i < |work'| && work'[i] == x;
    assert rest[i] == x;
  }

  lemma VisitCounts(h: Heap, coeffs: seq<Option<nat>>, work: seq<nat>, seen: set<nat>, remaining: map<nat, nat>,
                    work': seq<nat>, seen': set<nat>)
    requires HeapOk(h) && work != [] && CountingOk(h, coeffs, work, seen, remaining)
    requires MetChildren(h, coeffs, work[|work| - 1], work[..|work| - 1], seen, work', seen')
    ensures CountingOk(h, coeffs, work', seen', BumpedBy(remaining, h[work[|work| - 1]]))
  {
    hide FromRoots;
    var last := |work| - 1;
    var node, rest, remaining' := work[last], work[..last], BumpedBy(remaining, h[work[last]]);
    var before, after := Visited(seen, work), Visited(seen', work');
    forall x | x in seen && x in work' ensures x in rest {
      OldInRest(rest, work', seen, x);
    }
    assert forall x :: x in rest ==> x in work;
    assert node !in rest;
    forall x | x in work && x != node ensures x in work' {
      var i :| 0 <= i < |work| && work[i] == x;
      assert rest[i] == x && work'[i] == x;
    }
    assert after == before + {node} && node !in before;
    forall c: nat ensures CountIn(remaining', c) == Uses(h, coeffs, after, c) {
      assert CountIn(remaining, c) == Uses(h, coeffs, before, c);
      BumpedCounts(remaining, h[node], c);
      UsesWithout(h, after, node, c, |h|);
      assert after - {node} == before;
    }
    forall i | 0 <= i < |work'| ensures work'[i] < |h| && work'[i] in seen' {
      assert i < |rest| ==> work'[i] == rest[i] == work[i];
      assert work'[i] in work';
    }
  }

  /** Takes a node off the work list: its child slots are counted and its new children met. */
  method VisitNode(h: Heap, ghost coeffs: seq<Option<nat>>, work: seq<nat>, seen: set<nat>, remaining: map<nat, nat>)
      returns (work': seq<nat>, seen': set<nat>, remaining': map<nat, nat>)
    requires HeapOk(h) && work != [] && CountingOk(h, coeffs, work, seen, remaining)
    ensures CountingOk(h, coeffs, work', seen', remaining')
    ensures seen <= seen' && (seen' == seen ==> work' == work[..|work| - 1])
  {
    var node, rest := work[|work| - 1], work[..|work| - 1];
    work', seen' := MeetChildren(h, coeffs, node, rest, seen);
    remaining' := BumpedBy(remaining, h[node]);
    VisitCounts(h, coeffs, work, seen, remaining, work', seen');
  }

  /** Counts the coefficients themselves and puts their nodes on the work list. */
  method CountRoots(h: Heap, coeffs: seq<Option<nat>>)
      returns (work: seq<nat>, seen: set<nat>, remaining: map<nat, nat>)
    requires HeapOk(h) && forall i :: 0 <= i < |coeffs| && coeffs[i].Some? ==> coeffs[i].value < |h|
    ensures CountingOk(h, coeffs, work, seen, remaining)
  {
    hide FromRoots;
    work, seen, remaining := [], {}, map[];
    for i := 0 to |coeffs|
      invariant forall x :: x in seen <==> Some(x) in coeffs[..i]
      invariant forall x :: x in seen <==> x in work
      invariant forall j, k :: 0 <= j < k < |work| ==> work[j] != work[k]
      invariant forall c: nat {:trigger CountIn(remaining, c)} :: CountIn(remaining, c) == RootUses(coeffs[..i], c)
    {
      ghost var next, before := coeffs[..i + 1], remaining;
      assert next == coeffs[..i] + [coeffs[i]];
      assert next[..i] == coeffs[..i];
      if coeffs[i].Some? {
        var root := coeffs[i].value;
        remaining := Bumped(remaining, root);
        if root !in seen {
          work, seen := work + [root], seen + {root};
        }
      }
      forall c: nat ensures CountIn(remaining, c) == RootUses(next, c) {
        assert CountIn(before, c) == RootUses(coeffs[..i], c);
      }
    }
    assert coeffs[..|coeffs|] == coeffs;
    NothingVisited(h, coeffs, work, seen, remaining);
  }

  lemma {:induction false} NothingVisited(h: Heap, coeffs: seq<Option<nat>>, work: seq<nat>, seen: set<nat>,
                                          remaining: map<nat, nat>)
    requires HeapOk(h) && forall i :: 0 <= i < |coeffs| && coeffs[i].Some? ==> coeffs[i].value < |h|
    requires (forall x :: x in seen <==> Some(x) in coeffs) && (forall x :: x in seen <==> x in work)
    requires forall j, k :: 0 <= j < k < |work| ==> work[j] != work[k]
    requires forall c: nat {:trigger CountIn(remaining, c)} :: CountIn(remaining, c) == RootUses(coeffs, c)
    ensures CountingOk(h, coeffs, work, seen, remaining)
  {
    hide FromRoots;
    RootsReach(h, coeffs);
    assert Visited(seen, work) == {};
    forall i | 0 <= i < |work| ensures work[i] < |h| && work[i] in seen {
      assert work[i] in work;
    }
    forall c: nat ensures CountIn(remaining, c) == Uses(h, coeffs, Visited(seen, work), c) {
      NoUses(h, {}, c, |h|);
    }
  }

  /** The nodes the coefficients lead to. */
  ghost function Reached(h: Heap, coeffs: seq<Option<nat>>): set<nat>
    requires HeapOk(h)
  {
    set x: nat | x < |h| && FromRoots(h, coeffs, x)
  }

  lemma ReachedIs(h: Heap, coeffs: seq<Option<nat>>, x: nat)
    requires HeapOk(h)
    ensures x in Reached(h, coeffs) <==> FromRoots(h, coeffs, x)
  {
    if FromRoots(h, coeffs, x) {
      var i :| 0 <= i < |coeffs| && RootReaches(h, coeffs[i], x);
      ReachesDown(h, coeffs[i].value, x);
    }
  }

  /** Counts, for every node the coefficients lead to, how often it will be asked for. */
  method CountConsumers(h: Heap, coeffs: seq<Option<nat>>) returns (remaining: map<nat, nat>)
    requires HeapOk(h) && forall i :: 0 <= i < |coeffs| && coeffs[i].Some? ==> coeffs[i].value < |h|
    ensures forall c: nat {:trigger CountIn(remaining, c)} ::
      CountIn(remaining, c) == Uses(h, coeffs, Reached(h, coeffs), c)
  {
    hide CountingOk, Unscheduled, FromRoots;
    var work: seq<nat>, seen: set<nat>;
    work, seen, remaining := CountRoots(h, coeffs);
    while work != []
      invariant CountingOk(h, coeffs, work, seen, remaining)
      decreases |Unscheduled(h, seen)|, |work|
    {
      ghost var before := seen;
      assert work[|work| - 1] < |h| by { WorkInHeap(h, coeffs, work, seen, remaining); }
      work, seen, remaining := VisitNode(h, coeffs, work, seen, remaining);
      if seen != before {
        SeenGrows(h, coeffs, work, before, seen, remaining);
      }
    }
    AllCounted(h, coeffs, seen, remaining);
    forall x: nat ensures x in seen <==> x in Reached(h, coeffs) {
      ReachedIs(h, coeffs, x);
    }
    assert seen == Reached(h, coeffs);
  }

  lemma WorkInHeap(h: Heap, coeffs: seq<Option<nat>>, work: seq<nat>, seen: set<nat>, remaining: map<nat, nat>)
    requires HeapOk(h) && CountingOk(h, coeffs, work, seen, remaining) && work != []
    ensures work[|work| - 1] < |h|
  {
  }

  lemma SeenGrows(h: Heap, coeffs: seq<Option<nat>>, work: seq<nat>, before: set<nat>, seen: set<nat>,
                  remaining: map<nat, nat>)
    requires HeapOk(h) && CountingOk(h, coeffs, work, seen, remaining) && before <= seen && seen != before
    ensures |Unscheduled(h, seen)| < |Unscheduled(h, before)|
  {
    var x :| x in seen && x !in before;
    UnscheduledShrinks(h, before, x);
    FewerUnscheduled(h, before + {x}, seen);
  }

  lemma AllCounted(h: Heap, coeffs: seq<Option<nat>>, seen: set<nat>, remaining: map<nat, nat>)
    requires HeapOk(h) && CountingOk(h, coeffs, [], seen, remaining)
    ensures forall x :: x in seen <==> FromRoots(h, coeffs, x)
    ensures forall c: nat {:trigger CountIn(remaining, c)} :: CountIn(remaining, c) == Uses(h, coeffs, seen, c)
  {
    assert Visited(seen, []) == seen;
    forall x | FromRoots(h, coeffs, x) ensures x in seen {
      var i :| 0 <= i < |coeffs| && RootReaches(h, coeffs[i], x);
      assert Some(coeffs[i].value) in coeffs;
      SeenBelow(h, seen, coeffs[i].value, x);
    }
  }

  lemma RootsReach(h: Heap, coeffs: seq<Option<nat>>)
    requires HeapOk(h) && forall i :: 0 <= i < |coeffs| && coeffs[i].Some? ==> coeffs[i].value < |h|
    ensures forall x :: Some(x) in coeffs ==> x < |h| && FromRoots(h, coeffs, x)
  {
    forall x | Some(x) in coeffs ensures x < |h| && FromRoots(h, coeffs, x) {
      var i :| 0 <= i < |coeffs| && coeffs[i] == Some(x);
      assert RootReaches(h, coeffs[i], x);
    }
  }

  // ---- expanding ----------------------------------------------------------------

  /** Monomials of a node before equal ones are merged. */
  function CountOf(h: Heap, x: nat): nat
    requires HeapOk(h) && x < |h|
    decreases x
  {
    match h[x]
    case Scalar(_) => 1
    case Add(a, b) => CountOf(h, a) + CountOf(h, b)
    case Scale(_, a) => CountOf(h, a)
    case Cos(_, a) => CountOf(h, a)
    case Sin(_, a) => CountOf(h, a)
  }

  predicate ParamsBelow(h: Heap, bound: nat)
  {
    forall i :: 0 <= i < |h| ==> (h[i].Cos? || h[i].Sin? ==> h[i].param < bound)
  }

  /** One more than the largest parameter of the graph. */
  function ParamBound(h: Heap): (bound: nat)
    ensures ParamsBelow(h, bound)
  {
    if h == [] then 0
    else
      var front, x := ParamBound(h[..|h| - 1]), h[|h| - 1];
      if (x.Cos? || x.Sin?) && x.param >= front then x.param + 1 else front
  }

  /** The monomials of a node, from left to right, before equal ones are merged. */
  function Spread(h: Heap, x: nat): (ts: seq<Term>)
    requires HeapOk(h) && x < |h|
    ensures |ts| == CountOf(h, x)
    decreases x
  {
    match h[x]
    case Scalar(c) => [Term(map[], c)]
    case Add(a, b) => Spread(h, a) + Spread(h, b)
    case Scale(k, a) => Scaled(Spread(h, a), k)
    case Cos(p, a) => Factored(Spread(h, a), p, false)
    case Sin(p, a) => Factored(Spread(h, a), p, true)
  }

  /**
   The terms are the node: the same total for every run and so the same value under every table,
   distinct monomials, no more than there were.
   */
  ghost predicate Expanded(h: Heap, x: nat, ts: seq<Term>, bound: nat)
    requires HeapOk(h)
  {
    && x < |h| && TermsOk(ts, bound) && |ts| <= CountOf(h, x)
    && SameTotals(ts, Spread(h, x)) && RunsOk(Spread(h, x), bound)
    && forall lut {:trigger TermsValue(ts, lut, bound)} :: TermsValue(ts, lut, bound) == Value(h, x, lut)
  }

  /** Results are kept exactly for finished nodes that will still be asked for. */
  ghost predicate Balanced(done: map<nat, nat>, memo: map<nat, seq<Term>>, remaining: map<nat, nat>)
  {
    forall x: nat {:trigger x in memo} :: x in memo <==> x in done && CountIn(remaining, x) > 0
  }

  /** Uses up one of the node's remaining requests; the last one takes the result away. */
  method TakeOrClone(memo: map<nat, seq<Term>>, remaining: map<nat, nat>, c: nat, ghost done: map<nat, nat>)
      returns (ts: seq<Term>, memo': map<nat, seq<Term>>, remaining': map<nat, nat>)
    requires Balanced(done, memo, remaining) && c in done && CountIn(remaining, c) > 0
    ensures c in memo && ts == memo[c] && Balanced(done, memo', remaining')
    ensures forall x: nat {:trigger CountIn(remaining', x)} ::
      CountIn(remaining', x) == CountIn(remaining, x) - if x == c then 1 else 0
    ensures forall x :: x in memo' ==> x in memo && memo'[x] == memo[x]
  {
    assert c in memo;
    ts := memo[c];
    remaining' := remaining[c := remaining[c] - 1];
    memo' := if remaining'[c] == 0 then map x | x in memo && x != c :: memo[x] else memo;
  }

  /** The expansion walk's books are in order. */
  ghost predicate ExpandOk(h: Heap, coeffs: seq<Option<nat>>, bound: nat, reach: set<nat>, done: map<nat, nat>,
                           memo: map<nat, seq<Term>>, remaining: map<nat, nat>)
    requires HeapOk(h)
  {
    && (forall x :: x in done ==> x in reach) && (forall x :: x in reach ==> x < |h| && FromRoots(h, coeffs, x))
    && (forall p, c :: p in done && ChildOf(h, p, c) ==> c in done)
    && Balanced(done, memo, remaining)
    && (forall c: nat {:trigger CountIn(remaining, c)} ::
      CountIn(remaining, c) == Uses(h, coeffs, reach - done.Keys, c))
    && (forall x :: x in memo ==> Expanded(h, x, memo[x], bound))
  }

  /** A node just finished is still wanted: by a coefficient or by a parent that is not finished. */
  lemma StillWanted(h: Heap, coeffs: seq<Option<nat>>, reach: set<nat>, done: map<nat, nat>, n: nat)
    requires HeapOk(h) && n in reach && n !in done && (forall x :: x in reach <==> FromRoots(h, coeffs, x)) && n < |h|
    requires forall p, c :: p in done && ChildOf(h, p, c) ==> c in done
    ensures Uses(h, coeffs, reach - done.Keys - {n}, n) > 0
  {
    var i :| 0 <= i < |coeffs| && RootReaches(h, coeffs[i], n);
    var root := coeffs[i].value;
    if root == n {
      assert Some(n) in coeffs;
      RootCounts(coeffs, n);
    } else {
      var p := ThroughParent(h, root, n);
      assert RootReaches(h, coeffs[i], p);
      assert ChildOf(h, p, n) && p in reach;
      MultIsChild(h[p], n);
      UsesAtLeast(h, reach - done.Keys - {n}, p, n, |h|);
    }
  }

  /** Every child slot of an unfinished node still has its request. */
  lemma RequestsLeft(h: Heap, coeffs: seq<Option<nat>>, reach: set<nat>, done: map<nat, nat>, remaining: map<nat, nat>,
                     n: nat, c: nat)
    requires HeapOk(h) && n in reach && n !in done && n < |h|
    requires CountIn(remaining, c) == Uses(h, coeffs, reach - done.Keys, c)
    ensures CountIn(remaining, c) >= Mult(h[n], c)
  {
    UsesAtLeast(h, reach - done.Keys, n, c, |h|);
  }

  lemma {:induction false} CountPositive(h: Heap, x: nat)
    requires HeapOk(h) && x < |h|
    ensures CountOf(h, x) >= 1
    decreases x
  {
    match h[x]
    case Scalar(_) =>
    case Add(a, b) => CountPositive(h, a); CountPositive(h, b);
    case Scale(_, a) => CountPositive(h, a);
    case Cos(_, a) => CountPositive(h, a);
    case Sin(_, a) => CountPositive(h, a);
  }

  method ScalarTerms(h: Heap, n: nat, bound: nat) returns (ts: seq<Term>)
    requires HeapOk(h) && n < |h| && h[n].Scalar?
    ensures Expanded(h, n, ts, bound)
  {
    ts := [Term(map[], h[n].c)];
    assert Spread(h, n) == ts;
    forall lut ensures TermsValue(ts, lut, bound) == Value(h, n, lut) {
      EmptyRunValue(lut, bound);
      assert ts[..0] == [];
      TimesLaws(h[n].c, 0.0, 0.0);
    }
  }

  lemma {:induction false} EmptyRunValue(lut: seq<real>, k: nat)
    ensures RunValue(map[], lut, k) == 1.0
  {
    if k > 0 {
      EmptyRunValue(lut, k - 1);
    }
  }

  method AddTerms(h: Heap, n: nat, x: seq<Term>, y: seq<Term>, ghost bound: nat) returns (ts: seq<Term>)
    requires HeapOk(h) && n < |h| && h[n].Add? && Expanded(h, h[n].left, x, bound) && Expanded(h, h[n].right, y, bound)
    ensures Expanded(h, n, ts, bound)
  {
    ts := Group(x + y, bound);
    SumTotals(h, n, x, y, ts, bound);
    forall lut ensures TermsValue(ts, lut, bound) == Value(h, n, lut) {
      AppendedValue(x, y, lut, bound);
      assert TermsValue(x, lut, bound) == Value(h, h[n].left, lut);
      assert TermsValue(y, lut, bound) == Value(h, h[n].right, lut);
    }
  }

  lemma {:induction false} SumTotals(h: Heap, n: nat, x: seq<Term>, y: seq<Term>, ts: seq<Term>, bound: nat)
    requires HeapOk(h) && n < |h| && h[n].Add? && Expanded(h, h[n].left, x, bound) && Expanded(h, h[n].right, y, bound)
    requires SameTotals(ts, x + y)
    ensures SameTotals(ts, Spread(h, n)) && RunsOk(Spread(h, n), bound)
  {
    hide RunOk;
    SameAppended(x, y, Spread(h, h[n].left), Spread(h, h[n].right));
    forall run ensures TotalOf(ts, run) == TotalOf(Spread(h, n), run) {
      assert TotalOf(x + y, run) == TotalOf(Spread(h, n), run);
    }
  }

  lemma ScaleTerms(h: Heap, n: nat, x: seq<Term>, bound: nat)
    requires HeapOk(h) && n < |h| && h[n].Scale? && Expanded(h, h[n].inner, x, bound)
    ensures Expanded(h, n, Scaled(x, h[n].factor), bound)
  {
    SameScaled(x, Spread(h, h[n].inner), h[n].factor);
    forall lut ensures TermsValue(Scaled(x, h[n].factor), lut, bound) == Value(h, n, lut) {
      ScaledValue(x, h[n].factor, lut, bound);
    }
  }

  lemma TrigTerms(h: Heap, n: nat, x: seq<Term>, bound: nat)
    requires HeapOk(h) && n < |h| && (h[n].Cos? || h[n].Sin?) && h[n].param < bound && Expanded(h, h[n].inner, x, bound)
    ensures Expanded(h, n, Factored(x, h[n].param, h[n].Sin?), bound)
  {
    FactoredOk(x, h[n].param, h[n].Sin?, bound);
    SameFactored(x, Spread(h, h[n].inner), h[n].param, h[n].Sin?, bound);
    FactoredRunsOk(Spread(h, h[n].inner), h[n].param, h[n].Sin?, bound);
    forall lut ensures TermsValue(Factored(x, h[n].param, h[n].Sin?), lut, bound) == Value(h, n, lut) {
      FactoredValue(x, h[n].param, h[n].Sin?, lut, bound);
    }
  }

  /** Finishes a node: its children's terms are taken and its own worked out. */
  method FinishNode(h: Heap, ghost coeffs: seq<Option<nat>>, bound: nat, ghost reach: set<nat>,
                    ghost done: map<nat, nat>, memo: map<nat, seq<Term>>, remaining: map<nat, nat>, n: nat)
      returns (memo': map<nat, seq<Term>>, remaining': map<nat, nat>)
    requires HeapOk(h) && ParamsBelow(h, bound) && n < |h| && n in reach && n !in done
    requires (forall x :: x in reach <==> FromRoots(h, coeffs, x)) && Ready(h[n], done)
    requires ExpandOk(h, coeffs, bound, reach, done, memo, remaining)
    ensures ExpandOk(h, coeffs, bound, reach, done[n := 0], memo', remaining')
  {
    hide FromRoots, Expanded, Uses, TermsValue;
    var ts;
    forall c: nat ensures CountIn(remaining, c) >= Mult(h[n], c) {
      RequestsLeft(h, coeffs, reach, done, remaining, n, c);
    }
    match h[n] {
      case Scalar(_) =>
        ts := ScalarTerms(h, n, bound);
        memo', remaining' := memo, remaining;
      case Add(a, b) =>
        var x, y;
        x, memo', remaining' := TakeOrClone(memo, remaining, a, done);
        y, memo', remaining' := TakeOrClone(memo', remaining', b, done);
        ts := AddTerms(h, n, x, y, bound);
      case Scale(k, a) =>
        var x;
        x, memo', remaining' := TakeOrClone(memo, remaining, a, done);
        ScaleTerms(h, n, x, bound);
        ts := Scaled(x, k);
      case Cos(p, a) =>
        var x;
        x, memo', remaining' := TakeOrClone(memo, remaining, a, done);
        TrigTerms(h, n, x, bound);
        ts := Factored(x, p, false);
      case Sin(p, a) =>
        var x;
        x, memo', remaining' := TakeOrClone(memo, remaining, a, done);
        TrigTerms(h, n, x, bound);
        ts := Factored(x, p, true);
    }
    NodeFinished(h, coeffs, bound, reach, done, memo, remaining, n, ts, memo', remaining');
    memo' := memo'[n := ts];
  }

  lemma NodeFinished(h: Heap, coeffs: seq<Option<nat>>, bound: nat, reach: set<nat>, done: map<nat, nat>,
                     memo: map<nat, seq<Term>>, remaining: map<nat, nat>, n: nat, ts: seq<Term>,
                       memo1: map<nat, seq<Term>>, remaining': map<nat, nat>)
    requires HeapOk(h) && n < |h| && n in reach && n !in done && (forall x :: x in reach <==> FromRoots(h, coeffs, x))
      && Ready(h[n], done)
    requires ExpandOk(h, coeffs, bound, reach, done, memo, remaining) && Expanded(h, n, ts, bound)
    requires Balanced(done, memo1, remaining') && forall x :: x in memo1 ==> x in memo && memo1[x] == memo[x]
    requires forall c: nat {:trigger CountIn(remaining', c)} ::
      CountIn(remaining', c) == CountIn(remaining, c) - Mult(h[n], c)
    ensures ExpandOk(h, coeffs, bound, reach, done[n := 0], memo1[n := ts], remaining')
  {
    hide FromRoots, Expanded;
    var done', open := done[n := 0], reach - done.Keys;
    assert reach - done'.Keys == open - {n};
    forall c: nat ensures CountIn(remaining', c) == Uses(h, coeffs, reach - done'.Keys, c) {
      UsesWithout(h, open, n, c, |h|);
      assert CountIn(remaining, c) == Uses(h, coeffs, open, c);
    }
    StillWanted(h, coeffs, reach, done, n);
    assert CountIn(remaining', n) > 0;
    ReadyChildren(h[n], done);
    forall p, c | p in done' && ChildOf(h, p, c) ensures c in done' {
      if p != n {
        assert p in done;
      }
    }
  }

  /** The expansion walk: children before parents, each result released with its last use. */
  method ExpandAll(h: Heap, coeffs: seq<Option<nat>>, bound: nat) returns (memo: map<nat, seq<Term>>)
    requires HeapOk(h) && ParamsBelow(h, bound) && SumsWalkable(h) && RootsWalkable(h, coeffs)
    ensures forall i ::
      0 <= i < |coeffs| && coeffs[i].Some? ==>
        coeffs[i].value in memo && Expanded(h, coeffs[i].value, memo[coeffs[i].value], bound)
  {
    hide WalkOk, Covered, SumsWalkable, ExpandOk, Expanded, FromRoots, ParamsBelow;
    var remaining;
    remaining := CountConsumers(h, coeffs);
    ghost var reach := Reached(h, coeffs);
    forall x: nat ensures x in reach <==> FromRoots(h, coeffs, x) {
      ReachedIs(h, coeffs, x);
    }
    var stack, scheduled := ScheduleRoots(h, coeffs);
    RootsReach(h, coeffs);
    ghost var done: map<nat, nat> := map[];
    memo := map[];
    assert ExpandOk(h, coeffs, bound, reach, done, memo,
      remaining) by { NothingExpanded(h, coeffs, bound, reach, remaining); }
    while stack != []
      invariant WalkOk(h, stack, scheduled, done) && Covered(h, stack, done, |stack|)
      invariant ExpandOk(h, coeffs, bound, reach, done, memo, remaining)
      invariant forall x :: x in scheduled ==> FromRoots(h, coeffs, x)
      invariant forall x :: Some(x) in coeffs ==> x in scheduled
      decreases |Unscheduled(h, scheduled)|, Work(stack)
    {
      var top, rest := stack[|stack| - 1], stack[..|stack| - 1];
      assert stack == rest + [top];
      TopIsNode(h, rest, top, scheduled, done);
      ghost var before := scheduled;
      match top {
        case Enter(n) =>
          stack, scheduled := OpenNode(h, rest, n, scheduled, done);
          OpeningWorks(h, coeffs, rest, n, before, scheduled, stack);
        case Exit(n) =>
          Closed(h, rest, n, scheduled, done, 0);
          memo, remaining := FinishNode(h, coeffs, bound, reach, done, memo, remaining, n);
          done := done[n := 0];
          stack := rest;
      }
    }
    RootsKept(h, coeffs, bound, reach, done, memo, remaining, scheduled);
  }

  lemma NothingExpanded(h: Heap, coeffs: seq<Option<nat>>, bound: nat, reach: set<nat>, remaining: map<nat, nat>)
    requires HeapOk(h) && RootsWalkable(h, coeffs) && (forall x :: x in reach <==> FromRoots(h, coeffs, x))
    requires forall c: nat {:trigger CountIn(remaining, c)} :: CountIn(remaining, c) == Uses(h, coeffs, reach, c)
    ensures ExpandOk(h, coeffs, bound, reach, map[], map[], remaining)
  {
    var done: map<nat, nat> := map[];
    assert reach - done.Keys == reach;
    forall x | x in reach ensures x < |h| {
      var i :| 0 <= i < |coeffs| && RootReaches(h, coeffs[i], x);
      ReachesDown(h, coeffs[i].value, x);
    }
  }

  /** No coefficient's own result is ever released. */
  lemma RootsKept(h: Heap, coeffs: seq<Option<nat>>, bound: nat, reach: set<nat>, done: map<nat, nat>,
                  memo: map<nat, seq<Term>>, remaining: map<nat, nat>, scheduled: set<nat>)
    requires HeapOk(h) && ExpandOk(h, coeffs, bound, reach, done, memo, remaining) && WalkOk(h, [], scheduled, done)
    requires forall x :: Some(x) in coeffs ==> x in scheduled
    ensures forall i ::
      0 <= i < |coeffs| && coeffs[i].Some? ==>
        coeffs[i].value in memo && Expanded(h, coeffs[i].value, memo[coeffs[i].value], bound)
  {
    forall i | 0 <= i < |coeffs| && coeffs[i].Some? ensures coeffs[i].value in memo {
      assert Some(coeffs[i].value) in coeffs;
      RootCounts(coeffs, coeffs[i].value);
      assert CountIn(remaining, coeffs[i].value) > 0;
    }
  }

  // ---- rebuilding ---------------------------------------------------------------

  /** The nodes from `from` on stand for the terms. */
  function SumOf(h: Heap, nodes: seq<nat>, lut: seq<real>): real
    requires HeapOk(h) && forall i :: 0 <= i < |nodes| ==> nodes[i] < |h|
  {
    if nodes == [] then 0.0 else SumOf(h, nodes[..|nodes| - 1], lut) + Value(h, nodes[|nodes| - 1], lut)
  }

  /** The monomials of several nodes, one node after the other. */
  function SpreadAll(h: Heap, nodes: seq<nat>): seq<Term>
    requires HeapOk(h) && forall i :: 0 <= i < |nodes| ==> nodes[i] < |h|
  {
    if nodes == [] then [] else SpreadAll(h, nodes[..|nodes| - 1]) + Spread(h, nodes[|nodes| - 1])
  }

  /** How many sums lie above one another in a node. */
  function SumDepth(h: Heap, x: nat): nat
    requires HeapOk(h) && x < |h|
    decreases x
  {
    match h[x]
    case Scalar(_) => 0
    case Add(a, b) =>
      var (p, q) := (SumDepth(h, a), SumDepth(h, b));
      1 + if p < q then q else p
    case Scale(_, a) => SumDepth(h, a)
    case Cos(_, a) => SumDepth(h, a)
    case Sin(_, a) => SumDepth(h, a)
  }

  predicate AllShallow(h: Heap, nodes: seq<nat>, d: nat)
    requires HeapOk(h)
  {
    forall i :: 0 <= i < |nodes| ==> nodes[i] < |h| && SumDepth(h, nodes[i]) <= d
  }

  /** A heap that grew keeps what its nodes stand for. */
  ghost predicate Grown(h: Heap, h': Heap)
  {
    HeapOk(h) && HeapOk(h') && h <= h'
  }

  lemma {:induction false} GrownValue(h: Heap, h': Heap, x: nat, lut: seq<real>)
    requires Grown(h, h') && x < |h|
    ensures Value(h', x, lut) == Value(h, x, lut)
  {
    assert h + h'[|h|..] == h';
    ValueKept(h, h'[|h|..], x, lut);
  }

  lemma {:induction false} SpreadKept(h: Heap, h': Heap, x: nat)
    requires Grown(h, h') && x < |h|
    ensures Spread(h', x) == Spread(h, x) && CountOf(h', x) == CountOf(h, x) && SumDepth(h', x) == SumDepth(h, x)
    decreases x
  {
    assert h'[x] == h[x];
    match h[x]
    case Scalar(_) =>
    case Add(a, b) => SpreadKept(h, h', a); SpreadKept(h, h', b);
    case Scale(_, a) => SpreadKept(h, h', a);
    case Cos(_, a) => SpreadKept(h, h', a);
    case Sin(_, a) => SpreadKept(h, h', a);
  }

  lemma {:induction false} GrownSum(h: Heap, h': Heap, nodes: seq<nat>, lut: seq<real>)
    requires Grown(h, h') && forall i :: 0 <= i < |nodes| ==> nodes[i] < |h|
    ensures SumOf(h', nodes, lut) == SumOf(h, nodes, lut) && SpreadAll(h', nodes) == SpreadAll(h, nodes)
    decreases |nodes|
  {
    if nodes != [] {
      GrownSum(h, h', nodes[..|nodes| - 1], lut);
      GrownValue(h, h', nodes[|nodes| - 1], lut);
      SpreadKept(h, h', nodes[|nodes| - 1]);
    }
  }

  lemma {:induction false} GrownShallow(h: Heap, h': Heap, nodes: seq<nat>, d: nat)
    requires Grown(h, h') && AllShallow(h, nodes, d)
    ensures AllShallow(h', nodes, d)
  {
    forall i | 0 <= i < |nodes| ensures SumDepth(h', nodes[i]) <= d {
      SpreadKept(h, h', nodes[i]);
    }
  }

  lemma {:induction false} SumFront(h: Heap, x: nat, rest: seq<nat>, lut: seq<real>)
    requires HeapOk(h) && x < |h| && forall i :: 0 <= i < |rest| ==> rest[i] < |h|
    ensures SumOf(h, [x] + rest, lut) == Value(h, x, lut) + SumOf(h, rest, lut)
    decreases |rest|
  {
    var all := [x] + rest;
    if rest == [] {
      assert all[..0] == [];
    } else {
      var last := |rest| - 1;
      SumFront(h, x, rest[..last], lut);
      assert all[..|all| - 1] == [x] + rest[..last];
    }
  }

  lemma {:induction false} SpreadLast(h: Heap, nodes: seq<nat>, x: nat)
    requires HeapOk(h) && x < |h| && forall i :: 0 <= i < |nodes| ==> nodes[i] < |h|
    ensures SpreadAll(h, nodes + [x]) == SpreadAll(h, nodes) + Spread(h, x)
  {
    assert (nodes + [x])[..|nodes|] == nodes;
  }

  lemma {:induction false} SpreadFront(h: Heap, x: nat, rest: seq<nat>)
    requires HeapOk(h) && x < |h| && forall i :: 0 <= i < |rest| ==> rest[i] < |h|
    ensures SpreadAll(h, [x] + rest) == Spread(h, x) + SpreadAll(h, rest)
    decreases |rest|
  {
    hide Spread;
    if rest == [] {
      SpreadLast(h, [], x);
      assert [x] + rest == [] + [x];
      assert SpreadAll(h, [] + [x]) == [] + Spread(h, x);
    } else {
      var front, last := rest[..|rest| - 1], rest[|rest| - 1];
      SpreadFront(h, x, front);
      assert [x] + rest == ([x] + front) + [last] && rest == front + [last];
      SpreadLast(h, [x] + front, last);
      SpreadLast(h, front, last);
      ThreeParts(Spread(h, x), SpreadAll(h, front), Spread(h, last));
    }
  }

  lemma ThreeParts(a: seq<Term>, b: seq<Term>, c: seq<Term>)
    ensures (a + b) + c == a + (b + c)
  {
  }

  // ---- the shape of what is rebuilt ---------------------------------------------

  /** No node from `base` on has a child before `base`. */
  ghost predicate ClosedFrom(h: Heap, base: nat)
  {
    forall i: nat, c: nat :: base <= i < |h| && Child(h[i], c) ==> c >= base
  }

  /** The shape the gate loop keeps, for the nodes from `base` on alone. */
  ghost predicate FreshShape(h: Heap, base: nat, live: seq<nat>)
  {
    && HeapOk(h) && base <= |h| && ClosedFrom(h, base) && LiveOk(h, live)
      && (forall i :: 0 <= i < |live| ==> live[i] >= base)
    && (forall i, j, c :: base <= i < |h| && h[i].Add? && Child(h[i], c) && 0 <= j < |h| && Child(h[j], c) ==>
          i == j && h[i].left != h[i].right)
  }

  lemma NothingFresh(h: Heap)
    requires HeapOk(h)
    ensures FreshShape(h, |h|, [])
  {
  }

  /** If what was there before had the shape, the whole has. */
  lemma FreshIsShape(h: Heap, was: seq<nat>, h': Heap, live: seq<nat>)
    requires Shape(h, was) && h <= h' && FreshShape(h', |h|, live)
    ensures Shape(h', live)
  {
    forall i: nat, j: nat, c: nat | 0 <= i < |h'| && h'[i].Add? && Child(h'[i], c) && 0 <= j < |h'| && Child(h'[j], c)
      ensures i == j && h'[i].left != h'[i].right
    {
      if i < |h| {
        assert h'[i] == h[i] && c < |h|;
        assert j < |h| && h'[j] == h[j];
      }
    }
  }

  lemma ScalarFresh(h: Heap, base: nat, live: seq<nat>, c: real)
    requires FreshShape(h, base, live)
    ensures FreshShape(h + [Scalar(c)], base, live + [|h|])
  {
    var h' := h + [Scalar(c)];
    assert forall i :: 0 <= i < |h| ==> h'[i] == h[i];
    forall i | 0 <= i < |live| ensures Parentless(h', live[i]) {
      assert Parentless(h, live[i]);
    }
  }

  lemma WrapFresh(h: Heap, base: nat, live: seq<nat>, at: nat, x: Node)
    requires FreshShape(h, base, live) && at < |live| && Over(x, live[at])
    ensures FreshShape(h + [x], base, live[at := |h|])
  {
    var h' := h + [x];
    assert Parentless(h, live[at]);
    assert forall i :: 0 <= i < |h| ==> h'[i] == h[i];
    forall i | 0 <= i < |live| && i != at ensures Parentless(h', live[i]) {
      assert Parentless(h, live[i]);
    }
  }

  lemma MergeFresh(h: Heap, base: nat, live: seq<nat>, at: nat, from: nat)
    requires FreshShape(h, base, live) && at < from < |live|
    ensures FreshShape(h + [Add(live[at], live[from])], base, live[at := |h|][..from] + live[from + 1..])
  {
    var h' := h + [Add(live[at], live[from])];
    assert forall i :: 0 <= i < |h| ==> h'[i] == h[i];
    assert Parentless(h, live[at]) && Parentless(h, live[from]);
    forall i | 0 <= i < |live| && i != at && i != from ensures Parentless(h', live[i]) {
      assert Parentless(h, live[i]);
    }
  }

  /** Every term with `times` more factors of one kind. */
  function Raised(ts: seq<Term>, p: nat, isSin: bool, times: nat): seq<Term>
  {
    if times == 0 then ts else Factored(Raised(ts, p, isSin, times - 1), p, isSin)
  }

  /** Wraps the last node in `times` factors of one kind. */
  method Wrap(h: Heap, node: nat, p: nat, isSin: bool, times: nat, ghost base: nat, ghost live: seq<nat>)
      returns (h': Heap, node': nat)
    requires FreshShape(h, base, live + [node]) && HeapOk(h) && node < |h|
    ensures FreshShape(h', base, live + [node']) && Grown(h, h') && node' < |h'|
      && Spread(h', node') == Raised(Spread(h, node), p, isSin, times) && SumDepth(h', node') == SumDepth(h, node)
    ensures forall lut {:trigger Value(h', node', lut)} ::
      Value(h', node', lut) == Times(Power(Trig(lut, p, isSin), times), Value(h, node, lut))
  {
    hide FreshShape, Times;
    h', node' := h, node;
    forall lut ensures Value(h, node, lut) == Times(1.0, Value(h, node, lut)) {
      TimesLaws(Value(h, node, lut), 0.0, 0.0);
    }
    for k := 0 to times
      invariant FreshShape(h', base, live + [node']) && Grown(h, h') && node' < |h'|
        && Spread(h', node') == Raised(Spread(h, node), p, isSin, k) && SumDepth(h', node') == SumDepth(h, node)
      invariant forall lut {:trigger Value(h', node', lut)} ::
        Value(h', node', lut) == Times(Power(Trig(lut, p, isSin), k), Value(h, node, lut))
    {
      ghost var before, inner := h', node';
      var x := if isSin then Sin(p, node') else Cos(p, node');
      WrapFresh(h', base, live + [node'], |live|, x);
      assert (live + [node'])[|live| := |h'|] == live + [|h'|];
      h', node' := h' + [x], |h'|;
      ShapeHeapOk(h', base, live + [node']);
      ghost var next := k + 1;
      SpreadKept(before, h', inner);
      forall lut ensures Value(h', node', lut) == Times(Power(Trig(lut, p, isSin), next), Value(h, node, lut)) {
        GrownValue(before, h', inner, lut);
        assert Value(before, inner, lut) == Times(Power(Trig(lut, p, isSin), k), Value(h, node, lut));
        TimesLaws(Trig(lut, p, isSin), Power(Trig(lut, p, isSin), k), Value(h, node, lut));
      }
    }
  }

  lemma ShapeHeapOk(h: Heap, base: nat, live: seq<nat>)
    requires FreshShape(h, base, live)
    ensures HeapOk(h) && forall i :: 0 <= i < |live| ==> live[i] < |h|
  {
  }

  /** The part of a run on parameters below `k`. */
  function RunBelow(run: Run, k: nat): Run { map p | p in run && p < k :: run[p] }

  /** A term with the factors of one more parameter. */
  lemma RunBelowNext(run: Run, p: nat, scalar: real, bound: nat)
    requires RunOk(run, bound)
    ensures var e := PowersAt(run, p);
      Raised(Raised([Term(RunBelow(run, p), scalar)], p, false, e.cos), p, true, e.sin)
      == [Term(RunBelow(run, p + 1), scalar)]
  {
    var e, r := PowersAt(run, p), RunBelow(run, p);
    RaisedCos(r, p, scalar, e.cos);
    var mid := if e.cos == 0 then r else r[p := Powers(e.cos, 0)];
    RaisedSin(mid, p, scalar, e.cos, e.sin);
    var end := if e.sin == 0 then mid else mid[p := e];
    assert end == RunBelow(run, p + 1);
  }

  lemma {:induction false} RaisedCos(r: Run, p: nat, scalar: real, k: nat)
    requires p !in r
    ensures Raised([Term(r, scalar)], p, false, k) == [Term(if k == 0 then r else r[p := Powers(k, 0)], scalar)]
  {
    if k > 0 {
      RaisedCos(r, p, scalar, k - 1);
      var before := if k == 1 then r else r[p := Powers(k - 1, 0)];
      assert Incremented(before, p, false) == r[p := Powers(k, 0)];
    }
  }

  lemma {:induction false} RaisedSin(r: Run, p: nat, scalar: real, c: nat, k: nat)
    requires PowersAt(r, p) == Powers(c, 0)
    ensures Raised([Term(r, scalar)], p, true, k) == [Term(if k == 0 then r else r[p := Powers(c, k)], scalar)]
  {
    if k > 0 {
      RaisedSin(r, p, scalar, c, k - 1);
      var before := if k == 1 then r else r[p := Powers(c, k - 1)];
      assert Incremented(before, p, true) == r[p := Powers(c, k)];
    }
  }

  lemma RunBelowEnds(run: Run, bound: nat)
    requires RunOk(run, bound)
    ensures RunBelow(run, 0) == map[] && RunBelow(run, bound) == run
  {
  }

  /** A monomial as a chain of factors over its scalar. */
  method BuildLeaf(h: Heap, run: Run, scalar: real, bound: nat, ghost base: nat, ghost live: seq<nat>)
      returns (h': Heap, node: nat)
    requires FreshShape(h, base, live) && HeapOk(h) && RunOk(run, bound)
    ensures FreshShape(h', base, live + [node]) && Grown(h, h') && node < |h'|
      && Spread(h', node) == [Term(run, scalar)] && SumDepth(h', node) == 0
    ensures forall lut {:trigger Value(h', node, lut)} ::
      Value(h', node, lut) == Times(scalar, RunValue(run, lut, bound))
  {
    hide FreshShape, Times, RunOk, RunBelow, Raised;
    RunBelowEnds(run, bound);
    ScalarFresh(h, base, live, scalar);
    h', node := h + [Scalar(scalar)], |h|;
    ShapeHeapOk(h', base, live + [node]);
    forall lut ensures Value(h', node, lut) == Times(scalar, RunValue(run, lut, 0)) {
      TimesLaws(scalar, 0.0, 0.0);
    }
    for p := 0 to bound
      invariant FreshShape(h', base, live + [node]) && Grown(h, h') && node < |h'|
        && Spread(h', node) == [Term(RunBelow(run, p), scalar)] && SumDepth(h', node) == 0
      invariant forall lut {:trigger Value(h', node, lut)} ::
        Value(h', node, lut) == Times(scalar, RunValue(run, lut, p))
    {
      ghost var h0, n0, next := h', node, p + 1;
      var e := PowersAt(run, p);
      RunBelowNext(run, p, scalar, bound);
      h', node := Wrap(h', node, p, false, e.cos, base, live);
      ghost var h1, n1 := h', node;
      h', node := Wrap(h', node, p, true, e.sin, base, live);
      forall lut ensures Value(h', node, lut) == Times(scalar, RunValue(run, lut, next)) {
        assert Value(h0, n0, lut) == Times(scalar, RunValue(run, lut, p));
        assert Value(h1, n1, lut) == Times(Power(CosOf(lut, p), e.cos), Value(h0, n0, lut));
        FactorsMeet(Power(CosOf(lut, p), e.cos), Power(SinOf(lut, p), e.sin), scalar, RunValue(run, lut, p));
      }
    }
  }

  lemma FactorsMeet(c: real, s: real, scalar: real, v: real)
    ensures Times(s, Times(c, Times(scalar, v))) == Times(scalar, Times(Times(c, s), v))
  {
    hide Times;
    TimesLaws(s, c, Times(scalar, v));
    TimesLaws(c, s, Times(scalar, v));
    TimesLaws(Times(c, s), scalar, v);
  }

  /** The terms whose scalar is not 0, in order. */
  function NonZero(ts: seq<Term>): (r: seq<Term>)
    ensures |r| <= |ts|
  {
    if ts == [] then []
    else NonZero(ts[..|ts| - 1]) + if ts[|ts| - 1].scalar != 0.0 then [ts[|ts| - 1]] else []
  }

  /** One leaf for every term whose scalar is not 0. */
  method BuildLeaves(h: Heap, ts: seq<Term>, bound: nat, ghost base: nat, ghost live: seq<nat>)
      returns (h': Heap, leaves: seq<nat>)
    requires FreshShape(h, base, live) && HeapOk(h) && RunsOk(ts, bound)
    ensures FreshShape(h', base, live + leaves) && Grown(h, h') && AllShallow(h', leaves, 0)
    ensures SpreadAll(h', leaves) == NonZero(ts) && |leaves| == |NonZero(ts)|
    ensures forall lut {:trigger SumOf(h', leaves, lut)} :: SumOf(h', leaves, lut) == TermsValue(ts, lut, bound)
  {
    hide FreshShape, Times, RunValue, NonZero, SpreadAll, SumOf, TermsValue, AllShallow;
    h', leaves := h, [];
    assert live + [] == live;
    var k := 0;
    NoLeaves(h, ts, bound);
    while k < |ts|
      invariant k <= |ts| && FreshShape(h', base, live + leaves) && Grown(h, h') && AllBelow(h', leaves)
      invariant AllShallow(h', leaves, 0) && SpreadAll(h', leaves) == NonZero(ts[..k])
      invariant |leaves| == |NonZero(ts[..k])|
      invariant forall lut {:trigger SumOf(h', leaves, lut)} ::
        SumOf(h', leaves, lut) == TermsValue(ts[..k], lut, bound)
    {
      ghost var h0, old0, next := h', leaves, ts[..k + 1];
      assert next == ts[..k] + [ts[k]];
      if ts[k].scalar != 0.0 {
        var leaf: nat;
        assert RunOk(ts[k].run, bound);
        h', leaf := BuildLeaf(h', ts[k].run, ts[k].scalar, bound, base, live + leaves);
        leaves := leaves + [leaf];
        assert live + old0 + [leaf] == live + leaves;
        assert Term(ts[k].run, ts[k].scalar) == ts[k];
        LeafAdded(h0, h', old0, leaf, ts[..k], ts[k]);
      } else {
        ZeroSkipped(ts[..k], ts[k]);
      }
      forall lut ensures SumOf(h', leaves, lut) == TermsValue(next, lut, bound) {
        assert SumOf(h0, old0, lut) == TermsValue(ts[..k], lut, bound);
        TermAdded(ts[..k], ts[k], lut, bound);
        if ts[k].scalar != 0.0 {
          LeafValue(h0, h', old0, leaves[|old0|], lut);
        } else {
          TimesLaws(RunValue(ts[k].run, lut, bound), 0.0, 0.0);
        }
      }
      k := k + 1;
    }
    assert ts[..k] == ts;
  }

  predicate AllBelow(h: Heap, nodes: seq<nat>) { forall i :: 0 <= i < |nodes| ==> nodes[i] < |h| }

  lemma {:induction false} NoLeaves(h: Heap, ts: seq<Term>, bound: nat)
    requires HeapOk(h)
    ensures AllShallow(h, [], 0) && SpreadAll(h, []) == NonZero(ts[..0]) && NonZero(ts[..0]) == []
    ensures forall lut {:trigger SumOf(h, [], lut)} :: SumOf(h, [], lut) == TermsValue(ts[..0], lut, bound)
  {
  }

  lemma {:induction false} LeafAdded(h0: Heap, h': Heap, nodes: seq<nat>, leaf: nat, done: seq<Term>, t: Term)
    requires Grown(h0, h') && AllShallow(h0, nodes, 0) && SpreadAll(h0, nodes) == NonZero(done)
    requires leaf < |h'| && Spread(h', leaf) == [t] && SumDepth(h', leaf) == 0 && t.scalar != 0.0
    ensures AllShallow(h', nodes + [leaf], 0) && SpreadAll(h', nodes + [leaf]) == NonZero(done + [t])
    ensures |NonZero(done + [t])| == |NonZero(done)| + 1
  {
    hide Spread, SpreadAll;
    GrownSum(h0, h', nodes, []);
    GrownShallow(h0, h', nodes, 0);
    SpreadLast(h', nodes, leaf);
    assert (done + [t])[..|done|] == done;
  }

  lemma {:induction false} ZeroSkipped(done: seq<Term>, t: Term)
    requires t.scalar == 0.0
    ensures NonZero(done + [t]) == NonZero(done)
  {
    assert (done + [t])[..|done|] == done;
  }

  lemma {:induction false} TermAdded(done: seq<Term>, t: Term, lut: seq<real>, bound: nat)
    ensures TermsValue(done + [t], lut, bound)
      == TermsValue(done, lut, bound) + Times(t.scalar, RunValue(t.run, lut, bound))
  {
    assert (done + [t])[..|done|] == done;
  }

  lemma {:induction false} LeafValue(h0: Heap, h': Heap, nodes: seq<nat>, leaf: nat, lut: seq<real>)
    requires Grown(h0, h') && AllBelow(h0, nodes) && leaf < |h'|
    ensures SumOf(h', nodes + [leaf], lut) == SumOf(h0, nodes, lut) + Value(h', leaf, lut)
  {
    GrownSum(h0, h', nodes, lut);
    assert (nodes + [leaf])[..|nodes|] == nodes;
  }

  /** One level of the balanced sum: neighbours are added in pairs. */
  method PairUp(h: Heap, leaves: seq<nat>, ghost base: nat, ghost live: seq<nat>, ghost d: nat)
      returns (h': Heap, next: seq<nat>)
    requires FreshShape(h, base, live + leaves) && HeapOk(h) && |leaves| > 1 && AllShallow(h, leaves, d)
    ensures FreshShape(h', base, live + next) && Grown(h, h') && |next| == (|leaves| + 1) / 2
      && AllShallow(h', next, d + 1)
    ensures SpreadAll(h', next) == SpreadAll(h, leaves)
    ensures forall lut {:trigger SumOf(h', next, lut)} :: SumOf(h', next, lut) == SumOf(h, leaves, lut)
  {
    hide FreshShape, SumOf, SpreadAll;
    h', next := h, [];
    var i := 0;
    NoSum(h, []);
    forall lut ensures SumOf(h, [], lut) == 0.0 {
      NoSum(h, lut);
    }
    assert leaves[0..] == leaves && live + [] + leaves == live + leaves;
    while i < |leaves|
      invariant i <= |leaves| && (2 * |next| == i || (i == |leaves| && 2 * |next| == i + 1)) && Grown(h, h')
      invariant FreshShape(h', base, live + next + leaves[i..]) && AllShallow(h', next, d + 1)
      invariant forall j :: 0 <= j < |leaves[i..]| ==> leaves[i..][j] < |h|
      invariant SpreadAll(h', next) + SpreadAll(h', leaves[i..]) == SpreadAll(h, leaves)
      invariant forall lut {:trigger SumOf(h', next, lut)} ::
        SumOf(h', next, lut) + SumOf(h', leaves[i..], lut) == SumOf(h, leaves, lut)
    {
      ghost var h0, next0, tail := h', next, leaves[i..];
      assert |h| <= |h0|;
      if i + 1 < |leaves| {
        var sum: nat;
        h', sum := AddPair(h', next, leaves, i, base, live);
        PairShallow(h, h0, h', next, leaves, i, d);
        next := next + [sum];
        forall lut ensures SumOf(h', next, lut) + SumOf(h', leaves[i + 2..], lut) == SumOf(h, leaves, lut) {
          assert SumOf(h0, next0, lut) + SumOf(h0, tail, lut) == SumOf(h, leaves, lut);
          PairedSum(h0, h', next0, leaves, i, lut);
        }
        TailBelow(leaves, i + 2, |h|);
        i := i + 2;
      } else {
        OneShallow(h, h', next, leaves, i, d);
        next := next + [leaves[i]];
        assert leaves[i..] == [leaves[i]] && leaves[i + 1..] == [];
        assert live + next + [] == live + next0 + leaves[i..];
        OddOneOut(h', next0, leaves[i], []);
        forall lut ensures SumOf(h', next, lut) + SumOf(h', leaves[i + 1..], lut) == SumOf(h, leaves, lut) {
          assert SumOf(h0, next0, lut) + SumOf(h0, tail, lut) == SumOf(h, leaves, lut);
          OddOneOut(h', next0, leaves[i], lut);
        }
        TailBelow(leaves, i + 1, |h|);
        i := i + 1;
      }
    }
    assert leaves[i..] == [] && live + next + [] == live + next;
    NoSum(h', []);
    forall lut ensures SumOf(h', next, lut) == SumOf(h, leaves, lut) {
      NoSum(h', lut);
    }
  }

  lemma PairShallow(h: Heap, h0: Heap, h': Heap, next: seq<nat>, leaves: seq<nat>, i: nat, d: nat)
    requires Grown(h, h0) && HeapOk(h') && i + 1 < |leaves| && AllShallow(h, leaves, d) && AllShallow(h0, next, d + 1)
    requires h' == h0 + [Add(leaves[i], leaves[i + 1])]
    ensures AllShallow(h', next + [|h0|], d + 1)
  {
    GrownShallow(h0, h', next, d + 1);
    SpreadKept(h, h', leaves[i]);
    SpreadKept(h, h', leaves[i + 1]);
  }

  lemma OneShallow(h: Heap, h': Heap, next: seq<nat>, leaves: seq<nat>, i: nat, d: nat)
    requires Grown(h, h') && i < |leaves| && AllShallow(h, leaves, d) && AllShallow(h', next, d + 1)
    ensures AllShallow(h', next + [leaves[i]], d + 1)
  {
    SpreadKept(h, h', leaves[i]);
  }

  lemma TailBelow(leaves: seq<nat>, i: nat, bound: nat)
    requires i <= |leaves| && forall j :: 0 <= j < |leaves| ==> leaves[j] < bound
    ensures forall j :: 0 <= j < |leaves[i..]| ==> leaves[i..][j] < bound
  {
  }

  lemma {:induction false} NoSum(h: Heap, lut: seq<real>)
    requires HeapOk(h)
    ensures SumOf(h, [], lut) == 0.0 && SpreadAll(h, []) == []
  {
  }

  lemma {:induction false} OddOneOut(h: Heap, next: seq<nat>, x: nat, lut: seq<real>)
    requires HeapOk(h) && x < |h| && forall j :: 0 <= j < |next| ==> next[j] < |h|
    ensures SumOf(h, next + [x], lut) + SumOf(h, [], lut) == SumOf(h, next, lut) + SumOf(h, [x], lut)
    ensures SpreadAll(h, next + [x]) + SpreadAll(h, []) == SpreadAll(h, next) + SpreadAll(h, [x])
  {
    assert (next + [x])[..|next|] == next;
    assert [x][..0] == [];
  }

  /** Adds two neighbours: they leave the coefficients in use and their sum joins. */
  method AddPair(h: Heap, next: seq<nat>, leaves: seq<nat>, i: nat, ghost base: nat, ghost live: seq<nat>)
      returns (h': Heap, sum: nat)
    requires i + 1 < |leaves| && HeapOk(h) && FreshShape(h, base, live + next + leaves[i..])
    requires (forall j :: 0 <= j < |leaves| ==> leaves[j] < |h|) && forall j :: 0 <= j < |next| ==> next[j] < |h|
    ensures h' == h + [Add(leaves[i], leaves[i + 1])] && sum == |h| && HeapOk(h')
    ensures FreshShape(h', base, live + (next + [sum]) + leaves[i + 2..])
    ensures SpreadAll(h', next + [sum]) + SpreadAll(h', leaves[i + 2..])
      == SpreadAll(h, next) + SpreadAll(h, leaves[i..])
  {
    hide FreshShape, SumOf, SpreadAll;
    ghost var all, at := live + next + leaves[i..], |live| + |next|;
    assert all[at] == leaves[i] && all[at + 1] == leaves[i + 1];
    MergeFresh(h, base, all, at, at + 1);
    h', sum := h + [Add(leaves[i], leaves[i + 1])], |h|;
    assert all[at := |h|][..at + 1] + all[at + 2..] == live + (next + [sum]) + leaves[i + 2..];
    ShapeHeapOk(h', base, live + (next + [sum]) + leaves[i + 2..]);
    PairedSum(h, h', next, leaves, i, []);
  }

  /** Two neighbours replaced by their sum. */
  lemma {:induction false} PairedSum(h: Heap, h': Heap, next: seq<nat>, leaves: seq<nat>, i: nat, lut: seq<real>)
    requires HeapOk(h) && HeapOk(h') && i + 1 < |leaves| && h' == h + [Add(leaves[i], leaves[i + 1])]
    requires (forall j :: 0 <= j < |leaves| ==> leaves[j] < |h|) && forall j :: 0 <= j < |next| ==> next[j] < |h|
    ensures SumOf(h', next + [|h|], lut) + SumOf(h', leaves[i + 2..], lut)
      == SumOf(h, next, lut) + SumOf(h, leaves[i..], lut)
    ensures SpreadAll(h', next + [|h|]) + SpreadAll(h', leaves[i + 2..])
      == SpreadAll(h, next) + SpreadAll(h, leaves[i..])
  {
    hide Spread, SpreadAll;
    PairedSpread(h, h', next, leaves, i);
    assert (next + [|h|])[..|next|] == next;
    assert leaves[i..] == [leaves[i]] + leaves[i + 1..] && leaves[i + 1..] == [leaves[i + 1]] + leaves[i + 2..];
    SumFront(h, leaves[i], leaves[i + 1..], lut);
    SumFront(h, leaves[i + 1], leaves[i + 2..], lut);
    GrownSum(h, h', next, lut);
    GrownSum(h, h', leaves[i + 2..], lut);
    GrownValue(h, h', leaves[i], lut);
    GrownValue(h, h', leaves[i + 1], lut);
  }

  lemma {:induction false} PairedSpread(h: Heap, h': Heap, next: seq<nat>, leaves: seq<nat>, i: nat)
    requires HeapOk(h) && HeapOk(h') && i + 1 < |leaves| && h' == h + [Add(leaves[i], leaves[i + 1])]
    requires (forall j :: 0 <= j < |leaves| ==> leaves[j] < |h|) && forall j :: 0 <= j < |next| ==> next[j] < |h|
    ensures SpreadAll(h', next + [|h|]) + SpreadAll(h', leaves[i + 2..])
      == SpreadAll(h, next) + SpreadAll(h, leaves[i..])
  {
    var a, b, tail := leaves[i], leaves[i + 1], leaves[i + 2..];
    assert Spread(h', |h|) == Spread(h', a) + Spread(h', b);
    hide Spread, SpreadAll, SumOf;
    assert leaves[i..] == [a] + ([b] + tail);
    SpreadFront(h, a, [b] + tail);
    SpreadFront(h, b, tail);
    SpreadLast(h', next, |h|);
    GrownSum(h, h', next, []);
    GrownSum(h, h', tail, []);
    SpreadKept(h, h', a);
    SpreadKept(h, h', b);
    FourParts(SpreadAll(h, next), Spread(h, a), Spread(h, b), SpreadAll(h, tail));
  }

  lemma FourParts(n: seq<Term>, a: seq<Term>, b: seq<Term>, t: seq<Term>)
    ensures (n + (a + b)) + t == n + (a + (b + t))
  {
  }

  function TwoTo(d: nat): (r: nat)
    ensures r >= 1
  {
    if d == 0 then 1 else 2 * TwoTo(d - 1)
  }

  /** No more sums lie above one another than a balanced sum of the node's monomials needs. */
  predicate IsBalanced(h: Heap, x: nat)
    requires HeapOk(h) && x < |h|
  {
    TwoTo(SumDepth(h, x)) < 2 * CountOf(h, x)
  }

  /**
   What a rebuilt coefficient is: a balanced sum of the terms whose scalar is not 0, or nothing if
   there is none.
   */
  ghost predicate Rebuilt(h: Heap, node: Option<nat>, ts: seq<Term>, bound: nat)
    requires HeapOk(h)
  {
    && (if node.Some? then node.value < |h| && Spread(h, node.value) == NonZero(ts) && IsBalanced(h, node.value)
        else NonZero(ts) == [])
    && forall lut {:trigger TermsValue(ts, lut, bound)} ::
         TermsValue(ts, lut, bound) == if node.Some? && node.value < |h| then Value(h, node.value, lut) else 0.0
  }

  lemma {:induction false} TwoToGrows(c: nat, d: nat)
    requires c <= d
    ensures TwoTo(c) <= TwoTo(d)
  {
    if c < d {
      TwoToGrows(c, d - 1);
    }
  }

  /** The leaves still to be added, against the monomials below them. */
  predicate LevelOk(leaves: nat, d: nat, n: nat)
  {
    (leaves > 0 ==> (leaves - 1) * TwoTo(d) < n) && (d == 0 || TwoTo(d) < 2 * n)
  }

  /** Halving the leaves at the price of one level. */
  lemma LevelHalves(leaves: nat, d: nat, n: nat)
    requires leaves > 1 && LevelOk(leaves, d, n)
    ensures LevelOk((leaves + 1) / 2, d + 1, n)
  {
    var t, next := TwoTo(d), (leaves + 1) / 2;
    LessTimes(1, leaves - 1, t);
    LessTimes(2 * (next - 1), leaves - 1, t);
    assert (next - 1) * (2 * t) == (2 * (next - 1)) * t;
  }

  lemma LessTimes(x: int, y: int, t: nat)
    requires x <= y
    ensures x * t <= y * t
  {
  }

  lemma FirstLevel(n: nat)
    ensures LevelOk(n, 0, n)
  {
  }

  /** What is left of all the levels. */
  lemma {:induction false} LastLevel(h: Heap, x: nat, d: nat, n: nat)
    requires HeapOk(h) && x < |h| && LevelOk(1, d, n) && SumDepth(h, x) <= d && CountOf(h, x) == n
    ensures IsBalanced(h, x)
  {
    TwoToGrows(SumDepth(h, x), d);
  }

  function Somes(coeffs: seq<Option<nat>>): seq<nat>
  {
    if coeffs == [] then []
    else Somes(coeffs[..|coeffs| - 1]) + if coeffs[|coeffs| - 1].Some? then [coeffs[|coeffs| - 1].value] else []
  }

  /** Rebuilds the terms as a balanced sum of monomials. */
  method RebuildBalanced(h: Heap, ts: seq<Term>, bound: nat, ghost base: nat, ghost live: seq<nat>)
      returns (h': Heap, node: Option<nat>)
    requires FreshShape(h, base, live) && HeapOk(h) && RunsOk(ts, bound)
    ensures Grown(h, h') && FreshShape(h', base, live + if node.Some? then [node.value] else [])
      && Rebuilt(h', node, ts, bound)
  {
    hide FreshShape, TermsValue, LevelOk, NonZero, RunsOk, IsBalanced;
    var leaves: seq<nat>;
    ghost var d, n := 0, |NonZero(ts)|;
    h', leaves := BuildLeaves(h, ts, bound, base, live);
    FirstLevel(n);
    while |leaves| > 1
      invariant Grown(h, h') && FreshShape(h', base, live + leaves) && AllShallow(h', leaves, d)
      invariant SpreadAll(h', leaves) == NonZero(ts) && LevelOk(|leaves|, d, n)
      invariant forall lut {:trigger TermsValue(ts, lut, bound)} :: TermsValue(ts, lut, bound) == SumOf(h', leaves, lut)
      decreases |leaves|
    {
      ghost var h0, leaves0 := h', leaves;
      LevelHalves(|leaves|, d, n);
      h', leaves := PairUp(h', leaves, base, live, d);
      d := d + 1;
      forall lut ensures TermsValue(ts, lut, bound) == SumOf(h', leaves, lut) {
        assert SumOf(h', leaves, lut) == SumOf(h0, leaves0, lut);
      }
    }
    node := if leaves == [] then None else Some(leaves[0]);
    assert leaves == if leaves == [] then [] else [leaves[0]];
    if leaves != [] {
      OneLeaf(h', leaves[0], []);
      LastLevel(h', leaves[0], d, n);
    }
    forall lut ensures TermsValue(ts, lut, bound) == if node.Some? then Value(h', node.value, lut) else 0.0 {
      assert TermsValue(ts, lut, bound) == SumOf(h', leaves, lut);
      if leaves != [] {
        OneLeaf(h', leaves[0], lut);
      }
    }
  }

  lemma {:induction false} OneLeaf(h: Heap, x: nat, lut: seq<real>)
    requires HeapOk(h) && x < |h|
    ensures SumOf(h, [x], lut) == Value(h, x, lut) && SpreadAll(h, [x]) == Spread(h, x)
  {
    assert [x][..0] == [];
  }

  /** Like terms are collected: every run once, none with scalar 0. */
  ghost predicate Collected(ts: seq<Term>)
  {
    && (forall i :: 0 <= i < |ts| ==> ts[i].scalar != 0.0)
    && (forall i, j :: 0 <= i < j < |ts| ==> ts[i].run != ts[j].run)
  }

  function SpreadOf(h: Heap, x: Option<nat>): seq<Term>
    requires HeapOk(h) && (x.Some? ==> x.value < |h|)
  {
    if x.Some? then Spread(h, x.value) else []
  }

  lemma {:induction false} NonZeroTotals(ts: seq<Term>, run: Run)
    ensures TotalOf(NonZero(ts), run) == TotalOf(ts, run)
    decreases |ts|
  {
    if ts != [] {
      var last := |ts| - 1;
      NonZeroTotals(ts[..last], run);
      if ts[last].scalar != 0.0 {
        TotalAppended(NonZero(ts[..last]), [ts[last]], run);
        TotalOfOne(ts[last], run);
      } else {
        assert NonZero(ts[..last]) + [] == NonZero(ts[..last]);
      }
    }
  }

  lemma {:induction false} NonZeroIsIn(ts: seq<Term>, i: nat) returns (j: nat)
    requires i < |NonZero(ts)|
    ensures j < |ts| && ts[j] == NonZero(ts)[i] && ts[j].scalar != 0.0
    decreases |ts|
  {
    var last := |ts| - 1;
    if i < |NonZero(ts[..last])| {
      j := NonZeroIsIn(ts[..last], i);
    } else {
      j := last;
    }
  }

  lemma {:induction false} NonZeroCollected(ts: seq<Term>)
    requires forall i, j :: 0 <= i < j < |ts| ==> ts[i].run != ts[j].run
    ensures Collected(NonZero(ts))
    decreases |ts|
  {
    if ts != [] {
      var last := |ts| - 1;
      var front := NonZero(ts[..last]);
      NonZeroCollected(ts[..last]);
      forall i | 0 <= i < |front| ensures front[i].run != ts[last].run {
        var j := NonZeroIsIn(ts[..last], i);
      }
    }
  }

  /**
   A coefficient before and after: the same total for every run, so the same value under every
   table of angles, and in normal form: like terms collected, no zeros, summed up in balance.
   */
  ghost predicate Simplified(h: Heap, x: Option<nat>, h': Heap, y: Option<nat>)
  {
    && HeapOk(h) && HeapOk(h') && (x.None? ==> y.None?) && (x.Some? ==> x.value < |h|) && (y.Some? ==> y.value < |h'|)
    && (x.Some? ==>
      forall lut {:trigger Value(h, x.value, lut)} ::
        Value(h, x.value, lut) == if y.Some? then Value(h', y.value, lut) else 0.0)
    && (x.Some? && y.Some? ==> CountOf(h', y.value) <= CountOf(h, x.value))
    && (x.Some? ==> SameTotals(SpreadOf(h', y), Spread(h, x.value)))
    && Collected(SpreadOf(h', y)) && (y.Some? ==> IsBalanced(h', y.value))
  }

  /** Every coefficient has a root of its own. */
  ghost predicate OwnRoots(coeffs: seq<Option<nat>>)
  {
    forall i, j :: 0 <= i < j < |coeffs| && coeffs[i].Some? ==> coeffs[i] != coeffs[j]
  }

  /** A coefficient simplified before. */
  ghost predicate CacheOk(h: Heap, h': Heap, coeffs: seq<Option<nat>>, rebuilt: map<nat, Option<nat>>)
  {
    && (forall x :: x in rebuilt ==> Simplified(h, Some(x), h', rebuilt[x]))
    && (forall x :: x in rebuilt <==> Some(x) in coeffs)
  }

  /**
   Simplifies a batch of coefficients. Every coefficient keeps its value for all angles and
   gains no monomials. If the coefficients have roots of their own, the new ones have the
   shape the gate loop keeps, whatever the old graph looked like.
   */
  method SimplifyBatch(h: Heap, coeffs: seq<Option<nat>>) returns (h': Heap, simplified: seq<Option<nat>>)
    requires HeapOk(h) && SumsWalkable(h) && RootsWalkable(h, coeffs)
    ensures h <= h' && HeapOk(h') && |simplified| == |coeffs|
      && forall i :: 0 <= i < |coeffs| ==> Simplified(h, coeffs[i], h', simplified[i])
    ensures OwnRoots(coeffs) ==> FreshShape(h', |h|, Somes(simplified))
  {
    hide FreshShape, Expanded, Rebuilt, Simplified, AllSimplified, ParamsBelow, SumsWalkable, RootsWalkable, CacheOk,
      Spread, OwnRoots, Somes;
    var bound := ParamBound(h);
    var memo := ExpandAll(h, coeffs, bound);
    h', simplified := h, [];
    var rebuilt: map<nat, Option<nat>> := map[];
    ghost var made: seq<nat> := [];
    NothingFresh(h);
    NothingCached(h, coeffs[..0]);
    for i := 0 to |coeffs|
      invariant |simplified| == i && Grown(h, h') && FreshShape(h', |h|, made)
      invariant CacheOk(h, h', coeffs[..i], rebuilt) && AllSimplified(h, coeffs[..i], h', simplified)
      invariant OwnRoots(coeffs) ==> made == Somes(simplified)
    {
      assert coeffs[..i + 1] == coeffs[..i] + [coeffs[i]];
      ghost var h0, before := h', simplified;
      var node: Option<nat> := None;
      if coeffs[i].None? {
        NothingSimplified(h, h');
        CacheStays(h, h', coeffs[..i], rebuilt, None);
      } else if coeffs[i].value in rebuilt {
        node := rebuilt[coeffs[i].value];
        CacheStays(h, h', coeffs[..i], rebuilt, coeffs[i]);
        NotOwn(coeffs, i);
      } else {
        ExpandedRunsOk(h, coeffs[i].value, memo[coeffs[i].value], bound);
        h', node := RebuildBalanced(h', memo[coeffs[i].value], bound, |h|, made);
        made := made + if node.Some? then [node.value] else [];
        ExpandedRebuilt(h, coeffs[i].value, h', node, memo[coeffs[i].value], bound);
        CacheGrows(h, h0, h', coeffs[..i], rebuilt, coeffs[i].value, node);
        rebuilt := rebuilt[coeffs[i].value := node];
      }
      simplified := simplified + [node];
      OneMoreSome(before, node);
      AllStillSimplified(h, coeffs[..i], h0, h', before, coeffs[i], node);
    }
    assert coeffs[..|coeffs|] == coeffs;
    AllSimplifiedAt(h, coeffs, h', simplified);
  }

  ghost predicate AllSimplified(h: Heap, xs: seq<Option<nat>>, h': Heap, ys: seq<Option<nat>>)
  {
    |xs| == |ys| && forall j :: 0 <= j < |xs| ==> Simplified(h, xs[j], h', ys[j])
  }

  lemma AllSimplifiedAt(h: Heap, xs: seq<Option<nat>>, h': Heap, ys: seq<Option<nat>>)
    requires AllSimplified(h, xs, h', ys)
    ensures |xs| == |ys| && forall j :: 0 <= j < |xs| ==> Simplified(h, xs[j], h', ys[j])
  {
    hide Simplified;
  }

  lemma NothingCached(h: Heap, none: seq<Option<nat>>)
    requires none == []
    ensures CacheOk(h, h, none, map[]) && AllSimplified(h, none, h, []) && Somes([]) == []
  {
  }

  /** A coefficient that is missing or was met before leaves the cache as it is. */
  lemma CacheStays(h: Heap, h': Heap, seen: seq<Option<nat>>, rebuilt: map<nat, Option<nat>>, x: Option<nat>)
    requires CacheOk(h, h', seen, rebuilt) && (x.Some? ==> x.value in rebuilt)
    ensures CacheOk(h, h', seen + [x], rebuilt)
    ensures x.Some? ==> x in seen && Simplified(h, x, h', rebuilt[x.value])
  {
    hide Simplified;
  }

  lemma NotOwn(coeffs: seq<Option<nat>>, i: nat)
    requires i < |coeffs| && coeffs[i].Some? && coeffs[i] in coeffs[..i]
    ensures !OwnRoots(coeffs)
  {
    var j :| 0 <= j < i && coeffs[..i][j] == coeffs[i];
    assert coeffs[j] == coeffs[i];
  }

  lemma {:induction false} OneMoreSome(coeffs: seq<Option<nat>>, x: Option<nat>)
    ensures Somes(coeffs + [x]) == Somes(coeffs) + if x.Some? then [x.value] else []
    ensures x.None? ==> Somes(coeffs + [x]) == Somes(coeffs)
  {
    assert (coeffs + [x])[..|coeffs|] == coeffs;
    assert Somes(coeffs) + [] == Somes(coeffs);
  }

  /** One more coefficient goes into the cache. */
  lemma CacheGrows(h: Heap, h0: Heap, h': Heap, seen: seq<Option<nat>>, rebuilt: map<nat, Option<nat>>, x: nat,
                   y: Option<nat>)
    requires CacheOk(h, h0, seen, rebuilt) && Grown(h0, h') && Simplified(h, Some(x), h', y)
    ensures CacheOk(h, h', seen + [Some(x)], rebuilt[x := y])
  {
    hide Simplified;
    forall z | z in rebuilt ensures Simplified(h, Some(z), h', rebuilt[z]) {
      StillSimplified(h, Some(z), h0, h', rebuilt[z]);
    }
  }

  lemma AllStillSimplified(h: Heap, xs: seq<Option<nat>>, h0: Heap, h': Heap, ys: seq<Option<nat>>, x: Option<nat>,
                           y: Option<nat>)
    requires AllSimplified(h, xs, h0, ys) && Grown(h0, h') && Simplified(h, x, h', y)
    ensures AllSimplified(h, xs + [x], h', ys + [y])
  {
    hide Simplified;
    forall j | 0 <= j < |xs| ensures Simplified(h, xs[j], h', ys[j]) {
      StillSimplified(h, xs[j], h0, h', ys[j]);
    }
  }

  lemma NothingSimplified(h: Heap, h': Heap)
    requires Grown(h, h')
    ensures Simplified(h, None, h', None)
  {
  }

  lemma ExpandedRebuilt(h: Heap, x: nat, h': Heap, node: Option<nat>, ts: seq<Term>, bound: nat)
    requires Grown(h, h') && Expanded(h, x, ts, bound) && Rebuilt(h', node, ts, bound)
    ensures Simplified(h, Some(x), h', node)
  {
    hide TermsValue, SameTotals, Spread, IsBalanced;
    RebuiltTotals(ts, Spread(h, x));
    NonZeroCollected(ts);
    forall lut ensures Value(h, x, lut) == if node.Some? then Value(h', node.value, lut) else 0.0 {
      assert TermsValue(ts, lut, bound) == Value(h, x, lut);
    }
  }

  lemma {:induction false} RebuiltTotals(ts: seq<Term>, us: seq<Term>)
    requires SameTotals(ts, us)
    ensures SameTotals(NonZero(ts), us)
  {
    forall run ensures TotalOf(NonZero(ts), run) == TotalOf(us, run) {
      NonZeroTotals(ts, run);
      assert TotalOf(ts, run) == TotalOf(us, run);
    }
  }

  lemma ExpandedRunsOk(h: Heap, x: nat, ts: seq<Term>, bound: nat)
    requires HeapOk(h) && Expanded(h, x, ts, bound)
    ensures RunsOk(ts, bound)
  {
  }

  lemma StillSimplified(h: Heap, x: Option<nat>, h0: Heap, h': Heap, y: Option<nat>)
    requires Simplified(h, x, h0, y) && Grown(h0, h')
    ensures Simplified(h, x, h', y)
  {
    hide SameTotals, Collected;
    if y.Some? {
      forall lut ensures Value(h', y.value, lut) == Value(h0, y.value, lut) {
        GrownValue(h0, h', y.value, lut);
      }
      SpreadKept(h0, h', y.value);
    }
  }
}
