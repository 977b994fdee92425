/**
 What one gate means for the whole operator, held as a map from key to coefficient.

 Nothing here knows of partitions, messages or storage: this is the specification the
 partitioned engine is proved against, and the place where the laws of a gate live.
 */
module PairRule {
  import opened Wrappers
  import opened BasisStrings
  import opened BasisAlgebra
  import opened TableauRows
  import opened JordanWigner

  type Terms = map<Key, real>

  /** A rotation gate: its generator and the cosine and sine of its angle. */
  datatype Gate = Gate(gen: Key, cos: real, sin: real)

  predicate GateOf(g: Gate, n: nat)
  {
    |g.gen| == n && n % 2 == 0 && g.cos * g.cos + g.sin * g.sin == 1.0
  }

  /** A rotation about a signed generator, as the engine applies it to stored keys. */
  datatype Turn = Turn(gen: Key, sign: real, cos: real, sin: real)

  predicate TurnOf(t: Turn, n: nat)
  {
    |t.gen| == n && n % 2 == 0 && IsSign(t.sign) && t.cos * t.cos + t.sin * t.sin == 1.0
  }

  predicate TermsOf(m: Terms, n: nat) { forall k :: k in m ==> |k| == n }

  /**
   The emit gate: a weight bound, a magnitude bound, a plugin that sees key, weight and
   magnitude and replaces both, and a floor on the number of terms below which no lossy
   truncation happens.
   */
  datatype Cutoff = Cutoff(maxWeight: Option<nat>, minCoeff: Option<real>,
                           kernel: Option<(Key, nat, real) -> bool>, minTerms: Option<nat>)

  function NoCutoff(): Cutoff { Cutoff(None, None, None, None) }

  /** The cutoff in force for an operator of `live` terms. */
  function AtSize(cut: Cutoff, live: nat): Cutoff
  {
    if cut.minTerms.Some? && live < cut.minTerms.value then Cutoff(None, None, None, cut.minTerms) else cut
  }

  predicate AdmitsKey(kind: BasisKind, cut: Cutoff, key: Key)
    requires |key| % 2 == 0
  {
    cut.kernel.Some? || cut.maxWeight.None? || Weight(kind, key) <= cut.maxWeight.value
  }

  predicate AdmitsChild(kind: BasisKind, cut: Cutoff, key: Key, coeff: real)
    requires |key| % 2 == 0
  {
    if cut.kernel.Some? then cut.kernel.value(key, Weight(kind, key), Abs(coeff))
    else cut.minCoeff.None? || Abs(coeff) >= cut.minCoeff.value
  }

  /** The magnitude test is made before the child is formed, when there is nothing else to ask. */
  predicate Prechecks(cut: Cutoff) { cut.kernel.None? && cut.minCoeff.Some? }

  predicate Declines(t: Turn, cut: Cutoff, coeff: real)
  {
    Prechecks(cut) && Abs(Unphased(t, coeff)) < cut.minCoeff.value
  }

  /** The key of the sine branch of `k`. */
  function Partner(t: Turn, k: Key): (q: Key)
    requires |k| == |t.gen|
    ensures |q| == |k|
  {
    Xor(t.gen, k)
  }

  /** The imaginary part of the signed product phase. */
  function TurnIm(kind: BasisKind, t: Turn, k: Key): real
    requires |k| == |t.gen| && |k| % 2 == 0
  {
    PhaseIm(PhaseExp(kind, t.gen, k)) * t.sign
  }

  /** The coefficient of the sine branch of `k` when `k` carries `a`. */
  function Branch(kind: BasisKind, t: Turn, k: Key, a: real): real
    requires |k| == |t.gen| && |k| % 2 == 0
  {
    a * t.sin * -TurnIm(kind, t, k)
  }

  /** The cosine branch of `a`, and its sine branch before any phase. */
  function Damp(t: Turn, a: real): real { t.cos * a }

  function Unphased(t: Turn, a: real): real { a * t.sin }

  /** What a live anticommuting row does with its sine branch. */
  datatype Status = Emit | Held | Dropped

  function StatusOf(kind: BasisKind, t: Turn, cut: Cutoff, k: Key, a: real): Status
    requires |k| == |t.gen| && |k| % 2 == 0
  {
    if Declines(t, cut, a) then Held
    else if !AdmitsKey(kind, cut, Partner(t, k)) then Dropped
    else if !AdmitsChild(kind, cut, Partner(t, k), Branch(kind, t, k, a)) then Held
    else Emit
  }

  /** Row `k` of `m` branches and does `s` with the branch. */
  predicate Has(kind: BasisKind, t: Turn, cut: Cutoff, m: Terms, k: Key, s: Status)
    requires |t.gen| % 2 == 0
  {
    |k| == |t.gen| && k in m && Anticommutes(kind, t.gen, k) && StatusOf(kind, t, cut, k, m[k]) == s
  }

  /**
   A branch reaches key `k`: its partner emitted it, or held it back while `k` itself paid by
   emitting its own.
   */
  predicate Arrives(kind: BasisKind, t: Turn, cut: Cutoff, m: Terms, k: Key)
    requires |k| == |t.gen| && |k| % 2 == 0
  {
    var q := Partner(t, k);
    Has(kind, t, cut, m, q, Emit) || (Has(kind, t, cut, m, q, Held) && Has(kind, t, cut, m, k, Emit))
  }

  function Coef(m: Terms, k: Key): real { if k in m then m[k] else 0.0 }

  function Damped(kind: BasisKind, t: Turn, m: Terms, k: Key): real
    requires |k| == |t.gen| && |k| % 2 == 0
  {
    if Anticommutes(kind, t.gen, k) then t.cos * Coef(m, k) else Coef(m, k)
  }

  function NewCoef(kind: BasisKind, t: Turn, cut: Cutoff, m: Terms, k: Key): real
    requires |k| == |t.gen| && |k| % 2 == 0
  {
    var q := Partner(t, k);
    Damped(kind, t, m, k) + if Arrives(kind, t, cut, m, k) then Branch(kind, t, q, Coef(m, q)) else 0.0
  }

  /** The keys that receive a branch. */
  function Created(kind: BasisKind, t: Turn, cut: Cutoff, m: Terms): set<Key>
    requires |t.gen| % 2 == 0
  {
    set p | p in m && Has(kind, t, cut, m, p, Emit) :: Partner(t, p)
  }

  /** One non-Clifford gate on the whole operator. */
  function PairStep(kind: BasisKind, t: Turn, cut: Cutoff, m: Terms): (r: Terms)
    requires |t.gen| % 2 == 0 && TermsOf(m, |t.gen|)
    ensures TermsOf(r, |t.gen|)
  {
    map k | k in m.Keys + Created(kind, t, cut, m) :: NewCoef(kind, t, cut, m, k)
  }

  /** A gate with sine 0 only scales what it anticommutes with. */
  function ScaleStep(kind: BasisKind, g: Key, factor: real, m: Terms): (r: Terms)
    requires |g| % 2 == 0 && TermsOf(m, |g|)
    ensures TermsOf(r, |g|)
  {
    map k | k in m :: if Anticommutes(kind, g, k) then m[k] * factor else m[k]
  }

  // ---- the rule, read off key by key --------------------------------------------

  lemma PartnerTwice(t: Turn, k: Key)
    requires |k| == |t.gen|
    ensures Partner(t, Partner(t, k)) == k
  {
    XorCancel(t.gen, k);
  }

  lemma PartnerAnticommutes(kind: BasisKind, t: Turn, k: Key)
    requires |k| == |t.gen| && |k| % 2 == 0
    ensures Anticommutes(kind, t.gen, Partner(t, k)) == Anticommutes(kind, t.gen, k)
  {
    hide Anticommutes, Xor;
    AnticommutesBranch(kind, t.gen, k);
  }

  lemma CreatedIff(kind: BasisKind, t: Turn, cut: Cutoff, m: Terms, k: Key)
    requires |t.gen| % 2 == 0 && TermsOf(m, |t.gen|)
    ensures k in Created(kind, t, cut, m) <==> |k| == |t.gen| && Has(kind, t, cut, m, Partner(t, k), Emit)
  {
    hide StatusOf, Anticommutes, Xor;
    if k in Created(kind, t, cut, m) {
      var p :| p in m && Has(kind, t, cut, m, p, Emit) && Partner(t, p) == k;
      PartnerTwice(t, p);
    }
    if |k| == |t.gen| && Has(kind, t, cut, m, Partner(t, k), Emit) {
      PartnerTwice(t, k);
    }
  }

  /**
   Which keys are live after the gate, and with what coefficient: a key is new iff its
   partner emitted, and everything else keeps its place.
   */
  lemma PairStepAt(kind: BasisKind, t: Turn, cut: Cutoff, m: Terms, k: Key)
    requires |t.gen| % 2 == 0 && TermsOf(m, |t.gen|) && |k| == |t.gen|
    ensures k in PairStep(kind, t, cut, m) <==> k in m || Has(kind, t, cut, m, Partner(t, k), Emit)
    ensures Coef(PairStep(kind, t, cut, m), k) == NewCoef(kind, t, cut, m, k)
  {
    hide StatusOf, Anticommutes, Xor, Branch;
    CreatedIff(kind, t, cut, m, k);
    PartnerTwice(t, k);
  }

  /** The branch of `k` into its partner and the branch back have opposite signs. */
  lemma OppositeBranches(kind: BasisKind, t: Turn, k: Key)
    requires |k| == |t.gen| && |k| % 2 == 0
    ensures TurnIm(kind, t, Partner(t, k)) == -TurnIm(kind, t, k)
    ensures TurnOf(t, |k|) && Anticommutes(kind, t.gen, k) ==> TurnIm(kind, t, k) == 1.0 || TurnIm(kind, t, k) == -1.0
  {
    hide PhaseExp, Xor, Anticommutes;
    PhaseTwice(kind, t.gen, k);
    AnticommutesIsImaginary(kind, t.gen, k);
  }

  /** No live key is over the weight bound (a plugin lifts the bound). */
  predicate WithinBound(kind: BasisKind, cut: Cutoff, m: Terms, n: nat)
    requires n % 2 == 0 && TermsOf(m, n)
  {
    forall k :: k in m ==> AdmitsKey(kind, cut, k)
  }

  /** Inside the bound a branch into a live partner is emitted or held, never dropped. */
  lemma LivePairArrives(kind: BasisKind, t: Turn, cut: Cutoff, m: Terms, k: Key)
    requires TurnOf(t, |k|) && TermsOf(m, |k|) && WithinBound(kind, cut, m, |k|)
    requires k in m && Partner(t, k) in m && Anticommutes(kind, t.gen, k)
    ensures Arrives(kind, t, cut, m, k) <==>
      (StatusOf(kind, t, cut, k, m[k]) == Emit || StatusOf(kind, t, cut, Partner(t, k), m[Partner(t, k)]) == Emit)
  {
    hide Anticommutes, Xor, Branch, AdmitsChild, AdmitsKey, Declines;
    PartnerTwice(t, k);
    PartnerAnticommutes(kind, t, k);
  }

  /**
   The pair rule as it is documented: with the live keys inside the weight bound, a live pair
   is rotated as a whole if either branch passes and only damped if neither does, and a lone
   row creates its partner iff its branch passes.
   */
  lemma PairRotatedIffEitherPasses(kind: BasisKind, t: Turn, cut: Cutoff, m: Terms, k: Key)
    requires TurnOf(t, |k|) && TermsOf(m, |k|) && WithinBound(kind, cut, m, |k|)
    requires k in m && Anticommutes(kind, t.gen, k)
    ensures var q := Partner(t, k);
      var r := PairStep(kind, t, cut, m);
      var passes := StatusOf(kind, t, cut, k, m[k]) == Emit;
      if q in m then
        var either := passes || StatusOf(kind, t, cut, q, m[q]) == Emit;
        && r[k] == t.cos * m[k] + (if either then Branch(kind, t, q, m[q]) else 0.0)
        && r[q] == t.cos * m[q] + (if either then Branch(kind, t, k, m[k]) else 0.0)
      else
        && r[k] == t.cos * m[k]
        && (q in r <==> passes)
        && (passes ==> r[q] == Branch(kind, t, k, m[k]))
  {
    hide Anticommutes, Xor, Branch, StatusOf, Weight;
    var q := Partner(t, k);
    PartnerTwice(t, k);
    PartnerAnticommutes(kind, t, k);
    PairStepAt(kind, t, cut, m, k);
    PairStepAt(kind, t, cut, m, q);
    if q in m {
      LivePairArrives(kind, t, cut, m, k);
      LivePairArrives(kind, t, cut, m, q);
    }
  }

  /** The magnitude precheck agrees with the magnitude of the branch that is never formed. */
  lemma PrecheckIsExact(kind: BasisKind, t: Turn, k: Key, a: real)
    requires TurnOf(t, |k|) && Anticommutes(kind, t.gen, k)
    ensures Abs(Branch(kind, t, k, a)) == Abs(Unphased(t, a))
  {
    hide PhaseExp, Anticommutes, TurnIm;
    OppositeBranches(kind, t, k);
  }

  /** The stored form of a held-back branch: unphased when the precheck is on. */
  function HeldValue(kind: BasisKind, t: Turn, cut: Cutoff, k: Key, a: real): real
    requires |k| == |t.gen| && |k| % 2 == 0
  {
    if Declines(t, cut, a) then Unphased(t, a) else Branch(kind, t, k, a)
  }

  /** With the precheck on, a branch it does not decline is large enough. */
  lemma AdmittedUnlessDeclined(kind: BasisKind, t: Turn, cut: Cutoff, k: Key, a: real)
    requires TurnOf(t, |k|) && Anticommutes(kind, t.gen, k) && Prechecks(cut) && !Declines(t, cut, a)
    ensures AdmitsChild(kind, cut, Partner(t, k), Branch(kind, t, k, a))
  {
    hide Anticommutes, TurnIm, Xor, Branch, Abs, Unphased;
    PrecheckIsExact(kind, t, k, a);
  }

  /** Phasing a held-back branch lazily gives the true sine branch. */
  lemma LazyPhaseIsExact(kind: BasisKind, t: Turn, cut: Cutoff, k: Key, a: real)
    requires TurnOf(t, |k|) && Anticommutes(kind, t.gen, k)
    requires StatusOf(kind, t, cut, k, a) == Held
    ensures (if Prechecks(cut) then HeldValue(kind, t, cut, k, a) * -TurnIm(kind, t, k)
             else HeldValue(kind, t, cut, k, a)) == Branch(kind, t, k, a)
  {
    hide Anticommutes, TurnIm, AdmitsKey, Abs, Xor;
    if Prechecks(cut) && !Declines(t, cut, a) {
      AdmittedUnlessDeclined(kind, t, cut, k, a);
    }
  }

  // ---- what the cutoffs let through ---------------------------------------------

  /**
   The documented meaning of the cutoffs for a branch of magnitude `size` at `key`, in an operator
   of `live` terms: below the floor everything passes; a plugin decides alone; without one the
   weight must be within its bound and the magnitude must reach its own.
   */
  predicate Passes(kind: BasisKind, cut: Cutoff, live: nat, key: Key, size: real)
    requires |key| % 2 == 0
  {
    || (cut.minTerms.Some? && live < cut.minTerms.value)
    || (if cut.kernel.Some? then cut.kernel.value(key, Weight(kind, key), size)
        else (cut.maxWeight.Some? ==> Weight(kind, key) <= cut.maxWeight.value)
             && (cut.minCoeff.Some? ==> size >= cut.minCoeff.value))
  }

  /** The magnitude of the sine branch of `a`. */
  function Size(t: Turn, a: real): real { Abs(a * t.sin) }

  lemma EmitsIffPasses(kind: BasisKind, t: Turn, cut: Cutoff, live: nat, k: Key, a: real)
    requires TurnOf(t, |k|) && Anticommutes(kind, t.gen, k)
    ensures var size := Size(t, a);
      var s := StatusOf(kind, t, AtSize(cut, live), k, a);
      && (s == Emit <==> Passes(kind, cut, live, Xor(t.gen, k), size))
      && (s == Held ==> cut.kernel.Some? || (cut.minCoeff.Some? && size < cut.minCoeff.value))
      && (cut.kernel.None? && cut.minCoeff.Some? && size < cut.minCoeff.value ==> s == Held || s == Emit)
      && (cut.kernel.Some? ==> s == Held || s == Emit)
  {
    hide Anticommutes, Xor, Weight, Branch;
    PrecheckIsExact(kind, t, k, a);
    assert Size(t, a) == Abs(Unphased(t, a));
    hide Abs, Unphased, Size;
  }

  /** A row without a live partner: its branch makes a new key exactly if it passes the cutoffs. */
  lemma LoneRowCreates(kind: BasisKind, t: Turn, cut: Cutoff, live: nat, m: Terms, k: Key)
    requires TurnOf(t, |k|) && TermsOf(m, |k|)
    requires k in m && Anticommutes(kind, t.gen, k) && Xor(t.gen, k) !in m
    ensures var q := Xor(t.gen, k);
      var r := PairStep(kind, t, AtSize(cut, live), m);
      && (q in r <==> Passes(kind, cut, live, q, Size(t, m[k])))
      && (q in r ==> r[q] == Branch(kind, t, k, m[k]))
      && k in r && r[k] == t.cos * m[k]
  {
    hide Anticommutes, Xor, Branch, StatusOf, Weight, Passes, AtSize, Size;
    var q := Partner(t, k);
    PartnerTwice(t, k);
    PartnerAnticommutes(kind, t, k);
    EmitsIffPasses(kind, t, cut, live, k, m[k]);
    PairStepAt(kind, t, AtSize(cut, live), m, k);
    PairStepAt(kind, t, AtSize(cut, live), m, q);
  }

  /**
   A row with a live partner receives the partner's branch exactly if that branch passes, or if it
   is held back by the plugin or for its magnitude while the row's own branch passes.
   */
  lemma LivePairReceives(kind: BasisKind, t: Turn, cut: Cutoff, live: nat, m: Terms, k: Key)
    requires TurnOf(t, |k|) && TermsOf(m, |k|)
    requires k in m && Anticommutes(kind, t.gen, k) && Xor(t.gen, k) in m
    ensures var q := Xor(t.gen, k);
      var r := PairStep(kind, t, AtSize(cut, live), m);
      var size := Size(t, m[q]);
      var heldBack := cut.kernel.Some? || (cut.minCoeff.Some? && size < cut.minCoeff.value);
      k in r
      && r[k] == t.cos * m[k]
        + if Passes(kind, cut, live, k, size) || (heldBack && Passes(kind, cut, live, q, Size(t, m[k])))
          then Branch(kind, t, q, m[q]) else 0.0
  {
    hide Anticommutes, Xor, Branch, StatusOf, Weight, Passes, AtSize, Size;
    var q := Partner(t, k);
    PartnerTwice(t, k);
    PartnerAnticommutes(kind, t, k);
    EmitsIffPasses(kind, t, cut, live, k, m[k]);
    EmitsIffPasses(kind, t, cut, live, q, m[q]);
    PairStepAt(kind, t, AtSize(cut, live), m, k);
  }

  // ---- the lossless gate --------------------------------------------------------

  /** The exact rotation, on coefficient functions. */
  function Rotated(kind: BasisKind, t: Turn, f: Key -> real, k: Key): real
    requires |k| == |t.gen| && |k| % 2 == 0
  {
    if Anticommutes(kind, t.gen, k)
    then t.cos * f(k) + Branch(kind, t, Partner(t, k), f(Partner(t, k)))
    else f(k)
  }

  function CoefOf(m: Terms): Key -> real { (k: Key) => Coef(m, k) }

  /** A cutoff that truncates nothing. */
  predicate Lossless(cut: Cutoff) { cut.maxWeight.None? && cut.minCoeff.None? && cut.kernel.None? }

  lemma LosslessStep(kind: BasisKind, t: Turn, cut: Cutoff, m: Terms, k: Key)
    requires |t.gen| % 2 == 0 && TermsOf(m, |t.gen|) && |k| == |t.gen| && Lossless(cut)
    ensures Coef(PairStep(kind, t, cut, m), k) == Rotated(kind, t, CoefOf(m), k)
  {
    hide Anticommutes, Xor, Branch, AdmitsKey, PairStep;
    PairStepAt(kind, t, cut, m, k);
    PartnerTwice(t, k);
    PartnerAnticommutes(kind, t, k);
    BranchOfNothing(kind, t, Partner(t, k));
    LosslessAlwaysEmits(kind, t, cut, Partner(t, k), Coef(m, Partner(t, k)));
  }

  lemma BranchOfNothing(kind: BasisKind, t: Turn, k: Key)
    requires |k| == |t.gen| && |k| % 2 == 0
    ensures Branch(kind, t, k, 0.0) == 0.0
  {
    hide TurnIm;
  }

  lemma LosslessAlwaysEmits(kind: BasisKind, t: Turn, cut: Cutoff, k: Key, a: real)
    requires |k| == |t.gen| && |k| % 2 == 0 && Lossless(cut)
    ensures StatusOf(kind, t, cut, k, a) == Emit
  {
  }

  lemma ScaleStepIsRotation(kind: BasisKind, t: Turn, m: Terms, k: Key)
    requires |t.gen| % 2 == 0 && TermsOf(m, |t.gen|) && |k| == |t.gen| && t.sin == 0.0
    ensures Coef(ScaleStep(kind, t.gen, t.cos, m), k) == Rotated(kind, t, CoefOf(m), k)
  {
  }
}
