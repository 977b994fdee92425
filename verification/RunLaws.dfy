/**
 Laws of whole runs: expectation values and live keys under deferral, the norm of the
 coefficients, and the weight bound of a truncated Pauli run.
 */
module RunLaws {
  import opened Wrappers
  import opened BasisStrings
  import opened BasisAlgebra
  import opened TableauRows
  import opened Frames
  import opened JordanWigner
  import opened FiniteSums
  import opened PairRule
  import opened Propagation

  // ---- expectation values -------------------------------------------------------

  /** One stored term's share: its coefficient, the sign of its image, the image's trace. */
  function Share(kind: BasisKind, e: Engine, state: seq<bool>): Key -> real
  {
    (p: Key) =>
      if RowsOf(e.frame.readout, |p|) then
        var r := Applied(kind, e.frame.readout, p);
        Coef(e.terms, p) * r.sign * Trace(kind, r.image, state)
      else 0.0
  }

  ghost function Expectation(kind: BasisKind, e: Engine, state: seq<bool>): real
  {
    Sum(e.terms.Keys, Share(kind, e, state))
  }

  /** The contribution of a key of the read-out operator. */
  function ReadShare(kind: BasisKind, n: nat, e: Engine, state: seq<bool>): Key -> real
  {
    (k: Key) => if |k| == n && RowsOf(e.frame.generator, |k|) then ReadCoef(kind, e, k) * Trace(kind, k, state) else 0.0
  }

  function ImageKey(kind: BasisKind, e: Engine): Key -> Key
  {
    (p: Key) => if RowsOf(e.frame.readout, |p|) then Applied(kind, e.frame.readout, p).image else p
  }

  /** The keys of the read-out operator. */
  function ReadKeys(kind: BasisKind, e: Engine): set<Key>
  {
    set p | p in e.terms :: ImageKey(kind, e)(p)
  }

  lemma NotReadIsZero(kind: BasisKind, n: nat, e: Engine, k: Key)
    requires FrameShape(n, e.frame) && TermsOf(e.terms, n) && |k| == n && FrameOk(kind, n, e.frame)
    ensures k in ReadKeys(kind, e) <==> Image(kind, e.frame.generator, k).key in e.terms
    ensures k !in ReadKeys(kind, e) ==> ReadCoef(kind, e, k) == 0.0
  {
    hide Image, HomRows, Plus;
    var p := Image(kind, e.frame.generator, k).key;
    assert Undoes(kind, e.frame.generator, e.frame.readout, k);
    assert ImageKey(kind, e)(p) == k;
    if k in ReadKeys(kind, e) {
      var p' :| p' in e.terms && ImageKey(kind, e)(p') == k;
      assert Undoes(kind, e.frame.readout, e.frame.generator, p');
    }
  }

  /** Summing stored terms with signed images is summing over the read-out operator. */
  lemma ExpectationReadsOut(kind: BasisKind, n: nat, e: Engine, state: seq<bool>)
    requires FrameShape(n, e.frame) && TermsOf(e.terms, n) && FrameOk(kind, n, e.frame)
    ensures Expectation(kind, e, state) == Sum(ReadKeys(kind, e), ReadShare(kind, n, e, state))
  {
    hide FrameOk, FrameShape, ReadKeys, ImageKey, Share, ReadShare;
    var phi, f, g := ImageKey(kind, e), Share(kind, e, state), ReadShare(kind, n, e, state);
    var back := BackKey(kind, n, e);
    forall p | p in e.terms.Keys ensures phi(p) in ReadKeys(kind, e) && g(phi(p)) == f(p) && back(phi(p)) == p {
      ShareAt(kind, n, e, state, p);
    }
    forall k | k in ReadKeys(kind, e) ensures exists p :: p in e.terms.Keys && phi(p) == k {
      ReadKeyHasSource(kind, e, k);
    }
    SumImage(e.terms.Keys, ReadKeys(kind, e), phi, f, g);
  }

  function BackKey(kind: BasisKind, n: nat, e: Engine): Key -> Key
  {
    (k: Key) => if RowsOf(e.frame.generator, |k|) then Image(kind, e.frame.generator, k).key else k
  }

  lemma ReadKeyHasSource(kind: BasisKind, e: Engine, k: Key)
    requires k in ReadKeys(kind, e)
    ensures exists p :: p in e.terms.Keys && ImageKey(kind, e)(p) == k
  {
    hide ImageKey;
  }

  lemma ShareAt(kind: BasisKind, n: nat, e: Engine, state: seq<bool>, p: Key)
    requires FrameShape(n, e.frame) && TermsOf(e.terms, n) && p in e.terms && FrameOk(kind, n, e.frame)
    ensures var k := ImageKey(kind, e)(p);
      k in ReadKeys(kind, e) && ReadShare(kind, n, e, state)(k) == Share(kind, e, state)(p)
        && BackKey(kind, n, e)(k) == p
  {
    hide Image, FrameOk, Trace, ReadCoef, Applied, Coef, Share, ReadShare;
    IterationReadsOut(kind, n, e, p);
    var r := Applied(kind, e.frame.readout, p);
    assert ImageKey(kind, e)(p) == r.image;
    ShareIs(kind, e, state, p);
    ReadShareIs(kind, n, e, state, r.image);
    Commute(r.sign, Coef(e.terms, p), Trace(kind, r.image, state));
  }

  lemma ShareIs(kind: BasisKind, e: Engine, state: seq<bool>, p: Key)
    requires |p| % 2 == 0 && RowsOf(e.frame.readout, |p|)
    ensures var r := Applied(kind, e.frame.readout, p);
      Share(kind, e, state)(p) == Coef(e.terms, p) * r.sign * Trace(kind, r.image, state)
  {
    hide Trace, ReadCoef, Coef, Applied;
  }

  lemma ReadShareIs(kind: BasisKind, n: nat, e: Engine, state: seq<bool>, k: Key)
    requires |k| == n && n % 2 == 0 && RowsOf(e.frame.generator, n)
    ensures ReadShare(kind, n, e, state)(k) == ReadCoef(kind, e, k) * Trace(kind, k, state)
  {
    hide Trace, ReadCoef;
  }

  lemma Commute(x: real, y: real, z: real)
    ensures (x * y) * z == y * x * z
  {
  }

  /** Engines that read out the same coefficients have the same expectation value. */
  lemma SameReadSameExpectation(kind: BasisKind, n: nat, d: Engine, e: Engine, state: seq<bool>)
    requires FrameShape(n, d.frame) && FrameShape(n, e.frame) && TermsOf(d.terms, n) && TermsOf(e.terms, n)
    requires forall k: Key :: |k| == n ==> ReadCoef(kind, d, k) == ReadCoef(kind, e, k)
    requires FrameOk(kind, n, d.frame) && FrameOk(kind, n, e.frame)
    ensures Expectation(kind, d, state) == Expectation(kind, e, state)
  {
    hide FrameOk, ReadCoef, ReadKeys, Expectation, Trace;
    var u := ReadKeys(kind, d) + ReadKeys(kind, e);
    SumOverMore(kind, n, d, u, state);
    SumOverMore(kind, n, e, u, state);
    forall k | k in u ensures ReadShare(kind, n, d, state)(k) == ReadShare(kind, n, e, state)(k) {
    }
    SumSame(u, ReadShare(kind, n, d, state), ReadShare(kind, n, e, state));
  }

  /** Deferring Cliffords does not change the expectation value. */
  lemma {:induction false} DeferredExpectation(kind: BasisKind, n: nat, cut: Cutoff, gates: seq<Gate>, start: Terms,
                                               state: seq<bool>)
    requires n % 2 == 0 && TermsOf(start, n) && GatesOf(gates, n) && Lossless(cut)
    ensures Expectation(kind, Run(kind, n, true, cut, gates, start), state)
         == Expectation(kind, Run(kind, n, false, cut, gates, start), state)
  {
    hide Run, FrameOk, ReadCoef, Expectation;
    RunKeepsFrame(kind, n, true, cut, gates, start);
    RunKeepsFrame(kind, n, false, cut, gates, start);
    forall k: Key | |k| == n
      ensures ReadCoef(kind, Run(kind, n, true, cut, gates, start), k)
        == ReadCoef(kind, Run(kind, n, false, cut, gates, start), k)
    {
      RunIsExact(kind, n, true, cut, gates, start, k);
      RunIsExact(kind, n, false, cut, gates, start, k);
    }
    SameReadSameExpectation(kind, n, Run(kind, n, true, cut, gates, start), Run(kind, n, false, cut, gates, start),
      state);
  }

  lemma {:induction false} SumOverMore(kind: BasisKind, n: nat, e: Engine, u: set<Key>, state: seq<bool>)
    requires FrameShape(n, e.frame) && TermsOf(e.terms, n) && FrameOk(kind, n, e.frame)
    requires ReadKeys(kind, e) <= u
    ensures Expectation(kind, e, state) == Sum(u, ReadShare(kind, n, e, state))
  {
    hide FrameOk, ReadCoef, ReadKeys, Expectation, Trace;
    var g := ReadShare(kind, n, e, state);
    ExpectationReadsOut(kind, n, e, state);
    forall k | k in u && k !in ReadKeys(kind, e) ensures g(k) == 0.0 {
      if |k| == n {
        NotReadIsZero(kind, n, e, k);
      }
    }
    SumExtend(ReadKeys(kind, e), u, g);
  }

  // ---- live keys ----------------------------------------------------------------

  /** The key is among those the engine reads out. */
  predicate KeyRead(kind: BasisKind, e: Engine, k: Key)
  {
    RowsOf(e.frame.generator, |k|) && Image(kind, e.frame.generator, k).key in e.terms
  }

  /** Exactly which keys are read out after a gate. */
  lemma KeysAfter(kind: BasisKind, n: nat, defer: bool, cut: Cutoff, e: Engine, g: Gate, k: Key)
    requires FrameShape(n, e.frame) && TermsOf(e.terms, n) && GateOf(g, n) && |k| == n && Lossless(cut)
    requires FrameOk(kind, n, e.frame)
    ensures var q := Partner(PlainTurn(g), k);
      KeyRead(kind, EngineStep(kind, n, defer, cut, e, g), k) ==
        if g.sin == 0.0 || !Anticommutes(kind, g.gen, k) then KeyRead(kind, e, k)
        else if defer && g.cos == 0.0 then KeyRead(kind, e, q)
        else KeyRead(kind, e, k) || KeyRead(kind, e, q)
  {
    hide Image, HomRows, ComposeFrames, RotationRows, UndoesAll, ChangesSupport, Anticommutes, Xor, StatusOf, PhaseExp,
      Plus;
    var cut' := AtSize(cut, |e.terms|);
    if e.terms == map[] {
    } else if Defers(kind, defer, cut', g) {
      SineIsSign(g);
      RotationFrameOk(kind, g.gen, g.sin);
      ComposeFramesImage(kind, n, e.frame, RotationFrame(kind, g.gen, g.sin), k);
      RotationRowsAreConjugation(kind, g.gen, -g.sin, k);
    } else if g.sin != 0.0 {
      var t := PulledBack(kind, e.frame, g);
      var p := Image(kind, e.frame.generator, k).key;
      ImageAnticommutes(kind, e.frame.generator, g.gen, k);
      PairStepAt(kind, t, cut', e.terms, p);
      PartnerAnticommutes(kind, t, p);
      if Partner(t, p) in e.terms {
        LosslessAlwaysEmits(kind, t, cut', Partner(t, p), e.terms[Partner(t, p)]);
      }
    }
  }

  lemma EagerKeyRead(kind: BasisKind, n: nat, e: Engine, k: Key)
    requires n % 2 == 0 && e.frame == IdentityFrame(n) && |k| == n
    ensures KeyRead(kind, e, k) <==> k in e.terms
  {
    hide IdentityRows;
    IdentityIsHomomorphism(kind, n);
  }

  /**
   Every key a deferring run reads out is live in the eager run; the eager run's other keys
   carry coefficient zero there (a Clifford applied eagerly leaves its damped rows behind).
   */
  lemma {:induction false} DeferredKeysAreLive(kind: BasisKind, n: nat, cut: Cutoff, gates: seq<Gate>, start: Terms,
                                               k: Key)
    requires n % 2 == 0 && TermsOf(start, n) && GatesOf(gates, n) && Lossless(cut) && |k| == n
    ensures var d := Run(kind, n, true, cut, gates, start);
      var e := Run(kind, n, false, cut, gates, start);
      if KeyRead(kind, d, k) then k in e.terms else Coef(e.terms, k) == 0.0
    decreases |gates|
  {
    hide Image, FrameOk, EngineStep, Anticommutes, Xor, KeyRead;
    var d, e := Run(kind, n, true, cut, gates, start), Run(kind, n, false, cut, gates, start);
    DeferredIsEager(kind, n, cut, gates, start, k);
    NotReadOut(kind, n, d, k);
    EagerFrame(kind, n, cut, gates, start);
    EagerKeyRead(kind, n, e, k);
    if gates == [] {
      assert d == e;
    } else {
      var g, rest := gates[|gates| - 1], gates[..|gates| - 1];
      var q := Partner(PlainTurn(g), k);
      RunKeepsFrame(kind, n, true, cut, rest, start);
      RunKeepsFrame(kind, n, false, cut, rest, start);
      EagerFrame(kind, n, cut, rest, start);
      var d0, e0 := Run(kind, n, true, cut, rest, start), Run(kind, n, false, cut, rest, start);
      DeferredKeysAreLive(kind, n, cut, rest, start, k);
      DeferredKeysAreLive(kind, n, cut, rest, start, q);
      EagerKeyRead(kind, n, e0, k);
      EagerKeyRead(kind, n, e0, q);
      KeysAfter(kind, n, true, cut, d0, g, k);
      KeysAfter(kind, n, false, cut, e0, g, k);
    }
  }

  lemma NotReadOut(kind: BasisKind, n: nat, e: Engine, k: Key)
    requires FrameShape(n, e.frame) && |k| == n
    ensures !KeyRead(kind, e, k) ==> ReadCoef(kind, e, k) == 0.0
  {
  }

  // ---- when the two runs have the same live keys --------------------------------

  ghost predicate SameKeys(kind: BasisKind, n: nat, d: Engine, e: Engine)
  {
    forall k: Key | |k| == n :: KeyRead(kind, d, k) == KeyRead(kind, e, k)
  }

  /** Every live key that anticommutes with the generator has a live partner. */
  ghost predicate AllPaired(kind: BasisKind, g: Gate, m: Terms)
  {
    forall k ::
      k in m && |k| == |g.gen| && |k| % 2 == 0 && Anticommutes(kind, g.gen, k) ==> Partner(PlainTurn(g), k) in m
  }

  /**
   If the deferring and the eager engine read out the same keys before a gate, they do so after
   it if and only if the gate is no Clifford or every live key it touches has a live partner.
   */
  lemma KeysAgreeIff(kind: BasisKind, n: nat, cut: Cutoff, d: Engine, e: Engine, g: Gate)
    requires FrameShape(n, d.frame) && FrameShape(n, e.frame) && TermsOf(d.terms, n) && TermsOf(e.terms, n)
    requires FrameOk(kind, n, d.frame) && FrameOk(kind, n, e.frame) && e.frame == IdentityFrame(n)
    requires GateOf(g, n) && Lossless(cut) && SameKeys(kind, n, d, e)
    ensures SameKeys(kind, n, EngineStep(kind, n, true, cut, d, g), EngineStep(kind, n, false, cut, e, g))
       <==> (g.cos == 0.0 ==> AllPaired(kind, g, e.terms))
  {
    hide FrameOk, EngineStep, Anticommutes, KeyRead, Xor, IdentityRows, FrameShape;
    var d', e', t := EngineStep(kind, n, true, cut, d, g), EngineStep(kind, n, false, cut, e, g), PlainTurn(g);
    forall k: Key | |k| == n
      ensures KeyRead(kind, d', k) == KeyRead(kind, e', k) <==>
        (g.cos == 0.0 && Anticommutes(kind, g.gen, k) ==> (k in e.terms ==> Partner(t, k) in e.terms))
    {
      KeysAfter(kind, n, true, cut, d, g, k);
      KeysAfter(kind, n, false, cut, e, g, k);
      EagerKeyRead(kind, n, e, k);
      EagerKeyRead(kind, n, e, Partner(t, k));
      assert KeyRead(kind, d, Partner(t, k)) == KeyRead(kind, e, Partner(t, k));
    }
  }

  /** At the `i`-th gate of the eager run every key a Clifford touches has a live partner. */
  ghost predicate PairedAt(kind: BasisKind, n: nat, cut: Cutoff, gates: seq<Gate>, start: Terms, i: nat)
    requires n % 2 == 0 && TermsOf(start, n) && GatesOf(gates, n) && i < |gates|
  {
    gates[i].cos == 0.0 ==> AllPaired(kind, gates[i], Run(kind, n, false, cut, gates[..i], start).terms)
  }

  /** After the first `i` gates the two runs read out the same keys. */
  ghost predicate AgreeAfter(kind: BasisKind, n: nat, cut: Cutoff, gates: seq<Gate>, start: Terms, i: nat)
    requires n % 2 == 0 && TermsOf(start, n) && GatesOf(gates, n) && i <= |gates|
  {
    SameKeys(kind, n, Run(kind, n, true, cut, gates[..i], start), Run(kind, n, false, cut, gates[..i], start))
  }

  lemma AgreeNext(kind: BasisKind, n: nat, cut: Cutoff, gates: seq<Gate>, start: Terms, i: nat)
    requires n % 2 == 0 && TermsOf(start, n) && GatesOf(gates, n) && Lossless(cut) && i < |gates|
    requires AgreeAfter(kind, n, cut, gates, start, i)
    ensures AgreeAfter(kind, n, cut, gates, start, i + 1) <==> PairedAt(kind, n, cut, gates, start, i)
  {
    hide EngineStep, FrameOk, SameKeys, AllPaired;
    var rest := gates[..i];
    assert gates[..i + 1][..i] == rest;
    RunKeepsFrame(kind, n, true, cut, rest, start);
    RunKeepsFrame(kind, n, false, cut, rest, start);
    EagerFrame(kind, n, cut, rest, start);
    KeysAgreeIff(kind, n, cut, Run(kind, n, true, cut, rest, start), Run(kind, n, false, cut, rest, start), gates[i]);
  }

  lemma {:induction false} AgreeWhilePaired(kind: BasisKind, n: nat, cut: Cutoff, gates: seq<Gate>, start: Terms,
                                            i: nat)
    requires n % 2 == 0 && TermsOf(start, n) && GatesOf(gates, n) && Lossless(cut) && i <= |gates|
    requires forall j: nat :: j < i ==> PairedAt(kind, n, cut, gates, start, j)
    ensures AgreeAfter(kind, n, cut, gates, start, i)
    decreases i
  {
    hide EngineStep, PairedAt, KeyRead;
    if i > 0 {
      AgreeWhilePaired(kind, n, cut, gates, start, i - 1);
      AgreeNext(kind, n, cut, gates, start, i - 1);
    }
  }

  /**
   For whole circuits: the deferring run reads out the eager run's keys after every gate if and
   only if every Clifford of the circuit meets its live keys in pairs.
   */
  lemma SameKeysThroughoutIff(kind: BasisKind, n: nat, cut: Cutoff, gates: seq<Gate>, start: Terms)
    requires n % 2 == 0 && TermsOf(start, n) && GatesOf(gates, n) && Lossless(cut)
    ensures (forall i: nat :: i <= |gates| ==> AgreeAfter(kind, n, cut, gates, start, i))
       <==> (forall i: nat :: i < |gates| ==> PairedAt(kind, n, cut, gates, start, i))
  {
    hide AgreeAfter, PairedAt;
    if forall i: nat :: i <= |gates| ==> AgreeAfter(kind, n, cut, gates, start, i) {
      forall i: nat | i < |gates| ensures PairedAt(kind, n, cut, gates, start, i) {
        ghost var next := i + 1;
        assert AgreeAfter(kind, n, cut, gates, start, next);
        AgreeNext(kind, n, cut, gates, start, i);
      }
    }
    if forall i: nat :: i < |gates| ==> PairedAt(kind, n, cut, gates, start, i) {
      forall i: nat | i <= |gates| ensures AgreeAfter(kind, n, cut, gates, start, i) {
        AgreeWhilePaired(kind, n, cut, gates, start, i);
      }
    }
  }

  /** One X rotation of Z by a quarter turn: the eager run keeps Z as a row of coefficient 0. */
  lemma OneCliffordDiffers()
    ensures var g := Gate([true, false], 0.0, 1.0);
      var start: Terms := map[[false, true] := 1.0];
      && GatesOf([g], 2) && TermsOf(start, 2)
      && KeyRead(Pauli, Run(Pauli, 2, false, NoCutoff(), [g], start), [false, true])
      && !KeyRead(Pauli, Run(Pauli, 2, true, NoCutoff(), [g], start), [false, true])
  {
    var g := Gate([true, false], 0.0, 1.0);
    var start: Terms := map[[false, true] := 1.0];
    var z: Key := [false, true];
    assert GatesOf([g], 2) && TermsOf(start, 2);
    var e := Engine(IdentityFrame(2), start);
    OneCliffordKeys(g, start, z, e);
    assert [g][..0] == [];
    assert Run(Pauli, 2, false, NoCutoff(), [], start) == e && Run(Pauli, 2, true, NoCutoff(), [], start) == e;
  }

  lemma OneCliffordKeys(g: Gate, start: Terms, z: Key, e: Engine)
    requires g == Gate([true, false], 0.0, 1.0) && start == map[[false, true] := 1.0] && z == [false, true]
    requires e == Engine(IdentityFrame(2), start) && TermsOf(start, 2) && GateOf(g, 2) && FrameShape(2, e.frame)
    ensures KeyRead(Pauli, EngineStep(Pauli, 2, false, NoCutoff(), e, g), z)
    ensures !KeyRead(Pauli, EngineStep(Pauli, 2, true, NoCutoff(), e, g), z)
  {
    hide EngineStep, IdentityRows, FrameOk, KeyRead, Image;
    IdentityFrameOk(Pauli, 2);
    assert Anticommutes(Pauli, g.gen, z) by { XMeetsZ(); }
    KeysAfter(Pauli, 2, false, NoCutoff(), e, g, z);
    KeysAfter(Pauli, 2, true, NoCutoff(), e, g, z);
    EagerKeyRead(Pauli, 2, e, z);
    EagerKeyRead(Pauli, 2, e, Partner(PlainTurn(g), z));
    assert Partner(PlainTurn(g), z)[0];
  }

  lemma XMeetsZ()
    ensures Anticommutes(Pauli, [true, false], [false, true])
  {
    AnticommutesIsImaginary(Pauli, [true, false], [false, true]);
  }

  // ---- the weight bound ---------------------------------------------------------

  /** The floor never switches the cutoffs off for an operator that is not empty. */
  predicate NoFloor(cut: Cutoff) { cut.minTerms.None? || cut.minTerms.value <= 1 }

  /** Without a term floor one gate keeps the stored keys inside the weight bound. */
  lemma StepInBound(kind: BasisKind, n: nat, defer: bool, cut: Cutoff, e: Engine, g: Gate)
    requires FrameShape(n, e.frame) && TermsOf(e.terms, n) && GateOf(g, n)
    requires NoFloor(cut) && WithinBound(kind, cut, e.terms, n)
    ensures WithinBound(kind, cut, EngineStep(kind, n, defer, cut, e, g).terms, n)
  {
    hide Image, ComposeFrames, RotationRows, Anticommutes, Xor, ChangesSupport, Weight;
    var t := PulledBack(kind, e.frame, g);
    PulledShape(kind, n, e.frame, g);
    if e.terms != map[] && !Defers(kind, defer, cut, g) && g.sin != 0.0 {
      PairStepInBound(kind, t, cut, e.terms);
    }
  }

  /** Branches over the bound are never created. */
  lemma PairStepInBound(kind: BasisKind, t: Turn, cut: Cutoff, m: Terms)
    requires |t.gen| % 2 == 0 && TermsOf(m, |t.gen|) && WithinBound(kind, cut, m, |t.gen|)
    ensures WithinBound(kind, cut, PairStep(kind, t, cut, m), |t.gen|)
  {
    hide Anticommutes, Xor, Weight, Branch, AdmitsChild;
    forall k | k in PairStep(kind, t, cut, m) ensures AdmitsKey(kind, cut, k) {
      PairStepAt(kind, t, cut, m, k);
      PartnerTwice(t, k);
    }
  }

  /** Without a term floor a run that starts inside the weight bound stays inside it. */
  lemma {:induction false} RunInBound(kind: BasisKind, n: nat, defer: bool, cut: Cutoff, gates: seq<Gate>, start: Terms)
    requires n % 2 == 0 && TermsOf(start, n) && GatesOf(gates, n)
    requires NoFloor(cut) && WithinBound(kind, cut, start, n)
    ensures WithinBound(kind, cut, Run(kind, n, defer, cut, gates, start).terms, n)
    decreases |gates|
  {
    hide EngineStep, WithinBound;
    if gates != [] {
      var rest := gates[..|gates| - 1];
      RunInBound(kind, n, defer, cut, rest, start);
      StepInBound(kind, n, defer, cut, Run(kind, n, defer, cut, rest, start), gates[|gates| - 1]);
    }
  }

  // ---- weight cutoffs and deferral ----------------------------------------------

  ghost predicate KeepsWeight(n: nat, rows: seq<Row>)
    requires RowsOf(rows, n)
  {
    forall m: Key {:trigger Image(Pauli, rows, m)} | |m| == n :: Support(Image(Pauli, rows, m).key) == Support(m)
  }

  lemma {:induction false} RunKeepsWeight(n: nat, cut: Cutoff, gates: seq<Gate>, start: Terms)
    requires n % 2 == 0 && TermsOf(start, n) && GatesOf(gates, n)
    requires NoFloor(cut) && cut.maxWeight.Some?
    ensures KeepsWeight(n, Run(Pauli, n, true, cut, gates, start).frame.readout)
    decreases |gates|
  {
    hide Image, FrameOk, EngineStep, Support;
    if gates == [] {
      IdentityIsHomomorphism(Pauli, n);
    } else {
      var g, rest := gates[|gates| - 1], gates[..|gates| - 1];
      RunKeepsWeight(n, cut, rest, start);
      RunKeepsFrame(Pauli, n, true, cut, rest, start);
      forall m: Key | |m| == n
        ensures Support(Image(Pauli, Run(Pauli, n, true, cut, gates, start).frame.readout, m).key) == Support(m)
      {
        StepKeepsWeight(n, cut, Run(Pauli, n, true, cut, rest, start), g, m);
      }
    }
  }

  lemma StepKeepsWeight(n: nat, cut: Cutoff, e: Engine, g: Gate, m: Key)
    requires FrameShape(n, e.frame) && TermsOf(e.terms, n) && GateOf(g, n) && |m| == n
    requires NoFloor(cut) && cut.maxWeight.Some? && KeepsWeight(n, e.frame.readout) && FrameOk(Pauli, n, e.frame)
    ensures Support(Image(Pauli, EngineStep(Pauli, n, true, cut, e, g).frame.readout, m).key) == Support(m)
  {
    hide Image, FrameOk, PairStep, ScaleStep, ComposeFrames, RotationRows, ChangesSupport, Support, PulledBack;
    if e.terms != map[] && Defers(Pauli, true, cut, g) {
      SineIsSign(g);
      RotationFrameOk(Pauli, g.gen, g.sin);
      ComposeFramesImage(Pauli, n, e.frame, RotationFrame(Pauli, g.gen, g.sin), m);
      ClearedStepKeepsWeight(g.gen, g.sin, Image(Pauli, e.frame.readout, m).key);
    }
  }

  /**
   A Pauli run under a weight cutoff without a floor or a plugin: every stored term weighs
   what its read-out weighs, and no term ever exceeds the cutoff, deferred Cliffords included.
   */
  lemma {:induction false} PauliWeightCutoffHolds(n: nat, cut: Cutoff, gates: seq<Gate>, start: Terms, p: Key)
    requires n % 2 == 0 && TermsOf(start, n) && GatesOf(gates, n)
    requires NoFloor(cut) && cut.maxWeight.Some? && cut.kernel.None? && WithinBound(Pauli, cut, start, n)
    requires p in Run(Pauli, n, true, cut, gates, start).terms
    ensures var e := Run(Pauli, n, true, cut, gates, start);
      Support(Applied(Pauli, e.frame.readout, p).image) == Support(p) <= cut.maxWeight.value
  {
    hide Image, Run, Support;
    RunKeepsWeight(n, cut, gates, start);
    RunInBound(Pauli, n, true, cut, gates, start);
  }
}
