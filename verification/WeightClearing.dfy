/**
 The deferral test compares supports. For Pauli strings support is weight, and the test is
 exact. For monomials it is not: the weight that a cutoff bounds is that of the Jordan-Wigner
 image, and a step the test clears can change it.
 */
module WeightClearing {
  import opened BasisStrings
  import opened BasisAlgebra
  import opened TableauRows
  import opened Frames
  import opened JordanWigner
  import opened PairRule
  import opened Propagation
  import opened RunLaws
  import opened NormLaws

  /** Conjugating by the step keeps the weight of every key. */
  ghost predicate KeepsEveryWeight(kind: BasisKind, g: Key, s: real)
    requires |g| % 2 == 0 && IsSign(s)
  {
    forall m: Key {:trigger Image(kind, RotationFrame(kind, g, s).readout, m)} | |m| == |g| ::
      Weight(kind, Image(kind, RotationFrame(kind, g, s).readout, m).key) == Weight(kind, m)
  }

  /** The Pauli generator two units wide, and one of the strings it branches. */
  function PairOfEvenModes(): Key { [true, false, true, false] }

  /**
   Swapping the even modes of two sites passes the test, since every generator stays on one
   site, and yet it takes a monomial of weight 1 to one of weight 2.
   */
  lemma ClearedMajoranaStepChangesWeight()
    ensures var g := PairOfEvenModes();
      var rows := RotationFrame(Majorana, g, 1.0).readout;
      && !ChangesSupport(rows)
      && Weight(Majorana, Unit(4, 0)) == 1
      && Weight(Majorana, Image(Majorana, rows, Unit(4, 0)).key) == 2
  {
    hide Image;
    var g := PairOfEvenModes();
    var rows := RotationFrame(Majorana, g, 1.0).readout;
    forall p | 0 <= p < 4 ensures Support(rows[p].image) == Support(Unit(4, p)) {
      UnitUnderPair(p);
      UnitUnderPair(if p == 0 then 2 else if p == 2 then 0 else p);
    }
    UnitUnderPair(0);
    RotationRowsAreConjugation(Majorana, g, 1.0, Unit(4, 0));
    assert Unit(4, 0) == [true, false, false, false] && Unit(4, 2) == [false, false, true, false];
    LettersOfMode();
  }

  /** The image of each generator under the swap. */
  lemma UnitUnderPair(p: nat)
    requires p < 4
    ensures var g := PairOfEvenModes();
      && Anticommutes(Majorana, g, Unit(4, p)) == (p % 2 == 0)
      && RotationRow(Majorana, g, 1.0, p).image == Unit(4, if p == 0 then 2 else if p == 2 then 0 else p)
      && Support(Unit(4, p)) == 1
  {
    var g, u := PairOfEvenModes(), Unit(4, p);
    CountFour(g);
    CountFour(u);
    CountAndFour(u, g);
    UnitSupportFrom(4, p, 0);
    assert p == 0 ==> Xor(g, u) == Unit(4, 2);
    assert p == 2 ==> Xor(g, u) == Unit(4, 0);
  }

  lemma CountFour(a: Key)
    requires |a| == 4
    ensures Count(a) == Bit(a[0]) + Bit(a[1]) + Bit(a[2]) + Bit(a[3])
  {
    assert CountFrom(a, 3) == Bit(a[3]);
    assert CountFrom(a, 2) == Bit(a[2]) + Bit(a[3]);
    assert CountFrom(a, 1) == Bit(a[1]) + CountFrom(a, 2);
  }

  lemma CountAndFour(a: Key, b: Key)
    requires |a| == |b| == 4
    ensures CountAnd(a, b) == Bit(a[0] && b[0]) + Bit(a[1] && b[1]) + Bit(a[2] && b[2]) + Bit(a[3] && b[3])
  {
    assert CountAndFrom(a, b, 3) == Bit(a[3] && b[3]);
    assert CountAndFrom(a, b, 2) == Bit(a[2] && b[2]) + Bit(a[3] && b[3]);
    assert CountAndFrom(a, b, 1) == Bit(a[1] && b[1]) + CountAndFrom(a, b, 2);
  }

  /** The even mode of site 0 is one letter; that of site 1 drags a Z along. */
  lemma LettersOfMode()
    ensures Support(ToPauli([true, false, false, false])) == 1
    ensures Support(ToPauli([false, false, true, false])) == 2
  {
    var a, b := [true, false, false, false], [false, false, true, false];
    assert !SingleAbove(a, 2) && !SingleAbove(a, 1) && !SingleAbove(b, 2) && SingleAbove(b, 1);
    PauliAt(a, 0);
    PauliAt(a, 1);
    PauliAt(b, 0);
    PauliAt(b, 1);
    SupportTwo(ToPauli(a));
    SupportTwo(ToPauli(b));
  }

  lemma SupportTwo(p: Key)
    requires |p| == 4
    ensures Support(p) == Bit(p[0] || p[1]) + Bit(p[2] || p[3])
  {
    assert SupportFrom(p, 1) == Bit(p[2] || p[3]);
  }

  /** Conjugation of monomials is conjugation of their Pauli strings. */
  lemma ImagesCorrespond(g: Key, s: real, m: Key)
    requires |g| == |m| && |g| % 2 == 0 && IsSign(s)
    ensures ToPauli(Image(Majorana, RotationFrame(Majorana, g, s).readout, m).key)
         == Image(Pauli, RotationFrame(Pauli, ToPauli(g), s).readout, ToPauli(m)).key
  {
    hide Image, RotationRows, Anticommutes, PhaseExp, HomRows, Plus, ToPauli, ToModes, Xor;
    RotationRowsAreConjugation(Majorana, g, s, m);
    RotationRowsAreConjugation(Pauli, ToPauli(g), s, ToPauli(m));
    ModesRoundTrip(g);
    ModesRoundTrip(m);
    JwAnticommutes(ToPauli(g), ToPauli(m));
    ToModesLinear(ToPauli(g), ToPauli(m));
    PauliRoundTrip(Xor(ToPauli(g), ToPauli(m)));
  }

  /**
   Exactly when a Clifford about a monomial keeps the weight of everything: its own
   Jordan-Wigner image covers at most one qubit. For Pauli strings that is the deferral test.
   */
  lemma MajoranaKeepsWeightIff(g: Key, s: real)
    requires |g| % 2 == 0 && IsSign(s)
    ensures KeepsEveryWeight(Majorana, g, s) <==> Weight(Majorana, g) <= 1
  {
    hide Image, RotationRows, ToPauli, ToModes, Support;
    var p := ToPauli(g);
    PauliKeepsWeightIff(p, s);
    if KeepsEveryWeight(Majorana, g, s) {
      forall m: Key | |m| == |g|
        ensures Weight(Pauli, Image(Pauli, RotationFrame(Pauli, p, s).readout, m).key) == Weight(Pauli, m)
      {
        ImagesCorrespond(g, s, ToModes(m));
        PauliRoundTrip(m);
        assert Weight(Majorana, ToModes(m)) == Weight(Pauli, m);
      }
    }
    if KeepsEveryWeight(Pauli, p, s) {
      forall m: Key | |m| == |g|
        ensures Weight(Majorana, Image(Majorana, RotationFrame(Majorana, g, s).readout, m).key) == Weight(Majorana, m)
      {
        ImagesCorrespond(g, s, m);
        assert Weight(Pauli, ToPauli(m)) == Weight(Majorana, m);
      }
    }
  }

  lemma PauliKeepsWeightIff(g: Key, s: real)
    requires |g| % 2 == 0 && IsSign(s)
    ensures KeepsEveryWeight(Pauli, g, s) <==> Weight(Pauli, g) <= 1
    ensures Weight(Pauli, g) <= 1 <==> !ChangesSupport(RotationFrame(Pauli, g, s).readout)
  {
    hide Image, RotationRows, Support;
    var rows := RotationFrame(Pauli, g, s).readout;
    ChangesSupportIffTwoUnits(g, s);
    if Weight(Pauli, g) <= 1 {
      forall m: Key | |m| == |g| ensures Weight(Pauli, Image(Pauli, rows, m).key) == Weight(Pauli, m) {
        ClearedStepKeepsWeight(g, s, m);
      }
    } else {
      var p :| 0 <= p < |rows| && Support(rows[p].image) != Support(Unit(|rows|, p));
      ImageOfUnit(Pauli, rows, p);
      assert Weight(Pauli, Unit(|rows|, p)) != Weight(Pauli, Image(Pauli, rows, Unit(|rows|, p)).key);
    }
  }

  // ---- the weight a plugin is shown ---------------------------------------------

  /** The gate is deferred although its generator spans more than one unit. */
  predicate DefersWide(n: nat, cut: Cutoff, e: Engine, g: Gate)
    requires GateOf(g, n)
  {
    e.terms != map[] && Defers(Pauli, true, AtSize(cut, |e.terms|), g) && Support(g.gen) > 1
  }

  /** A frame that keeps weights still does so after a gate exactly if the gate is not such a one. */
  lemma {:induction false} StepKeepsWeightIff(n: nat, cut: Cutoff, e: Engine, g: Gate)
    requires FrameShape(n, e.frame) && TermsOf(e.terms, n) && GateOf(g, n)
    requires KeepsWeight(n, e.frame.readout) && FrameOk(Pauli, n, e.frame)
    ensures KeepsWeight(n, EngineStep(Pauli, n, true, cut, e, g).frame.readout) <==> !DefersWide(n, cut, e, g)
  {
    hide Image, FrameOk, PairStep, ScaleStep, ComposeFrames, RotationRows, ChangesSupport, Support, PulledBack,
      KeepsWeight;
    if e.terms != map[] && Defers(Pauli, true, AtSize(cut, |e.terms|), g) {
      SineIsSign(g);
      ComposedKeepsIff(n, e.frame, g);
    }
  }

  lemma {:induction false} ComposedKeepsIff(n: nat, f: Frame, g: Gate)
    requires FrameShape(n, f) && KeepsWeight(n, f.readout) && FrameOk(Pauli, n, f) && GateOf(g, n) && IsSign(g.sin)
    ensures var c := ComposeFrames(Pauli, f, RotationFrame(Pauli, g.gen, g.sin));
      RowsOf(c.readout, n) && (KeepsWeight(n, c.readout) <==> Support(g.gen) <= 1)
  {
    hide Image, FrameOk, ComposeFrames, RotationRows, Support, KeepsEveryWeight, ApplyTo;
    var next := RotationFrame(Pauli, g.gen, g.sin);
    var c := ComposeFrames(Pauli, f, next);
    ComposedImage(n, f, g, Zero(n));
    PauliKeepsWeightIff(g.gen, g.sin);
    if Support(g.gen) <= 1 {
      forall m: Key | |m| == n ensures Support(Image(Pauli, c.readout, m).key) == Support(m) {
        ComposedImage(n, f, g, m);
        ClearedStepKeepsWeight(g.gen, g.sin, Image(Pauli, f.readout, m).key);
      }
    } else {
      var x := LosesWeight(g.gen, g.sin);
      var m := Image(Pauli, f.generator, x).key;
      BackAndForth(n, f, x);
      ComposedImage(n, f, g, m);
      assert Support(Image(Pauli, c.readout, m).key) != Support(m);
    }
  }

  lemma ComposedImage(n: nat, f: Frame, g: Gate, m: Key)
    requires FrameShape(n, f) && FrameOk(Pauli, n, f) && GateOf(g, n) && IsSign(g.sin) && |m| == n
    ensures var next := RotationFrame(Pauli, g.gen, g.sin);
      var c := ComposeFrames(Pauli, f, next);
      && RowsOf(c.readout, n) && RowsOf(next.readout, n) && |Image(Pauli, f.readout, m).key| == n
      && Image(Pauli, c.readout, m).key == Image(Pauli, next.readout, Image(Pauli, f.readout, m).key).key
  {
    hide Image, FrameOk, ComposeFrames, RotationRows;
    RotationFrameOk(Pauli, g.gen, g.sin);
    ComposeFramesImage(Pauli, n, f, RotationFrame(Pauli, g.gen, g.sin), m);
  }

  /** A step about a wide generator changes the weight of some key. */
  lemma LosesWeight(g: Key, s: real) returns (x: Key)
    requires |g| % 2 == 0 && IsSign(s) && !KeepsEveryWeight(Pauli, g, s)
    ensures |x| == |g| && Support(Image(Pauli, RotationFrame(Pauli, g, s).readout, x).key) != Support(x)
  {
    hide Image, RotationRows, Support;
    x :| |x| == |g| && Weight(Pauli, Image(Pauli, RotationFrame(Pauli, g, s).readout, x).key) != Weight(Pauli, x);
  }

  lemma BackAndForth(n: nat, f: Frame, x: Key)
    requires FrameOk(Pauli, n, f) && |x| == n
    ensures RowsOf(f.readout, n) && RowsOf(f.generator, n)
    ensures var m := Image(Pauli, f.generator, x).key; |m| == n && Image(Pauli, f.readout, m).key == x
  {
    hide Image, HomRows;
    assert Undoes(Pauli, f.generator, f.readout, x);
  }

  ghost predicate KeepsAfter(n: nat, cut: Cutoff, gates: seq<Gate>, start: Terms, i: nat)
    requires n % 2 == 0 && TermsOf(start, n) && GatesOf(gates, n) && i <= |gates|
  {
    KeepsWeight(n, Run(Pauli, n, true, cut, gates[..i], start).frame.readout)
  }

  predicate DefersWideAt(n: nat, cut: Cutoff, gates: seq<Gate>, start: Terms, i: nat)
    requires n % 2 == 0 && TermsOf(start, n) && GatesOf(gates, n) && i < |gates|
  {
    DefersWide(n, cut, Run(Pauli, n, true, cut, gates[..i], start), gates[i])
  }

  lemma {:induction false} KeepsNext(n: nat, cut: Cutoff, gates: seq<Gate>, start: Terms, i: nat)
    requires n % 2 == 0 && TermsOf(start, n) && GatesOf(gates, n) && i < |gates| && KeepsAfter(n, cut, gates, start, i)
    ensures KeepsAfter(n, cut, gates, start, i + 1) <==> !DefersWideAt(n, cut, gates, start, i)
  {
    hide EngineStep, DefersWide, KeepsWeight, FrameOk;
    assert gates[..i + 1][..i] == gates[..i];
    RunKeepsFrame(Pauli, n, true, cut, gates[..i], start);
    StepKeepsWeightIff(n, cut, Run(Pauli, n, true, cut, gates[..i], start), gates[i]);
  }

  lemma {:induction false} IdentityKeeps(n: nat)
    requires n % 2 == 0
    ensures RowsOf(IdentityRows(n), n) && KeepsWeight(n, IdentityRows(n))
  {
    hide Image, Support, IdentityRows;
    IdentityIsHomomorphism(Pauli, n);
  }

  lemma {:induction false} KeepsWhileNarrow(n: nat, cut: Cutoff, gates: seq<Gate>, start: Terms, i: nat)
    requires n % 2 == 0 && TermsOf(start, n) && GatesOf(gates, n) && i <= |gates|
    requires forall j: nat :: j < i ==> !DefersWideAt(n, cut, gates, start, j)
    ensures KeepsAfter(n, cut, gates, start, i)
  {
    hide EngineStep, DefersWide, Image, Support, KeepsWeight;
    if i == 0 {
      assert gates[..0] == [];
      IdentityKeeps(n);
    } else {
      KeepsWhileNarrow(n, cut, gates, start, i - 1);
      KeepsNext(n, cut, gates, start, i - 1);
    }
  }

  /**
   A plugin is shown the weight of the stored key. In a deferring Pauli run that is the weight
   of what is read out, for every key and after every gate, exactly if no gate on more than one
   unit is deferred. A weight bound without a floor rules such gates out; a plugin alone does not.
   */
  lemma {:induction false} StoredWeightIsReadWeightIff(n: nat, cut: Cutoff, gates: seq<Gate>, start: Terms)
    requires n % 2 == 0 && TermsOf(start, n) && GatesOf(gates, n)
    ensures (forall i: nat :: i <= |gates| ==> KeepsAfter(n, cut, gates, start, i))
       <==> (forall i: nat :: i < |gates| ==> !DefersWideAt(n, cut, gates, start, i))
  {
    hide KeepsAfter, DefersWideAt;
    if forall i: nat :: i <= |gates| ==> KeepsAfter(n, cut, gates, start, i) {
      forall i: nat | i < |gates| ensures !DefersWideAt(n, cut, gates, start, i) {
        assert KeepsAfter(n, cut, gates, start, i) && KeepsAfter(n, cut, gates, start, i + 1);
        KeepsNext(n, cut, gates, start, i);
      }
    }
    if forall i: nat :: i < |gates| ==> !DefersWideAt(n, cut, gates, start, i) {
      forall i: nat | i <= |gates| ensures KeepsAfter(n, cut, gates, start, i) {
        KeepsWhileNarrow(n, cut, gates, start, i);
      }
    }
  }

  /**
   With a plugin and no weight bound a quarter turn about ZZ is deferred. X stays stored, with
   weight 1, and is read out as YZ, of weight 2.
   */
  lemma {:induction false} PluginCanMisread(cut: Cutoff)
    requires cut.maxWeight.None?
    ensures var gates := [Gate(AboutZZ(0.8).gen, 0.0, 1.0)];
      var start: Terms := map[X_ALONE := 1.0];
      && TermsOf(start, 4) && GatesOf(gates, 4)
      && var e := Run(Pauli, 4, true, cut, gates, start);
        && e.terms == start && Weight(Pauli, X_ALONE) == 1
        && Applied(Pauli, e.frame.readout, X_ALONE).image == Y_AND_Z && Weight(Pauli, Y_AND_Z) == 2
  {
    hide ComposeFrames, RotationRows, Weight, Image, Run, IdentityRows;
    var g := Gate(AboutZZ(0.8).gen, 0.0, 1.0);
    XMeetsZZ(0.8);
    DeferredAlone(cut, g, map[X_ALONE := 1.0]);
    ReadsAsBranch(g);
  }

  /** A run of one deferred gate. */
  lemma {:induction false} DeferredAlone(cut: Cutoff, g: Gate, start: Terms)
    requires cut.maxWeight.None? && GateOf(g, 4) && g.cos == 0.0 && IsSign(g.sin) && TermsOf(start, 4)
      && X_ALONE in start
    ensures FrameShape(4, IdentityFrame(4))
    ensures Run(Pauli, 4, true, cut, [g], start)
         == Engine(ComposeFrames(Pauli, IdentityFrame(4), RotationFrame(Pauli, g.gen, g.sin)), start)
  {
    hide ComposeFrames, RotationRows, IdentityRows, ChangesSupport, FrameOk;
    IdentityFrameOk(Pauli, 4);
    assert [g][..0] == [];
    assert Run(Pauli, 4, true, cut, [], start) == Engine(IdentityFrame(4), start);
  }

  lemma {:induction false} ReadsAsBranch(g: Gate)
    requires g == Gate(AboutZZ(0.8).gen, 0.0, 1.0) && FrameShape(4, IdentityFrame(4))
    ensures var c := ComposeFrames(Pauli, IdentityFrame(4), RotationFrame(Pauli, g.gen, g.sin));
      RowsOf(c.readout, 4) && Applied(Pauli, c.readout, X_ALONE).image == Y_AND_Z
  {
    hide ComposeFrames, RotationRows, Image, IdentityRows, FrameOk;
    IdentityFrameOk(Pauli, 4);
    IdentityBothWays(Pauli, 4, IdentityFrame(4), X_ALONE);
    ComposedImage(4, IdentityFrame(4), g, X_ALONE);
    QuarterTurn(g.gen);
  }

  lemma QuarterTurn(g: Key)
    requires g == AboutZZ(0.8).gen
    ensures Image(Pauli, RotationFrame(Pauli, g, 1.0).readout, X_ALONE).key == Y_AND_Z
  {
    hide Image, RotationRows, Anticommutes, PhaseExp, HomRows, Plus;
    XMeetsZZ(0.8);
    RotationRowsAreConjugation(Pauli, g, 1.0, X_ALONE);
  }
}
