/**
 Whole runs: an engine holds stored terms and a frame, and what it reads out is the stored
 terms pushed through the frame. A run that defers its Clifford gates reads out exactly what
 the run that applies every gate reads out, and a gate never increases the norm.
 */
module Propagation {
  import opened BasisStrings
  import opened BasisAlgebra
  import opened TableauRows
  import opened Frames
  import opened PairRule

  datatype Engine = Engine(frame: Frame, terms: Terms)

  ghost predicate EngineOk(kind: BasisKind, n: nat, e: Engine)
  {
    FrameOk(kind, n, e.frame) && TermsOf(e.terms, n)
  }

  predicate FrameShape(n: nat, f: Frame)
  {
    RowsOf(f.readout, n) && RowsOf(f.generator, n)
  }

  /** The gate is deferred into the frame. */
  predicate Defers(kind: BasisKind, defer: bool, cut: Cutoff, g: Gate)
    requires GateOf(g, |g.gen|)
  {
    defer && g.cos == 0.0 && (SineIsSign(g);
      cut.maxWeight.None? || !ChangesSupport(RotationFrame(kind, g.gen, g.sin).readout))
  }

  /** Every single-bit string the generator branches stays on one unit. */
  predicate KeepsUnits(kind: BasisKind, g: Key)
    requires |g| % 2 == 0
  {
    forall p: nat :: p < |g| && Anticommutes(kind, g, Unit(|g|, p)) ==> Support(Xor(g, Unit(|g|, p))) == 1
  }

  /**
   A gate is deferred exactly if deferral is on, its cosine is 0, and no weight bound is in force
   or every single-bit string it branches stays on one unit.
   */
  lemma DefersIff(kind: BasisKind, defer: bool, cut: Cutoff, live: nat, g: Gate)
    requires GateOf(g, |g.gen|)
    ensures Defers(kind, defer, AtSize(cut, live), g)
      <==> defer && g.cos == 0.0
           && (cut.maxWeight.None? || (cut.minTerms.Some? && live < cut.minTerms.value) || KeepsUnits(kind, g.gen))
  {
    hide Anticommutes, Xor;
    if g.cos == 0.0 {
      SineIsSign(g);
      var n, rows := |g.gen|, RotationFrame(kind, g.gen, g.sin).readout;
      forall p: nat | p < n
        ensures Support(Unit(n, p)) == 1
        ensures rows[p].image == if Anticommutes(kind, g.gen, Unit(n, p)) then Xor(g.gen, Unit(n, p)) else Unit(n, p)
      {
        UnitSupportFrom(n, p, 0);
      }
    }
  }

  lemma SineIsSign(g: Gate)
    requires GateOf(g, |g.gen|) && g.cos == 0.0
    ensures IsSign(g.sin)
  {
    UnitSquare(g.sin);
  }

  lemma UnitSquare(x: real)
    requires x * x == 1.0
    ensures x == 1.0 || x == -1.0
  {
    var p, q := x - 1.0, x + 1.0;
    assert p * q == x * x - 1.0;
    if p != 0.0 {
      assert q == (p * q) / p;
    }
  }

  /** The rotation about the generator pulled back through the frame. */
  function PulledBack(kind: BasisKind, f: Frame, g: Gate): Turn
    requires RowsOf(f.generator, |g.gen|)
  {
    var r := Applied(kind, f.generator, g.gen);
    Turn(r.image, r.sign, g.cos, g.sin)
  }

  /** One gate, with every branch the engine takes. */
  function EngineStep(kind: BasisKind, n: nat, defer: bool, cut: Cutoff, e: Engine, g: Gate): (r: Engine)
    requires FrameShape(n, e.frame) && TermsOf(e.terms, n) && GateOf(g, n)
    ensures FrameShape(n, r.frame) && TermsOf(r.terms, n)
  {
    var cut' := AtSize(cut, |e.terms|);
    if e.terms == map[] then e
    else if Defers(kind, defer, cut', g) then
      SineIsSign(g);
      Engine(ComposeFrames(kind, e.frame, RotationFrame(kind, g.gen, g.sin)), e.terms)
    else
      var t := PulledBack(kind, e.frame, g);
      if g.sin == 0.0 then Engine(e.frame, ScaleStep(kind, t.gen, t.cos, e.terms))
      else Engine(e.frame, PairStep(kind, t, cut', e.terms))
  }

  predicate GatesOf(gates: seq<Gate>, n: nat) { forall i :: 0 <= i < |gates| ==> GateOf(gates[i], n) }

  function Run(kind: BasisKind, n: nat, defer: bool, cut: Cutoff, gates: seq<Gate>, start: Terms): (r: Engine)
    requires n % 2 == 0 && TermsOf(start, n) && GatesOf(gates, n)
    ensures FrameShape(n, r.frame) && TermsOf(r.terms, n)
  {
    if gates == [] then Engine(IdentityFrame(n), start)
    else EngineStep(kind, n, defer, cut, Run(kind, n, defer, cut, gates[..|gates| - 1], start), gates[|gates| - 1])
  }

  // ---- reading out --------------------------------------------------------------

  function SignOf(e: Exp): real { if e == 2 then -1.0 else 1.0 }

  /** The coefficient of `k` in the operator the engine stands for. */
  function ReadCoef(kind: BasisKind, e: Engine, k: Key): real
    requires RowsOf(e.frame.generator, |k|)
  {
    var x := Image(kind, e.frame.generator, k);
    SignOf(x.exp) * Coef(e.terms, x.key)
  }

  function ReadFun(kind: BasisKind, e: Engine): Key -> real
  {
    (k: Key) => if RowsOf(e.frame.generator, |k|) then ReadCoef(kind, e, k) else 0.0
  }

  /** Read-out visits each stored term once, as its image with its sign. */
  lemma IterationReadsOut(kind: BasisKind, n: nat, e: Engine, p: Key)
    requires EngineOk(kind, n, e) && |p| == n
    ensures var r := Applied(kind, e.frame.readout, p);
      ReadCoef(kind, e, r.image) == r.sign * Coef(e.terms, p)
      && Image(kind, e.frame.generator, r.image).key == p
  {
    hide Image, HomRows, Coef, Plus;
    RowsSigned(kind, e.frame.readout, p);
    RowsSigned(kind, e.frame.generator, Image(kind, e.frame.readout, p).key);
    assert Undoes(kind, e.frame.readout, e.frame.generator, p);
    OppositeSign(Image(kind, e.frame.readout, p).exp,
      Image(kind, e.frame.generator, Image(kind, e.frame.readout, p).key).exp);
  }

  lemma OppositeSign(a: Exp, b: Exp)
    requires Plus(a, b) == 0
    ensures (a == 0 || a == 2) ==> SignOf(b) == SignOf(a)
  {
  }

  // ---- one step is exact --------------------------------------------------------

  function PlainTurn(g: Gate): Turn { Turn(g.gen, 1.0, g.cos, g.sin) }

  /** Composing a Clifford into the frame is the exact rotation of what is read out. */
  lemma DeferralIsExact(kind: BasisKind, n: nat, e: Engine, g: Gate, k: Key)
    requires FrameShape(n, e.frame) && TermsOf(e.terms, n) && GateOf(g, n) && g.cos == 0.0 && IsSign(g.sin) && |k| == n
    requires FrameOk(kind, n, e.frame)
    ensures ReadCoef(kind, Engine(ComposeFrames(kind, e.frame, RotationFrame(kind, g.gen, g.sin)), e.terms), k)
         == Rotated(kind, PlainTurn(g), ReadFun(kind, e), k)
  {
    hide Image, HomRows, ComposeFrames, RotationRows, Anticommutes, PhaseExp, Xor, Coef, Plus, UndoesAll;
    var q := Partner(PlainTurn(g), k);
    RotationFrameOk(kind, g.gen, g.sin);
    ComposeFramesImage(kind, n, e.frame, RotationFrame(kind, g.gen, g.sin), k);
    RotationRowsAreConjugation(kind, g.gen, -g.sin, k);
    if Anticommutes(kind, g.gen, k) {
      PhaseTwice(kind, g.gen, k);
      AnticommutesIsImaginary(kind, g.gen, k);
      MulPlain(kind, g.gen, k);
      RowsSigned(kind, e.frame.generator, q);
      var x := Image(kind, e.frame.generator, q);
      DeferredSign(g.sin, PhaseExp(kind, g.gen, k), PhaseExp(kind, g.gen, q), x.exp);
      SignTimes(g.sin, PhaseExp(kind, g.gen, q), x.exp, Coef(e.terms, x.key));
      PlusZero(PhaseExp(kind, g.gen, k));
    } else {
      PlusZero(Image(kind, e.frame.generator, k).exp);
    }
  }

  lemma DeferredSign(s: real, e: Exp, back: Exp, x: Exp)
    requires IsSign(s) && Odd(e) && Plus(e, back) == 0 && (x == 0 || x == 2)
    ensures SignOf(Plus(Plus(CliffordExp(-s), e), x)) == s * -PhaseIm(back) * SignOf(x)
  {
  }

  lemma SignTimes(s: real, back: Exp, x: Exp, a: real)
    ensures (s * -PhaseIm(back) * SignOf(x)) * a == (SignOf(x) * a) * s * -(PhaseIm(back) * 1.0)
  {
    var p, y := PhaseIm(back), SignOf(x);
    calc {
      (s * -p * y) * a;
      (y * a) * (s * -p);
      (y * a) * s * -p;
    }
  }

  /** A homomorphism keeps anticommutation. */
  lemma ImageAnticommutes(kind: BasisKind, rows: seq<Row>, a: Key, b: Key)
    requires HomRows(kind, rows) && |a| == |b| == |rows|
    requires RowsOf(rows, |rows|)
    ensures Anticommutes(kind, Image(kind, rows, a).key, Image(kind, rows, b).key) == Anticommutes(kind, a, b)
    ensures Image(kind, rows, Xor(a, b)).key == Xor(Image(kind, rows, a).key, Image(kind, rows, b).key)
    ensures Plus(Plus(Image(kind, rows, a).exp, Image(kind, rows, b).exp),
                 PhaseExp(kind, Image(kind, rows, a).key, Image(kind, rows, b).key))
         == Plus(PhaseExp(kind, a, b), Image(kind, rows, Xor(a, b)).exp)
  {
    hide Image, HomRows, Anticommutes, PhaseExp, Xor;
    RowsMultiply(kind, rows, a, b);
    RowsSigned(kind, rows, a);
    RowsSigned(kind, rows, b);
    RowsSigned(kind, rows, Xor(a, b));
    AnticommutesIsImaginary(kind, a, b);
    AnticommutesIsImaginary(kind, Image(kind, rows, a).key, Image(kind, rows, b).key);
  }

  /** `after` is `before` rotated, key by key. */
  ghost predicate AllRotated(kind: BasisKind, t: Turn, before: Terms, after: Terms)
    requires |t.gen| % 2 == 0
  {
    forall p: Key :: |p| == |t.gen| ==> Coef(after, p) == Rotated(kind, t, CoefOf(before), p)
  }

  /** Rotating stored terms about the pulled-back generator rotates what is read out. */
  lemma PullBackIsExact(kind: BasisKind, e: Engine, g: Gate, after: Terms, k: Key)
    requires |k| % 2 == 0 && |g.gen| == |k| && RowsOf(e.frame.generator, |k|) && HomRows(kind, e.frame.generator)
    requires AllRotated(kind, PulledBack(kind, e.frame, g), e.terms, after)
    ensures ReadCoef(kind, Engine(e.frame, after), k) == Rotated(kind, PlainTurn(g), ReadFun(kind, e), k)
  {
    hide Image, HomRows, Anticommutes, PhaseExp, Xor, Coef, Plus, Branch, SignOf, AllRotated;
    var rows, t, q := e.frame.generator, PulledBack(kind, e.frame, g), Partner(PlainTurn(g), k);
    var xk := Image(kind, rows, k);
    var xq := Image(kind, rows, q);
    SignedRow(kind, rows, g.gen);
    ImageAnticommutes(kind, rows, g.gen, k);
    RotatedAt(kind, t, e.terms, after, xk.key);
    assert Partner(t, xk.key) == xq.key;
    assert Rotated(kind, t, CoefOf(e.terms), xk.key) == if Anticommutes(kind, g.gen, k)
      then t.cos * Coef(e.terms, xk.key) + Branch(kind, t, xq.key, Coef(e.terms, xq.key)) else Coef(e.terms, xk.key);
    assert ReadFun(kind, e)(q) == SignOf(xq.exp) * Coef(e.terms, xq.key);
    if Anticommutes(kind, g.gen, k) {
      var a := Coef(e.terms, xk.key);
      var b := Branch(kind, t, xq.key, Coef(e.terms, xq.key));
      PulledBranch(kind, rows, g, t, k, Coef(e.terms, xq.key), ReadFun(kind, e)(q));
      calc {
        ReadCoef(kind, Engine(e.frame, after), k);
        SignOf(xk.exp) * (g.cos * a + b);
        { Distribute(SignOf(xk.exp), g.cos, a, b); }
        g.cos * ReadFun(kind, e)(k) + SignOf(xk.exp) * b;
        Rotated(kind, PlainTurn(g), ReadFun(kind, e), k);
      }
    }
  }

  lemma RotatedAt(kind: BasisKind, t: Turn, before: Terms, after: Terms, p: Key)
    requires |t.gen| % 2 == 0 && |p| == |t.gen| && AllRotated(kind, t, before, after)
    ensures Coef(after, p) == Rotated(kind, t, CoefOf(before), p)
  {
  }

  lemma Distribute(x: real, c: real, a: real, b: real)
    ensures x * (c * a + b) == c * (x * a) + x * b
  {
  }

  lemma PulledBranch(kind: BasisKind, rows: seq<Row>, g: Gate, t: Turn, k: Key, b: real, read: real)
    requires |g.gen| == |k| && RowsOf(rows, |k|) && HomRows(kind, rows) && Anticommutes(kind, g.gen, k)
    requires t == Turn(Image(kind, rows, g.gen).key, SignOf(Image(kind, rows, g.gen).exp), g.cos, g.sin)
    requires read == SignOf(Image(kind, rows, Partner(PlainTurn(g), k)).exp) * b
    ensures var q := Partner(PlainTurn(g), k);
      SignOf(Image(kind, rows, k).exp) * Branch(kind, t, Image(kind, rows, q).key, b)
        == Branch(kind, PlainTurn(g), q, read)
  {
    hide Image, HomRows, Anticommutes, PhaseExp, Xor, Plus, SignOf, PhaseIm;
    var q := Partner(PlainTurn(g), k);
    var xg := Image(kind, rows, g.gen);
    var xk := Image(kind, rows, k);
    var xq := Image(kind, rows, q);
    PulledPhases(kind, rows, g.gen, k);
    PulledTimes(SignOf(xk.exp), SignOf(xg.exp), SignOf(xq.exp), PhaseIm(PhaseExp(kind, g.gen, q)),
      PhaseIm(PhaseExp(kind, xg.key, xq.key)), g.sin, b);
  }

  lemma SignedRow(kind: BasisKind, rows: seq<Row>, a: Key)
    requires RowsOf(rows, |a|)
    ensures Applied(kind, rows, a) == Row(Image(kind, rows, a).key, SignOf(Image(kind, rows, a).exp))
  {
    hide Image;
  }

  lemma PulledPhases(kind: BasisKind, rows: seq<Row>, g: Key, k: Key)
    requires |g| == |k| && RowsOf(rows, |k|) && HomRows(kind, rows) && Anticommutes(kind, g, k)
    ensures var xg := Image(kind, rows, g);
      var xk := Image(kind, rows, k);
      var xq := Image(kind, rows, Xor(g, k));
      && xq.key == Xor(xg.key, xk.key)
      && SignOf(xk.exp) * SignOf(xg.exp) * PhaseIm(PhaseExp(kind, xg.key, xq.key))
         == SignOf(xq.exp) * PhaseIm(PhaseExp(kind, g, Xor(g, k)))
  {
    hide Image, HomRows, Anticommutes, PhaseExp, Xor, Plus, SignOf, PhaseIm;
    var xg := Image(kind, rows, g);
    var xk := Image(kind, rows, k);
    var xq := Image(kind, rows, Xor(g, k));
    ImageAnticommutes(kind, rows, g, k);
    RowsSigned(kind, rows, g);
    RowsSigned(kind, rows, k);
    RowsSigned(kind, rows, Xor(g, k));
    PhaseTwice(kind, g, k);
    PhaseTwice(kind, xg.key, xk.key);
    AnticommutesIsImaginary(kind, g, k);
    AnticommutesIsImaginary(kind, xg.key, xk.key);
    PulledSign(xg.exp, xk.exp, xq.exp, PhaseExp(kind, g, k), PhaseExp(kind, g, Xor(g, k)),
      PhaseExp(kind, xg.key, xk.key), PhaseExp(kind, xg.key, xq.key));
  }

  lemma PulledSign(xg: Exp, xk: Exp, xq: Exp, e: Exp, back: Exp, e': Exp, back': Exp)
    requires (xg == 0 || xg == 2) && (xk == 0 || xk == 2) && (xq == 0 || xq == 2)
    requires Odd(e) && Odd(e') && Plus(e, back) == 0 && Plus(e', back') == 0
    requires Plus(Plus(xg, xk), e') == Plus(e, xq)
    ensures SignOf(xk) * SignOf(xg) * PhaseIm(back') == SignOf(xq) * PhaseIm(back)
  {
  }

  lemma PulledTimes(sk: real, sg: real, sq: real, im: real, im': real, s: real, b: real)
    requires sk * sg * im' == sq * im
    ensures sk * (b * s * -(im' * sg)) == (sq * b) * s * -(im * 1.0)
  {
    calc {
      sk * (b * s * -(im' * sg));
      -(sk * sg * im') * (b * s);
      -(sq * im) * (b * s);
      (sq * b) * s * -(im * 1.0);
    }
  }

  lemma StepKeepsFrame(kind: BasisKind, n: nat, defer: bool, cut: Cutoff, e: Engine, g: Gate)
    requires FrameShape(n, e.frame) && TermsOf(e.terms, n) && GateOf(g, n)
    requires FrameOk(kind, n, e.frame)
    ensures FrameOk(kind, n, EngineStep(kind, n, defer, cut, e, g).frame)
  {
    hide FrameOk, ComposeFrames, RotationRows, PairStep, ScaleStep, ChangesSupport, PulledBack, FrameShape;
    if e.terms != map[] && Defers(kind, defer, AtSize(cut, |e.terms|), g) {
      SineIsSign(g);
      RotationFrameOk(kind, g.gen, g.sin);
      ComposeFramesOk(kind, n, e.frame, RotationFrame(kind, g.gen, g.sin));
    }
  }

  /** Every branch of the engine, deferred or not, is the exact rotation of the read-out. */
  lemma StepIsExact(kind: BasisKind, n: nat, defer: bool, cut: Cutoff, e: Engine, g: Gate, k: Key)
    requires FrameShape(n, e.frame) && TermsOf(e.terms, n) && GateOf(g, n) && |k| == n && Lossless(cut)
    requires FrameOk(kind, n, e.frame)
    ensures ReadCoef(kind, EngineStep(kind, n, defer, cut, e, g), k) == Rotated(kind, PlainTurn(g), ReadFun(kind, e), k)
  {
    hide Image, HomRows, ComposeFrames, RotationRows, Rotated, PairStep, ScaleStep, UndoesAll, ChangesSupport,
      ReadCoef, PulledBack;
    var t := PulledBack(kind, e.frame, g);
    var cut' := AtSize(cut, |e.terms|);
    if e.terms == map[] {
      EmptyIsExact(kind, n, e, g, k);
    } else if Defers(kind, defer, cut', g) {
      SineIsSign(g);
      DeferralIsExact(kind, n, e, g, k);
    } else {
      assert |t.gen| == n && t.sin == g.sin by { PulledShape(kind, n, e.frame, g); }
      if g.sin == 0.0 {
        forall p: Key | |p| == n
          ensures Coef(ScaleStep(kind, t.gen, t.cos, e.terms), p) == Rotated(kind, t, CoefOf(e.terms), p)
        {
          ScaleStepIsRotation(kind, t, e.terms, p);
        }
        PullBackIsExact(kind, e, g, ScaleStep(kind, t.gen, t.cos, e.terms), k);
      } else {
        forall p: Key | |p| == n
          ensures Coef(PairStep(kind, t, cut', e.terms), p) == Rotated(kind, t, CoefOf(e.terms), p)
        {
          LosslessStep(kind, t, cut', e.terms, p);
        }
        PullBackIsExact(kind, e, g, PairStep(kind, t, cut', e.terms), k);
      }
    }
  }

  lemma PulledShape(kind: BasisKind, n: nat, f: Frame, g: Gate)
    requires GateOf(g, n) && RowsOf(f.generator, n)
    ensures TurnOf(PulledBack(kind, f, g), n) && PulledBack(kind, f, g).sin == g.sin
      && PulledBack(kind, f, g).cos == g.cos
  {
    hide Image;
  }

  lemma EmptyIsExact(kind: BasisKind, n: nat, e: Engine, g: Gate, k: Key)
    requires FrameShape(n, e.frame) && GateOf(g, n) && |k| == n && e.terms == map[]
    ensures ReadCoef(kind, e, k) == Rotated(kind, PlainTurn(g), ReadFun(kind, e), k)
  {
    hide Image;
  }

  // ---- whole runs ---------------------------------------------------------------

  function RotatedFun(kind: BasisKind, n: nat, t: Turn, f: Key -> real): Key -> real
    requires |t.gen| == n && n % 2 == 0
  {
    (k: Key) => if |k| == |t.gen| && |t.gen| % 2 == 0 then Rotated(kind, t, f, k) else 0.0
  }

  /** The exact evolution: the start rotated by every gate in turn, with no engine at all. */
  function Exact(kind: BasisKind, n: nat, gates: seq<Gate>, start: Terms): Key -> real
    requires n % 2 == 0 && GatesOf(gates, n)
  {
    if gates == [] then CoefOf(start)
    else RotatedFun(kind, n, PlainTurn(gates[|gates| - 1]), Exact(kind, n, gates[..|gates| - 1], start))
  }

  lemma {:induction false} RunKeepsFrame(kind: BasisKind, n: nat, defer: bool, cut: Cutoff, gates: seq<Gate>,
                                         start: Terms)
    requires n % 2 == 0 && TermsOf(start, n) && GatesOf(gates, n)
    ensures FrameOk(kind, n, Run(kind, n, defer, cut, gates, start).frame)
    decreases |gates|
  {
    hide FrameOk, EngineStep;
    if gates == [] {
      IdentityFrameOk(kind, n);
    } else {
      var rest := gates[..|gates| - 1];
      RunKeepsFrame(kind, n, defer, cut, rest, start);
      StepKeepsFrame(kind, n, defer, cut, Run(kind, n, defer, cut, rest, start), gates[|gates| - 1]);
    }
  }

  /** A lossless run, deferring or not, reads out the exact evolution. */
  lemma {:induction false} RunIsExact(kind: BasisKind, n: nat, defer: bool, cut: Cutoff, gates: seq<Gate>,
                                      start: Terms, k: Key)
    requires n % 2 == 0 && TermsOf(start, n) && GatesOf(gates, n) && Lossless(cut) && |k| == n
    ensures ReadCoef(kind, Run(kind, n, defer, cut, gates, start), k) == Exact(kind, n, gates, start)(k)
    decreases |gates|
  {
    hide Image, FrameOk, EngineStep, ReadCoef, Anticommutes, Xor, Branch;
    if gates == [] {
      IdentityReads(kind, n, start, k);
    } else {
      var g, rest := gates[|gates| - 1], gates[..|gates| - 1];
      var e := Run(kind, n, defer, cut, rest, start);
      var q := Partner(PlainTurn(g), k);
      RunKeepsFrame(kind, n, defer, cut, rest, start);
      RunIsExact(kind, n, defer, cut, rest, start, k);
      RunIsExact(kind, n, defer, cut, rest, start, q);
      StepIsExact(kind, n, defer, cut, e, g, k);
      RotatedSame(kind, PlainTurn(g), ReadFun(kind, e), Exact(kind, n, rest, start), k);
    }
  }

  lemma RotatedSame(kind: BasisKind, t: Turn, f: Key -> real, h: Key -> real, k: Key)
    requires |k| == |t.gen| && |k| % 2 == 0 && f(k) == h(k) && f(Partner(t, k)) == h(Partner(t, k))
    ensures Rotated(kind, t, f, k) == Rotated(kind, t, h, k)
  {
  }

  lemma IdentityReads(kind: BasisKind, n: nat, start: Terms, k: Key)
    requires n % 2 == 0 && TermsOf(start, n) && |k| == n
    ensures ReadCoef(kind, Engine(IdentityFrame(n), start), k) == Coef(start, k)
  {
    hide Image;
    IdentityIsHomomorphism(kind, n);
  }

  /**
   Deferring Cliffords is invisible: for every circuit without truncation the run that defers
   them and the run that applies every gate read out the same coefficient for every key.
   */
  lemma {:induction false} DeferredIsEager(kind: BasisKind, n: nat, cut: Cutoff, gates: seq<Gate>, start: Terms, k: Key)
    requires n % 2 == 0 && TermsOf(start, n) && GatesOf(gates, n) && Lossless(cut) && |k| == n
    ensures ReadCoef(kind, Run(kind, n, true, cut, gates, start), k)
      == Coef(Run(kind, n, false, cut, gates, start).terms, k)
  {
    hide Run, ReadCoef, Exact;
    RunIsExact(kind, n, true, cut, gates, start, k);
    RunIsExact(kind, n, false, cut, gates, start, k);
    EagerFrame(kind, n, cut, gates, start);
    IdentityReads(kind, n, Run(kind, n, false, cut, gates, start).terms, k);
  }

  /** Without deferral the frame never moves. */
  lemma {:induction false} EagerFrame(kind: BasisKind, n: nat, cut: Cutoff, gates: seq<Gate>, start: Terms)
    requires n % 2 == 0 && TermsOf(start, n) && GatesOf(gates, n)
    ensures Run(kind, n, false, cut, gates, start).frame == IdentityFrame(n)
    decreases |gates|
  {
    if gates != [] {
      EagerFrame(kind, n, cut, gates[..|gates| - 1], start);
    }
  }
}
