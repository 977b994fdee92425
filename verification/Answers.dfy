/**
 What a compiled surrogate answers: for every table of angles, the expectation value of the
 observable conjugated with the unitary of every gate in turn.
 */
module Answers {
  import opened BasisStrings
  import opened BasisAlgebra
  import opened PairRule
  import opened Propagation
  import opened ComplexNumbers
  import opened PauliMatrices
  import opened ModeMatrices
  import opened SymbolicRows
  import opened SurrogateModels
  import opened Surrogates
  import opened Conjugation

  /** The matrix of an observable: every listed coefficient times its basis operator, added up. */
  function ObservableMatrix(kind: BasisKind, n: nat, observable: seq<(Key, real)>): Matrix
    requires forall i :: 0 <= i < |observable| ==> |observable[i].0| == 2 * n
  {
    if observable == [] then (s: Config, t: Config) => ZERO
    else
      var last := observable[|observable| - 1];
      Added(ObservableMatrix(kind, n, observable[..|observable| - 1]), Scaled(Real(last.1), BasisMatrix(kind, last.0)))
  }

  /** The operator an observable is collected into has the observable's matrix. */
  lemma {:induction false} ObservedMatrix(kind: BasisKind, n: nat, observable: seq<(Key, real)>)
    requires forall i :: 0 <= i < |observable| ==> |observable[i].0| == 2 * n
    ensures SameMatrix(n, OpMatrix(kind, n, CoefOf(Observed(observable))), ObservableMatrix(kind, n, observable))
    decreases |observable|
  {
    hide OpMatrix, BasisMatrix, Times, ComplexNumbers.Plus;
    if observable == [] {
      NothingMatrix(kind, n);
    } else {
      var rest, last := observable[..|observable| - 1], observable[|observable| - 1];
      ObservedMatrix(kind, n, rest);
      PlussedMatrix(kind, n, Observed(rest), last.0, last.1);
    }
  }

  lemma NothingMatrix(kind: BasisKind, n: nat)
    ensures SameMatrix(n, OpMatrix(kind, n, CoefOf(Observed([]))), (s: Config, t: Config) => ZERO)
  {
    hide BasisMatrix, Times, ComplexNumbers.Plus;
    var f := TermMatrix(kind, n, CoefOf(Observed([])));
    forall s: Config, t: Config | |s| == n && |t| == n ensures OpMatrix(kind, n, CoefOf(Observed([])))(s, t) == ZERO {
      forall k: Config | |k| == 2 * n ensures f(k)(s, t) == ZERO {
        var b := BasisMatrix(kind, k);
        assert f(k) == Scaled(Real(0.0), b);
        ComplexLaws(b(s, t), ZERO, ZERO);
        ComplexLaws(ZERO, b(s, t), ZERO);
      }
      OverZero(2 * n, (k: Config) => f(k)(s, t));
    }
  }

  /** Adding an amount at a key adds that multiple of the key's matrix. */
  lemma PlussedMatrix(kind: BasisKind, n: nat, m: Terms, key: Key, c: real)
    requires |key| == 2 * n
    ensures SameMatrix(n, OpMatrix(kind, n, CoefOf(Plussed(m, key, c))),
      Added(OpMatrix(kind, n, CoefOf(m)), Scaled(Real(c), BasisMatrix(kind, key))))
  {
    hide BasisMatrix, Times, ComplexNumbers.Plus;
    var f, g := TermMatrix(kind, n, CoefOf(m)), TermMatrix(kind, n, CoefOf(Plussed(m, key, c)));
    forall s: Config, t: Config | |s| == n && |t| == n
      ensures OpMatrix(kind, n, CoefOf(Plussed(m, key, c)))(s, t)
        == ComplexNumbers.Plus(OpMatrix(kind, n, CoefOf(m))(s, t), Times(Real(c), BasisMatrix(kind, key)(s, t)))
    {
      var before, after := (k: Config) => f(k)(s, t), (k: Config) => g(k)(s, t);
      var one := (k: Config) => if k == key then Times(Real(c), BasisMatrix(kind, key)(s, t)) else ZERO;
      forall k: Config | |k| == 2 * n ensures after(k) == ComplexNumbers.Plus(before(k), one(k)) {
        RealSum(Coef(m, k), c, BasisMatrix(kind, k)(s, t));
        ComplexSums(before(k), ZERO, ZERO);
      }
      OverPlus(2 * n, before, one, after);
      OverOne(2 * n, key, one);
    }
  }

  /**
   Whatever model agrees with the numeric run, as every built one does, answers with the diagonal
   entry of the evolved observable.
   */
  lemma {:induction false} SurrogateAnswer(kind: BasisKind, n: nat, gates: seq<SymGate>, hs: seq<Half>, lut: seq<real>,
                        observable: seq<(Key, real)>, state: seq<bool>, s: Config, m: Model)
    requires forall i :: 0 <= i < |observable| ==> |observable[i].0| == 2 * n
    requires AgreesWithRun(kind, 2 * n, gates, lut, false, Observed(observable), state, m)
    requires GatesOf(GatesUnder(gates, lut), 2 * n) && HalvesOf(GatesUnder(gates, lut), hs)
    requires |s| == n && ConfigOf(state, s)
    ensures Real(ModelValue(m, lut))
      == Evolved(kind, n, GatesUnder(gates, lut), hs, ObservableMatrix(kind, n, observable))(s, s)
  {
    hide HalvesOf, Evolved, ConfigOf, AgreesWithRun, ModelValue, ObservableMatrix, Observed, GatesOf;
    AgreesMeans(kind, 2 * n, gates, lut, Observed(observable), state, m);
    RunAnswer(kind, n, GatesUnder(gates, lut), hs, observable, state, s);
  }

  lemma {:induction false} AgreesMeans(kind: BasisKind, n: nat, gates: seq<SymGate>, lut: seq<real>, start: Terms,
                                       state: seq<bool>, m: Model)
    requires AgreesWithRun(kind, n, gates, lut, false, start, state, m)
    ensures n % 2 == 0 && TermsOf(start, n) && GatesOf(GatesUnder(gates, lut), n)
    ensures ModelValue(m, lut)
      == RunLaws.Expectation(kind, Run(kind, n, false, NoCutoff(), GatesUnder(gates, lut), start), state)
  {
    hide ModelValue, Run, RunLaws.Expectation, GatesUnder;
  }

  /** The expectation value of a run that starts with an observable. */
  lemma {:induction false} RunAnswer(kind: BasisKind, n: nat, gates: seq<Gate>, hs: seq<Half>,
                                     observable: seq<(Key, real)>, state: seq<bool>, s: Config)
    requires forall i :: 0 <= i < |observable| ==> |observable[i].0| == 2 * n
    requires TermsOf(Observed(observable), 2 * n) && GatesOf(gates, 2 * n) && HalvesOf(gates, hs)
    requires |s| == n && ConfigOf(state, s)
    ensures Real(RunLaws.Expectation(kind, Run(kind, 2 * n, false, NoCutoff(), gates, Observed(observable)), state))
      == Evolved(kind, n, gates, hs, ObservableMatrix(kind, n, observable))(s, s)
  {
    hide IsHalf, Evolved, ConfigOf, OpMatrix, Run, RunLaws.Expectation, Observed, ObservableMatrix;
    var start := Observed(observable);
    RunExpectation(kind, n, false, NoCutoff(), gates, hs, start, state, s);
    ObservedMatrix(kind, n, observable);
    EvolvedSame(kind, n, gates, hs, OpMatrix(kind, n, CoefOf(start)), ObservableMatrix(kind, n, observable));
  }

  lemma {:induction false} EvolvedSame(kind: BasisKind, n: nat, gates: seq<Gate>, hs: seq<Half>, a: Matrix, b: Matrix)
    requires GatesOf(gates, 2 * n) && |hs| == |gates| && SameMatrix(n, a, b)
    ensures SameMatrix(n, Evolved(kind, n, gates, hs, a), Evolved(kind, n, gates, hs, b))
    decreases |gates|
  {
    hide Conjugated;
    if gates != [] {
      var last := |gates| - 1;
      EvolvedSame(kind, n, gates[..last], hs[..last], a, b);
      ConjugatedSame(kind, n, gates[last].gen, hs[last], Evolved(kind, n, gates[..last], hs[..last], a),
        Evolved(kind, n, gates[..last], hs[..last], b));
    }
  }
}
