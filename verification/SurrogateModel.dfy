/**
 The compiled surrogate: overlaps with the state, each pointing at the place of its coefficient
 on one shared tape, and its evaluation for a table of angles.
 */
module SurrogateModels {
  import opened Wrappers
  import opened SymbolicCoeffs
  import opened CompiledTapes

  /** An overlap with the state and the place of its coefficient on the tape, if it has one. */
  datatype SurrogateTerm = SurrogateTerm(overlap: real, root: Option<nat>)

  datatype Model = Model(tape: Tape, terms: seq<SurrogateTerm>)

  /** Every term that points somewhere points into the tape. */
  predicate RootsFit(terms: seq<SurrogateTerm>, len: nat)
  {
    forall i :: 0 <= i < |terms| && terms[i].root.Some? ==> terms[i].root.value < len
  }

  predicate ModelOk(m: Model) { TapeOk(m.tape) && RootsFit(m.terms, |m.tape|) }

  /** What one term contributes, given the values of the tape. */
  function TermShare(values: seq<real>, t: SurrogateTerm): real
  {
    if t.root.Some? && t.root.value < |values| then Times(t.overlap, values[t.root.value]) else 0.0
  }

  function TermsSum(values: seq<real>, terms: seq<SurrogateTerm>): real
  {
    if terms == [] then 0.0 else TermsSum(values, terms[..|terms| - 1]) + TermShare(values, terms[|terms| - 1])
  }

  function ModelValue(m: Model, lut: seq<real>): real
  {
    if ModelOk(m) then TermsSum(TapeValues(m.tape, lut), m.terms) else 0.0
  }

  /** Cosine and sine of one parameter. */
  datatype Angle = Angle(cos: real, sin: real)

  /** The table of angles: cosine and sine of every parameter, one after the other. */
  function MakeLut(angles: seq<Angle>): (lut: seq<real>)
    ensures |lut| == 2 * |angles|
  {
    if angles == [] then []
    else
      var last := angles[|angles| - 1];
      MakeLut(angles[..|angles| - 1]) + [last.cos, last.sin]
  }

  /** Every parameter finds its own cosine and sine in the table. */
  lemma {:induction false} LutHoldsAngles(angles: seq<Angle>, p: nat)
    requires p < |angles|
    ensures CosOf(MakeLut(angles), p) == angles[p].cos && SinOf(MakeLut(angles), p) == angles[p].sin
    decreases |angles|
  {
    if p < |angles| - 1 {
      LutHoldsAngles(angles[..|angles| - 1], p);
    }
  }

  /** Evaluates the model for one table of angles; the scratch buffer may hold anything. */
  method Evaluate(m: Model, lut: seq<real>, scratch: seq<real>) returns (r: real)
    requires ModelOk(m)
    ensures r == ModelValue(m, lut)
  {
    var values := EvaluateInto(m.tape, lut, scratch);
    r := 0.0;
    for i := 0 to |m.terms|
      invariant r == TermsSum(values, m.terms[..i])
    {
      assert m.terms[..i + 1][..i] == m.terms[..i];
      r := r + if m.terms[i].root.Some? then Times(m.terms[i].overlap, values[m.terms[i].root.value]) else 0.0;
    }
    assert m.terms[..|m.terms|] == m.terms;
  }

  lemma {:induction false} TermsSumAppend(values: seq<real>, a: seq<SurrogateTerm>, b: seq<SurrogateTerm>)
    ensures TermsSum(values, a + b) == TermsSum(values, a) + TermsSum(values, b)
    decreases |b|
  {
    if b == [] {
      assert a + b == a;
    } else {
      assert (a + b)[..|a + b| - 1] == a + b[..|b| - 1];
      TermsSumAppend(values, a, b[..|b| - 1]);
    }
  }

  /** The terms of a shard once its tape lies at `offset`. */
  function Moved(terms: seq<SurrogateTerm>, offset: nat): (r: seq<SurrogateTerm>)
    ensures |r| == |terms|
    ensures forall j :: 0 <= j < |terms| ==>
      r[j] == SurrogateTerm(terms[j].overlap, if terms[j].root.Some? then Some(terms[j].root.value + offset) else None)
  {
    seq(|terms|, j requires 0 <= j < |terms| =>
      SurrogateTerm(terms[j].overlap, if terms[j].root.Some? then Some(terms[j].root.value + offset) else None))
  }

  /** Moved terms are worth on the merged tape what they were worth on their own. */
  lemma {:induction false} MovedSum(own: seq<real>, all: seq<real>, terms: seq<SurrogateTerm>, offset: nat)
    requires RootsFit(terms, |own|) && offset + |own| <= |all|
      && forall i :: 0 <= i < |own| ==> all[offset + i] == own[i]
    ensures TermsSum(all, Moved(terms, offset)) == TermsSum(own, terms)
    decreases |terms|
  {
    if terms != [] {
      var last := |terms| - 1;
      assert Moved(terms, offset)[..last] == Moved(terms[..last], offset);
      MovedSum(own, all, terms[..last], offset);
    }
  }
}
