/** The expectation value, row by row and partition by partition. */
module ReadOuts {
  import opened BasisStrings
  import opened BasisAlgebra
  import opened TableauRows
  import opened Frames
  import opened JordanWigner
  import opened FiniteSums
  import opened PairRule
  import opened Propagation
  import opened RunLaws
  import opened PairProtocol
  import opened OperatorIndexes
  import opened CliffordTableaus
  import opened TermSums
  import opened PartitionedTermSums

  /** What one stored term contributes. */
  function RowShare(kind: BasisKind, f: Frame, state: seq<bool>, key: Key, coeff: real): real
  {
    if RowsOf(f.readout, |key|) && |key| % 2 == 0 then
      coeff * Applied(kind, f.readout, key).sign * Trace(kind, Applied(kind, f.readout, key).image, state)
    else 0.0
  }

  /** What the first `i` rows of a partition contribute. */
  function SumRows(kind: BasisKind, f: Frame, p: Part, i: nat, state: seq<bool>): real
    requires i <= |p.keys| == |p.coeffs|
  {
    if i == 0 then 0.0 else SumRows(kind, f, p, i - 1, state) + RowShare(kind, f, state, p.keys[i - 1], p.coeffs[i - 1])
  }

  function KeySet(keys: seq<Key>): set<Key> { set k | k in keys }

  /** What one row contributes; with an identity frame the row is its own image. */
  method ShareOf(frame: CliffordTableau, kind: BasisKind, mono: Key, coeff: real, state: seq<bool>)
      returns (share: real)
    requires |mono| % 2 == 0 && frame.Shape(|mono|)
    requires frame.Lawful(kind, |mono|)
    ensures share == RowShare(kind, frame.View(), state, mono, coeff)
  {
    hide FrameOk, Image, Trace;
    if frame.identity {
      IdentityBothWays(kind, |mono|, frame.View(), mono);
      TimesOne(coeff, Trace(kind, mono, state));
      share := coeff * Trace(kind, mono, state);
    } else {
      var image := frame.Conjugate(kind, mono);
      share := coeff * image.sign * Trace(kind, image.image, state);
    }
  }

  method PartExpectation(p: TermSum, frame: CliffordTableau, kind: BasisKind, state: seq<bool>) returns (r: real)
    requires p.Valid() && frame.Shape(p.n)
    requires frame.Lawful(kind, p.n)
    ensures |p.State().coeffs| == |p.State().keys|
    ensures r == SumRows(kind, frame.View(), p.State(), |p.State().keys|, state)
  {
    hide FrameOk, Image, Trace, TermSum.Valid, OperatorIndex.RowsOk, RowShare, FrameShape;
    p.StateOk();
    LenIs(p);
    RowsReadable(p);
    ghost var part := p.State();
    r := 0.0;
    var len := p.Len();
    for i := 0 to len
      invariant p.Valid() && p.State() == part && len == |part.keys| && p.store.RowsOk()
      invariant r == SumRows(kind, frame.View(), part, i, state)
    {
      var mono := p.store.Row(i);
      var share := ShareOf(frame, kind, mono, p.coeffs[i], state);
      r := r + share;
    }
  }

  lemma RowsReadable(p: TermSum)
    requires p.Valid()
    ensures p.store.RowsOk() && p.n % 2 == 0
  {
  }

  lemma TimesOne(a: real, b: real)
    ensures a * 1.0 * b == a * b
  {
  }

  /** Summing a partition's first rows is summing over their keys. */
  lemma {:induction false} SumFirstRows(kind: BasisKind, f: Frame, parts: seq<Part>, n: nat, full: Key -> nat, d: nat,
                                        i: nat, state: seq<bool>)
    requires PartsOk(parts, n, full) && n % 2 == 0 && d < |parts| && i <= |parts[d].keys| == |parts[d].coeffs|
    ensures var m := Global(parts, full);
      var share := Share(kind, Engine(f, m), state);
      Sum(OwnedBelow(m, full, |parts|, d) + KeySet(parts[d].keys[..i]), share)
         == Sum(OwnedBelow(m, full, |parts|, d), share) + SumRows(kind, f, parts[d], i, state)
  {
    hide Global, Applied, Trace, Share, RowShare, OwnedBelow, PartsOk;
    var m := Global(parts, full);
    var below := OwnedBelow(m, full, |parts|, d);
    if i == 0 {
      assert below + KeySet(parts[d].keys[..0]) == below;
    } else {
      SumFirstRows(kind, f, parts, n, full, d, i - 1, state);
      var k := parts[d].keys[i - 1];
      GlobalRow(parts, n, full, d, i - 1);
      var before := below + KeySet(parts[d].keys[..i - 1]);
      assert parts[d].keys[..i] == parts[d].keys[..i - 1] + [k];
      assert k !in before by { NotYet(parts, n, full, d, i - 1); }
      assert below + KeySet(parts[d].keys[..i]) == before + {k};
      assert before + {k} - {k} == before;
      SumRemove(before + {k}, Share(kind, Engine(f, m), state), k);
      ShareIsRowShare(kind, f, m, state, k, n);
    }
  }

  /** Summing a partition's rows is summing over the keys it owns. */
  lemma {:induction false} SumOwned(kind: BasisKind, f: Frame, parts: seq<Part>, n: nat, full: Key -> nat, d: nat,
                                    state: seq<bool>)
    requires PartsOk(parts, n, full) && n % 2 == 0 && d < |parts| && |parts[d].keys| == |parts[d].coeffs|
    ensures var m := Global(parts, full);
      var share := Share(kind, Engine(f, m), state);
      Sum(OwnedBelow(m, full, |parts|, d + 1), share)
         == Sum(OwnedBelow(m, full, |parts|, d), share) + SumRows(kind, f, parts[d], |parts[d].keys|, state)
  {
    hide Global, Applied, Trace, Share, RowShare, OwnedBelow, PartsOk, SumRows, Sum;
    var keys := parts[d].keys;
    SumFirstRows(kind, f, parts, n, full, d, |keys|, state);
    assert keys[..|keys|] == keys;
    OwnedRows(parts, n, full, d);
  }

  lemma NotYet(parts: seq<Part>, n: nat, full: Key -> nat, d: nat, i: nat)
    requires PartsOk(parts, n, full) && d < |parts| && i < |parts[d].keys|
    ensures parts[d].keys[i] !in OwnedBelow(Global(parts, full), full, |parts|, d)
    ensures parts[d].keys[i] !in parts[d].keys[..i]
  {
    hide Global;
    assert PartOk(parts[d], n);
    GlobalRow(parts, n, full, d, i);
  }

  lemma OwnedRows(parts: seq<Part>, n: nat, full: Key -> nat, d: nat)
    requires PartsOk(parts, n, full) && d < |parts|
    ensures var m := Global(parts, full);
      OwnedBelow(m, full, |parts|, d) + KeySet(parts[d].keys) == OwnedBelow(m, full, |parts|, d + 1)
  {
    hide Global;
    var m := Global(parts, full);
    assert Owned(parts[d], full, |parts|, d);
    forall k
      ensures k in OwnedBelow(m, full, |parts|, d) || k in parts[d].keys <==> k in OwnedBelow(m, full, |parts|, d + 1)
    {
      GlobalAt(parts, n, full, k);
    }
  }

  lemma ShareIsRowShare(kind: BasisKind, f: Frame, m: Terms, state: seq<bool>, k: Key, n: nat)
    requires k in m && |k| == n && n % 2 == 0
    ensures Share(kind, Engine(f, m), state)(k) == RowShare(kind, f, state, k, m[k])
  {
    hide Image, Trace;
  }

  lemma BelowAll(parts: seq<Part>, n: nat, full: Key -> nat)
    requires PartsOk(parts, n, full)
    ensures OwnedBelow(Global(parts, full), full, |parts|, |parts|) == Global(parts, full).Keys
  {
    hide Global;
  }

  /** What the first `d` partitions contribute. */
  function SumParts(kind: BasisKind, f: Frame, parts: seq<Part>, d: nat, state: seq<bool>): real
    requires d <= |parts| && forall i :: 0 <= i < |parts| ==> |parts[i].keys| == |parts[i].coeffs|
  {
    if d == 0 then 0.0
      else SumParts(kind, f, parts, d - 1, state) + SumRows(kind, f, parts[d - 1], |parts[d - 1].keys|, state)
  }

  /** Partition by partition and row by row, the sum is the expectation value of the operator. */
  lemma {:induction false} SumPartsIsExpectation(kind: BasisKind, f: Frame, parts: seq<Part>, n: nat, full: Key -> nat,
                                                 state: seq<bool>)
    requires PartsOk(parts, n, full) && n % 2 == 0
      && forall i :: 0 <= i < |parts| ==> |parts[i].keys| == |parts[i].coeffs|
    ensures SumParts(kind, f, parts, |parts|, state) == RunLaws.Expectation(kind, Engine(f, Global(parts, full)), state)
  {
    hide Global, Share, OwnedBelow, SumRows, Sum, SumParts;
    var share := Share(kind, Engine(f, Global(parts, full)), state);
    SumPartsBelow(kind, f, parts, n, full, |parts|, state);
    BelowAll(parts, n, full);
  }

  lemma {:induction false} SumPartsBelow(kind: BasisKind, f: Frame, parts: seq<Part>, n: nat, full: Key -> nat, d: nat,
                                         state: seq<bool>)
    requires PartsOk(parts, n, full) && n % 2 == 0 && d <= |parts|
      && forall i :: 0 <= i < |parts| ==> |parts[i].keys| == |parts[i].coeffs|
    ensures var m := Global(parts, full);
      SumParts(kind, f, parts, d, state) == Sum(OwnedBelow(m, full, |parts|, d), Share(kind, Engine(f, m), state))
  {
    hide Global, Share, OwnedBelow, SumRows, Sum;
    var m := Global(parts, full);
    if d == 0 {
      OwnedAll(parts, n, full);
      SumZero({}, Share(kind, Engine(f, m), state));
    } else {
      SumPartsBelow(kind, f, parts, n, full, d - 1, state);
      SumOwned(kind, f, parts, n, full, d - 1, state);
    }
  }
}
