/**
 One partition of the operator: a store of keys, their coefficients, and the branches held
 back during the gate in progress.
 */
module TermSums {
  import opened Wrappers
  import opened BasisStrings
  import opened BasisAlgebra
  import opened PairRule
  import opened PairProtocol
  import opened BitPositions
  import opened ProbeTable
  import opened OperatorIndexes
  import opened InvertedIndexes
  import opened Reclaims

  /** What the scan of row `i` does to the partition. */
  function RowScanned(kind: BasisKind, t: Turn, cut: Cutoff, p: Part, i: nat): Part
    requires i < |p.keys| == |p.coeffs| && |p.keys[i]| == |t.gen| && |t.gen| % 2 == 0
  {
    var a := p.coeffs[i];
    p.(coeffs := p.coeffs[i := Damp(t, a)],
       pending := if StatusOf(kind, t, cut, p.keys[i], a) == Held
         then p.pending[i := HeldValue(kind, t, cut, p.keys[i], a)] else p.pending)
  }

  /** What the scan of row `i` puts into the outbox. */
  function RowSent(kind: BasisKind, t: Turn, cut: Cutoff, full: Key -> nat, p: Part, i: nat,
                   box: seq<seq<Routed>>): (r: seq<seq<Routed>>)
    requires i < |p.keys| == |p.coeffs| && |p.keys[i]| == |t.gen| && |t.gen| % 2 == 0 && |box| > 0
    ensures |r| == |box|
  {
    if StatusOf(kind, t, cut, p.keys[i], p.coeffs[i]) != Emit then box
    else
      var msg := MsgOf(kind, t, full, p.keys[i], p.coeffs[i]);
      var d := PartitionFromHash(msg.hash, |box|);
      box[d := box[d] + [msg]]
  }

  /** The rows in `seen` have been scanned and the others not. */
  ghost predicate ScanSoFar(kind: BasisKind, t: Turn, cut: Cutoff, full: Key -> nat, p: Part, q: Part,
                            box: seq<seq<Routed>>, seen: set<nat>)
    requires |t.gen| % 2 == 0 && PartOk(p, |t.gen|)
  {
    && q.keys == p.keys && |q.coeffs| == |p.coeffs| && q.claimed == []
    && (forall i: nat :: i < |p.keys| ==> q.coeffs[i] == if i in seen then Damp(t, p.coeffs[i]) else p.coeffs[i])
    && (forall r: nat :: r in q.pending <==> r in seen && RowHas(kind, t, cut, p, r, Held))
    && (forall r: nat :: r in q.pending ==> q.pending[r] == HeldValue(kind, t, cut, p.keys[r], p.coeffs[r]))
    && (forall d :: 0 <= d < |box| ==> SentSoFar(kind, t, cut, full, |box|, p, box[d], d, seen))
  }

  ghost predicate SentSoFar(kind: BasisKind, t: Turn, cut: Cutoff, full: Key -> nat, nParts: nat, p: Part,
                            sent: seq<Routed>, d: nat, seen: set<nat>)
    requires |t.gen| % 2 == 0 && PartOk(p, |t.gen|)
  {
    && DistinctMsgs(sent)
    && (forall msg :: msg in sent ==> exists r: nat :: r in seen && EmitsAs(kind, t, cut, full, nParts, p, r, d, msg))
    && (forall r: nat ::
      r in seen && RowHas(kind, t, cut, p, r, Emit) && OwnerOf(full, nParts, Partner(t, p.keys[r])) == d ==>
          MsgOf(kind, t, full, p.keys[r], p.coeffs[r]) in sent)
  }

  lemma SentStep(kind: BasisKind, t: Turn, cut: Cutoff, full: Key -> nat, nParts: nat, p: Part, sent: seq<Routed>,
                 d: nat, seen: set<nat>, i: nat)
    requires |t.gen| % 2 == 0 && PartOk(p, |t.gen|) && i !in seen && i < |p.keys|
    requires SentSoFar(kind, t, cut, full, nParts, p, sent, d, seen)
    requires RowHas(kind, t, cut, p, i, Emit) && OwnerOf(full, nParts, Partner(t, p.keys[i])) == d
    ensures SentSoFar(kind, t, cut, full, nParts, p, sent + [MsgOf(kind, t, full, p.keys[i], p.coeffs[i])], d,
      seen + {i})
  {
    hide StatusOf, Anticommutes, Branch, Xor;
    var msg := MsgOf(kind, t, full, p.keys[i], p.coeffs[i]);
    var after := sent + [msg];
    forall m | m in after ensures exists r: nat :: r in seen + {i} && EmitsAs(kind, t, cut, full, nParts, p, r, d, m) {
      if m in sent {
        var r: nat :| r in seen && EmitsAs(kind, t, cut, full, nParts, p, r, d, m);
        assert r in seen + {i};
      } else {
        assert EmitsAs(kind, t, cut, full, nParts, p, i, d, m);
      }
    }
    forall j | 0 <= j < |sent| ensures sent[j].key != msg.key {
      assert sent[j] in sent;
      var r: nat :| r in seen && EmitsAs(kind, t, cut, full, nParts, p, r, d, sent[j]);
      PartnerTwice(t, p.keys[r]);
      PartnerTwice(t, p.keys[i]);
    }
  }

  lemma SentSkip(kind: BasisKind, t: Turn, cut: Cutoff, full: Key -> nat, nParts: nat, p: Part, sent: seq<Routed>,
                 d: nat, seen: set<nat>, i: nat)
    requires |t.gen| % 2 == 0 && PartOk(p, |t.gen|) && i < |p.keys|
    requires SentSoFar(kind, t, cut, full, nParts, p, sent, d, seen)
    requires !RowHas(kind, t, cut, p, i, Emit) || OwnerOf(full, nParts, Partner(t, p.keys[i])) != d
    ensures SentSoFar(kind, t, cut, full, nParts, p, sent, d, seen + {i})
  {
    hide StatusOf, Anticommutes, Branch, Xor;
    forall m | m in sent ensures exists r: nat :: r in seen + {i} && EmitsAs(kind, t, cut, full, nParts, p, r, d, m) {
      var r: nat :| r in seen && EmitsAs(kind, t, cut, full, nParts, p, r, d, m);
      assert r in seen + {i};
    }
  }

  lemma ScanNone(kind: BasisKind, t: Turn, cut: Cutoff, full: Key -> nat, p: Part, q: Part, box: seq<seq<Routed>>)
    requires |t.gen| % 2 == 0 && PartOk(p, |t.gen|) && q == Part(p.keys, p.coeffs, map[], [])
    requires forall d :: 0 <= d < |box| ==> box[d] == []
    ensures ScanSoFar(kind, t, cut, full, p, q, box, {})
  {
  }

  /** Scanning one more row keeps the account. */
  lemma ScanStep(kind: BasisKind, t: Turn, cut: Cutoff, full: Key -> nat, p: Part, q: Part, box: seq<seq<Routed>>,
                 seen: set<nat>, i: nat)
    requires |t.gen| % 2 == 0 && PartOk(p, |t.gen|) && |box| > 0
    requires ScanSoFar(kind, t, cut, full, p, q, box, seen) && i !in seen && i < |p.keys|
      && Anticommutes(kind, t.gen, p.keys[i])
    ensures ScanSoFar(kind, t, cut, full, p, RowScanned(kind, t, cut, q, i), RowSent(kind, t, cut, full, q, i, box),
      seen + {i})
  {
    hide StatusOf, Anticommutes, Branch, Xor, HeldValue;
    var q', box' := RowScanned(kind, t, cut, q, i), RowSent(kind, t, cut, full, q, i, box);
    forall d | 0 <= d < |box'| ensures SentSoFar(kind, t, cut, full, |box'|, p, box'[d], d, seen + {i}) {
      assert SentSoFar(kind, t, cut, full, |box|, p, box[d], d, seen);
      if RowHas(kind, t, cut, p, i, Emit) && OwnerOf(full, |box|, Partner(t, p.keys[i])) == d {
        SentStep(kind, t, cut, full, |box|, p, box[d], d, seen, i);
      } else {
        SentSkip(kind, t, cut, full, |box|, p, box[d], d, seen, i);
      }
    }
  }

  /** Once every anticommuting row is seen, the scan is complete. */
  lemma ScanDone(kind: BasisKind, t: Turn, cut: Cutoff, full: Key -> nat, p: Part, q: Part, box: seq<seq<Routed>>,
                 seen: set<nat>)
    requires |t.gen| % 2 == 0 && PartOk(p, |t.gen|) && ScanSoFar(kind, t, cut, full, p, q, box, seen)
    requires forall i: nat :: i in seen <==> i < |p.keys| && Anticommutes(kind, t.gen, p.keys[i])
    ensures Scanned(kind, t, cut, p, q) && Emitted(kind, t, cut, full, p, box)
  {
    hide StatusOf, Anticommutes, Branch, Xor, HeldValue;
    forall d | 0 <= d < |box|
      ensures DistinctMsgs(box[d])
      ensures forall msg :: msg in box[d] ==> exists r: nat :: EmitsAs(kind, t, cut, full, |box|, p, r, d, msg)
      ensures forall r: nat :: RowHas(kind, t, cut, p, r, Emit) && OwnerOf(full, |box|, Partner(t, p.keys[r])) == d ==>
            MsgOf(kind, t, full, p.keys[r], p.coeffs[r]) in box[d]
    {
      assert SentSoFar(kind, t, cut, full, |box|, p, box[d], d, seen);
    }
  }

  /** What was still held back before the scan does not matter. */
  lemma ResetScan(kind: BasisKind, t: Turn, cut: Cutoff, full: Key -> nat, p: Part, reset: Part, q: Part,
                  box: seq<seq<Routed>>)
    requires |t.gen| % 2 == 0 && PartOk(p, |t.gen|) && PartOk(reset, |t.gen|) && reset.keys == p.keys
      && reset.coeffs == p.coeffs
    requires Scanned(kind, t, cut, reset, q) && Emitted(kind, t, cut, full, reset, box)
    ensures Scanned(kind, t, cut, p, q) && Emitted(kind, t, cut, full, p, box)
  {
    hide StatusOf, Anticommutes, Branch, Xor, HeldValue, RescueOf;
    forall d | 0 <= d < |box|
      ensures DistinctMsgs(box[d])
      ensures forall msg :: msg in box[d] ==> exists r: nat :: EmitsAs(kind, t, cut, full, |box|, p, r, d, msg)
    {
      forall msg | msg in box[d] ensures exists r: nat :: EmitsAs(kind, t, cut, full, |box|, p, r, d, msg) {
        var r: nat :| EmitsAs(kind, t, cut, full, |box|, reset, r, d, msg);
        assert EmitsAs(kind, t, cut, full, |box|, p, r, d, msg);
      }
    }
  }

  lemma {:induction false} InSetRows(bitmap: seq<bool>, n: nat, r: nat)
    requires n <= |bitmap|
    ensures r in SetRows(bitmap, n) <==> r < n && bitmap[r]
  {
    if n > 0 {
      InSetRows(bitmap, n - 1, r);
    }
  }

  lemma {:induction false} SetRowsAscend(bitmap: seq<bool>, n: nat)
    requires n <= |bitmap|
    ensures Ascending(SetRows(bitmap, n))
  {
    if n > 0 {
      SetRowsAscend(bitmap, n - 1);
      var front := SetRows(bitmap, n - 1);
      forall r: nat | r in front ensures r < n - 1 {
        InSetRows(bitmap, n - 1, r);
      }
      assert forall i :: 0 <= i < |front| ==> front[i] in front;
    }
  }

  /** The bitmap's set rows are the anticommuting ones. */
  lemma {:induction false} RowsSelected(kind: BasisKind, g: Key, keys: seq<Key>, bitmap: seq<bool>)
    requires |g| % 2 == 0 && (forall r :: 0 <= r < |keys| ==> |keys[r]| == |g|) && |keys| <= |bitmap|
    requires var ps := Positions(FoldGenerator(kind, g));
      forall r: nat :: r < |bitmap| ==>
        bitmap[r] == ((r < |keys| && Selected(ps, |ps|, keys[r]))
          != (r < |keys| && NeedsRowParity(kind, g) && Odd(Count(keys[r]))))
    ensures Ascending(SetRows(bitmap, |bitmap|))
    ensures forall r: nat :: r in SetRows(bitmap, |bitmap|) <==> r < |keys| && Anticommutes(kind, g, keys[r])
  {
    hide Anticommutes, FoldGenerator, NeedsRowParity, Selected, SetRows;
    SetRowsAscend(bitmap, |bitmap|);
    forall r: nat ensures r in SetRows(bitmap, |bitmap|) <==> r < |keys| && Anticommutes(kind, g, keys[r]) {
      InSetRows(bitmap, |bitmap|, r);
      if r < |keys| {
        SelectedPositions(FoldGenerator(kind, g), keys[r], 0);
        FoldIsAnticommutation(kind, g, keys[r]);
      }
    }
  }

  // ---- releasing claimed branches -----------------------------------------------

  /** The claimed rows in `seen` have been released and the others not. */
  ghost predicate ReleasedSoFar(kind: BasisKind, t: Turn, full: Key -> nat, needsPhase: bool, p: Part,
                                box: seq<seq<Routed>>, seen: set<nat>)
    requires |t.gen| % 2 == 0
  {
    forall d :: 0 <= d < |box| ==> OneReleased(kind, t, full, |box|, needsPhase, p, box[d], d, seen)
  }

  ghost predicate OneReleased(kind: BasisKind, t: Turn, full: Key -> nat, nParts: nat, needsPhase: bool, p: Part,
                              sent: seq<Routed>, d: nat, seen: set<nat>)
    requires |t.gen| % 2 == 0
  {
    && DistinctMsgs(sent)
    && (forall msg ::
      msg in sent ==> exists r: nat :: r in seen && ReleasesAs(kind, t, full, nParts, needsPhase, p, r, d, msg))
    && (forall r: nat :: r in seen && ClaimedRow(t, p, r) && OwnerOf(full, nParts, Partner(t, p.keys[r])) == d ==>
          RescueOf(kind, t, full, needsPhase, p.keys[r], p.pending[r]) in sent)
  }

  function RowReleased(kind: BasisKind, t: Turn, full: Key -> nat, needsPhase: bool, p: Part, r: nat,
                       box: seq<seq<Routed>>): seq<seq<Routed>>
    requires |t.gen| % 2 == 0 && ClaimedRow(t, p, r) && |box| > 0
  {
    var msg := RescueOf(kind, t, full, needsPhase, p.keys[r], p.pending[r]);
    var d := PartitionFromHash(msg.hash, |box|);
    box[d := box[d] + [msg]]
  }

  lemma ReleaseNone(kind: BasisKind, t: Turn, full: Key -> nat, needsPhase: bool, p: Part, box: seq<seq<Routed>>)
    requires |t.gen| % 2 == 0 && forall d :: 0 <= d < |box| ==> box[d] == []
    ensures ReleasedSoFar(kind, t, full, needsPhase, p, box, {})
  {
  }

  lemma ReleaseStep(kind: BasisKind, t: Turn, full: Key -> nat, needsPhase: bool, p: Part, box: seq<seq<Routed>>,
                    seen: set<nat>, i: nat)
    requires |t.gen| % 2 == 0 && ReleasedSoFar(kind, t, full, needsPhase, p, box, seen) && |box| > 0
    requires ClaimedRow(t, p, i) && i !in seen && Distinct(p.keys)
    ensures ReleasedSoFar(kind, t, full, needsPhase, p, RowReleased(kind, t, full, needsPhase, p, i, box), seen + {i})
  {
    hide TurnIm, Xor;
    var box' := RowReleased(kind, t, full, needsPhase, p, i, box);
    var msg := RescueOf(kind, t, full, needsPhase, p.keys[i], p.pending[i]);
    forall d | 0 <= d < |box'| ensures OneReleased(kind, t, full, |box'|, needsPhase, p, box'[d], d, seen + {i}) {
      assert OneReleased(kind, t, full, |box|, needsPhase, p, box[d], d, seen);
      forall m | m in box'[d]
        ensures exists r: nat :: r in seen + {i} && ReleasesAs(kind, t, full, |box|, needsPhase, p, r, d, m)
      {
        if m in box[d] {
          var r: nat :| r in seen && ReleasesAs(kind, t, full, |box|, needsPhase, p, r, d, m);
          assert r in seen + {i};
        } else {
          assert ReleasesAs(kind, t, full, |box|, needsPhase, p, i, d, m);
        }
      }
      forall j | 0 <= j < |box[d]| ensures box[d][j].key != msg.key {
        assert box[d][j] in box[d];
        var r: nat :| r in seen && ReleasesAs(kind, t, full, |box|, needsPhase, p, r, d, box[d][j]);
        PartnerTwice(t, p.keys[r]);
        PartnerTwice(t, p.keys[i]);
      }
    }
  }

  lemma ReleaseDone(kind: BasisKind, t: Turn, full: Key -> nat, needsPhase: bool, p: Part, box: seq<seq<Routed>>,
                    seen: set<nat>)
    requires |t.gen| % 2 == 0 && ReleasedSoFar(kind, t, full, needsPhase, p, box, seen)
    requires forall r: nat :: r in p.claimed ==> r in seen
    ensures Released(kind, t, full, needsPhase, p, box)
  {
    hide TurnIm, Xor, RescueOf;
    forall d | 0 <= d < |box|
      ensures DistinctMsgs(box[d])
      ensures forall msg ::
        msg in box[d] ==> exists r: nat :: ReleasesAs(kind, t, full, |box|, needsPhase, p, r, d, msg)
      ensures forall r: nat :: ClaimedRow(t, p, r) && OwnerOf(full, |box|, Partner(t, p.keys[r])) == d ==>
            RescueOf(kind, t, full, needsPhase, p.keys[r], p.pending[r]) in box[d]
    {
      assert OneReleased(kind, t, full, |box|, needsPhase, p, box[d], d, seen);
    }
  }

  // ---- reclaiming ---------------------------------------------------------------

  /** Copies one row: pushed, then indexed. */
  method CopyRow(s: OperatorIndex, key: Key)
    requires s.Valid() && s.AllIndexed() && |key| == s.nBits && |s.keys| + 1 < EMPTY
    modifies s
    ensures s.Valid() && s.AllIndexed() && s.keys == old(s.keys) + [key]
  {
    hide OperatorIndex.RowsOk, OperatorIndex.RowOk;
    ghost var keys := s.keys;
    var row := s.Push(key);
    forall r: nat | r < |keys| ensures s.Indexed(r) {
      assert old(s.Indexed(r));
    }
    NotIndexedYet(s, row.value);
    s.InsertAbsent(row.value, s.hashing.full(key));
  }

  lemma NotIndexedYet(s: OperatorIndex, row: nat)
    requires s.Valid() && row < |s.keys|
    requires forall i :: 0 <= i < |s.slots| && Taken(s.slots[i]) ==> s.slots[i].idx < row
    ensures !s.Indexed(row)
  {
  }

  // ---- the partition ------------------------------------------------------------

  class TermSum {
    const n: nat
    const hashing: Hashing
    var store: OperatorIndex
    var inverted: InvertedIndex
    var coeffs: seq<real>
    /** For every row the entry its held-back branch sits in, if it has one. */
    var pendingSlot: seq<Option<nat>>
    var pendingRows: seq<nat>
    var pendingVals: seq<real>
    var claimedRows: seq<nat>
    /** The held-back branches are stored without the phase of their product. */
    var pendingNeedsPhase: bool

    ghost predicate PendingOk()
      reads `pendingSlot, `pendingRows, `pendingVals
    {
      && |pendingVals| == |pendingRows|
      && (forall r :: 0 <= r < |pendingSlot| && pendingSlot[r].Some? ==>
            pendingSlot[r].value < |pendingRows| && pendingRows[pendingSlot[r].value] == r)
      && (forall i ::
        0 <= i < |pendingRows| ==> pendingRows[i] < |pendingSlot| && pendingSlot[pendingRows[i]] == Some(i))
    }

    ghost function Pending(): map<nat, real>
      reads `pendingSlot, `pendingVals
    {
      map r: nat | r < |pendingSlot| && pendingSlot[r].Some? && pendingSlot[r].value < |pendingVals| ::
        pendingVals[pendingSlot[r].value]
    }

    ghost function State(): Part
      reads this, store
    {
      Part(store.keys, coeffs, Pending(), claimedRows)
    }

    /** The row index and the transposed columns agree on the rows. */
    ghost predicate StoreOk()
      reads `store, store, `inverted, inverted
    {
      && n % 2 == 0 && store.Valid() && store.AllIndexed() && store.nBits == n && store.hashing == hashing
      && MAX_INLINE_POSITIONS < store.overflowMark && Distinct(store.keys)
      && |inverted.columns| == n && inverted.Indexes(store.keys)
    }

    ghost predicate Valid()
      reads this, store, inverted
    {
      && StoreOk() && |coeffs| == |store.keys|
      && PendingOk() && |pendingSlot| <= |coeffs| && (forall r :: r in claimedRows ==> r in Pending())
    }

    lemma StateOk()
      requires Valid()
      ensures PartOk(State(), n)
    {
      forall i: nat | i < |store.keys| ensures |store.keys[i]| == n {
        assert store.RowOk(i);
      }
    }

    lemma RowsReadable()
      requires StoreOk()
      ensures store.RowsOk()
    {
    }

    constructor (n: nat, overflowMark: nat, hashing: Hashing, inlineWidth: nat)
      requires n % 2 == 0 && n <= overflowMark && MAX_INLINE_POSITIONS < overflowMark
      ensures Valid() && fresh(store) && fresh(inverted) && this.n == n && this.hashing == hashing
      ensures State() == Part([], [], map[], [])
    {
      this.n, this.hashing := n, hashing;
      store := new OperatorIndex(n, overflowMark, hashing, inlineWidth);
      inverted := new InvertedIndex(n);
      coeffs, pendingSlot, pendingRows, pendingVals, claimedRows := [], [], [], [], [];
      pendingNeedsPhase := false;
    }

    function Len(): nat
      reads this, store
    {
      store.Len()
    }

    /** Clears the slots of the previous gate's held-back branches. */
    method ClearSlots()
      requires PendingOk()
      modifies `pendingSlot
      ensures |pendingSlot| == |old(pendingSlot)| && forall r :: 0 <= r < |pendingSlot| ==> pendingSlot[r].None?
    {
      ghost var slots := pendingSlot;
      var i := 0;
      while i < |pendingRows|
        invariant i <= |pendingRows| && |pendingSlot| == |slots|
        invariant forall r :: 0 <= r < |slots| && slots[r].Some? && slots[r].value >= i ==> pendingSlot[r] == slots[r]
        invariant forall r :: 0 <= r < |slots| && (slots[r].None? || slots[r].value < i) ==> pendingSlot[r].None?
      {
        pendingSlot := pendingSlot[pendingRows[i] := None];
        i := i + 1;
      }
    }

    /** Clears the previous gate's held-back branches and makes room for this one's. */
    method ResetPending()
      requires Valid()
      modifies `pendingSlot, `pendingRows, `pendingVals, `claimedRows
      ensures Valid() && |pendingSlot| == |coeffs| && claimedRows == [] && pendingRows == [] && pendingVals == []
      ensures forall r :: 0 <= r < |pendingSlot| ==> pendingSlot[r].None?
      ensures State() == old(State()).(pending := map[], claimed := [])
    {
      hide StoreOk;
      ClearSlots();
      pendingRows, pendingVals, claimedRows := [], [], [];
      if |pendingSlot| < |coeffs| {
        pendingSlot := pendingSlot + seq(|coeffs| - |pendingSlot|, r => None);
      }
    }

    /** Holds row `row`'s branch back for its partner to claim. */
    method HoldBack(row: nat, coeff: real)
      requires PendingOk() && row < |pendingSlot| && pendingSlot[row].None?
      modifies `pendingSlot, `pendingRows, `pendingVals
      ensures PendingOk() && pendingSlot == old(pendingSlot)[row := Some(|old(pendingRows)|)]
      ensures Pending() == old(Pending())[row := coeff]
    {
      pendingSlot := pendingSlot[row := Some(|pendingRows|)];
      pendingRows := pendingRows + [row];
      pendingVals := pendingVals + [coeff];
    }

    /** Notes that a partner has paid for row `row`'s held-back branch, if it holds one. */
    method Claim(row: nat)
      requires PendingOk()
      modifies `claimedRows
      ensures claimedRows == if row in old(Pending()) then old(claimedRows) + [row] else old(claimedRows)
    {
      if row < |pendingSlot| && pendingSlot[row].Some? {
        claimedRows := claimedRows + [row];
      }
    }

    /** Damps row `i` and emits its sine branch, holds it back, or drops it. */
    method EmitFromRow(kind: BasisKind, t: Turn, cut: Cutoff, i: nat, outbox: seq<seq<Routed>>)
        returns (out: seq<seq<Routed>>)
      requires Valid() && TurnOf(t, n) && i < |coeffs| == |pendingSlot| && pendingSlot[i].None? && |outbox| > 0
      requires |store.keys[i]| == n && Anticommutes(kind, t.gen, store.keys[i])
      modifies `coeffs, `pendingSlot, `pendingRows, `pendingVals
      ensures Valid() && |pendingSlot| == |coeffs| == |old(coeffs)|
      ensures State() == RowScanned(kind, t, cut, old(State()), i)
      ensures out == RowSent(kind, t, cut, hashing.full, old(State()), i, outbox)
      ensures forall r :: 0 <= r < |pendingSlot| && r != i ==> pendingSlot[r].None? == old(pendingSlot)[r].None?
    {
      hide Anticommutes, Xor, Branch, Damp, Unphased, AdmitsKey, AdmitsChild, Declines, StoreOk, PendingOk, Pending;
      RowsReadable();
      out := outbox;
      var a := coeffs[i];
      if Declines(t, cut, a) {
        HoldBack(i, Unphased(t, a));
        coeffs := coeffs[i := Damp(t, a)];
        return;
      }
      var mono := store.Row(i);
      var child := Partner(t, mono);
      var branch := Branch(kind, t, mono, a);
      if AdmitsKey(kind, cut, child) {
        if AdmitsChild(kind, cut, child, branch) {
          var hash := hashing.full(child);
          var d := PartitionFromHash(hash, |out|);
          out := out[d := out[d] + [Routed(child, hash, branch)]];
        } else {
          HoldBack(i, branch);
        }
      }
      coeffs := coeffs[i := Damp(t, a)];
    }

    /** The rows a generator anticommutes with, read off the transposed bitmap. */
    method AnticommutingRows(kind: BasisKind, g: Key) returns (rows: seq<nat>)
      requires Valid() && |g| == n
      modifies inverted
      ensures Valid() && Ascending(rows) && forall i: nat :: i < |store.keys| ==> |store.keys[i]| == n
      ensures forall r: nat :: r in rows <==> r < |store.keys| && Anticommutes(kind, g, store.keys[r])
    {
      hide Anticommutes, FoldGenerator, NeedsRowParity, Selected, PendingOk, Pending, Distinct;
      hide OperatorIndex.RowsOk, OperatorIndex.IndexOk, InvertedIndex.Indexes;
      StateOk();
      ghost var keys := store.keys;
      inverted.SyncTo(store);
      var fold := FoldGenerator(kind, g);
      var positions := OperatorIndex.PositionsOf(fold);
      PositionsFromAre(fold, 0);
      var bitmap := inverted.Combine(positions, keys);
      if NeedsRowParity(kind, g) {
        bitmap := inverted.ApplyRowParity(bitmap, keys);
      }
      rows := ForEachSetBit(bitmap);
      RowsSelected(kind, g, keys, bitmap);
    }

    /** Every source in `rows` rotates into its cosine branch and deals with its sine branch. */
    method ScanRows(kind: BasisKind, t: Turn, cut: Cutoff, rows: seq<nat>, outbox: seq<seq<Routed>>)
        returns (out: seq<seq<Routed>>)
      requires Valid() && TurnOf(t, n) && |outbox| > 0 && PartOk(State(), n) && Ascending(rows)
      requires |pendingSlot| == |coeffs| && forall r :: 0 <= r < |pendingSlot| ==> pendingSlot[r].None?
      requires forall r: nat :: r in rows <==> r < |store.keys| && Anticommutes(kind, t.gen, store.keys[r])
      requires ScanSoFar(kind, t, cut, hashing.full, State(), State(), outbox, {})
      modifies `coeffs, `pendingSlot, `pendingRows, `pendingVals
      ensures Valid() && |out| == |outbox|
      ensures Scanned(kind, t, cut, old(State()), State()) && Emitted(kind, t, cut, hashing.full, old(State()), out)
    {
      hide Anticommutes, RowScanned, RowSent, ScanSoFar, Scanned, Emitted, StoreOk, PartOk, Pending, PendingOk,
        Distinct;
      ghost var start := State();
      assert forall i :: 0 <= i < |store.keys| ==> |store.keys[i]| == n by { StateOk(); }
      out := outbox;
      ghost var seen: set<nat> := {};
      var idx := 0;
      while idx < |rows|
        invariant idx <= |rows| && Valid()
        invariant |coeffs| == |pendingSlot| == |start.keys| && |out| == |outbox|
        invariant forall r: nat :: r in seen <==> r in rows[..idx]
        invariant forall r: nat :: r < |pendingSlot| && r !in seen ==> pendingSlot[r].None?
        invariant ScanSoFar(kind, t, cut, hashing.full, start, State(), out, seen)
      {
        var i := rows[idx];
        assert i in rows;
        assert rows[..idx + 1] == rows[..idx] + [i];
        ScanStep(kind, t, cut, hashing.full, start, State(), out, seen, i);
        out := EmitFromRow(kind, t, cut, i, out);
        seen := seen + {i};
        idx := idx + 1;
      }
      assert rows[..idx] == rows;
      ScanDone(kind, t, cut, hashing.full, start, State(), out, seen);
    }

    /** The scan of all rows. */
    method ScanInto(kind: BasisKind, t: Turn, cut: Cutoff, outbox: seq<seq<Routed>>) returns (out: seq<seq<Routed>>)
      requires Valid() && TurnOf(t, n) && |outbox| > 0 && forall d :: 0 <= d < |outbox| ==> outbox[d] == []
      modifies this, inverted
      ensures Valid() && store == old(store) && inverted == old(inverted) && |out| == |outbox|
      ensures PartOk(old(State()), n) && Scanned(kind, t, cut, old(State()), State())
      ensures Emitted(kind, t, cut, hashing.full, old(State()), out)
      ensures pendingNeedsPhase == Prechecks(cut)
    {
      hide Anticommutes, ScanSoFar, StoreOk, PendingOk;
      StateOk();
      ghost var start := State();
      ResetPending();
      pendingNeedsPhase := Prechecks(cut);
      var rows := AnticommutingRows(kind, t.gen);
      ghost var reset := State();
      ScanNone(kind, t, cut, hashing.full, State(), State(), outbox);
      out := ScanRows(kind, t, cut, rows, outbox);
      ResetScan(kind, t, cut, hashing.full, start, reset, State(), out);
    }

    /** Adds `coeff` to `key`'s term, creating the term if it is absent. */
    method Add(key: Key, coeff: real) returns (ok: bool)
      requires Valid() && |key| == n
      modifies this, store
      ensures Valid() && store == old(store) && inverted == old(inverted)
      ensures ok <==> key in old(store.keys) || |old(store.keys)| + 1 < EMPTY
      ensures !ok ==> State() == old(State())
      ensures ok ==> State().(claimed := []) == AbsorbOne(old(State()), Routed(key, 0, coeff)).(claimed := [])
    {
      hide OperatorIndex.RowsOk, OperatorIndex.IndexOk, InvertedIndex.Indexes;
      StateOk();
      var found := store.Find(key);
      if found.Some? {
        coeffs := coeffs[found.value := coeffs[found.value] + coeff];
        return true;
      }
      ok := Append(key, hashing.full(key), coeff);
    }

    /** Appends an absent key as a new row; at the ceiling nothing changes at all. */
    method Append(key: Key, hash: nat, coeff: real) returns (ok: bool)
      requires Valid() && |key| == n && key !in store.keys && hash == hashing.full(key)
      modifies this`coeffs, store
      ensures Valid() && |coeffs| == |store.keys|
      ensures ok <==> |old(store.keys)| + 1 < EMPTY
      ensures !ok ==> State() == old(State())
      ensures ok ==> State() == old(State()).(keys := old(store.keys) + [key], coeffs := old(coeffs) + [coeff])
    {
      hide PendingOk, Pending, OperatorIndex.RowsOk;
      ghost var keys := store.keys;
      var row := store.Push(key);
      if row.None? {
        forall r: nat | r < |store.keys| ensures store.Indexed(r) {
          assert old(store.Indexed(r));
        }
        return false;
      }
      forall r: nat | r < |keys| ensures store.Indexed(r) {
        assert old(store.Indexed(r));
      }
      NotIndexedYet(store, row.value);
      store.InsertAbsent(row.value, hash);
      coeffs := coeffs + [coeff];
      ColumnsOkMore(inverted.columns, inverted.rowParity, keys, store.keys, inverted.rowCount,
        Height(inverted.rowCount));
      ok := true;
    }

    /** A branch joins the row that holds its key. */
    method Join(row: nat, msg: Routed)
      requires Valid() && row < |store.keys| && store.keys[row] == msg.key
      modifies `coeffs, `claimedRows
      ensures Valid() && State() == AbsorbOne(old(State()), msg)
    {
      hide StoreOk;
      assert RowOf(store.keys, msg.key) == row by { RowIsUnique(row, msg.key); }
      coeffs := coeffs[row := coeffs[row] + msg.coeff];
      Claim(row);
    }

    lemma RowIsUnique(row: nat, key: Key)
      requires Valid() && row < |store.keys| && store.keys[row] == key
      ensures RowOf(store.keys, key) == row
    {
    }

    /** Folds one routed branch in, claiming the row's own held-back branch when it has one. */
    method AbsorbRouted(msg: Routed) returns (created: Option<bool>)
      requires Valid() && |msg.key| == n && msg.hash == hashing.full(msg.key)
      modifies this, store
      ensures Valid() && store == old(store) && inverted == old(inverted) && pendingNeedsPhase == old(pendingNeedsPhase)
      ensures created.None? <==> msg.key !in old(store.keys) && |old(store.keys)| + 1 >= EMPTY
      ensures created.None? ==> State() == old(State())
      ensures created.Some? ==>
        State() == AbsorbOne(old(State()), msg) && (created.value <==> msg.key !in old(store.keys))
    {
      hide OperatorIndex.RowsOk, OperatorIndex.IndexOk, InvertedIndex.Indexes;
      StateOk();
      var found := store.Find(msg.key);
      if found.Some? {
        Join(found.value, msg);
        return Some(false);
      }
      var ok := Append(msg.key, msg.hash, msg.coeff);
      created := if ok then Some(true) else None;
    }

    /** Releases every claimed branch, phased if it was stored unphased. */
    method DrainClaims(kind: BasisKind, t: Turn, outbox: seq<seq<Routed>>) returns (out: seq<seq<Routed>>)
      requires Valid() && TurnOf(t, n) && |outbox| > 0 && forall d :: 0 <= d < |outbox| ==> outbox[d] == []
      requires forall i, j :: 0 <= i < j < |claimedRows| ==> claimedRows[i] != claimedRows[j]
      modifies `claimedRows
      ensures Valid() && |out| == |outbox| && State() == Settled(old(State()))
      ensures Released(kind, t, hashing.full, pendingNeedsPhase, old(State()), out)
    {
      hide TurnIm, Xor, ReleasedSoFar, Released, Distinct;
      hide OperatorIndex.RowsOk, OperatorIndex.IndexOk, InvertedIndex.Indexes;
      StateOk();
      ghost var p := State();
      out := outbox;
      ghost var seen: set<nat> := {};
      ReleaseNone(kind, t, hashing.full, pendingNeedsPhase, p, out);
      var i := 0;
      while i < |claimedRows|
        invariant i <= |claimedRows| && State() == p && |out| == |outbox|
        invariant forall r: nat :: r in seen <==> r in claimedRows[..i]
        invariant ReleasedSoFar(kind, t, hashing.full, pendingNeedsPhase, p, out, seen)
      {
        var row := claimedRows[i];
        assert row in claimedRows;
        assert claimedRows[..i + 1] == claimedRows[..i] + [row];
        var slot := pendingSlot[row].value;
        var mono := store.Row(row);
        var child := Partner(t, mono);
        var hash := hashing.full(child);
        var coeff := pendingVals[slot];
        if pendingNeedsPhase {
          coeff := coeff * -TurnIm(kind, t, mono);
        }
        assert p.pending[row] == pendingVals[slot];
        assert Routed(child, hash, coeff)
          == RescueOf(kind, t, hashing.full, pendingNeedsPhase, p.keys[row], p.pending[row]);
        ReleaseStep(kind, t, hashing.full, pendingNeedsPhase, p, out, seen, row);
        var d := PartitionFromHash(hash, |out|);
        out := out[d := out[d] + [Routed(child, hash, coeff)]];
        seen := seen + {row};
        i := i + 1;
      }
      assert claimedRows[..i] == claimedRows;
      ReleaseDone(kind, t, hashing.full, pendingNeedsPhase, p, out, seen);
      claimedRows := [];
    }

    /** Copies the rows to keep into a new store; it never meets the ceiling, having no more rows. */
    method CopyKept(keep: Keep, inlineWidth: nat) returns (copy: OperatorIndex, kept: seq<real>)
      requires Valid()
      ensures fresh(copy) && copy.Valid() && copy.AllIndexed() && copy.nBits == n && copy.hashing == hashing
      ensures copy.overflowMark == store.overflowMark
      ensures copy.keys == KeptKeys(store.keys, coeffs, keep) && kept == KeptCoeffs(store.keys, coeffs, keep)
    {
      hide OperatorIndex.IndexOk, InvertedIndex.Indexes, KeptKeys, KeptCoeffs, Distinct;
      ghost var keys := store.keys;
      StateOk();
      copy := new OperatorIndex(n, store.overflowMark, hashing, inlineWidth);
      copy.Reserve(store.Len());
      kept := [];
      NoneKept(keys[..0], coeffs[..0], keep);
      for i := 0 to |coeffs|
        invariant fresh(copy) && copy.Valid() && copy.AllIndexed() && copy.nBits == n && copy.hashing == hashing
        invariant copy.overflowMark == store.overflowMark && store.Valid() && |keys| < EMPTY
        invariant copy.keys == KeptKeys(keys[..i], coeffs[..i], keep)
          && kept == KeptCoeffs(keys[..i], coeffs[..i], keep)
      {
        KeptNext(keys, coeffs, i, keep);
        var key := store.Row(i);
        if keep(key, coeffs[i]) {
          CopyRow(copy, key);
          kept := kept + [coeffs[i]];
        }
      }
      assert keys[..|coeffs|] == keys && coeffs[..|coeffs|] == coeffs;
    }

    /** Drops the rows a predicate rejects and reports how many. */
    method Reclaim(keep: Keep) returns (dropped: nat)
      requires Valid()
      modifies this, inverted
      ensures Valid() && inverted == old(inverted) && fresh(store)
      ensures State() == Kept(old(State()), keep) && dropped == |old(store.keys)| - |store.keys|
    {
      hide OperatorIndex.IndexOk, InvertedIndex.Indexes, KeptKeys, KeptCoeffs;
      StateOk();
      var before := store.Len();
      KeptDistinct(store.keys, coeffs, keep);
      var copy, kept := CopyKept(keep, store.inlineWidth);
      store, coeffs := copy, kept;
      inverted.Reset();
      pendingSlot, pendingRows, pendingVals, claimedRows := [], [], [], [];
      dropped := before - store.Len();
    }

    /** Stores the rows at another inline width: nothing else can be told apart. */
    method Repack(inlineWidth: nat)
      requires Valid()
      modifies this, inverted
      ensures Valid() && inverted == old(inverted) && fresh(store)
      ensures State() == old(State()).(pending := map[], claimed := [])
    {
      hide OperatorIndex.IndexOk, InvertedIndex.Indexes, KeptKeys, KeptCoeffs;
      StateOk();
      KeptAll(store.keys, coeffs);
      var copy, kept := CopyKept(KeepAll(), inlineWidth);
      store := copy;
      inverted.Reset();
      pendingSlot, pendingRows, pendingVals, claimedRows := [], [], [], [];
    }

    /** Scales every anticommuting term. */
    method ScaleAnticommuting(kind: BasisKind, g: Key, factor: real)
      requires Valid() && |g| == n
      modifies `coeffs
      ensures Valid() && |coeffs| == |old(coeffs)| && (forall i: nat :: i < |store.keys| ==> |store.keys[i]| == n)
      ensures State() == old(State()).(coeffs := coeffs)
      ensures forall i :: 0 <= i < |coeffs| ==>
        coeffs[i] == if Anticommutes(kind, g, store.keys[i]) then old(coeffs)[i] * factor else old(coeffs)[i]
    {
      hide Anticommutes;
      hide OperatorIndex.RowsOk, OperatorIndex.IndexOk, InvertedIndex.Indexes;
      StateOk();
      var i := 0;
      while i < |coeffs|
        invariant i <= |coeffs| == |old(coeffs)| && Valid()
        invariant forall k :: 0 <= k < |coeffs| ==>
          coeffs[k] == if k < i && Anticommutes(kind, g, store.keys[k]) then old(coeffs)[k] * factor else old(coeffs)[k]
      {
        var mono := store.Row(i);
        if Anticommutes(kind, g, mono) {
          coeffs := coeffs[i := coeffs[i] * factor];
        }
        i := i + 1;
      }
    }
  }
}
