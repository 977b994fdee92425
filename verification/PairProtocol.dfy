/**
 The message protocol of one gate, on values: what each partition emits, how it folds what it
 receives, which held-back branches it releases, and why the three rounds together are the
 pair rule for every number of partitions.
 */
module PairProtocol {
  import opened BasisStrings
  import opened BasisAlgebra
  import opened PairRule

  /** A routed branch: its key, the hash of the key, and its coefficient. */
  datatype Routed = Routed(key: Key, hash: nat, coeff: real)

  /**
   One partition: its rows and their coefficients, the branches held back this gate by row,
   and the rows whose branch a partner has paid for.
   */
  datatype Part = Part(keys: seq<Key>, coeffs: seq<real>, pending: map<nat, real>, claimed: seq<nat>)

  /** The partition a hash belongs to. */
  function PartitionFromHash(hash: nat, nParts: nat): (d: nat)
    ensures nParts > 0 ==> d < nParts
  {
    if nParts <= 1 then 0 else (hash / 0x1_0000_0000) % nParts
  }

  /** The upper word of a hash chooses the partition and the lower word has no say. */
  lemma UpperWordChooses(upper: nat, lower: nat, nParts: nat)
    requires lower < 0x1_0000_0000
    ensures PartitionFromHash(upper * 0x1_0000_0000 + lower, nParts) == if nParts <= 1 then 0 else upper % nParts
  {
    assert (upper * 0x1_0000_0000 + lower) / 0x1_0000_0000 == upper;
  }

  function OwnerOf(full: Key -> nat, nParts: nat, key: Key): (d: nat)
    ensures nParts > 0 ==> d < nParts
  {
    PartitionFromHash(full(key), nParts)
  }

  ghost predicate Distinct(keys: seq<Key>)
  {
    forall i, j :: 0 <= i < j < |keys| ==> keys[i] != keys[j]
  }

  ghost predicate PartOk(p: Part, n: nat)
  {
    && |p.coeffs| == |p.keys| && Distinct(p.keys)
    && (forall i :: 0 <= i < |p.keys| ==> |p.keys[i]| == n)
    && (forall r :: r in p.pending ==> r < |p.keys|)
  }

  // ---- folding a stream of branches ---------------------------------------------

  ghost predicate HasMsg(msgs: seq<Routed>, key: Key)
  {
    exists i :: 0 <= i < |msgs| && msgs[i].key == key
  }

  /** The coefficient a stream delivers to a key. */
  function MsgCoeff(msgs: seq<Routed>, key: Key): real
  {
    if msgs == [] then 0.0
    else if msgs[|msgs| - 1].key == key then msgs[|msgs| - 1].coeff
    else MsgCoeff(msgs[..|msgs| - 1], key)
  }

  ghost predicate DistinctMsgs(msgs: seq<Routed>)
  {
    forall i, j :: 0 <= i < j < |msgs| ==> msgs[i].key != msgs[j].key
  }

  ghost function RowOf(keys: seq<Key>, key: Key): (i: nat)
    requires key in keys
    ensures i < |keys| && keys[i] == key
  {
    var i :| 0 <= i < |keys| && keys[i] == key;
    i
  }

  /** One branch arrives: it joins its row, which claims its own held-back branch, or becomes a row. */
  ghost function AbsorbOne(p: Part, msg: Routed): Part
    requires |p.coeffs| == |p.keys|
  {
    if msg.key in p.keys then
      var r := RowOf(p.keys, msg.key);
      Part(p.keys, p.coeffs[r := p.coeffs[r] + msg.coeff], p.pending,
           if r in p.pending then p.claimed + [r] else p.claimed)
    else Part(p.keys + [msg.key], p.coeffs + [msg.coeff], p.pending, p.claimed)
  }

  ghost function AbsorbAll(p: Part, msgs: seq<Routed>): (q: Part)
    requires |p.coeffs| == |p.keys|
    ensures |q.coeffs| == |q.keys|
  {
    if msgs == [] then p else AbsorbOne(AbsorbAll(p, msgs[..|msgs| - 1]), msgs[|msgs| - 1])
  }

  /** Everything a fold of distinct branches does to a partition. */
  ghost predicate Folded(p: Part, msgs: seq<Routed>, q: Part)
    requires |p.coeffs| == |p.keys| && |q.coeffs| == |q.keys|
  {
    && p.keys <= q.keys && Distinct(q.keys) && q.pending == p.pending
    && (forall k :: k in q.keys <==> k in p.keys || HasMsg(msgs, k))
    && (forall i :: 0 <= i < |q.keys| ==>
          q.coeffs[i] == (if i < |p.keys| then p.coeffs[i] else 0.0) + MsgCoeff(msgs, q.keys[i]))
    && (forall r: nat :: r in q.claimed <==> r in p.pending && r < |p.keys| && HasMsg(msgs, p.keys[r]))
    && (forall i, j :: 0 <= i < j < |q.claimed| ==> q.claimed[i] != q.claimed[j])
  }

  lemma {:induction false} NoMsgNoCoeff(msgs: seq<Routed>, key: Key)
    requires !HasMsg(msgs, key)
    ensures MsgCoeff(msgs, key) == 0.0
    decreases |msgs|
  {
    if msgs != [] {
      var last := |msgs| - 1;
      assert msgs[last].key != key;
      forall i | 0 <= i < last ensures msgs[..last][i].key != key {
        assert msgs[i].key != key;
      }
      NoMsgNoCoeff(msgs[..last], key);
    }
  }

  lemma MsgSplit(msgs: seq<Routed>, key: Key)
    requires msgs != []
    ensures HasMsg(msgs, key) <==> HasMsg(msgs[..|msgs| - 1], key) || msgs[|msgs| - 1].key == key
  {
    var last := |msgs| - 1;
    if HasMsg(msgs, key) {
      var i :| 0 <= i < |msgs| && msgs[i].key == key;
      if i < last {
        assert msgs[..last][i].key == key;
      }
    }
    if HasMsg(msgs[..last], key) {
      var i :| 0 <= i < last && msgs[..last][i].key == key;
      assert msgs[i].key == key;
    }
    if msgs[last].key == key {
    }
  }

  lemma {:induction false} AbsorbAllFolds(p: Part, n: nat, msgs: seq<Routed>)
    requires PartOk(p, n) && p.claimed == [] && DistinctMsgs(msgs)
    ensures Folded(p, msgs, AbsorbAll(p, msgs))
    decreases |msgs|
  {
    if msgs != [] {
      var last := |msgs| - 1;
      var rest := msgs[..last];
      var q := AbsorbAll(p, rest);
      AbsorbAllFolds(p, n, rest);
      AbsorbOneFolds(p, n, msgs, q);
    }
  }

  lemma AbsorbOneFolds(p: Part, n: nat, msgs: seq<Routed>, q: Part)
    requires PartOk(p, n) && DistinctMsgs(msgs) && msgs != []
    requires |q.coeffs| == |q.keys| && Folded(p, msgs[..|msgs| - 1], q)
    ensures Folded(p, msgs, AbsorbOne(q, msgs[|msgs| - 1]))
  {
    var last := |msgs| - 1;
    var rest, msg := msgs[..last], msgs[last];
    var q' := AbsorbOne(q, msg);
    forall k ensures HasMsg(msgs, k) <==> HasMsg(rest, k) || msg.key == k {
      MsgSplit(msgs, k);
    }
    assert !HasMsg(rest, msg.key) by {
      forall i | 0 <= i < last ensures rest[i].key != msg.key {
        assert rest[i] == msgs[i];
      }
    }
    NoMsgNoCoeff(rest, msg.key);
    if msg.key in q.keys {
      JoiningFolds(p, n, msgs, rest, msg, q);
    } else {
      assert msg.key !in p.keys;
      forall s: nat ensures s in q'.claimed <==> s in p.pending && s < |p.keys| && HasMsg(msgs, p.keys[s]) {
        if s in p.pending {
          assert p.keys[s] in p.keys;
        }
      }
    }
  }

  /** The branch joins a row that was there before the fold. */
  lemma {:induction false} JoiningFolds(p: Part, n: nat, msgs: seq<Routed>, rest: seq<Routed>, msg: Routed, q: Part)
    requires PartOk(p, n) && |q.coeffs| == |q.keys| && Folded(p, rest, q) && msg.key in q.keys
    requires msgs == rest + [msg] && !HasMsg(rest, msg.key) && MsgCoeff(rest, msg.key) == 0.0
    requires forall k :: HasMsg(msgs, k) <==> HasMsg(rest, k) || msg.key == k
    ensures Folded(p, msgs, AbsorbOne(q, msg))
  {
    hide HasMsg;
    var q', r := AbsorbOne(q, msg), RowOf(q.keys, msg.key);
    assert msgs[..|msgs| - 1] == rest;
    assert r < |p.keys| by {
      assert msg.key in p.keys;
      var i :| 0 <= i < |p.keys| && p.keys[i] == msg.key;
      assert q.keys[i] == msg.key;
    }
    forall i | 0 <= i < |q'.keys|
      ensures q'.coeffs[i] == (if i < |p.keys| then p.coeffs[i] else 0.0) + MsgCoeff(msgs, q'.keys[i])
    {
      if i != r {
        assert q.keys[i] != msg.key;
      }
    }
    assert forall s: nat :: s in q'.claimed <==> s in q.claimed || (s == r && r in p.pending);
    forall s: nat ensures s in q'.claimed <==> s in p.pending && s < |p.keys| && HasMsg(msgs, p.keys[s]) {
      if s in p.pending {
        assert p.keys[s] == q.keys[s];
      }
    }
    assert r !in q.claimed;
  }

  // ---- what a scan does and sends -----------------------------------------------

  /** Row `r` of the partition branches and does `s` with its branch. */
  predicate RowHas(kind: BasisKind, t: Turn, cut: Cutoff, p: Part, r: nat, s: Status)
    requires |t.gen| % 2 == 0 && |p.coeffs| == |p.keys|
  {
    r < |p.keys| && |p.keys[r]| == |t.gen| && Anticommutes(kind, t.gen, p.keys[r])
    && StatusOf(kind, t, cut, p.keys[r], p.coeffs[r]) == s
  }

  /** Every anticommuting row damped, the refused branches held back by row, no claims yet. */
  ghost predicate Scanned(kind: BasisKind, t: Turn, cut: Cutoff, p: Part, q: Part)
    requires |t.gen| % 2 == 0 && PartOk(p, |t.gen|)
  {
    && q.keys == p.keys && |q.coeffs| == |p.coeffs| && q.claimed == []
    && (forall i :: 0 <= i < |p.keys| ==>
          q.coeffs[i] == if Anticommutes(kind, t.gen, p.keys[i]) then Damp(t, p.coeffs[i]) else p.coeffs[i])
    && (forall r: nat :: r in q.pending <==> RowHas(kind, t, cut, p, r, Held))
    && (forall r: nat :: r in q.pending ==> q.pending[r] == HeldValue(kind, t, cut, p.keys[r], p.coeffs[r]))
  }

  /** The message a row emits. */
  function MsgOf(kind: BasisKind, t: Turn, full: Key -> nat, key: Key, a: real): Routed
    requires |key| == |t.gen| && |key| % 2 == 0
  {
    Routed(Partner(t, key), full(Partner(t, key)), Branch(kind, t, key, a))
  }

  /** The message that releases a held-back branch, phased now if it was stored unphased. */
  function RescueOf(kind: BasisKind, t: Turn, full: Key -> nat, needsPhase: bool, key: Key, held: real): Routed
    requires |key| == |t.gen| && |key| % 2 == 0
  {
    Routed(Partner(t, key), full(Partner(t, key)), if needsPhase then held * -TurnIm(kind, t, key) else held)
  }

  /** The outbox of a scan: for every destination exactly the emitting rows it owns the branch of. */
  ghost predicate Emitted(kind: BasisKind, t: Turn, cut: Cutoff, full: Key -> nat, p: Part, box: seq<seq<Routed>>)
    requires |t.gen| % 2 == 0 && PartOk(p, |t.gen|)
  {
    forall d :: 0 <= d < |box| ==>
      && DistinctMsgs(box[d])
      && (forall msg :: msg in box[d] ==> exists r: nat :: EmitsAs(kind, t, cut, full, |box|, p, r, d, msg))
      && (forall r: nat :: RowHas(kind, t, cut, p, r, Emit) && OwnerOf(full, |box|, Partner(t, p.keys[r])) == d ==>
            MsgOf(kind, t, full, p.keys[r], p.coeffs[r]) in box[d])
  }

  predicate EmitsAs(kind: BasisKind, t: Turn, cut: Cutoff, full: Key -> nat, nParts: nat, p: Part, r: nat, d: nat,
                    msg: Routed)
    requires |t.gen| % 2 == 0 && |p.coeffs| == |p.keys|
  {
    && RowHas(kind, t, cut, p, r, Emit) && msg == MsgOf(kind, t, full, p.keys[r], p.coeffs[r])
    && OwnerOf(full, nParts, msg.key) == d
  }

  /** The rescue outbox: for every destination exactly the claimed rows it owns the branch of. */
  ghost predicate Released(kind: BasisKind, t: Turn, full: Key -> nat, needsPhase: bool, p: Part, box: seq<seq<Routed>>)
    requires |t.gen| % 2 == 0
  {
    forall d :: 0 <= d < |box| ==>
      && DistinctMsgs(box[d])
      && (forall msg :: msg in box[d] ==> exists r: nat :: ReleasesAs(kind, t, full, |box|, needsPhase, p, r, d, msg))
      && (forall r: nat :: ClaimedRow(t, p, r) && OwnerOf(full, |box|, Partner(t, p.keys[r])) == d ==>
            RescueOf(kind, t, full, needsPhase, p.keys[r], p.pending[r]) in box[d])
  }

  predicate ClaimedRow(t: Turn, p: Part, r: nat)
  {
    r in p.claimed && r in p.pending && r < |p.keys| && |p.keys[r]| == |t.gen|
  }

  predicate ReleasesAs(kind: BasisKind, t: Turn, full: Key -> nat, nParts: nat, needsPhase: bool, p: Part, r: nat,
                       d: nat, msg: Routed)
    requires |t.gen| % 2 == 0
  {
    && ClaimedRow(t, p, r) && msg == RescueOf(kind, t, full, needsPhase, p.keys[r], p.pending[r])
    && OwnerOf(full, nParts, msg.key) == d
  }

  // ---- streams ------------------------------------------------------------------

  /** What destination `d` receives from the first `s` sources, in source order. */
  function Stream(boxes: seq<seq<seq<Routed>>>, d: nat, s: nat): seq<Routed>
    requires s <= |boxes| && forall i :: 0 <= i < |boxes| ==> d < |boxes[i]|
  {
    if s == 0 then [] else Stream(boxes, d, s - 1) + boxes[s - 1][d]
  }

  lemma {:induction false} InStream(boxes: seq<seq<seq<Routed>>>, d: nat, s: nat, msg: Routed)
    requires s <= |boxes| && forall i :: 0 <= i < |boxes| ==> d < |boxes[i]|
    ensures msg in Stream(boxes, d, s) <==> exists src: nat :: src < s && msg in boxes[src][d]
  {
    if s > 0 {
      InStream(boxes, d, s - 1, msg);
    }
  }

  /** Branches of different sources have different keys, so a whole stream has distinct keys. */
  lemma {:induction false} StreamDistinct(t: Turn, full: Key -> nat, boxes: seq<seq<seq<Routed>>>, d: nat, s: nat)
    requires s <= |boxes| && forall i :: 0 <= i < |boxes| ==> d < |boxes[i]|
    requires forall src: nat :: src < s ==> DistinctMsgs(boxes[src][d])
    requires forall src: nat, msg :: src < s && msg in boxes[src][d] ==> FromSource(t, full, |boxes|, src, msg)
    ensures DistinctMsgs(Stream(boxes, d, s))
  {
    if s > 0 {
      StreamDistinct(t, full, boxes, d, s - 1);
      var front, back := Stream(boxes, d, s - 1), boxes[s - 1][d];
      forall i, j | 0 <= i < |front| && 0 <= j < |back| ensures front[i].key != back[j].key {
        InStream(boxes, d, s - 1, front[i]);
        assert front[i] in front;
        var src: nat :| src < s - 1 && front[i] in boxes[src][d];
        assert FromSource(t, full, |boxes|, src, front[i]);
        assert FromSource(t, full, |boxes|, s - 1, back[j]);
      }
    }
  }

  /** The row behind a branch lives in partition `src`. */
  predicate FromSource(t: Turn, full: Key -> nat, nParts: nat, src: nat, msg: Routed)
  {
    |msg.key| == |t.gen| && OwnerOf(full, nParts, Partner(t, msg.key)) == src
  }

  lemma {:induction false} MsgCoeffIs(msgs: seq<Routed>, msg: Routed)
    requires DistinctMsgs(msgs) && msg in msgs
    ensures HasMsg(msgs, msg.key) && MsgCoeff(msgs, msg.key) == msg.coeff
    decreases |msgs|
  {
    var i :| 0 <= i < |msgs| && msgs[i] == msg;
    var last := |msgs| - 1;
    if i < last {
      assert msgs[..last][i] == msg;
      assert msgs[last].key != msg.key;
      MsgCoeffIs(msgs[..last], msg);
    }
  }

  // ---- the operator the partitions hold together --------------------------------

  ghost predicate PartsOk(parts: seq<Part>, n: nat, full: Key -> nat)
  {
    |parts| > 0 && forall d :: 0 <= d < |parts| ==> PartOk(parts[d], n) && Owned(parts[d], full, |parts|, d)
  }

  /** A partition holds only keys it owns. */
  ghost predicate Owned(p: Part, full: Key -> nat, nParts: nat, d: nat)
  {
    forall k :: k in p.keys ==> OwnerOf(full, nParts, k) == d
  }

  ghost function CoeffAt(p: Part, key: Key): real
  {
    if key in p.keys && |p.coeffs| == |p.keys| then p.coeffs[RowOf(p.keys, key)] else 0.0
  }

  ghost function AllKeys(parts: seq<Part>): set<Key>
  {
    set d, k | 0 <= d < |parts| && k in parts[d].keys :: k
  }

  ghost function Global(parts: seq<Part>, full: Key -> nat): Terms
    requires |parts| > 0
  {
    map k | k in AllKeys(parts) :: CoeffAt(parts[OwnerOf(full, |parts|, k)], k)
  }

  lemma GlobalAt(parts: seq<Part>, n: nat, full: Key -> nat, k: Key)
    requires PartsOk(parts, n, full)
    ensures k in Global(parts, full) <==> k in parts[OwnerOf(full, |parts|, k)].keys
    ensures Coef(Global(parts, full), k) == CoeffAt(parts[OwnerOf(full, |parts|, k)], k)
    ensures k in Global(parts, full) ==> |k| == n
  {
  }

  lemma GlobalRow(parts: seq<Part>, n: nat, full: Key -> nat, d: nat, r: nat)
    requires PartsOk(parts, n, full) && d < |parts| && r < |parts[d].keys|
    ensures parts[d].keys[r] in Global(parts, full)
    ensures Global(parts, full)[parts[d].keys[r]] == parts[d].coeffs[r]
    ensures OwnerOf(full, |parts|, parts[d].keys[r]) == d && |parts[d].keys[r]| == n
    ensures RowOf(parts[d].keys, parts[d].keys[r]) == r
  {
    var k := parts[d].keys[r];
    assert k in parts[d].keys;
    assert PartOk(parts[d], n);
    GlobalAt(parts, n, full, k);
  }

  lemma GlobalTerms(parts: seq<Part>, n: nat, full: Key -> nat)
    requires PartsOk(parts, n, full)
    ensures TermsOf(Global(parts, full), n)
  {
    forall k | k in Global(parts, full) ensures |k| == n {
      GlobalAt(parts, n, full, k);
    }
  }

  lemma RowHasIsHas(kind: BasisKind, t: Turn, cut: Cutoff, parts: seq<Part>, full: Key -> nat, d: nat, r: nat,
                    s: Status)
    requires |t.gen| % 2 == 0 && PartsOk(parts, |t.gen|, full) && d < |parts| && r < |parts[d].keys|
    ensures RowHas(kind, t, cut, parts[d], r, s) <==> Has(kind, t, cut, Global(parts, full), parts[d].keys[r], s)
  {
    hide StatusOf, Anticommutes, Global;
    assert PartOk(parts[d], |t.gen|);
    GlobalRow(parts, |t.gen|, full, d, r);
  }

  // ---- round one ----------------------------------------------------------------

  /** The boxes of a scan of every partition. */
  ghost predicate AllEmitted(kind: BasisKind, t: Turn, cut: Cutoff, full: Key -> nat, parts: seq<Part>,
                             boxes: seq<seq<seq<Routed>>>)
    requires |t.gen| % 2 == 0 && PartsOk(parts, |t.gen|, full)
  {
    |boxes| == |parts| && forall src :: 0 <= src < |parts| ==>
      |boxes[src]| == |parts| && Emitted(kind, t, cut, full, parts[src], boxes[src])
  }

  /** A destination receives exactly the branches of the whole operator that it owns. */
  lemma {:induction false} StreamIsBranches(kind: BasisKind, t: Turn, cut: Cutoff, full: Key -> nat, parts: seq<Part>,
                                            boxes: seq<seq<seq<Routed>>>, d: nat)
    requires |t.gen| % 2 == 0 && PartsOk(parts, |t.gen|, full) && AllEmitted(kind, t, cut, full, parts, boxes)
      && d < |parts|
    ensures DistinctMsgs(Stream(boxes, d, |boxes|))
    ensures forall k: Key :: Receives(kind, t, cut, full, parts, Stream(boxes, d, |boxes|), d, k)
  {
    hide StatusOf, Anticommutes, Xor, Branch, Global;
    forall src: nat, msg | src < |boxes| && msg in boxes[src][d] ensures FromSource(t, full, |boxes|, src, msg) {
      assert Emitted(kind, t, cut, full, parts[src], boxes[src]);
      var r: nat :| EmitsAs(kind, t, cut, full, |boxes|, parts[src], r, d, msg);
      PartnerTwice(t, parts[src].keys[r]);
      GlobalRow(parts, |t.gen|, full, src, r);
    }
    forall src: nat | src < |boxes| ensures DistinctMsgs(boxes[src][d]) {
      assert Emitted(kind, t, cut, full, parts[src], boxes[src]);
    }
    StreamDistinct(t, full, boxes, d, |boxes|);
    forall k: Key ensures Receives(kind, t, cut, full, parts, Stream(boxes, d, |boxes|), d, k) {
      ReceivesBranch(kind, t, cut, full, parts, boxes, d, k);
    }
  }

  /** The stream holds the branch into `k` iff `k` belongs here and its partner emits. */
  ghost predicate Receives(kind: BasisKind, t: Turn, cut: Cutoff, full: Key -> nat, parts: seq<Part>,
                           stream: seq<Routed>, d: nat, k: Key)
    requires |t.gen| % 2 == 0 && |parts| > 0
  {
    var m := Global(parts, full);
    && (HasMsg(stream, k) <==>
      |k| == |t.gen| && OwnerOf(full, |parts|, k) == d && Has(kind, t, cut, m, Partner(t, k), Emit))
    && (HasMsg(stream, k) && |k| == |t.gen| ==>
      MsgCoeff(stream, k) == Branch(kind, t, Partner(t, k), Coef(m, Partner(t, k))))
  }

  lemma {:induction false} ReceivesBranch(kind: BasisKind, t: Turn, cut: Cutoff, full: Key -> nat, parts: seq<Part>,
                                          boxes: seq<seq<seq<Routed>>>, d: nat, k: Key)
    requires |t.gen| % 2 == 0 && PartsOk(parts, |t.gen|, full) && AllEmitted(kind, t, cut, full, parts, boxes)
      && d < |parts|
    requires DistinctMsgs(Stream(boxes, d, |boxes|))
    ensures Receives(kind, t, cut, full, parts, Stream(boxes, d, |boxes|), d, k)
  {
    hide StatusOf, Anticommutes, Xor, Branch, Global;
    var stream, m := Stream(boxes, d, |boxes|), Global(parts, full);
    if HasMsg(stream, k) {
      var i :| 0 <= i < |stream| && stream[i].key == k;
      var msg := stream[i];
      InStream(boxes, d, |boxes|, msg);
      var src: nat :| src < |boxes| && msg in boxes[src][d];
      assert Emitted(kind, t, cut, full, parts[src], boxes[src]);
      var r: nat :| EmitsAs(kind, t, cut, full, |boxes|, parts[src], r, d, msg);
      PartnerTwice(t, parts[src].keys[r]);
      GlobalRow(parts, |t.gen|, full, src, r);
      RowHasIsHas(kind, t, cut, parts, full, src, r, Emit);
      MsgCoeffIs(stream, msg);
    }
    if |k| == |t.gen| && OwnerOf(full, |parts|, k) == d && Has(kind, t, cut, m, Partner(t, k), Emit) {
      var q := Partner(t, k);
      var src := OwnerOf(full, |parts|, q);
      GlobalAt(parts, |t.gen|, full, q);
      var r := RowOf(parts[src].keys, q);
      RowHasIsHas(kind, t, cut, parts, full, src, r, Emit);
      PartnerTwice(t, k);
      assert Emitted(kind, t, cut, full, parts[src], boxes[src]);
      var msg := MsgOf(kind, t, full, q, parts[src].coeffs[r]);
      assert msg in boxes[src][d];
      InStream(boxes, d, |boxes|, msg);
      MsgCoeffIs(stream, msg);
    }
  }

  // ---- folding, key by key ------------------------------------------------------

  /** A fold adds to every key what the stream delivers to it. */
  lemma {:induction false} FoldedAt(p: Part, n: nat, msgs: seq<Routed>, q: Part, k: Key)
    requires PartOk(p, n) && |q.coeffs| == |q.keys| && Folded(p, msgs, q)
    ensures CoeffAt(q, k) == CoeffAt(p, k) + MsgCoeff(msgs, k)
    ensures k in q.keys <==> k in p.keys || HasMsg(msgs, k)
  {
    if k in p.keys {
      assert q.keys[RowOf(p.keys, k)] == k;
    }
    if k in q.keys {
      var i := RowOf(q.keys, k);
      assert i < |p.keys| ==> p.keys[i] == k;
    } else {
      NoMsgNoCoeff(msgs, k);
    }
  }

  lemma ScannedAt(kind: BasisKind, t: Turn, cut: Cutoff, full: Key -> nat, parts: seq<Part>, d: nat, q: Part, k: Key)
    requires |t.gen| % 2 == 0 && PartsOk(parts, |t.gen|, full) && d < |parts| && |k| == |t.gen|
    requires PartOk(parts[d], |t.gen|) && Scanned(kind, t, cut, parts[d], q) && OwnerOf(full, |parts|, k) == d
    ensures CoeffAt(q, k) == Damped(kind, t, Global(parts, full), k)
    ensures k in q.keys <==> k in Global(parts, full)
  {
    hide Anticommutes, Global, StatusOf, Branch;
    GlobalAt(parts, |t.gen|, full, k);
    if k !in q.keys {
      assert t.cos * 0.0 == 0.0;
    }
  }

  /** A stream that only reaches existing rows creates none. */
  lemma NoNewRows(p: Part, msgs: seq<Routed>, q: Part)
    requires |p.coeffs| == |p.keys| && |q.coeffs| == |q.keys| && Folded(p, msgs, q)
    requires forall k :: HasMsg(msgs, k) ==> k in p.keys
    ensures q.keys == p.keys
  {
    forall i: nat | i < |q.keys| ensures OldRow(p, i) {
      assert q.keys[i] in q.keys;
      var j :| 0 <= j < |p.keys| && p.keys[j] == q.keys[i];
      assert q.keys[j] == q.keys[i];
    }
    assert |p.keys| < |q.keys| ==> OldRow(p, |p.keys|);
  }

  predicate OldRow(p: Part, i: nat) { i < |p.keys| }

  lemma NonEmptyHas(s: seq<nat>)
    ensures s == [] || exists r: nat :: r in s
  {
    if s != [] {
      assert s[0] in s;
    }
  }

  /** The partition after the first exchange is still well formed. */
  lemma FoldedOk(kind: BasisKind, t: Turn, cut: Cutoff, full: Key -> nat, parts: seq<Part>, d: nat, p: Part,
                 msgs: seq<Routed>, q: Part)
    requires |t.gen| % 2 == 0 && |parts| > 0
    requires PartOk(p, |t.gen|) && Owned(p, full, |parts|, d) && |q.coeffs| == |q.keys| && Folded(p, msgs, q)
    requires forall k :: HasMsg(msgs, k) ==> |k| == |t.gen| && OwnerOf(full, |parts|, k) == d
    ensures PartOk(q, |t.gen|) && Owned(q, full, |parts|, d)
  {
    forall i | 0 <= i < |q.keys| ensures |q.keys[i]| == |t.gen| && OwnerOf(full, |parts|, q.keys[i]) == d {
      assert q.keys[i] in q.keys;
      if q.keys[i] in p.keys {
        var j :| 0 <= j < |p.keys| && p.keys[j] == q.keys[i];
      }
    }
  }

  // ---- the whole gate -----------------------------------------------------------

  /** One run of the three rounds over all partitions, as the engine performs them. */
  datatype Rounds = Rounds(start: seq<Part>, scanned: seq<Part>, boxes: seq<seq<seq<Routed>>>,
                           absorbed: seq<Part>, rescues: seq<seq<seq<Routed>>>, done: seq<Part>)

  function Settled(p: Part): Part { p.(claimed := []) }

  ghost predicate RoundOne(kind: BasisKind, t: Turn, cut: Cutoff, full: Key -> nat, x: Rounds)
    requires |t.gen| % 2 == 0
  {
    && PartsOk(x.start, |t.gen|, full) && |x.scanned| == |x.absorbed| == |x.start|
    && AllEmitted(kind, t, cut, full, x.start, x.boxes)
    && forall d :: 0 <= d < |x.start| ==> ScannedAndFolded(kind, t, cut, x, d)
  }

  ghost predicate ScannedAndFolded(kind: BasisKind, t: Turn, cut: Cutoff, x: Rounds, d: nat)
    requires |t.gen| % 2 == 0 && d < |x.start| == |x.scanned| == |x.absorbed| == |x.boxes|
    requires PartOk(x.start[d], |t.gen|) && forall i :: 0 <= i < |x.boxes| ==> |x.boxes[i]| == |x.boxes|
  {
    && Scanned(kind, t, cut, x.start[d], x.scanned[d])
    && |x.absorbed[d].coeffs| == |x.absorbed[d].keys|
    && Folded(x.scanned[d], Stream(x.boxes, d, |x.boxes|), x.absorbed[d])
  }

  ghost predicate RoundTwo(kind: BasisKind, t: Turn, full: Key -> nat, needsPhase: bool, x: Rounds)
    requires |t.gen| % 2 == 0
  {
    && RescuesOut(kind, t, full, needsPhase, x) && |x.done| == |x.start|
    && (forall d :: 0 <= d < |x.absorbed| ==> RescuesFolded(x, d))
  }

  /** Every partition has released the branches its rows were claimed for. */
  ghost predicate RescuesOut(kind: BasisKind, t: Turn, full: Key -> nat, needsPhase: bool, x: Rounds)
    requires |t.gen| % 2 == 0
  {
    |x.rescues| == |x.absorbed| == |x.start| && forall src :: 0 <= src < |x.absorbed| ==>
      |x.rescues[src]| == |x.rescues| && Released(kind, t, full, needsPhase, x.absorbed[src], x.rescues[src])
  }

  ghost predicate RescuesFolded(x: Rounds, d: nat)
    requires d < |x.absorbed| == |x.done| == |x.rescues|
      && forall i :: 0 <= i < |x.rescues| ==> |x.rescues[i]| == |x.rescues|
  {
    && |x.absorbed[d].coeffs| == |x.absorbed[d].keys| && |x.done[d].coeffs| == |x.done[d].keys|
    && Folded(Settled(x.absorbed[d]), Stream(x.rescues, d, |x.rescues|), x.done[d])
  }

  /** The first exchange leaves well-formed partitions, and says what each key has and holds. */
  lemma {:induction false} AfterRoundOne(kind: BasisKind, t: Turn, cut: Cutoff, full: Key -> nat, x: Rounds, d: nat)
    requires |t.gen| % 2 == 0 && RoundOne(kind, t, cut, full, x) && d < |x.start|
    ensures PartOk(x.absorbed[d], |t.gen|) && Owned(x.absorbed[d], full, |x.start|, d)
    ensures PartOk(x.scanned[d], |t.gen|)
    ensures forall k: Key :: Receives(kind, t, cut, full, x.start, Stream(x.boxes, d, |x.boxes|), d, k)
  {
    hide StatusOf, Anticommutes, Branch, HeldValue, Global, Xor;
    assert ScannedAndFolded(kind, t, cut, x, d);
    assert PartOk(x.start[d], |t.gen|) && Owned(x.start[d], full, |x.start|, d);
    StreamIsBranches(kind, t, cut, full, x.start, x.boxes, d);
    forall k | HasMsg(Stream(x.boxes, d, |x.boxes|), k) ensures |k| == |t.gen| && OwnerOf(full, |x.start|, k) == d {
      assert Receives(kind, t, cut, full, x.start, Stream(x.boxes, d, |x.boxes|), d, k);
    }
    FoldedOk(kind, t, cut, full, x.start, d, x.scanned[d], Stream(x.boxes, d, |x.boxes|), x.absorbed[d]);
  }

  /**
   A row is claimed iff its branch was held back and its partner emitted; it is claimed once,
   and what it releases is its true sine branch.
   */
  lemma ClaimedIffPaid(kind: BasisKind, t: Turn, cut: Cutoff, full: Key -> nat, x: Rounds, src: nat, r: nat)
    requires |t.gen| % 2 == 0 && RoundOne(kind, t, cut, full, x) && src < |x.start| && TurnOf(t, |t.gen|)
    ensures r in x.absorbed[src].claimed <==>
      RowHas(kind, t, cut, x.start[src], r, Held)
        && Has(kind, t, cut, Global(x.start, full), Partner(t, x.start[src].keys[r]), Emit)
    ensures r in x.absorbed[src].claimed ==>
      && ClaimedRow(t, x.absorbed[src], r) && x.absorbed[src].keys[r] == x.start[src].keys[r]
      && RescueOf(kind, t, full, Prechecks(cut), x.start[src].keys[r], x.absorbed[src].pending[r])
         == MsgOf(kind, t, full, x.start[src].keys[r], x.start[src].coeffs[r])
  {
    hide StatusOf, Anticommutes, Branch, HeldValue, Global, Xor, TurnIm, Prechecks, RoundOne;
    AfterRoundOne(kind, t, cut, full, x, src);
    assert ScannedAndFolded(kind, t, cut, x, src)
      && PartsOk(x.start, |t.gen|, full) by { RoundOneAt(kind, t, cut, full, x, src); }
    var p := x.start[src];
    assert PartOk(p, |t.gen|);
    if r < |p.keys| {
      assert Receives(kind, t, cut, full, x.start, Stream(x.boxes, src, |x.boxes|), src, p.keys[r]);
      GlobalRow(x.start, |t.gen|, full, src, r);
      if RowHas(kind, t, cut, p, r, Held) {
        ReleasedBranch(kind, t, cut, full, p.keys[r], p.coeffs[r]);
      }
    }
  }

  lemma RoundOneAt(kind: BasisKind, t: Turn, cut: Cutoff, full: Key -> nat, x: Rounds, d: nat)
    requires |t.gen| % 2 == 0 && RoundOne(kind, t, cut, full, x) && d < |x.start|
    ensures PartsOk(x.start, |t.gen|, full) && |x.scanned| == |x.absorbed| == |x.start| == |x.boxes|
    ensures forall i :: 0 <= i < |x.boxes| ==> |x.boxes[i]| == |x.boxes|
    ensures PartOk(x.start[d], |t.gen|) && ScannedAndFolded(kind, t, cut, x, d)
  {
  }

  lemma ReleasedBranch(kind: BasisKind, t: Turn, cut: Cutoff, full: Key -> nat, k: Key, a: real)
    requires TurnOf(t, |k|) && Anticommutes(kind, t.gen, k) && StatusOf(kind, t, cut, k, a) == Held
    ensures RescueOf(kind, t, full, Prechecks(cut), k, HeldValue(kind, t, cut, k, a)) == MsgOf(kind, t, full, k, a)
  {
    hide StatusOf, Anticommutes, Branch, HeldValue, Xor, TurnIm, Prechecks;
    LazyPhaseIsExact(kind, t, cut, k, a);
  }

  /** The rescue stream holds a branch into `k` iff `k` emitted and its partner had held back. */
  ghost predicate Rescued(kind: BasisKind, t: Turn, cut: Cutoff, full: Key -> nat, parts: seq<Part>,
                          stream: seq<Routed>, d: nat, k: Key)
    requires |t.gen| % 2 == 0 && |parts| > 0
  {
    var m := Global(parts, full);
    && (HasMsg(stream, k) <==>
          |k| == |t.gen| && OwnerOf(full, |parts|, k) == d && Has(kind, t, cut, m, Partner(t, k), Held)
            && Has(kind, t, cut, m, k, Emit))
    && (HasMsg(stream, k) && |k| == |t.gen| ==>
      MsgCoeff(stream, k) == Branch(kind, t, Partner(t, k), Coef(m, Partner(t, k))))
  }

  lemma RescueSource(kind: BasisKind, t: Turn, cut: Cutoff, full: Key -> nat, x: Rounds, src: nat, d: nat, msg: Routed)
      returns (r: nat)
    requires |t.gen| % 2 == 0 && RoundOne(kind, t, cut, full, x) && RescuesOut(kind, t, full, Prechecks(cut), x)
      && TurnOf(t, |t.gen|)
    requires src < |x.start| && d < |x.start| && msg in x.rescues[src][d]
    ensures r < |x.start[src].keys| && r in x.absorbed[src].claimed
    ensures msg == MsgOf(kind, t, full, x.start[src].keys[r], x.start[src].coeffs[r])
    ensures FromSource(t, full, |x.start|, src, msg) && OwnerOf(full, |x.start|, msg.key) == d
    ensures RowHas(kind, t, cut, x.start[src], r, Held)
    ensures Has(kind, t, cut, Global(x.start, full), msg.key, Emit)
  {
    hide StatusOf, Anticommutes, Branch, HeldValue, Global, Xor, TurnIm, Prechecks;
    assert Released(kind, t, full, Prechecks(cut), x.absorbed[src], x.rescues[src]);
    r :| ReleasesAs(kind, t, full, |x.rescues|, Prechecks(cut), x.absorbed[src], r, d, msg);
    ClaimedIffPaid(kind, t, cut, full, x, src, r);
    GlobalRow(x.start, |t.gen|, full, src, r);
    PartnerTwice(t, x.start[src].keys[r]);
  }

  lemma {:induction false} RescueStream(kind: BasisKind, t: Turn, cut: Cutoff, full: Key -> nat, x: Rounds, d: nat)
    requires |t.gen| % 2 == 0 && RoundOne(kind, t, cut, full, x) && RescuesOut(kind, t, full, Prechecks(cut), x)
      && TurnOf(t, |t.gen|)
    requires d < |x.start|
    ensures DistinctMsgs(Stream(x.rescues, d, |x.rescues|))
    ensures forall k: Key :: Rescued(kind, t, cut, full, x.start, Stream(x.rescues, d, |x.rescues|), d, k)
  {
    hide StatusOf, Anticommutes, Branch, HeldValue, Global, Xor, TurnIm, Prechecks, RoundOne;
    forall src: nat, msg | src < |x.rescues| && msg in x.rescues[src][d]
      ensures FromSource(t, full, |x.rescues|, src, msg)
    {
      var r := RescueSource(kind, t, cut, full, x, src, d, msg);
    }
    forall src: nat | src < |x.rescues| ensures DistinctMsgs(x.rescues[src][d]) {
      assert Released(kind, t, full, Prechecks(cut), x.absorbed[src], x.rescues[src]);
    }
    StreamDistinct(t, full, x.rescues, d, |x.rescues|);
    forall k: Key ensures Rescued(kind, t, cut, full, x.start, Stream(x.rescues, d, |x.rescues|), d, k) {
      RescuedBranch(kind, t, cut, full, x, d, k);
    }
  }

  lemma {:induction false} RescuedBranch(kind: BasisKind, t: Turn, cut: Cutoff, full: Key -> nat, x: Rounds, d: nat,
                                         k: Key)
    requires |t.gen| % 2 == 0 && RoundOne(kind, t, cut, full, x) && RescuesOut(kind, t, full, Prechecks(cut), x)
      && TurnOf(t, |t.gen|)
    requires d < |x.start| && DistinctMsgs(Stream(x.rescues, d, |x.rescues|))
    ensures Rescued(kind, t, cut, full, x.start, Stream(x.rescues, d, |x.rescues|), d, k)
  {
    hide StatusOf, Anticommutes, Branch, HeldValue, Global, Xor, TurnIm, Prechecks, Stream;
    var stream, m := Stream(x.rescues, d, |x.rescues|), Global(x.start, full);
    if HasMsg(stream, k) {
      RescueArrives(kind, t, cut, full, x, d, k);
    }
    if |k| == |t.gen| && OwnerOf(full, |x.start|, k) == d && Has(kind, t, cut, m, Partner(t, k), Held)
      && Has(kind, t, cut, m, k, Emit) {
      RescueSent(kind, t, cut, full, x, d, k);
    }
  }

  /** A branch in the rescue stream was held back, and its target emitted. */
  lemma {:induction false} RescueArrives(kind: BasisKind, t: Turn, cut: Cutoff, full: Key -> nat, x: Rounds, d: nat,
                                         k: Key)
    requires |t.gen| % 2 == 0 && RoundOne(kind, t, cut, full, x) && RescuesOut(kind, t, full, Prechecks(cut), x)
      && TurnOf(t, |t.gen|)
    requires d < |x.start| && DistinctMsgs(Stream(x.rescues, d, |x.rescues|))
      && HasMsg(Stream(x.rescues, d, |x.rescues|), k)
    ensures var m := Global(x.start, full);
      && |k| == |t.gen| && OwnerOf(full, |x.start|, k) == d && Has(kind, t, cut, m, Partner(t, k), Held)
        && Has(kind, t, cut, m, k, Emit)
      && MsgCoeff(Stream(x.rescues, d, |x.rescues|), k) == Branch(kind, t, Partner(t, k), Coef(m, Partner(t, k)))
  {
    hide StatusOf, Anticommutes, Branch, HeldValue, Global, Xor, TurnIm, Prechecks;
    var stream := Stream(x.rescues, d, |x.rescues|);
    var i :| 0 <= i < |stream| && stream[i].key == k;
    var msg := stream[i];
    InStream(x.rescues, d, |x.rescues|, msg);
    var src: nat :| src < |x.rescues| && msg in x.rescues[src][d];
    var r := RescueSource(kind, t, cut, full, x, src, d, msg);
    PartnerTwice(t, x.start[src].keys[r]);
    GlobalRow(x.start, |t.gen|, full, src, r);
    RowHasIsHas(kind, t, cut, x.start, full, src, r, Held);
    MsgCoeffIs(stream, msg);
  }

  /** A held-back branch whose target emitted is in the rescue stream. */
  lemma {:induction false} RescueSent(kind: BasisKind, t: Turn, cut: Cutoff, full: Key -> nat, x: Rounds, d: nat,
                                      k: Key)
    requires |t.gen| % 2 == 0 && RoundOne(kind, t, cut, full, x) && RescuesOut(kind, t, full, Prechecks(cut), x)
      && TurnOf(t, |t.gen|)
    requires d < |x.start| && DistinctMsgs(Stream(x.rescues, d, |x.rescues|)) && |k| == |t.gen|
      && OwnerOf(full, |x.start|, k) == d
    requires Has(kind, t, cut, Global(x.start, full), Partner(t, k), Held)
      && Has(kind, t, cut, Global(x.start, full), k, Emit)
    ensures HasMsg(Stream(x.rescues, d, |x.rescues|), k)
  {
    hide StatusOf, Anticommutes, Branch, HeldValue, Global, Xor, TurnIm, Prechecks;
    var stream, q := Stream(x.rescues, d, |x.rescues|), Partner(t, k);
    var src := OwnerOf(full, |x.start|, q);
    GlobalAt(x.start, |t.gen|, full, q);
    var r := RowOf(x.start[src].keys, q);
    GlobalRow(x.start, |t.gen|, full, src, r);
    RowHasIsHas(kind, t, cut, x.start, full, src, r, Held);
    PartnerTwice(t, k);
    ClaimedIffPaid(kind, t, cut, full, x, src, r);
    assert Released(kind, t, full, Prechecks(cut), x.absorbed[src], x.rescues[src]);
    var msg := RescueOf(kind, t, full, Prechecks(cut), q, x.absorbed[src].pending[r]);
    assert msg in x.rescues[src][d];
    InStream(x.rescues, d, |x.rescues|, msg);
    MsgCoeffIs(stream, msg);
  }

  /**
   Rescue safety: every rescued branch lands on a row that existed before the gate in the
   partition that owns it, the rescue round creates no row and makes no claim.
   */
  lemma {:induction false} RescueIsSafe(kind: BasisKind, t: Turn, cut: Cutoff, full: Key -> nat, x: Rounds, d: nat)
    requires |t.gen| % 2 == 0 && RoundOne(kind, t, cut, full, x) && RoundTwo(kind, t, full, Prechecks(cut), x)
      && TurnOf(t, |t.gen|)
    requires d < |x.start|
    ensures forall k :: HasMsg(Stream(x.rescues, d, |x.rescues|), k) ==> k in x.start[d].keys
    ensures x.done[d].keys == x.absorbed[d].keys
    ensures x.done[d].claimed == []
    ensures PartOk(x.done[d], |t.gen|) && Owned(x.done[d], full, |x.start|, d)
  {
    hide StatusOf, Anticommutes, Branch, HeldValue, Global, Xor, TurnIm, Prechecks;
    var stream, p, q := Stream(x.rescues, d, |x.rescues|), x.absorbed[d], x.done[d];
    RescueStream(kind, t, cut, full, x, d);
    AfterRoundOne(kind, t, cut, full, x, d);
    assert ScannedAndFolded(kind, t, cut, x, d) && RescuesFolded(x, d);
    forall k | HasMsg(stream, k) ensures k in x.start[d].keys && |k| == |t.gen| && OwnerOf(full, |x.start|, k) == d {
      assert Rescued(kind, t, cut, full, x.start, stream, d, k);
      GlobalAt(x.start, |t.gen|, full, k);
    }
    assert Folded(Settled(p), stream, q);
    FoldedOk(kind, t, cut, full, x.start, d, Settled(p), stream, q);
    NoNewRows(Settled(p), stream, q);
    forall r: nat ensures r !in q.claimed {
      if r in p.pending && r < |p.keys| {
        NotPaidBack(kind, t, cut, full, x, d, r);
      }
    }
    NonEmptyHas(q.claimed);
  }

  /** A row that held its own branch back is nobody's rescue. */
  lemma {:induction false} NotPaidBack(kind: BasisKind, t: Turn, cut: Cutoff, full: Key -> nat, x: Rounds, d: nat,
                                       r: nat)
    requires |t.gen| % 2 == 0 && RoundOne(kind, t, cut, full, x) && RescuesOut(kind, t, full, Prechecks(cut), x)
      && TurnOf(t, |t.gen|)
    requires d < |x.start| && r in x.absorbed[d].pending && r < |x.absorbed[d].keys|
    ensures !HasMsg(Stream(x.rescues, d, |x.rescues|), x.absorbed[d].keys[r])
  {
    hide StatusOf, Anticommutes, Branch, HeldValue, Global, Xor, TurnIm, Prechecks;
    RescueStream(kind, t, cut, full, x, d);
    assert ScannedAndFolded(kind, t, cut, x, d);
    var k := x.absorbed[d].keys[r];
    assert RowHas(kind, t, cut, x.start[d], r, Held);
    assert k == x.start[d].keys[r];
    GlobalRow(x.start, |t.gen|, full, d, r);
    RowHasIsHas(kind, t, cut, x.start, full, d, r, Held);
    assert Rescued(kind, t, cut, full, x.start, Stream(x.rescues, d, |x.rescues|), d, k);
  }

  /**
   The three rounds are the pair rule on the whole operator, for every number of partitions
   and every assignment of keys to them.
   */
  lemma GateIsPairStep(kind: BasisKind, t: Turn, cut: Cutoff, full: Key -> nat, x: Rounds)
    requires |t.gen| % 2 == 0 && RoundOne(kind, t, cut, full, x) && RoundTwo(kind, t, full, Prechecks(cut), x)
      && TurnOf(t, |t.gen|)
    ensures PartsOk(x.done, |t.gen|, full) && TermsOf(Global(x.start, full), |t.gen|)
    ensures Global(x.done, full) == PairStep(kind, t, cut, Global(x.start, full))
  {
    hide StatusOf, Anticommutes, Branch, HeldValue, Global, Xor, TurnIm, Prechecks, PairStep, RoundOne, RoundTwo;
    var n := |t.gen|;
    assert |x.done| == |x.start| > 0 && PartsOk(x.start, n, full) by { RoundShape(kind, t, cut, full, x); }
    forall d | 0 <= d < |x.done| ensures PartOk(x.done[d], n) && Owned(x.done[d], full, |x.done|, d) {
      RescueIsSafe(kind, t, cut, full, x, d);
    }
    GlobalTerms(x.start, n, full);
    GlobalTerms(x.done, n, full);
    var m, after := Global(x.start, full), Global(x.done, full);
    var want := PairStep(kind, t, cut, m);
    forall k: Key | |k| == n ensures (k in after <==> k in want) && Coef(after, k) == Coef(want, k) {
      DoneAt(kind, t, cut, full, x, k);
      PairStepAt(kind, t, cut, m, k);
    }
    SameTerms(after, want, n);
  }

  lemma RoundShape(kind: BasisKind, t: Turn, cut: Cutoff, full: Key -> nat, x: Rounds)
    requires |t.gen| % 2 == 0 && RoundOne(kind, t, cut, full, x) && RoundTwo(kind, t, full, Prechecks(cut), x)
    ensures |x.done| == |x.start| > 0 && PartsOk(x.start, |t.gen|, full)
  {
  }

  lemma SameTerms(a: Terms, b: Terms, n: nat)
    requires TermsOf(a, n) && TermsOf(b, n)
    requires forall k: Key :: |k| == n ==> (k in a <==> k in b) && Coef(a, k) == Coef(b, k)
    ensures a == b
  {
    forall k ensures k in a <==> k in b {
      if k in a || k in b {
        assert |k| == n;
      }
    }
    forall k | k in a ensures a[k] == b[k] {
      assert Coef(a, k) == Coef(b, k);
    }
  }

  /** What one key has after the gate. */
  lemma DoneAt(kind: BasisKind, t: Turn, cut: Cutoff, full: Key -> nat, x: Rounds, k: Key)
    requires |t.gen| % 2 == 0 && RoundOne(kind, t, cut, full, x) && RoundTwo(kind, t, full, Prechecks(cut), x)
      && TurnOf(t, |t.gen|)
    requires |k| == |t.gen| && PartsOk(x.done, |t.gen|, full) && |x.done| == |x.start|
    ensures var m := Global(x.start, full);
      && (k in Global(x.done, full) <==> k in m || Has(kind, t, cut, m, Partner(t, k), Emit))
      && Coef(Global(x.done, full), k) == NewCoef(kind, t, cut, m, k)
  {
    hide StatusOf, Anticommutes, Branch, HeldValue, Global, Xor, TurnIm, Prechecks, RoundOne, Folded, Stream;
    var n, d := |t.gen|, OwnerOf(full, |x.start|, k);
    assert |x.start| > 0 by { RoundShape(kind, t, cut, full, x); }
    AbsorbedAt(kind, t, cut, full, x, k);
    AfterRoundOne(kind, t, cut, full, x, d);
    RescueStream(kind, t, cut, full, x, d);
    RescueIsSafe(kind, t, cut, full, x, d);
    assert RescuesFolded(x, d);
    assert Rescued(kind, t, cut, full, x.start, Stream(x.rescues, d, |x.rescues|), d, k);
    FoldedAt(Settled(x.absorbed[d]), n, Stream(x.rescues, d, |x.rescues|), x.done[d], k);
    GlobalAt(x.done, n, full, k);
    NoMsgNoCoeffIf(Stream(x.rescues, d, |x.rescues|), k);
  }

  /** What one key has after the first exchange. */
  lemma AbsorbedAt(kind: BasisKind, t: Turn, cut: Cutoff, full: Key -> nat, x: Rounds, k: Key)
    requires |t.gen| % 2 == 0 && RoundOne(kind, t, cut, full, x) && TurnOf(t, |t.gen|) && |k| == |t.gen|
    ensures |x.start| > 0 && OwnerOf(full, |x.start|, k) < |x.absorbed|
    ensures var m, q := Global(x.start, full), x.absorbed[OwnerOf(full, |x.start|, k)];
      && (k in q.keys <==> k in m || Has(kind, t, cut, m, Partner(t, k), Emit))
      && CoeffAt(q, k) == Damped(kind, t, m, k)
           + if Has(kind, t, cut, m, Partner(t, k), Emit) then Branch(kind, t, Partner(t, k), Coef(m, Partner(t, k)))
             else 0.0
  {
    hide StatusOf, Anticommutes, Branch, HeldValue, Global, Xor, TurnIm, Prechecks, Folded, Stream;
    var n, d := |t.gen|, OwnerOf(full, |x.start|, k);
    AfterRoundOne(kind, t, cut, full, x, d);
    assert ScannedAndFolded(kind, t, cut, x, d) && PartOk(x.start[d], n);
    assert Receives(kind, t, cut, full, x.start, Stream(x.boxes, d, |x.boxes|), d, k);
    ScannedAt(kind, t, cut, full, x.start, d, x.scanned[d], k);
    FoldedAt(x.scanned[d], n, Stream(x.boxes, d, |x.boxes|), x.absorbed[d], k);
    NoMsgNoCoeffIf(Stream(x.boxes, d, |x.boxes|), k);
  }

  lemma {:induction false} NoMsgNoCoeffIf(msgs: seq<Routed>, k: Key)
    ensures !HasMsg(msgs, k) ==> MsgCoeff(msgs, k) == 0.0
  {
    if !HasMsg(msgs, k) {
      NoMsgNoCoeff(msgs, k);
    }
  }
}
