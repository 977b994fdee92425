/**
 What the workers' steps add up to: from one partition's scan and exchange to the rounds of the
 whole gate, and from there to the pair rule.
 */
module GateRounds {
  import opened BasisStrings
  import opened BasisAlgebra
  import opened PairRule
  import opened PairProtocol
  import opened ProbeTable

  predicate Square3(boxes: seq<seq<seq<Routed>>>, s: nat)
  {
    |boxes| == s && forall i :: 0 <= i < s ==> |boxes[i]| == s
  }

  function EmptyBoxes(s: nat): (boxes: seq<seq<seq<Routed>>>)
    ensures Square3(boxes, s) && forall i, d :: 0 <= i < s && 0 <= d < s ==> boxes[i][d] == []
  {
    seq(s, i => seq(s, d => []))
  }

  /** Every message to `d` has a key of the register's width and carries that key's hash. */
  predicate MsgsOk(boxes: seq<seq<seq<Routed>>>, d: nat, n: nat, full: Key -> nat)
    requires Square3(boxes, |boxes|) && d < |boxes|
  {
    forall src, i :: 0 <= src < |boxes| && 0 <= i < |boxes[src][d]| ==>
      |boxes[src][d][i].key| == n && boxes[src][d][i].hash == full(boxes[src][d][i].key)
  }

  lemma {:induction false} AbsorbGrows(p: Part, msgs: seq<Routed>, k: nat)
    requires |p.coeffs| == |p.keys| && k <= |msgs|
    ensures |AbsorbAll(p, msgs[..k]).keys| <= |AbsorbAll(p, msgs).keys|
    decreases |msgs|
  {
    if k < |msgs| {
      var last := |msgs| - 1;
      AbsorbGrows(p, msgs[..last], k);
      assert msgs[..last][..k] == msgs[..k];
    } else {
      assert msgs[..k] == msgs;
    }
  }

  lemma {:induction false} AbsorbNext(p: Part, msgs: seq<Routed>, msg: Routed)
    requires |p.coeffs| == |p.keys|
    ensures AbsorbAll(p, msgs + [msg]) == AbsorbOne(AbsorbAll(p, msgs), msg)
  {
    assert (msgs + [msg])[..|msgs|] == msgs;
  }

  /** The part of a stream already folded is a prefix of the whole. */
  lemma {:induction false} StreamPrefix(boxes: seq<seq<seq<Routed>>>, d: nat, src: nat, i: nat, s: nat)
    requires s <= |boxes| && forall j :: 0 <= j < |boxes| ==> d < |boxes[j]|
    requires src < s && i <= |boxes[src][d]|
    ensures Stream(boxes, d, src) + boxes[src][d][..i] <= Stream(boxes, d, s)
  {
    if src < s - 1 {
      StreamPrefix(boxes, d, src, i, s - 1);
    } else {
      assert boxes[src][d][..i] <= boxes[src][d];
    }
  }

  lemma {:induction false} AbsorbNone(p: Part)
    requires |p.coeffs| == |p.keys|
    ensures AbsorbAll(p, []) == p
  {
  }

  /** A branch that finds no room means the whole stream does not fit. */
  lemma {:induction false} Overflows(start: Part, sofar: seq<Routed>, msg: Routed, all: seq<Routed>)
    requires |start.coeffs| == |start.keys| && sofar + [msg] <= all
    ensures var q := AbsorbAll(start, sofar);
      msg.key !in q.keys && |q.keys| + 1 >= EMPTY ==> |AbsorbAll(start, all).keys| >= EMPTY
  {
    AbsorbNext(start, sofar, msg);
    AbsorbGrows(start, all, |sofar| + 1);
    assert all[..|sofar| + 1] == sofar + [msg];
  }

  /** One partition's scan: what it turns its rows into and what it puts in its outbox. */
  ghost predicate ScanOf(kind: BasisKind, t: Turn, cut: Cutoff, full: Key -> nat, n: nat, p: Part, q: Part,
                         box: seq<seq<Routed>>)
    requires |t.gen| % 2 == 0 && |t.gen| == n
  {
    PartOk(p, n) && Scanned(kind, t, cut, p, q) && Emitted(kind, t, cut, full, p, box)
  }

  /** Everything addressed to `d`. */
  function Inbox(boxes: seq<seq<seq<Routed>>>, d: nat): seq<Routed>
  {
    if Square3(boxes, |boxes|) && d < |boxes| then Stream(boxes, d, |boxes|) else []
  }

  /** The partition has room for the rows its inbox creates. */
  ghost predicate Fits(p: Part, inbox: seq<Routed>)
  {
    |p.coeffs| == |p.keys| && |AbsorbAll(p, inbox).keys| < EMPTY
  }

  /** The exchange turned `p` into `q`; when it drains, `box` releases the claims it made. */
  ghost predicate Exchanged(kind: BasisKind, t: Turn, full: Key -> nat, needsPhase: bool, p: Part, inbox: seq<Routed>,
                            drain: bool, q: Part, box: seq<seq<Routed>>)
  {
    && |p.coeffs| == |p.keys| && |t.gen| % 2 == 0
    && var folded := AbsorbAll(p, inbox);
      if drain then q == Settled(folded) && Released(kind, t, full, needsPhase, folded, box) else q == folded
  }

  /** A partition ready to take part in an exchange: no claims open. */
  ghost predicate ReadyFor(p: Part, n: nat, boxes: seq<seq<seq<Routed>>>, d: nat, full: Key -> nat)
  {
    && Square3(boxes, |boxes|) && d < |boxes| && MsgsOk(boxes, d, n, full)
    && PartOk(p, n) && p.claimed == [] && DistinctMsgs(Inbox(boxes, d))
  }

  // ---- the rounds of one gate ---------------------------------------------------

  /** Every partition has scanned its rows. */
  ghost predicate AllScanned(kind: BasisKind, t: Turn, cut: Cutoff, full: Key -> nat, start: seq<Part>,
                             scanned: seq<Part>, boxes: seq<seq<seq<Routed>>>)
    requires TurnOf(t, |t.gen|)
  {
    && PartsOk(start, |t.gen|, full) && |scanned| == |start| && Square3(boxes, |start|)
    && forall d :: 0 <= d < |start| ==> ScanOf(kind, t, cut, full, |t.gen|, start[d], scanned[d], boxes[d])
  }

  /** What the partitions hold, claims included, once they have folded their inboxes in. */
  ghost function Absorbed(scanned: seq<Part>, boxes: seq<seq<seq<Routed>>>): (r: seq<Part>)
    requires forall d :: 0 <= d < |scanned| ==> |scanned[d].coeffs| == |scanned[d].keys|
    ensures |r| == |scanned| && forall d :: 0 <= d < |r| ==> r[d] == AbsorbAll(scanned[d], Inbox(boxes, d))
  {
    seq(|scanned|, d requires 0 <= d < |scanned| => AbsorbAll(scanned[d], Inbox(boxes, d)))
  }

  /** After the scan every partition can take its inbox, and the first round is under way. */
  lemma ScanReady(kind: BasisKind, t: Turn, cut: Cutoff, full: Key -> nat, start: seq<Part>, scanned: seq<Part>,
                  boxes: seq<seq<seq<Routed>>>)
    requires TurnOf(t, |t.gen|) && AllScanned(kind, t, cut, full, start, scanned, boxes)
    ensures AllEmitted(kind, t, cut, full, start, boxes)
    ensures forall d :: 0 <= d < |start| ==> ReadyFor(scanned[d], |t.gen|, boxes, d, full)
  {
    hide StatusOf, Anticommutes, Branch, Scanned, Xor, Distinct;
    assert AllEmitted(kind, t, cut, full, start, boxes) by {
      forall src | 0 <= src < |start|
        ensures |boxes[src]| == |start| && Emitted(kind, t, cut, full, start[src], boxes[src])
      {
        assert ScanOf(kind, t, cut, full, |t.gen|, start[src], scanned[src], boxes[src]);
      }
    }
    forall d | 0 <= d < |start| ensures ReadyFor(scanned[d], |t.gen|, boxes, d, full) {
      StreamIsBranches(kind, t, cut, full, start, boxes, d);
      assert ScanOf(kind, t, cut, full, |t.gen|, start[d], scanned[d], boxes[d]);
      ScannedOk(kind, t, cut, start[d], scanned[d]);
      forall src, i | 0 <= src < |boxes| && 0 <= i < |boxes[src][d]|
        ensures |boxes[src][d][i].key| == |t.gen| && boxes[src][d][i].hash == full(boxes[src][d][i].key)
      {
        assert ScanOf(kind, t, cut, full, |t.gen|, start[src], scanned[src], boxes[src]);
        assert boxes[src][d][i] in boxes[src][d];
        var r: nat :| EmitsAs(kind, t, cut, full, |boxes|, start[src], r, d, boxes[src][d][i]);
      }
    }
  }

  lemma ScannedOk(kind: BasisKind, t: Turn, cut: Cutoff, p: Part, q: Part)
    requires |t.gen| % 2 == 0 && PartOk(p, |t.gen|) && Scanned(kind, t, cut, p, q)
    ensures PartOk(q, |t.gen|) && q.claimed == [] && q.keys == p.keys
  {
    hide StatusOf, Anticommutes, Branch;
  }

  /** The first exchange completes round one. */
  lemma RoundOneDone(kind: BasisKind, t: Turn, cut: Cutoff, full: Key -> nat, start: seq<Part>, scanned: seq<Part>,
                     boxes: seq<seq<seq<Routed>>>, x: Rounds)
    requires TurnOf(t, |t.gen|) && AllScanned(kind, t, cut, full, start, scanned, boxes)
    requires forall d :: 0 <= d < |scanned| ==> |scanned[d].coeffs| == |scanned[d].keys|
    requires x.start == start && x.scanned == scanned && x.boxes == boxes && x.absorbed == Absorbed(scanned, boxes)
    ensures RoundOne(kind, t, cut, full, x)
  {
    hide StatusOf, Anticommutes, Branch, Scanned, Xor, Distinct, Folded, Emitted, MsgsOk, DistinctMsgs, PartOk;
    ScanReady(kind, t, cut, full, start, scanned, boxes);
    forall d | 0 <= d < |start| ensures ScannedAndFolded(kind, t, cut, x, d) && PartOk(start[d], |t.gen|) {
      assert ScanOf(kind, t, cut, full, |t.gen|, start[d], scanned[d], boxes[d]);
      assert ReadyFor(scanned[d], |t.gen|, boxes, d, full);
      AbsorbAllFolds(scanned[d], |t.gen|, Inbox(boxes, d));
    }
  }

  /** The partitions have released their claims. */
  ghost predicate AllReleased(kind: BasisKind, t: Turn, full: Key -> nat, needsPhase: bool, absorbed: seq<Part>,
                              settled: seq<Part>, rescues: seq<seq<seq<Routed>>>)
    requires |t.gen| % 2 == 0
  {
    && |settled| == |absorbed| && Square3(rescues, |absorbed|)
    && forall d :: 0 <= d < |absorbed| ==>
         settled[d] == Settled(absorbed[d]) && Released(kind, t, full, needsPhase, absorbed[d], rescues[d])
  }

  /** The rescue round can start, and no partition can run out of room in it. */
  lemma RescueReady(kind: BasisKind, t: Turn, cut: Cutoff, full: Key -> nat, x: Rounds, settled: seq<Part>, d: nat)
    requires TurnOf(t, |t.gen|) && RoundOne(kind, t, cut, full, x) && d < |x.start|
    requires AllReleased(kind, t, full, Prechecks(cut), x.absorbed, settled, x.rescues)
    ensures RescuesOut(kind, t, full, Prechecks(cut), x)
    ensures ReadyFor(settled[d], |t.gen|, x.rescues, d, full)
    ensures |AbsorbAll(settled[d], Inbox(x.rescues, d)).keys| == |x.absorbed[d].keys|
  {
    hide StatusOf, Anticommutes, Branch, Scanned, Xor, Distinct, Emitted, RoundOne, TurnIm;
    assert |x.absorbed| == |x.start| by { RoundOneAt(kind, t, cut, full, x, d); }
    assert Square3(x.rescues, |x.start|);
    RescueStream(kind, t, cut, full, x, d);
    AfterRoundOne(kind, t, cut, full, x, d);
    forall src, i | 0 <= src < |x.rescues| && 0 <= i < |x.rescues[src][d]|
      ensures |x.rescues[src][d][i].key| == |t.gen| && x.rescues[src][d][i].hash == full(x.rescues[src][d][i].key)
    {
      var msg := x.rescues[src][d][i];
      assert Released(kind, t, full, Prechecks(cut), x.absorbed[src], x.rescues[src]);
      assert msg in x.rescues[src][d];
      var r: nat :| ReleasesAs(kind, t, full, |x.rescues|, Prechecks(cut), x.absorbed[src], r, d, msg);
    }
    var done := AbsorbAll(settled[d], Inbox(x.rescues, d));
    AbsorbAllFolds(settled[d], |t.gen|, Inbox(x.rescues, d));
    RescuesLandInside(kind, t, cut, full, x, d);
    NoNewRows(Settled(x.absorbed[d]), Inbox(x.rescues, d), done);
  }

  lemma {:induction false} RescuesLandInside(kind: BasisKind, t: Turn, cut: Cutoff, full: Key -> nat, x: Rounds, d: nat)
    requires TurnOf(t, |t.gen|) && RoundOne(kind, t, cut, full, x) && d < |x.start|
    requires RescuesOut(kind, t, full, Prechecks(cut), x)
    ensures forall k :: HasMsg(Stream(x.rescues, d, |x.rescues|), k) ==> k in x.absorbed[d].keys
  {
    hide StatusOf, Anticommutes, Branch, Scanned, Xor, Distinct, Emitted, RoundOne, TurnIm, Global;
    var stream := Stream(x.rescues, d, |x.rescues|);
    RescueStream(kind, t, cut, full, x, d);
    assert ScannedAndFolded(kind, t, cut, x, d)
      && PartsOk(x.start, |t.gen|, full) by { RoundOneAt(kind, t, cut, full, x, d); }
    forall k | HasMsg(stream, k) ensures k in x.absorbed[d].keys {
      assert Rescued(kind, t, cut, full, x.start, stream, d, k);
      GlobalAt(x.start, |t.gen|, full, k);
      assert k in x.start[d].keys;
      assert x.scanned[d].keys == x.start[d].keys by { ScannedKeeps(kind, t, cut, x.start[d], x.scanned[d]); }
    }
  }

  lemma ScannedKeeps(kind: BasisKind, t: Turn, cut: Cutoff, p: Part, q: Part)
    requires |t.gen| % 2 == 0 && PartOk(p, |t.gen|) && Scanned(kind, t, cut, p, q)
    ensures q.keys == p.keys
  {
  }

  /** With the rescue stream folded in, the gate is the pair rule. */
  lemma GateDone(kind: BasisKind, t: Turn, cut: Cutoff, full: Key -> nat, x: Rounds, settled: seq<Part>)
    requires TurnOf(t, |t.gen|) && RoundOne(kind, t, cut, full, x)
    requires AllReleased(kind, t, full, Prechecks(cut), x.absorbed, settled, x.rescues)
    requires forall d :: 0 <= d < |settled| ==> |settled[d].coeffs| == |settled[d].keys|
    requires x.done == Absorbed(settled, x.rescues)
    ensures PartsOk(x.done, |t.gen|, full) && TermsOf(Global(x.start, full), |t.gen|)
    ensures Global(x.done, full) == PairStep(kind, t, cut, Global(x.start, full))
  {
    hide StatusOf, Anticommutes, Branch, Scanned, Xor, Distinct, Emitted, RoundOne, TurnIm, Global, Folded, MsgsOk,
      PairStep;
    assert |x.absorbed| == |x.start| > 0 by { RoundOneSizes(kind, t, cut, full, x); }
    forall d | 0 <= d < |x.absorbed| ensures RescuesFolded(x, d) {
      RescueReady(kind, t, cut, full, x, settled, d);
      AbsorbAllFolds(settled[d], |t.gen|, Inbox(x.rescues, d));
    }
    RescueReady(kind, t, cut, full, x, settled, 0);
    GateIsPairStep(kind, t, cut, full, x);
  }

  lemma RoundOneSizes(kind: BasisKind, t: Turn, cut: Cutoff, full: Key -> nat, x: Rounds)
    requires |t.gen| % 2 == 0 && RoundOne(kind, t, cut, full, x)
    ensures |x.absorbed| == |x.start| > 0
  {
  }

  /** A round without rescues changes nothing. */
  lemma {:induction false} EmptyStream(boxes: seq<seq<seq<Routed>>>, d: nat, s: nat)
    requires s <= |boxes| && forall i :: 0 <= i < |boxes| ==> d < |boxes[i]|
    requires forall i :: 0 <= i < |boxes| ==> boxes[i][d] == []
    ensures Stream(boxes, d, s) == []
  {
    if s > 0 {
      EmptyStream(boxes, d, s - 1);
    }
  }

  /**
   Without truncation nothing is held back, so nothing is claimed: scan and one exchange are
   the pair rule already, for every number of partitions.
   */
  lemma OneRoundIsPairStep(kind: BasisKind, t: Turn, full: Key -> nat, start: seq<Part>, scanned: seq<Part>,
                           boxes: seq<seq<seq<Routed>>>)
    requires TurnOf(t, |t.gen|) && AllScanned(kind, t, NoCutoff(), full, start, scanned, boxes)
    requires forall d :: 0 <= d < |scanned| ==> |scanned[d].coeffs| == |scanned[d].keys|
    ensures TermsOf(Global(start, full), |t.gen|) && PartsOk(Absorbed(scanned, boxes), |t.gen|, full)
    ensures Global(Absorbed(scanned, boxes), full) == PairStep(kind, t, NoCutoff(), Global(start, full))
  {
    hide StatusOf, Anticommutes, Branch, Scanned, Xor, Distinct, Emitted, RoundOne, TurnIm, Global, Folded, MsgsOk,
      PairStep, PartOk, Owned, Prechecks;
    var absorbed, none := Absorbed(scanned, boxes), EmptyBoxes(|start|);
    var x := Rounds(start, scanned, boxes, absorbed, none, absorbed);
    RoundOneDone(kind, t, NoCutoff(), full, start, scanned, boxes, x);
    forall d | 0 <= d < |absorbed|
      ensures absorbed[d] == Settled(absorbed[d])
        && Released(kind, t, full, Prechecks(NoCutoff()), absorbed[d], none[d])
      ensures |absorbed[d].coeffs| == |absorbed[d].keys| && Inbox(none, d) == []
    {
      NothingClaimed(kind, t, full, x, d);
      NothingReleased(kind, t, full, absorbed[d], none[d]);
      EmptyStream(none, d, |none|);
    }
    assert Absorbed(absorbed, none) == absorbed;
    GateDone(kind, t, NoCutoff(), full, x, absorbed);
  }

  lemma {:induction false} NothingClaimed(kind: BasisKind, t: Turn, full: Key -> nat, x: Rounds, d: nat)
    requires TurnOf(t, |t.gen|) && RoundOne(kind, t, NoCutoff(), full, x) && d < |x.start|
    ensures x.absorbed[d].claimed == []
  {
    hide Anticommutes, Xor, Branch, RoundOne, Emitted, TurnIm, Global;
    RoundOneSizes(kind, t, NoCutoff(), full, x);
    forall r: nat ensures r !in x.absorbed[d].claimed {
      ClaimedIffPaid(kind, t, NoCutoff(), full, x, d, r);
    }
    NonEmptyHas(x.absorbed[d].claimed);
  }

  lemma NothingReleased(kind: BasisKind, t: Turn, full: Key -> nat, p: Part, box: seq<seq<Routed>>)
    requires |t.gen| % 2 == 0 && p.claimed == [] && forall d :: 0 <= d < |box| ==> box[d] == []
    ensures Released(kind, t, full, Prechecks(NoCutoff()), p, box)
  {
  }

  // ---- how much room a gate needs -----------------------------------------------

  /** The keys of an operator that partition `d` owns. */
  ghost function Owning(m: Terms, full: Key -> nat, s: nat, d: nat): set<Key>
  {
    set k | k in m && OwnerOf(full, s, k) == d
  }

  lemma {:induction false} DistinctCount(keys: seq<Key>)
    requires Distinct(keys)
    ensures |set k | k in keys| == |keys|
  {
    if keys == [] {
      assert (set k | k in keys) == {};
    } else {
      var last := |keys| - 1;
      DistinctCount(keys[..last]);
      assert keys == keys[..last] + [keys[last]];
      assert (set k | k in keys) == (set k | k in keys[..last]) + {keys[last]};
      assert keys[last] !in keys[..last];
    }
  }

  /** A partition's rows after the first exchange are the keys of the result that it owns. */
  lemma RowsNeeded(kind: BasisKind, t: Turn, cut: Cutoff, full: Key -> nat, x: Rounds, d: nat)
    requires TurnOf(t, |t.gen|) && RoundOne(kind, t, cut, full, x) && d < |x.start|
    requires TermsOf(Global(x.start, full), |t.gen|)
    ensures |x.absorbed[d].keys| == |Owning(PairStep(kind, t, cut, Global(x.start, full)), full, |x.start|, d)|
  {
    hide StatusOf, Anticommutes, Branch, Xor, Emitted, RoundOne, TurnIm, Global, PairStep, Has;
    var m := Global(x.start, full);
    AfterRoundOne(kind, t, cut, full, x, d);
    assert ScannedAndFolded(kind, t, cut, x, d)
      && PartsOk(x.start, |t.gen|, full) by { RoundOneAt(kind, t, cut, full, x, d); }
    var stream := Stream(x.boxes, d, |x.boxes|);
    var keys := x.absorbed[d].keys;
    assert x.scanned[d].keys == x.start[d].keys by { ScannedKeeps(kind, t, cut, x.start[d], x.scanned[d]); }
    forall k ensures k in keys <==> k in PairStep(kind, t, cut, m) && OwnerOf(full, |x.start|, k) == d {
      if |k| == |t.gen| {
        PairStepAt(kind, t, cut, m, k);
        assert Receives(kind, t, cut, full, x.start, stream, d, k);
        GlobalAt(x.start, |t.gen|, full, k);
      } else {
        assert TermsOf(PairStep(kind, t, cut, m), |t.gen|);
      }
    }
    assert (set k | k in keys) == Owning(PairStep(kind, t, cut, m), full, |x.start|, d);
    DistinctCount(keys);
  }
}
