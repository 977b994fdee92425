/**
 What the workers' steps on symbolic rows add up to: from one partition to the whole operator,
 under every table of angles.
 */
module SymbolicGates {
  import opened BasisStrings
  import opened BasisAlgebra
  import opened TableauRows
  import opened PairRule
  import opened PairProtocol
  import opened GateRounds
  import opened PartitionedTermSums
  import opened SymbolicCoeffs
  import opened SymbolicRows
  import opened SymbolicWorkers

  // ---- all partitions -----------------------------------------------------------

  ghost function HeldBy(s: Shard): multiset<Coeff> { multiset(s.coeffs) }

  /** The coefficients all partitions hold. */
  ghost function LiveAll(shards: seq<Shard>): multiset<Coeff> { Total(shards, HeldBy) }

  /** The coefficients on their way from all workers. */
  ghost function LiveBoxes(boxes: seq<seq<seq<Message>>>): multiset<Coeff> { Total(boxes, LiveOut) }

  ghost predicate ShardsOk(shards: seq<Shard>, n: nat, full: Key -> nat)
  {
    |shards| > 0 && forall d :: 0 <= d < |shards| ==> ShardOk(shards[d], n, full, |shards|, d)
  }

  /** The partitions as numeric ones, once the angles are known. */
  ghost function PartsUnder(h: Heap, shards: seq<Shard>, lut: seq<real>): (r: seq<Part>)
    ensures |r| == |shards| && forall d :: 0 <= d < |r| ==> r[d] == PartUnder(h, shards[d], lut)
  {
    seq(|shards|, d requires 0 <= d < |shards| => PartUnder(h, shards[d], lut))
  }

  /** The operator they hold together. */
  ghost function StoredUnder(h: Heap, shards: seq<Shard>, full: Key -> nat, lut: seq<real>): Terms
  {
    if |shards| > 0 then Global(PartsUnder(h, shards, lut), full) else map[]
  }

  lemma PartsAreOk(h: Heap, shards: seq<Shard>, n: nat, full: Key -> nat, lut: seq<real>)
    requires ShardsOk(shards, n, full)
    ensures PartsOk(PartsUnder(h, shards, lut), n, full) && TermsOf(StoredUnder(h, shards, full, lut), n)
  {
    hide Global;
    var parts := PartsUnder(h, shards, lut);
    forall d | 0 <= d < |parts| ensures PartOk(parts[d], n) && Owned(parts[d], full, |parts|, d) {
      assert ShardOk(shards[d], n, full, |shards|, d);
    }
    GlobalTerms(parts, n, full);
  }

  /** What the workers other than `d` hold. */
  ghost function Others(shards: seq<Shard>, d: nat): multiset<Coeff>
    requires d < |shards|
  {
    LiveAll(shards[d := Shard([], [])])
  }

  lemma WorkerApart(shards: seq<Shard>, d: nat, s: Shard)
    requires d < |shards|
    ensures LiveAll(shards[d := s]) == multiset(s.coeffs) + Others(shards, d)
    ensures LiveAll(shards) == multiset(shards[d].coeffs) + Others(shards, d)
    ensures Others(shards[d := s], d) == Others(shards, d)
  {
    var none := Shard([], []);
    assert HeldBy(none) == multiset{};
    TotalApart(shards, HeldBy, d, none, s);
    assert shards[d := s][d := none] == shards[d := none];
  }

  /** Every coefficient of every partition lies in the graph. */
  ghost predicate Grounded(h: Heap, shards: seq<Shard>)
  {
    HeapOk(h) && forall d :: 0 <= d < |shards| ==> AllInHeap(h, shards[d].coeffs)
  }

  lemma LiveIsGrounded(h: Heap, shards: seq<Shard>, rest: multiset<Coeff>)
    requires LiveShape(h, LiveAll(shards) + rest)
    ensures Grounded(h, shards)
  {
    hide LiveShape;
    LiveHeapOk(h, LiveAll(shards) + rest);
    forall d | 0 <= d < |shards| ensures AllInHeap(h, shards[d].coeffs) {
      WorkerApart(shards, d, shards[d]);
      assert LiveAll(shards) + rest == multiset(shards[d].coeffs) + (Others(shards, d) + rest);
      LiveInHeap(h, shards[d].coeffs, Others(shards, d) + rest);
    }
  }

  lemma StoredKept(h: Heap, g: Heap, shards: seq<Shard>, full: Key -> nat, lut: seq<real>)
    requires Grounded(h, shards) && HeapOk(g) && h <= g
    ensures PartsUnder(g, shards, lut) == PartsUnder(h, shards, lut)
      && StoredUnder(g, shards, full, lut) == StoredUnder(h, shards, full, lut)
  {
    hide Global;
    forall d | 0 <= d < |shards| ensures PartUnder(g, shards[d], lut) == PartUnder(h, shards[d], lut) {
      PartKept(h, g, shards[d], lut);
    }
    assert PartsUnder(g, shards, lut) == PartsUnder(h, shards, lut);
  }

  // ---- the scan -----------------------------------------------------------------

  ghost predicate BoxesGrounded(h: Heap, out: seq<seq<Message>>)
  {
    forall d :: 0 <= d < |out| ==> AllInHeap(h, NodesOf(out[d]))
  }

  ghost predicate BoxedIn(h: Heap, boxes: seq<seq<seq<Message>>>)
  {
    forall i :: 0 <= i < |boxes| ==> BoxesGrounded(h, boxes[i])
  }

  lemma LiveIsBoxed(h: Heap, live: multiset<Coeff>, boxes: seq<seq<seq<Message>>>)
    requires LiveShape(h, live + LiveBoxes(boxes))
    ensures BoxedIn(h, boxes)
  {
    hide LiveShape, LiveOut;
    forall i | 0 <= i < |boxes| ensures BoxesGrounded(h, boxes[i]) {
      var others := LiveBoxes(boxes[i := []]);
      NothingOut();
      TotalApart(boxes, LiveOut, i, [], []);
      AloneOut(h, boxes[i]);
      InFront(live, LiveOut(boxes[i]), others);
      ScanInHeap(Scan(h, Shard([], []), boxes[i]), live + others);
    }
  }

  lemma InFront(a: multiset<Coeff>, b: multiset<Coeff>, c: multiset<Coeff>)
    ensures a + (b + c) == b + (a + c)
    ensures (a + b) + c == a + (b + c)
  {
  }

  lemma NothingOut()
    ensures LiveOut([]) == multiset{}
  {
  }

  lemma AloneOut(h: Heap, out: seq<seq<Message>>)
    ensures LiveScan(Scan(h, Shard([], []), out)) == LiveOut(out)
  {
  }

  /** One more worker has scanned. */
  lemma ScannedLive(shards: seq<Shard>, boxes: seq<seq<seq<Message>>>, d: nat, w: Scan)
    requires d < |shards| == |boxes| && LiveOut(boxes[d]) == multiset{}
    ensures LiveAll(shards) + LiveBoxes(boxes) == multiset(shards[d].coeffs) + (Others(shards, d) + LiveBoxes(boxes))
    ensures LiveAll(shards[d := w.shard]) + LiveBoxes(boxes[d := w.out])
      == LiveScan(w) + (Others(shards, d) + LiveBoxes(boxes))
  {
    hide LiveOut, Total;
    var others, waiting, mine := Others(shards, d), LiveBoxes(boxes), multiset(w.shard.coeffs);
    WorkerApart(shards, d, w.shard);
    TotalApart(boxes, LiveOut, d, boxes[d], w.out);
    assert boxes[d := boxes[d]] == boxes;
    InFront(multiset(shards[d].coeffs), others, waiting);
    InFront(mine, others, LiveOut(w.out) + waiting);
    InFront(others, LiveOut(w.out), waiting);
    InFront(mine, LiveOut(w.out), others + waiting);
  }

  /** Under the table the workers of `done` have scanned; the graph has grown since the start. */
  ghost predicate ScanStage(kind: BasisKind, gen: Key, sign: real, x: Param, full: Key -> nat, h0: Heap,
                            shards0: seq<Shard>, h: Heap, shards: seq<Shard>, boxes: seq<seq<seq<Message>>>,
                              done: seq<nat>, lut: seq<real>)
  {
    && |shards| == |shards0| == |boxes|
    && forall d :: 0 <= d < |shards| && d in done ==>
      ScannedUnder(kind, gen, sign, x, full, Scan(h0, shards0[d], []), Scan(h, shards[d], boxes[d]), lut)
  }

  /** Nodes added since change nothing about a finished scan, nor about where it started. */
  lemma ScannedKept(kind: BasisKind, gen: Key, sign: real, x: Param, full: Key -> nat, a: Scan, a': Scan, b: Scan,
                    b': Scan, lut: seq<real>)
    requires ScannedUnder(kind, gen, sign, x, full, a, b, lut)
    requires PartUnder(a'.heap, a'.shard, lut) == PartUnder(a.heap, a.shard, lut)
    requires PartUnder(b'.heap, b'.shard, lut) == PartUnder(b.heap, b.shard, lut)
      && BoxesUnder(b'.heap, b'.out, lut) == BoxesUnder(b.heap, b.out, lut)
    ensures ScannedUnder(kind, gen, sign, x, full, a', b', lut)
  {
  }

  lemma BoxesKept(h: Heap, g: Heap, out: seq<seq<Message>>, lut: seq<real>)
    requires HeapOk(h) && HeapOk(g) && h <= g && BoxesGrounded(h, out)
    ensures BoxesUnder(g, out, lut) == BoxesUnder(h, out, lut)
  {
    forall d | 0 <= d < |out| ensures BoxUnder(g, out[d], lut) == BoxUnder(h, out[d], lut) {
      BoxKept(h, g, out[d], lut);
    }
  }

  lemma ScanStageNext(kind: BasisKind, gen: Key, sign: real, x: Param, full: Key -> nat, h0: Heap, shards0: seq<Shard>,
                      h: Heap, shards: seq<Shard>, boxes: seq<seq<seq<Message>>>, done: seq<nat>, d: nat, w: Scan,
                        lut: seq<real>)
    requires ScanStage(kind, gen, sign, x, full, h0, shards0, h, shards, boxes, done, lut) && d < |shards| && d !in done
    requires Grounded(h0, shards0) && Grounded(h, shards) && BoxedIn(h, boxes) && HeapOk(w.heap) && h0 <= h
      && h <= w.heap
    requires shards[d] == shards0[d] && ScannedUnder(kind, gen, sign, x, full, Scan(h, shards[d], []), w, lut)
    ensures ScanStage(kind, gen, sign, x, full, h0, shards0, w.heap, shards[d := w.shard], boxes[d := w.out],
      done + [d], lut)
  {
    hide ScannedUnder, HeapOk, AllInHeap, BoxesGrounded, PartUnder, BoxesUnder;
    forall i | 0 <= i < |shards| && i in done + [d]
      ensures ScannedUnder(kind, gen, sign, x, full, Scan(h0, shards0[i], []),
        Scan(w.heap, shards[d := w.shard][i], boxes[d := w.out][i]), lut)
    {
      if i == d {
        PartKept(h0, h, shards0[d], lut);
        ScannedKept(kind, gen, sign, x, full, Scan(h, shards[d], []), Scan(h0, shards0[d], []), w, w, lut);
      } else {
        PartKept(h, w.heap, shards[i], lut);
        BoxesKept(h, w.heap, boxes[i], lut);
        ScannedKept(kind, gen, sign, x, full, Scan(h0, shards0[i], []), Scan(h0, shards0[i], []),
          Scan(h, shards[i], boxes[i]),
                    Scan(w.heap, shards[i], boxes[i]), lut);
      }
    }
  }

  lemma ScanStageBegins(kind: BasisKind, gen: Key, sign: real, x: Param, full: Key -> nat, h: Heap, shards: seq<Shard>,
                        boxes: seq<seq<seq<Message>>>, lut: seq<real>)
    requires |boxes| == |shards|
    ensures ScanStage(kind, gen, sign, x, full, h, shards, h, shards, boxes, [], lut)
  {
  }

  // ---- from outboxes to inboxes -------------------------------------------------

  /** What partition `d` receives from the first `s` workers, in their order. */
  function Delivered(boxes: seq<seq<seq<Message>>>, d: nat, s: nat): seq<Message>
    requires s <= |boxes| && forall i :: 0 <= i < |boxes| ==> d < |boxes[i]|
  {
    if s == 0 then [] else Delivered(boxes, d, s - 1) + boxes[s - 1][d]
  }

  predicate SquareBoxes(boxes: seq<seq<seq<Message>>>, s: nat)
  {
    |boxes| == s && forall i :: 0 <= i < s ==> |boxes[i]| == s
  }

  /** What everyone receives from the first `s` workers. */
  function Deliveries(boxes: seq<seq<seq<Message>>>, s: nat): (r: seq<seq<Message>>)
    requires SquareBoxes(boxes, |boxes|) && s <= |boxes|
    ensures |r| == |boxes| && forall d :: 0 <= d < |r| ==> r[d] == Delivered(boxes, d, s)
  {
    seq(|boxes|, d requires 0 <= d < |boxes| => Delivered(boxes, d, s))
  }

  lemma CarriedBoth(xs: seq<Message>, ys: seq<Message>)
    ensures Carried(xs + ys) == Carried(xs) + Carried(ys)
  {
    assert NodesOf(xs + ys) == NodesOf(xs) + NodesOf(ys);
  }

  /** No coefficient is lost or doubled on the way. */
  lemma {:induction false} DeliveredAll(boxes: seq<seq<seq<Message>>>, s: nat)
    requires SquareBoxes(boxes, |boxes|) && s <= |boxes|
    ensures LiveOut(Deliveries(boxes, s)) == LiveBoxes(boxes[..s])
  {
    hide LiveOut, LiveBoxes, Deliveries;
    if s == 0 {
      NothingDelivered(boxes);
    } else {
      DeliveredAll(boxes, s - 1);
      DeliveredNext(boxes, s);
      BoxesNext(boxes, s);
    }
  }

  lemma NothingDelivered(boxes: seq<seq<seq<Message>>>)
    requires SquareBoxes(boxes, |boxes|)
    ensures LiveOut(Deliveries(boxes, 0)) == LiveBoxes(boxes[..0])
  {
    hide Carried;
    NothingCarried();
    TotalNone(Deliveries(boxes, 0), Carried);
  }

  /** One more worker's boxes are delivered. */
  lemma DeliveredNext(boxes: seq<seq<seq<Message>>>, s: nat)
    requires SquareBoxes(boxes, |boxes|) && 0 < s <= |boxes|
    ensures LiveOut(Deliveries(boxes, s)) == LiveOut(Deliveries(boxes, s - 1)) + LiveOut(boxes[s - 1])
  {
    hide Carried, Total;
    var (before, after) := (Deliveries(boxes, s - 1), Deliveries(boxes, s));
    forall d | 0 <= d < |boxes| ensures Carried(after[d]) == Carried(before[d]) + Carried(boxes[s - 1][d]) {
      CarriedBoth(before[d], boxes[s - 1][d]);
    }
    TotalBoth(before, boxes[s - 1], after, Carried);
  }

  lemma BoxesNext(boxes: seq<seq<seq<Message>>>, s: nat)
    requires 0 < s <= |boxes|
    ensures LiveBoxes(boxes[..s]) == LiveBoxes(boxes[..s - 1]) + LiveOut(boxes[s - 1])
  {
    hide LiveOut;
    assert boxes[..s][..s - 1] == boxes[..s - 1] && boxes[..s][s - 1] == boxes[s - 1];
  }

  /** Everything a partition receives belongs to it. */
  lemma {:induction false} DeliveredBound(boxes: seq<seq<seq<Message>>>, d: nat, s: nat, n: nat, full: Key -> nat)
    requires SquareBoxes(boxes, |boxes|) && d < |boxes| && s <= |boxes|
      && forall i :: 0 <= i < |boxes| ==> AllBound(boxes[i], n, full)
    ensures BoundFor(Delivered(boxes, d, s), n, full, |boxes|, d)
  {
    if s > 0 {
      DeliveredBound(boxes, d, s - 1, n, full);
      assert AllBound(boxes[s - 1], n, full);
      assert BoundFor(boxes[s - 1][d], n, full, |boxes|, d);
    }
  }

  ghost function AllBoxesUnder(h: Heap, boxes: seq<seq<seq<Message>>>, lut: seq<real>): (r: seq<seq<seq<Routed>>>)
    ensures |r| == |boxes| && forall i :: 0 <= i < |r| ==> r[i] == BoxesUnder(h, boxes[i], lut)
  {
    seq(|boxes|, i requires 0 <= i < |boxes| => BoxesUnder(h, boxes[i], lut))
  }

  /** The symbolic inbox stands for the numeric one. */
  lemma {:induction false} DeliveredUnder(h: Heap, boxes: seq<seq<seq<Message>>>, d: nat, s: nat, lut: seq<real>)
    requires SquareBoxes(boxes, |boxes|) && d < |boxes| && s <= |boxes|
    ensures BoxUnder(h, Delivered(boxes, d, s), lut) == Stream(AllBoxesUnder(h, boxes, lut), d, s)
  {
    if s > 0 {
      DeliveredUnder(h, boxes, d, s - 1, lut);
      assert BoxUnder(h, Delivered(boxes, d, s), lut)
        == BoxUnder(h, Delivered(boxes, d, s - 1), lut) + BoxUnder(h, boxes[s - 1][d], lut);
    }
  }

  // ---- the exchange -------------------------------------------------------------

  /** One more worker folds its inbox in. */
  lemma FoldedLive(shards: seq<Shard>, waiting: seq<seq<Message>>, d: nat, s: Shard)
    requires d < |shards| == |waiting|
    ensures var rest := Others(shards, d) + LiveOut(waiting[d := []]);
      && LiveAll(shards) + LiveOut(waiting) == multiset(shards[d].coeffs) + Carried(waiting[d]) + rest
      && LiveAll(shards[d := s]) + LiveOut(waiting[d := []]) == multiset(s.coeffs) + rest
  {
    hide Carried, Total;
    WorkerApart(shards, d, s);
    NothingCarried();
    TotalApart(waiting, Carried, d, [], []);
    var (mine, others, less) := (multiset(shards[d].coeffs), Others(shards, d), LiveOut(waiting[d := []]));
    InFront(mine, others, Carried(waiting[d]) + less);
    InFront(others, Carried(waiting[d]), less);
    InFront(mine, Carried(waiting[d]), others + less);
    InFront(multiset(s.coeffs), others, less);
  }

  ghost predicate FoldStage(h0: Heap, shards0: seq<Shard>, inboxes: seq<seq<Message>>, h: Heap, shards: seq<Shard>,
                            done: seq<nat>, lut: seq<real>)
  {
    && |shards| == |shards0| == |inboxes|
    && forall d ::
      0 <= d < |shards| && d in done ==> FoldedUnder(Rows(h0, shards0[d]), inboxes[d], Rows(h, shards[d]), lut)
  }

  lemma FoldedKept(a: Rows, a': Rows, msgs: seq<Message>, b: Rows, b': Rows, lut: seq<real>)
    requires FoldedUnder(a, msgs, b, lut) && a'.shard == a.shard
    requires PartUnder(a'.heap, a'.shard, lut) == PartUnder(a.heap, a.shard, lut)
      && BoxUnder(a'.heap, msgs, lut) == BoxUnder(a.heap, msgs, lut)
    requires PartUnder(b'.heap, b'.shard, lut) == PartUnder(b.heap, b.shard, lut)
    ensures FoldedUnder(a', msgs, b', lut)
  {
  }

  lemma FoldStageNext(h0: Heap, shards0: seq<Shard>, inboxes: seq<seq<Message>>, h: Heap, shards: seq<Shard>,
                      done: seq<nat>, d: nat, r: Rows, lut: seq<real>)
    requires FoldStage(h0, shards0, inboxes, h, shards, done, lut) && d < |shards| && d !in done
    requires Grounded(h0, shards0) && Grounded(h, shards) && BoxesGrounded(h0, inboxes) && HeapOk(r.heap) && h0 <= h
      && h <= r.heap
    requires shards[d] == shards0[d] && FoldedUnder(Rows(h, shards[d]), inboxes[d], r, lut)
    ensures FoldStage(h0, shards0, inboxes, r.heap, shards[d := r.shard], done + [d], lut)
  {
    hide FoldedUnder, HeapOk, AllInHeap, PartUnder, BoxUnder;
    forall i | 0 <= i < |shards| && i in done + [d]
      ensures FoldedUnder(Rows(h0, shards0[i]), inboxes[i], Rows(r.heap, shards[d := r.shard][i]), lut)
    {
      if i == d {
        PartKept(h0, h, shards0[d], lut);
        BoxKept(h0, h, inboxes[d], lut);
        FoldedKept(Rows(h, shards[d]), Rows(h0, shards0[d]), inboxes[d], r, r, lut);
      } else {
        PartKept(h, r.heap, shards[i], lut);
        FoldedKept(Rows(h0, shards0[i]), Rows(h0, shards0[i]), inboxes[i], Rows(h, shards[i]), Rows(r.heap, shards[i]),
          lut);
      }
    }
  }

  lemma FoldStageBegins(h: Heap, shards: seq<Shard>, inboxes: seq<seq<Message>>, lut: seq<real>)
    requires |inboxes| == |shards|
    ensures FoldStage(h, shards, inboxes, h, shards, [], lut)
  {
  }

  lemma InboxesGrounded(h: Heap, live: multiset<Coeff>, inboxes: seq<seq<Message>>)
    requires LiveShape(h, live + LiveOut(inboxes))
    ensures BoxesGrounded(h, inboxes)
  {
    hide LiveShape, LiveOut;
    AloneOut(h, inboxes);
    InFront(LiveOut(inboxes), live, multiset{});
    assert live + LiveOut(inboxes) == LiveOut(inboxes) + live;
    ScanInHeap(Scan(h, Shard([], []), inboxes), live);
  }

  // ---- the gate -----------------------------------------------------------------

  /** The stored operator has gone through the pair rule. */
  ghost predicate PairedUnder(kind: BasisKind, t: Turn, full: Key -> nat, h0: Heap, shards0: seq<Shard>, h: Heap,
                              shards: seq<Shard>, lut: seq<real>)
  {
    && |t.gen| % 2 == 0 && TermsOf(StoredUnder(h0, shards0, full, lut), |t.gen|)
    && StoredUnder(h, shards, full, lut) == PairStep(kind, t, NoCutoff(), StoredUnder(h0, shards0, full, lut))
  }

  /** Scan and exchange of all partitions, each in any order, are the pair rule. */
  lemma RoundsArePairStep(kind: BasisKind, gen: Key, sign: real, x: Param, full: Key -> nat, params: nat, h0: Heap,
                          shards0: seq<Shard>, h1: Heap, shards1: seq<Shard>, boxes: seq<seq<seq<Message>>>, h2: Heap,
                            shards2: seq<Shard>, order1: seq<nat>, order2: seq<nat>, lut: seq<real>)
    requires |gen| % 2 == 0 && IsSign(sign) && ParamOk(x, params) && AngleTable(lut, params)
    requires ShardsOk(shards0, |gen|, full) && SquareBoxes(boxes, |shards0|) && Permutation(order1, |shards0|)
      && Permutation(order2, |shards0|)
    requires ScanStage(kind, gen, sign, x, full, h0, shards0, h1, shards1, boxes, order1, lut)
    requires FoldStage(h1, shards1, Deliveries(boxes, |boxes|), h2, shards2, order2, lut)
    ensures PairedUnder(kind, TurnUnder(gen, sign, x, lut), full, h0, shards0, h2, shards2, lut)
  {
    hide PairStep, Global, AbsorbAll, ShardOk, ShardsOk, BoxUnder, BoxesUnder, Stream, PartsOk, PartUnder,
      ScannedUnder, FoldedUnder, TurnUnder, Inbox,
      AllScanned, Absorbed, AllBoxesUnder;
    var t := TurnUnder(gen, sign, x, lut);
    assert TurnOf(t, |gen|) && t.gen == gen by { TurnUnderOk(gen, sign, x, params, lut); TurnGen(gen, sign, x, lut); }
    var (start, scanned, sent) :=
      (PartsUnder(h0, shards0, lut), PartsUnder(h1, shards1, lut), AllBoxesUnder(h1, boxes, lut));
    SomeShards(shards0, |gen|, full);
    AllScannedUnder(kind, gen, sign, x, full, h0, shards0, h1, shards1, boxes, order1, lut);
    forall d | 0 <= d < |start| ensures PartUnder(h2, shards2[d], lut) == AbsorbAll(scanned[d], Inbox(sent, d)) {
      assert FoldedUnder(Rows(h1, shards1[d]), Deliveries(boxes, |boxes|)[d], Rows(h2, shards2[d]), lut);
      InboxUnder(h1, shards1[d], boxes, h2, shards2[d], d, lut);
    }
    OneRoundIsPairStep(kind, t, full, start, scanned, sent);
    assert PartsUnder(h2, shards2, lut) == Absorbed(scanned, sent);
  }

  lemma SomeShards(shards: seq<Shard>, n: nat, full: Key -> nat)
    requires ShardsOk(shards, n, full)
    ensures |shards| > 0
  {
  }

  lemma TurnGen(gen: Key, sign: real, x: Param, lut: seq<real>)
    ensures TurnUnder(gen, sign, x, lut).gen == gen
  {
  }

  lemma AllScannedUnder(kind: BasisKind, gen: Key, sign: real, x: Param, full: Key -> nat, h0: Heap,
                        shards0: seq<Shard>, h1: Heap, shards1: seq<Shard>, boxes: seq<seq<seq<Message>>>,
                          order: seq<nat>, lut: seq<real>)
    requires TurnOf(TurnUnder(gen, sign, x, lut), |gen|) && TurnUnder(gen, sign, x, lut).gen == gen
    requires ShardsOk(shards0, |gen|, full) && SquareBoxes(boxes, |shards0|) && Permutation(order, |shards0|)
    requires ScanStage(kind, gen, sign, x, full, h0, shards0, h1, shards1, boxes, order, lut)
    ensures var (start, scanned) := (PartsUnder(h0, shards0, lut), PartsUnder(h1, shards1, lut));
      && AllScanned(kind, TurnUnder(gen, sign, x, lut), NoCutoff(), full, start, scanned, AllBoxesUnder(h1, boxes, lut))
      && forall d :: 0 <= d < |scanned| ==> |scanned[d].coeffs| == |scanned[d].keys|
  {
    hide ScanOf, ShardOk, ShardsOk, BoxUnder, PartsOk, PartOk, PartUnder, ScannedUnder, TurnUnder;
    PartsAreOk(h0, shards0, |gen|, full, lut);
    forall d | 0 <= d < |shards0|
      ensures ScanOf(kind, TurnUnder(gen, sign, x, lut), NoCutoff(), full, |gen|, PartUnder(h0, shards0[d], lut),
        PartUnder(h1, shards1[d], lut),
                     BoxesUnder(h1, boxes[d], lut))
      ensures |PartUnder(h1, shards1[d], lut).coeffs| == |PartUnder(h1, shards1[d], lut).keys|
    {
      ScanIs(kind, gen, sign, x, full, h0, shards0[d], h1, shards1[d], boxes[d], lut);
    }
  }

  lemma ScanIs(kind: BasisKind, gen: Key, sign: real, x: Param, full: Key -> nat, h0: Heap, s0: Shard, h: Heap,
               s: Shard, out: seq<seq<Message>>, lut: seq<real>)
    requires ScannedUnder(kind, gen, sign, x, full, Scan(h0, s0, []), Scan(h, s, out), lut)
    ensures |gen| % 2 == 0 && |TurnUnder(gen, sign, x, lut).gen| == |gen|
    ensures ScanOf(kind, TurnUnder(gen, sign, x, lut), NoCutoff(), full, |gen|, PartUnder(h0, s0, lut),
      PartUnder(h, s, lut), BoxesUnder(h, out, lut))
    ensures |PartUnder(h, s, lut).coeffs| == |PartUnder(h, s, lut).keys|
  {
  }

  lemma InboxUnder(h1: Heap, s1: Shard, boxes: seq<seq<seq<Message>>>, h2: Heap, s2: Shard, d: nat, lut: seq<real>)
    requires SquareBoxes(boxes, |boxes|) && d < |boxes|
    requires FoldedUnder(Rows(h1, s1), Deliveries(boxes, |boxes|)[d], Rows(h2, s2), lut)
    ensures var p := PartUnder(h1, s1, lut);
      |p.coeffs| == |p.keys| && PartUnder(h2, s2, lut) == AbsorbAll(p, Inbox(AllBoxesUnder(h1, boxes, lut), d))
  {
    hide AbsorbAll, BoxUnder, Stream, Delivered;
    DeliveredUnder(h1, boxes, d, |boxes|, lut);
  }

  // ---- scaling ------------------------------------------------------------------

  ghost predicate ScaleStage(kind: BasisKind, gen: Key, factor: real, h0: Heap, shards0: seq<Shard>, h: Heap,
                             shards: seq<Shard>, done: seq<nat>, lut: seq<real>)
  {
    && |shards| == |shards0|
    && forall d ::
      0 <= d < |shards| && d in done ==> RescaledUnder(kind, gen, factor, Rows(h0, shards0[d]), Rows(h, shards[d]), lut)
  }

  lemma ScaleStageNext(kind: BasisKind, gen: Key, factor: real, h0: Heap, shards0: seq<Shard>, h: Heap,
                       shards: seq<Shard>, done: seq<nat>, d: nat, r: Rows, lut: seq<real>)
    requires ScaleStage(kind, gen, factor, h0, shards0, h, shards, done, lut) && d < |shards| && d !in done
    requires Grounded(h0, shards0) && Grounded(h, shards) && HeapOk(r.heap) && h0 <= h && h <= r.heap
    requires shards[d] == shards0[d] && RescaledUnder(kind, gen, factor, Rows(h, shards[d]), r, lut)
    ensures ScaleStage(kind, gen, factor, h0, shards0, r.heap, shards[d := r.shard], done + [d], lut)
  {
    hide ScaledPart, HeapOk, AllInHeap, PartUnder;
    forall i | 0 <= i < |shards| && i in done + [d]
      ensures RescaledUnder(kind, gen, factor, Rows(h0, shards0[i]), Rows(r.heap, shards[d := r.shard][i]), lut)
    {
      if i == d {
        PartKept(h0, h, shards0[d], lut);
      } else {
        PartKept(h, r.heap, shards[i], lut);
      }
    }
  }

  ghost predicate ScaledUnder(kind: BasisKind, gen: Key, factor: real, full: Key -> nat, h0: Heap, shards0: seq<Shard>,
                              h: Heap, shards: seq<Shard>, lut: seq<real>)
  {
    && |gen| % 2 == 0 && TermsOf(StoredUnder(h0, shards0, full, lut), |gen|)
    && StoredUnder(h, shards, full, lut) == ScaleStep(kind, gen, factor, StoredUnder(h0, shards0, full, lut))
  }

  lemma ScaleStageBegins(kind: BasisKind, gen: Key, factor: real, h: Heap, shards: seq<Shard>, lut: seq<real>)
    ensures ScaleStage(kind, gen, factor, h, shards, h, shards, [], lut)
  {
  }

  lemma ScalesAreScaleStep(kind: BasisKind, gen: Key, factor: real, full: Key -> nat, h0: Heap, shards0: seq<Shard>,
                           h: Heap, shards: seq<Shard>, order: seq<nat>, lut: seq<real>)
    requires |gen| % 2 == 0 && ShardsOk(shards0, |gen|, full) && Permutation(order, |shards0|)
    requires ScaleStage(kind, gen, factor, h0, shards0, h, shards, order, lut)
    ensures ScaledUnder(kind, gen, factor, full, h0, shards0, h, shards, lut)
  {
    hide ScaleStep, Global, ScaledPart, ShardOk;
    PartsAreOk(h0, shards0, |gen|, full, lut);
    var (start, after) := (PartsUnder(h0, shards0, lut), PartsUnder(h, shards, lut));
    forall d | 0 <= d < |start| ensures ScaledPart(kind, gen, factor, start[d], after[d]) {
      assert RescaledUnder(kind, gen, factor, Rows(h0, shards0[d]), Rows(h, shards[d]), lut);
    }
    ScaledAll(kind, |gen|, gen, factor, full, start, after);
  }

  // ---- counting rows ------------------------------------------------------------

  function RowsIn(shards: seq<Shard>): nat
  {
    if shards == [] then 0 else RowsIn(shards[..|shards| - 1]) + |shards[|shards| - 1].keys|
  }

  /** The rows of all partitions are the terms of the operator, under every table of angles. */
  lemma {:induction false} RowsInTerms(h: Heap, shards: seq<Shard>, n: nat, full: Key -> nat, lut: seq<real>)
    requires ShardsOk(shards, n, full)
    ensures RowsIn(shards) == |StoredUnder(h, shards, full, lut)|
  {
    hide ShardsOk, PartsOk, Global, RowCount, RowsIn;
    SomeShards(shards, n, full);
    PartsAreOk(h, shards, n, full, lut);
    RowsInParts(h, shards, lut);
    RowsAreTerms(PartsUnder(h, shards, lut), n, full, |shards|);
  }

  lemma {:induction false} RowsInParts(h: Heap, shards: seq<Shard>, lut: seq<real>)
    ensures RowsIn(shards) == RowCount(PartsUnder(h, shards, lut))
    decreases |shards|
  {
    if shards != [] {
      var last := |shards| - 1;
      RowsInParts(h, shards[..last], lut);
      assert PartsUnder(h, shards, lut)[..last] == PartsUnder(h, shards[..last], lut);
    }
  }

  // ---- truncation that loses nothing --------------------------------------------

  /** Every row has a coefficient. */
  predicate NoneEmpty(shards: seq<Shard>)
  {
    forall d, i :: 0 <= d < |shards| && 0 <= i < |shards[d].coeffs| ==> shards[d].coeffs[i].Some?
  }

  lemma WithoutEmptyHasNone(shards: seq<Shard>)
    requires forall d :: 0 <= d < |shards| ==> |shards[d].coeffs| == |shards[d].keys|
    ensures NoneEmpty(WithoutEmpty(shards))
  {
    forall d, j | 0 <= d < |shards| && 0 <= j < |NonEmpty(shards[d]).coeffs|
      ensures NonEmpty(shards[d]).coeffs[j].Some?
    {
      var i := LeftWasThere(shards[d], j);
    }
  }

  /** No term is worth anything else than before. */
  ghost predicate SameCoefs(a: Terms, b: Terms) { forall k: Key :: Coef(b, k) == Coef(a, k) }

  /** The shards with their empty rows gone. */
  function WithoutEmpty(shards: seq<Shard>): (r: seq<Shard>)
    requires forall d :: 0 <= d < |shards| ==> |shards[d].coeffs| == |shards[d].keys|
    ensures |r| == |shards| && forall d :: 0 <= d < |r| ==> r[d] == NonEmpty(shards[d])
  {
    seq(|shards|, d requires 0 <= d < |shards| => NonEmpty(shards[d]))
  }

  lemma {:induction false} NonEmptyOk(s: Shard, n: nat, full: Key -> nat, nParts: nat, d: nat)
    requires ShardOk(s, n, full, nParts, d)
    ensures ShardOk(NonEmpty(s), n, full, nParts, d)
  {
    LeftDistinct(s);
    forall j | 0 <= j < |NonEmpty(s).keys| ensures NonEmpty(s).keys[j] in s.keys && |NonEmpty(s).keys[j]| == n {
      var i := LeftWasThere(s, j);
    }
  }

  /** Dropping the empty rows changes no coefficient of the operator. */
  lemma DroppingKeeps(h: Heap, shards: seq<Shard>, n: nat, full: Key -> nat, lut: seq<real>)
    requires ShardsOk(shards, n, full)
    ensures ShardsOk(WithoutEmpty(shards), n, full)
    ensures SameCoefs(StoredUnder(h, shards, full, lut), StoredUnder(h, WithoutEmpty(shards), full, lut))
  {
    hide Global, ShardOk, NonEmpty, PartUnder, CoeffAt, Coef;
    forall d | 0 <= d < |shards| ensures |shards[d].coeffs| == |shards[d].keys| && Distinct(shards[d].keys) {
      assert ShardOk(shards[d], n, full, |shards|, d);
      ShardWide(shards[d], n, full, |shards|, d);
    }
    var after := WithoutEmpty(shards);
    forall d | 0 <= d < |after| ensures ShardOk(after[d], n, full, |after|, d) {
      NonEmptyOk(shards[d], n, full, |shards|, d);
    }
    PartsAreOk(h, shards, n, full, lut);
    PartsAreOk(h, after, n, full, lut);
    forall k: Key ensures Coef(StoredUnder(h, after, full, lut), k) == Coef(StoredUnder(h, shards, full, lut), k) {
      GlobalAt(PartsUnder(h, shards, lut), n, full, k);
      GlobalAt(PartsUnder(h, after, lut), n, full, k);
      LeftAt(h, shards[OwnerOf(full, |shards|, k)], k, lut);
    }
  }

  /** The coefficients in use are the same, the missing ones aside. */
  lemma {:induction false} DroppedLive(shards: seq<Shard>, c: Coeff)
    requires (forall d :: 0 <= d < |shards| ==> |shards[d].coeffs| == |shards[d].keys|) && c.Some?
    ensures LiveAll(WithoutEmpty(shards))[c] == LiveAll(shards)[c]
    decreases |shards|
  {
    if shards != [] {
      var last := |shards| - 1;
      DroppedLive(shards[..last], c);
      assert WithoutEmpty(shards)[..last] == WithoutEmpty(shards[..last]);
      LeftLive(shards[last], c);
    }
  }
}
