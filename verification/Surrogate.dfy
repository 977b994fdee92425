/**
 The surrogate: the same propagation with symbolic coefficients over hash partitions, compiled
 once and evaluated for any table of angles.
 */
module Surrogates {
  import opened Wrappers
  import opened BasisStrings
  import opened BasisAlgebra
  import opened TableauRows
  import opened Frames
  import opened PairRule
  import opened Propagation
  import opened RunLaws
  import opened PairProtocol
  import opened CliffordTableaus
  import opened PartitionedTermSums
  import opened ReadOuts
  import opened SymbolicCoeffs
  import opened CompiledTapes
  import opened SurrogateModels
  import opened SymbolicRows
  import opened SymbolicWorkers
  import opened SymbolicGates

  datatype SymGate = SymGate(gen: Key, param: Param)

  predicate SymGateOf(g: SymGate, n: nat, params: nat) { |g.gen| == n && n % 2 == 0 && ParamOk(g.param, params) }

  /** The gate once the angles are known. */
  function GateUnder(g: SymGate, lut: seq<real>): Gate { Gate(g.gen, CosUnder(g.param, lut), SinUnder(g.param, lut)) }

  lemma GateUnderOk(g: SymGate, n: nat, params: nat, lut: seq<real>)
    requires SymGateOf(g, n, params) && AngleTable(lut, params)
    ensures GateOf(GateUnder(g, lut), n)
  {
    match g.param
    case Symbolic(p) => assert Unitary(lut[2 * p], lut[2 * p + 1]);
    case Numeric(c, s) =>
  }

  /**
   What follows a gate: whether coefficients are simplified, how many terms there must be
   before empty rows are dropped, and into how many chunks a worker splits its coefficients.
   */
  datatype Truncation = Truncation(simplify: bool, minTerms: Option<nat>, chunks: nat)

  // ---- the symbolic operator ----------------------------------------------------

  class SymbolicOperator {
    const n: nat
    const params: nat
    const full: Key -> nat
    var heap: Heap
    var shards: seq<Shard>
    var frame: CliffordTableau

    ghost predicate Valid()
      reads `heap, `shards
    {
      n % 2 == 0 && ShardsOk(shards, n, full) && LiveShape(heap, LiveAll(shards))
    }

    /** The stored operator once the angles are known. */
    ghost function Stored(lut: seq<real>): Terms
      reads `heap, `shards
    {
      StoredUnder(heap, shards, full, lut)
    }

    ghost function EngineUnder(lut: seq<real>): Engine
      reads this, frame
    {
      Engine(frame.View(), Stored(lut))
    }

    /** An empty operator over at least one partition. */
    constructor (n: nat, params: nat, full: Key -> nat, nPartitions: nat)
      requires n % 2 == 0
      ensures Valid() && frame.Shape(n) && fresh(frame) && this.n == n && this.params == params && this.full == full
      ensures |shards| == (if nPartitions < 1 then 1 else nPartitions)
      ensures forall lut {:trigger EngineUnder(lut)} :: EngineUnder(lut) == Engine(IdentityFrame(n), map[])
    {
      hide LiveShape, StoredUnder, IdentityRows, ShardsOk, LiveAll;
      this.n, this.params, this.full := n, params, full;
      heap := [];
      shards := seq(if nPartitions < 1 then 1 else nPartitions, d => Shard([], []));
      frame := new CliffordTableau(n);
      new;
      NoRows(shards, n, full);
      forall lut ensures StoredUnder(heap, shards, full, lut) == map[] {
        NothingStored(heap, shards, full, lut);
      }
    }

    /** One worker's scan: its own rows into its own outbox. */
    method ScanOne(kind: BasisKind, gen: Key, sign: real, x: Param, d: nat, ghost boxes: seq<seq<seq<Message>>>)
        returns (out: seq<seq<Message>>)
      requires |gen| == n && n % 2 == 0 && IsSign(sign) && ParamOk(x, params) && ShardsOk(shards, n, full)
        && d < |shards| == |boxes|
      requires LiveShape(heap, LiveAll(shards) + LiveBoxes(boxes)) && LiveOut(boxes[d]) == multiset{}
      modifies `heap, `shards
      ensures old(heap) <= heap && |shards| == |old(shards)| && shards == old(shards)[d := shards[d]]
        && ShardsOk(shards, n, full)
      ensures |out| == |shards| && AllBound(out, n, full)
        && LiveShape(heap, LiveAll(shards) + LiveBoxes(boxes[d := out]))
      ensures forall lut {:trigger ScannedUnder(kind, gen, sign, x, full, Scan(old(heap), old(shards)[d], []),
        Scan(heap, shards[d], out), lut)} ::
        AngleTable(lut, params) ==>
          ScannedUnder(kind, gen, sign, x, full, Scan(old(heap), old(shards)[d], []), Scan(heap, shards[d], out), lut)
    {
      hide LiveShape, AllBound, ScannedUnder, ShardOk, AngleTable, ParamOk, LiveAll, LiveBoxes, LiveOut, LiveScan,
        Others, ShardsOk;
      ShardFacts(shards, d, n, full);
      ScannedLive(shards, boxes, d, Scan(heap, shards[d], []));
      var w := ScanShard(kind, gen, sign, x, full, heap, shards[d], |shards|, params,
        Others(shards, d) + LiveBoxes(boxes));
      ScannedLive(shards, boxes, d, w);
      SameKeysOk(shards, d, w.shard, n, full);
      heap, shards, out := w.heap, shards[d := w.shard], w.out;
    }

    /** Every partition scans, in any order of the workers. */
    method ScanPhase(kind: BasisKind, gen: Key, sign: real, x: Param, order: seq<nat>)
        returns (boxes: seq<seq<seq<Message>>>)
      requires Valid() && |gen| == n && IsSign(sign) && ParamOk(x, params) && Permutation(order, |shards|)
      modifies `heap, `shards
      ensures old(heap) <= heap && |shards| == |old(shards)| && ShardsOk(shards, n, full)
      ensures SquareBoxes(boxes, |shards|) && LiveShape(heap, LiveAll(shards) + LiveBoxes(boxes))
      ensures forall i :: 0 <= i < |boxes| ==> AllBound(boxes[i], n, full)
      ensures forall lut {:trigger ScanStage(kind, gen, sign, x, full, old(heap), old(shards), heap, shards, boxes,
        order, lut)} ::
        AngleTable(lut, params) ==>
          ScanStage(kind, gen, sign, x, full, old(heap), old(shards), heap, shards, boxes, order, lut)
    {
      hide LiveShape, AllBound, ScannedUnder, ScanStage, AngleTable, ParamOk, Grounded, BoxedIn, LiveAll, LiveBoxes,
        LiveOut, ShardsOk;
      ghost var h0, shards0, s := heap, shards, |shards|;
      boxes := EmptyOutboxes(|shards|);
      SentNothing(boxes, n, full);
      NoneAdded(LiveAll(shards), LiveBoxes(boxes));
      LiveIsGrounded(heap, shards, LiveBoxes(boxes));
      var i: nat := 0;
      forall lut ensures ScanStage(kind, gen, sign, x, full, h0, shards0, heap, shards, boxes, order[..i], lut) {
        ScanStageBegins(kind, gen, sign, x, full, heap, shards, boxes, lut);
        assert order[..i] == [];
      }
      while i < |order|
        invariant i <= |order| && |shards| == s && SquareBoxes(boxes, s) && h0 <= heap && ShardsOk(shards, n, full)
        invariant LiveShape(heap, LiveAll(shards) + LiveBoxes(boxes))
        invariant forall j :: 0 <= j < s ==> AllBound(boxes[j], n, full)
        invariant forall d ::
          0 <= d < s && d !in order[..i] ==> shards[d] == shards0[d] && LiveOut(boxes[d]) == multiset{}
        invariant forall lut {:trigger ScanStage(kind, gen, sign, x, full, h0, shards0, heap, shards, boxes,
          order[..i], lut)} ::
          AngleTable(lut, params) ==>
            ScanStage(kind, gen, sign, x, full, h0, shards0, heap, shards, boxes, order[..i], lut)
      {
        var d := order[i];
        assert d in order && order[..i + 1] == order[..i] + [d];
        ghost var h, before, sent, done, next := heap, shards, boxes, order[..i], order[..i + 1];
        LiveIsGrounded(heap, shards, LiveBoxes(boxes));
        LiveIsBoxed(heap, LiveAll(shards), boxes);
        var out := ScanOne(kind, gen, sign, x, d, boxes);
        boxes := boxes[d := out];
        LiveHeapOk(heap, LiveAll(shards) + LiveBoxes(boxes));
        forall lut | AngleTable(lut, params)
          ensures ScanStage(kind, gen, sign, x, full, h0, shards0, heap, shards, boxes, next, lut)
        {
          assert ScanStage(kind, gen, sign, x, full, h0, shards0, h, before, sent, done, lut);
          assert ScannedUnder(kind, gen, sign, x, full, Scan(h, before[d], []), Scan(heap, shards[d], out), lut);
          ScanStageNext(kind, gen, sign, x, full, h0, shards0, h, before, sent, done, d, Scan(heap, shards[d], out),
            lut);
        }
        i := i + 1;
      }
      assert order[..i] == order;
    }

    /** One worker folds its inbox in. `waiting` is what is still on its way. */
    method AbsorbOne(inbox: seq<Message>, d: nat, ghost waiting: seq<seq<Message>>)
      requires ShardsOk(shards, n, full) && d < |shards| == |waiting| && waiting[d] == inbox
        && BoundFor(inbox, n, full, |shards|, d)
      requires LiveShape(heap, LiveAll(shards) + LiveOut(waiting))
      modifies `heap, `shards
      ensures old(heap) <= heap && |shards| == |old(shards)| && shards == old(shards)[d := shards[d]]
        && ShardsOk(shards, n, full)
      ensures LiveShape(heap, LiveAll(shards) + LiveOut(waiting[d := []]))
      ensures forall lut {:trigger FoldedUnder(Rows(old(heap), old(shards)[d]), inbox, Rows(heap, shards[d]), lut)} ::
        FoldedUnder(Rows(old(heap), old(shards)[d]), inbox, Rows(heap, shards[d]), lut)
    {
      hide LiveShape, FoldedUnder, ShardOk, LiveAll, LiveOut, Others, BoundFor, Carried;
      FoldedLive(shards, waiting, d, shards[d]);
      assert ShardOk(shards[d], n, full, |shards|, d);
      var r := AbsorbShard(heap, shards[d], inbox, n, full, |shards|, d, Others(shards, d) + LiveOut(waiting[d := []]));
      FoldedLive(shards, waiting, d, r.shard);
      heap, shards := r.heap, shards[d := r.shard];
    }

    /** Every partition folds in everything addressed to it, in any order of the workers. */
    method AbsorbExchange(boxes: seq<seq<seq<Message>>>, order: seq<nat>)
      requires ShardsOk(shards, n, full) && SquareBoxes(boxes, |shards|) && Permutation(order, |shards|)
      requires LiveShape(heap, LiveAll(shards) + LiveBoxes(boxes))
        && forall i :: 0 <= i < |boxes| ==> AllBound(boxes[i], n, full)
      modifies `heap, `shards
      ensures old(heap) <= heap && |shards| == |old(shards)| && ShardsOk(shards, n, full)
        && LiveShape(heap, LiveAll(shards))
      ensures forall lut {:trigger FoldStage(old(heap), old(shards), Deliveries(boxes, |boxes|), heap, shards, order,
        lut)} ::
        FoldStage(old(heap), old(shards), Deliveries(boxes, |boxes|), heap, shards, order, lut)
    {
      hide LiveShape, AllBound, FoldedUnder, FoldStage, Grounded, BoxesGrounded, LiveAll, LiveBoxes, LiveOut, ShardsOk,
        Delivered, BoundFor;
      ghost var h0, shards0, s := heap, shards, |shards|;
      var inboxes := Deliveries(boxes, |boxes|);
      ghost var waiting := inboxes;
      assert LiveOut(inboxes) == LiveBoxes(boxes) by {
        DeliveredAll(boxes, |boxes|);
        assert boxes[..|boxes|] == boxes;
      }
      LiveIsGrounded(heap, shards, LiveOut(inboxes));
      InboxesGrounded(heap, LiveAll(shards), inboxes);
      var i: nat := 0;
      forall lut ensures FoldStage(h0, shards0, inboxes, heap, shards, order[..i], lut) {
        FoldStageBegins(heap, shards, inboxes, lut);
        assert order[..i] == [];
      }
      while i < |order|
        invariant i <= |order| && |shards| == |waiting| == s && h0 <= heap && ShardsOk(shards, n, full)
        invariant LiveShape(heap, LiveAll(shards) + LiveOut(waiting))
        invariant forall d ::
          0 <= d < s ==>
            if d in order[..i] then waiting[d] == [] else shards[d] == shards0[d] && waiting[d] == inboxes[d]
        invariant forall lut {:trigger FoldStage(h0, shards0, inboxes, heap, shards, order[..i], lut)} ::
          FoldStage(h0, shards0, inboxes, heap, shards, order[..i], lut)
      {
        var d := order[i];
        assert d in order && order[..i + 1] == order[..i] + [d] && d !in order[..i];
        ghost var h, before, done, next := heap, shards, order[..i], order[..i + 1];
        LiveIsGrounded(heap, shards, LiveOut(waiting));
        DeliveredBound(boxes, d, |boxes|, n, full);
        AbsorbOne(inboxes[d], d, waiting);
        waiting := waiting[d := []];
        LiveHeapOk(heap, LiveAll(shards) + LiveOut(waiting));
        forall lut ensures FoldStage(h0, shards0, inboxes, heap, shards, next, lut) {
          assert FoldStage(h0, shards0, inboxes, h, before, done, lut);
          assert FoldedUnder(Rows(h, before[d]), inboxes[d], Rows(heap, shards[d]), lut);
          FoldStageNext(h0, shards0, inboxes, h, before, done, d, Rows(heap, shards[d]), lut);
        }
        i := i + 1;
      }
      assert order[..i] == order;
      NothingWaits(waiting);
      NoneAdded(LiveAll(shards), LiveOut(waiting));
    }

    /** A rotation of the stored rows: under every table of angles it is the pair rule. */
    method Rotate(kind: BasisKind, gen: Key, sign: real, x: Param, order1: seq<nat>, order2: seq<nat>)
      requires Valid() && |gen| == n && IsSign(sign) && ParamOk(x, params) && Permutation(order1, |shards|)
        && Permutation(order2, |shards|)
      modifies `heap, `shards
      ensures Valid() && |shards| == |old(shards)|
      ensures forall lut {:trigger PairedUnder(kind, TurnUnder(gen, sign, x, lut), full, old(heap), old(shards), heap,
        shards, lut)} ::
        AngleTable(lut, params) ==>
          PairedUnder(kind, TurnUnder(gen, sign, x, lut), full, old(heap), old(shards), heap, shards, lut)
    {
      hide LiveShape, AllBound, FoldStage, ScanStage, LiveAll, LiveBoxes, ShardsOk, PairedUnder, AngleTable, ParamOk,
        TurnUnder, Deliveries;
      ghost var h0, shards0 := heap, shards;
      var boxes := ScanPhase(kind, gen, sign, x, order1);
      ghost var h1, shards1 := heap, shards;
      AbsorbExchange(boxes, order2);
      forall lut | AngleTable(lut, params)
        ensures PairedUnder(kind, TurnUnder(gen, sign, x, lut), full, h0, shards0, heap, shards, lut)
      {
        assert ScanStage(kind, gen, sign, x, full, h0, shards0, h1, shards1, boxes, order1, lut);
        assert FoldStage(h1, shards1, Deliveries(boxes, |boxes|), heap, shards, order2, lut);
        RoundsArePairStep(kind, gen, sign, x, full, params, h0, shards0, h1, shards1, boxes, heap, shards, order1,
          order2, lut);
      }
    }

    /** One worker scales its rows. */
    method ScaleOne(kind: BasisKind, gen: Key, factor: real, d: nat)
      requires |gen| == n && n % 2 == 0 && ShardsOk(shards, n, full) && d < |shards| && LiveShape(heap, LiveAll(shards))
      modifies `heap, `shards
      ensures old(heap) <= heap && |shards| == |old(shards)| && shards == old(shards)[d := shards[d]] && Valid()
      ensures forall lut {:trigger RescaledUnder(kind, gen, factor, Rows(old(heap), old(shards)[d]),
        Rows(heap, shards[d]), lut)} ::
        RescaledUnder(kind, gen, factor, Rows(old(heap), old(shards)[d]), Rows(heap, shards[d]), lut)
    {
      hide LiveShape, RescaledUnder, ShardOk, LiveAll, Others, ShardsOk;
      ShardFacts(shards, d, n, full);
      WorkerApart(shards, d, shards[d]);
      var r := ScaleShard(kind, gen, factor, heap, shards[d], Others(shards, d));
      WorkerApart(shards, d, r.shard);
      SameKeysOk(shards, d, r.shard, n, full);
      heap, shards := r.heap, shards[d := r.shard];
    }

    /** A gate of known angle with sine 0 scales what it anticommutes with. */
    method ScaleAll(kind: BasisKind, gen: Key, factor: real, order: seq<nat>)
      requires Valid() && |gen| == n && Permutation(order, |shards|)
      modifies `heap, `shards
      ensures Valid() && |shards| == |old(shards)|
      ensures forall lut {:trigger ScaledUnder(kind, gen, factor, full, old(heap), old(shards), heap, shards, lut)} ::
        ScaledUnder(kind, gen, factor, full, old(heap), old(shards), heap, shards, lut)
    {
      hide LiveShape, ScaleStage, RescaledUnder, ScaledUnder, Grounded, LiveAll, ShardsOk;
      ghost var h0, shards0, s := heap, shards, |shards|;
      AllGrounded(heap, shards);
      var i: nat := 0;
      forall lut ensures ScaleStage(kind, gen, factor, h0, shards0, heap, shards, order[..i], lut) {
        ScaleStageBegins(kind, gen, factor, heap, shards, lut);
        assert order[..i] == [];
      }
      while i < |order|
        invariant i <= |order| && |shards| == s && h0 <= heap && Valid()
        invariant forall d :: 0 <= d < s && d !in order[..i] ==> shards[d] == shards0[d]
        invariant forall lut {:trigger ScaleStage(kind, gen, factor, h0, shards0, heap, shards, order[..i], lut)} ::
          ScaleStage(kind, gen, factor, h0, shards0, heap, shards, order[..i], lut)
      {
        var d := order[i];
        assert d in order && order[..i + 1] == order[..i] + [d] && d !in order[..i];
        ghost var h, before, done, next := heap, shards, order[..i], order[..i + 1];
        AllGrounded(heap, shards);
        ScaleOne(kind, gen, factor, d);
        LiveHeapOk(heap, LiveAll(shards));
        forall lut ensures ScaleStage(kind, gen, factor, h0, shards0, heap, shards, next, lut) {
          assert ScaleStage(kind, gen, factor, h0, shards0, h, before, done, lut);
          assert RescaledUnder(kind, gen, factor, Rows(h, before[d]), Rows(heap, shards[d]), lut);
          ScaleStageNext(kind, gen, factor, h0, shards0, h, before, done, d, Rows(heap, shards[d]), lut);
        }
        i := i + 1;
      }
      assert order[..i] == order;
      forall lut ensures ScaledUnder(kind, gen, factor, full, h0, shards0, heap, shards, lut) {
        assert ScaleStage(kind, gen, factor, h0, shards0, heap, shards, order, lut);
        ScalesAreScaleStep(kind, gen, factor, full, h0, shards0, heap, shards, order, lut);
      }
    }

    /** The number of live terms, which no angle changes. */
    method Len() returns (len: nat)
      requires Valid()
      ensures forall lut {:trigger Stored(lut)} :: len == |Stored(lut)|
    {
      hide LiveShape, LiveAll, ShardsOk, StoredUnder;
      len := 0;
      for d := 0 to |shards|
        invariant len == RowsIn(shards[..d])
      {
        assert shards[..d + 1][..d] == shards[..d];
        len := len + |shards[d].keys|;
      }
      assert shards[..|shards|] == shards;
      forall lut ensures len == |Stored(lut)| {
        RowsInTerms(heap, shards, n, full, lut);
      }
    }

    /** One gate of the surrogate's loop: deferred, scaling, or branching. */
    method ApplyGate(kind: BasisKind, g: SymGate, order1: seq<nat>, order2: seq<nat>)
      requires SymGateOf(g, n, params) && frame.Shape(n) && Permutation(order1, |shards|)
        && Permutation(order2, |shards|)
      requires Valid()
      requires frame.Lawful(kind, n)
      modifies `heap, `shards, frame
      ensures frame.Shape(n) && |shards| == |old(shards)|
      ensures forall lut {:trigger Stored(lut)} ::
        AngleTable(lut, params) ==>
          RotatedUnder(kind, n, g, lut, Engine(old(frame.View()), old(Stored(lut))), Engine(frame.View(), Stored(lut)))
      ensures Valid()
      ensures frame.Lawful(kind, n)
    {
      hide LiveShape, LiveAll, ShardsOk, AngleTable, RotatedUnder, FrameOk, FrameShape, ParamOk, StoredUnder,
        PairedUnder, ScaledUnder, ComposeFrames, Applied,
        TurnUnder, Permutation;
      ghost var h0, shards0, f := heap, shards, frame.View();
      assert forall lut :: old(Stored(lut)) == StoredUnder(h0, shards0, full, lut);
      var len := Len();
      if len == 0 {
        forall lut | AngleTable(lut, params) ensures RotatedUnder(kind, n, g, lut, EngineUnder(lut), EngineUnder(lut)) {
          assert Stored(lut) == map[];
          EmptyRotates(kind, n, params, g, lut, f);
        }
        return;
      }
      if g.param.Numeric? {
        var fixed := Gate(g.gen, g.param.cos, g.param.sin);
        assert GateOf(fixed, n) by { FixedGateOk(g, n, params); }
        var step := CliffordTableau.ForRotation(kind, n, fixed);
        if step.Some? {
          frame.Compose(kind, n, step.value);
          forall lut | AngleTable(lut, params)
            ensures RotatedUnder(kind, n, g, lut, Engine(f, StoredUnder(h0, shards0, full, lut)), EngineUnder(lut))
          {
            StoredWidth(heap, shards, n, full, lut);
            DeferralRotates(kind, n, params, g, lut, f, StoredUnder(h0, shards0, full, lut));
          }
          return;
        }
      }
      var r := frame.ConjugateGenerator(kind, g.gen);
      if g.param.Numeric? && g.param.sin == 0.0 {
        ScaleAll(kind, r.image, g.param.cos, order1);
        forall lut | AngleTable(lut, params)
          ensures RotatedUnder(kind, n, g, lut, Engine(f, StoredUnder(h0, shards0, full, lut)), EngineUnder(lut))
        {
          assert ScaledUnder(kind, r.image, g.param.cos, full, h0, shards0, heap, shards, lut);
          StoredWidth(heap, shards, n, full, lut);
          ScalingRotates(kind, n, params, g, lut, f, full, h0, shards0, heap, shards, r);
        }
      } else {
        Rotate(kind, r.image, r.sign, g.param, order1, order2);
        forall lut | AngleTable(lut, params)
          ensures RotatedUnder(kind, n, g, lut, Engine(f, StoredUnder(h0, shards0, full, lut)), EngineUnder(lut))
        {
          assert PairedUnder(kind, TurnUnder(r.image, r.sign, g.param, lut), full, h0, shards0, heap, shards, lut);
          StoredWidth(heap, shards, n, full, lut);
          PairingRotates(kind, n, params, g, lut, f, full, h0, shards0, heap, shards, r);
        }
      }
    }

    /** One worker simplifies its coefficients. */
    method SimplifyOne(chunks: nat, d: nat)
      requires Valid() && d < |shards|
      modifies `heap, `shards
      ensures Valid() && |shards| == |old(shards)|
        && forall lut {:trigger Stored(lut)} :: Stored(lut) == old(Stored(lut))
    {
      hide LiveShape, ShardOk, LiveAll, Others, ShardsOk, StoredUnder, Grounded;
      ghost var h, before := heap, shards;
      AllGrounded(heap, shards);
      ShardFacts(shards, d, n, full);
      WorkerApart(shards, d, shards[d]);
      var r := SimplifyShard(heap, shards[d], chunks, Others(shards, d));
      WorkerApart(shards, d, r.shard);
      SameKeysOk(shards, d, r.shard, n, full);
      heap, shards := r.heap, shards[d := r.shard];
      LiveHeapOk(heap, LiveAll(shards));
      forall lut ensures StoredUnder(heap, shards, full, lut) == StoredUnder(h, before, full, lut) {
        OneSimplified(h, before, full, d, r, lut);
      }
    }

    /** The simplifying pass: every worker over its own coefficients, in any order of the workers. */
    method SimplifyAll(chunks: nat, order: seq<nat>)
      requires Valid() && Permutation(order, |shards|)
      modifies `heap, `shards
      ensures Valid() && |shards| == |old(shards)|
        && forall lut {:trigger Stored(lut)} :: Stored(lut) == old(Stored(lut))
    {
      hide LiveShape, LiveAll, ShardsOk, StoredUnder;
      for i := 0 to |order|
        invariant Valid() && |shards| == |old(shards)|
        invariant forall lut {:trigger Stored(lut)} :: Stored(lut) == old(Stored(lut))
      {
        assert order[i] in order;
        SimplifyOne(chunks, order[i]);
      }
    }

    /** Drops the rows that have lost their coefficient. */
    method DropEmptyRows()
      requires Valid()
      modifies `shards
      ensures Valid() && |shards| == |old(shards)|
        && forall lut {:trigger Stored(lut)} :: SameCoefs(old(Stored(lut)), Stored(lut))
      ensures NoneEmpty(shards)
    {
      hide LiveShape, LiveAll, ShardsOk, StoredUnder, NonEmpty, SameCoefs, NoneEmpty;
      ghost var before := shards;
      Aligned(shards, n, full);
      for d := 0 to |shards|
        invariant |shards| == |before|
        invariant forall i :: 0 <= i < |shards| ==> shards[i] == if i < d then NonEmpty(before[i]) else before[i]
      {
        var left := DropEmpty(shards[d]);
        shards := shards[d := left];
      }
      assert shards == WithoutEmpty(before);
      DroppedStillLive(heap, before);
      WithoutEmptyHasNone(before);
      assert ShardsOk(shards, n, full) by { DroppingKeeps(heap, before, n, full, []); }
      forall lut ensures SameCoefs(StoredUnder(heap, before, full, lut), StoredUnder(heap, shards, full, lut)) {
        DroppingKeeps(heap, before, n, full, lut);
      }
    }

    /**
     The truncation pass with no limits set: no coefficient of the operator changes, and above
     the floor no empty row stays.
     */
    method Truncate(t: Truncation, order: seq<nat>)
      requires Valid() && Permutation(order, |shards|)
      modifies `heap, `shards
      ensures Valid() && |shards| == |old(shards)|
      ensures forall lut {:trigger Stored(lut)} :: PassedOver(old(Stored(lut)), t.minTerms, Stored(lut), shards)
    {
      hide LiveShape, LiveAll, ShardsOk, StoredUnder, NoneEmpty, SameCoefs;
      ghost var h0, shards0 := heap, shards;
      var before := Len();
      assert forall lut :: Stored(lut) == StoredUnder(h0, shards0, full, lut) && before == |Stored(lut)|;
      if t.simplify {
        SimplifyAll(t.chunks, order);
      }
      assert forall lut :: Stored(lut) == StoredUnder(h0, shards0, full, lut);
      SameAsItself();
      var floor := if t.minTerms.Some? then t.minTerms.value else 0;
      if before >= floor {
        DropEmptyRows();
      }
      forall lut ensures PassedOver(StoredUnder(h0, shards0, full, lut), t.minTerms, Stored(lut), shards) {
        assert before == |StoredUnder(h0, shards0, full, lut)|;
      }
    }

    /** Adds a term of known coefficient to the partition that owns its key. */
    method AddTerm(key: Key, c: real)
      requires |key| == n
      requires Valid()
      modifies `heap, `shards
      ensures forall lut {:trigger Stored(lut)} :: Stored(lut) == Plussed(old(Stored(lut)), key, c)
      ensures Valid() && |shards| == |old(shards)|
    {
      hide LiveShape, LiveAll, ShardsOk, ShardOk, StoredUnder, FoldedUnder, Others, Carried, Grounded;
      ghost var h, before := heap, shards;
      AllGrounded(heap, shards);
      SomeShards(shards, n, full);
      var hash := full(key);
      var d := PartitionFromHash(hash, |shards|);
      var msg := Message(key, hash, Some(|heap|));
      ShardFacts(shards, d, n, full);
      SeedLive(heap, shards, d, msg, c);
      var r := AbsorbShard(heap + [Scalar(c)], shards[d], [msg], n, full, |shards|, d, Others(shards, d));
      WorkerApart(shards, d, r.shard);
      heap, shards := r.heap, shards[d := r.shard];
      assert ShardsOk(shards, n, full) by { OneReplaced(before, d, r.shard, n, full); }
      LiveHeapOk(heap, LiveAll(shards));
      forall lut ensures StoredUnder(heap, shards, full, lut) == Plussed(StoredUnder(h, before, full, lut), key, c) {
        assert FoldedUnder(Rows(h + [Scalar(c)], before[d]), [msg], r, lut);
        SeedUnder(h, before, n, full, d, msg, c, r, lut);
      }
    }

    /** Seeds the operator with an observable. */
    method AddObservable(observable: seq<(Key, real)>)
      requires forall i :: 0 <= i < |observable| ==> |observable[i].0| == n
      requires Valid() && forall lut {:trigger Stored(lut)} :: Stored(lut) == map[]
      modifies `heap, `shards
      ensures forall lut {:trigger Stored(lut)} :: Stored(lut) == Observed(observable)
      ensures Valid() && |shards| == |old(shards)|
    {
      hide LiveShape, LiveAll, ShardsOk, StoredUnder;
      var i: nat := 0;
      while i < |observable|
        invariant i <= |observable| && Valid() && |shards| == |old(shards)|
        invariant forall lut {:trigger Stored(lut)} :: Stored(lut) == Observed(observable[..i])
      {
        assert observable[..i + 1][..i] == observable[..i];
        AddTerm(observable[i].0, observable[i].1);
        i := i + 1;
      }
      assert observable[..i] == observable;
    }

    /** One gate and the truncation pass behind it: under every table of angles an exact rotation. */
    method Step(kind: BasisKind, g: SymGate, t: Truncation, order1: seq<nat>, order2: seq<nat>, order3: seq<nat>)
      requires SymGateOf(g, n, params) && frame.Shape(n) && Permutation(order1, |shards|)
        && Permutation(order2, |shards|) && Permutation(order3, |shards|)
      requires Valid()
      requires frame.Lawful(kind, n)
      modifies `heap, `shards, frame
      ensures frame.Shape(n) && |shards| == |old(shards)|
      ensures forall lut {:trigger Stored(lut)} ::
        AngleTable(lut, params) ==>
          RotatedUnder(kind, n, g, lut, Engine(old(frame.View()), old(Stored(lut))), Engine(frame.View(), Stored(lut)))
      ensures Valid()
      ensures frame.Lawful(kind, n)
    {
      hide LiveShape, LiveAll, ShardsOk, AngleTable, RotatedUnder, FrameOk, FrameShape, StoredUnder, SameCoefs,
        Permutation, SymGateOf;
      ghost var h0, shards0, f := heap, shards, frame.View();
      ApplyGate(kind, g, order1, order2);
      ghost var h1, shards1 := heap, shards;
      assert forall lut :: Stored(lut) == StoredUnder(h1, shards1, full, lut);
      Truncate(t, order3);
      forall lut | AngleTable(lut, params)
        ensures RotatedUnder(kind, n, g, lut, Engine(f, StoredUnder(h0, shards0, full, lut)),
          Engine(frame.View(), Stored(lut)))
      {
        StoredWidth(heap, shards, n, full, lut);
        assert PassedOver(StoredUnder(h1, shards1, full, lut), t.minTerms, Stored(lut), shards);
        SameCoefsRotate(kind, n, g, lut, Engine(f, StoredUnder(h0, shards0, full, lut)),
          Engine(frame.View(), StoredUnder(h1, shards1, full, lut)), Stored(lut));
      }
    }

    /** The gate loop: under every table of angles what is read out is the exact evolution. */
    method Propagate(kind: BasisKind, gates: seq<SymGate>, passes: seq<Truncation>, orders: seq<seq<nat>>,
                     ghost start: Terms)
      requires (forall i :: 0 <= i < |gates| ==> SymGateOf(gates[i], n, params)) && TermsOf(start, n)
      requires |passes| == |gates| && |orders| == 3 * |gates|
        && forall i :: 0 <= i < |orders| ==> Permutation(orders[i], |shards|)
      requires (forall lut {:trigger Stored(lut)} :: Stored(lut) == start) && frame.View() == IdentityFrame(n)
        && frame.Shape(n)
      requires Valid()
      modifies `heap, `shards, frame
      ensures frame.Shape(n)
      ensures forall lut {:trigger ExactUnder(kind, n, gates, lut, start, EngineUnder(lut))} ::
        AngleTable(lut, params) ==> ExactUnder(kind, n, gates, lut, start, EngineUnder(lut))
      ensures Valid()
      ensures frame.Lawful(kind, n)
    {
      hide LiveShape, LiveAll, ShardsOk, AngleTable, RotatedUnder, ExactUnder, FrameOk, FrameShape, IdentityRows,
        SymGateOf, StoredUnder, Permutation;
      assert n % 2 == 0;
      assert FrameOk(kind, n, frame.View()) by { IdentityFrameOk(kind, n); }
      assert gates[..0] == [];
      forall lut | AngleTable(lut, params) ensures ExactUnder(kind, n, [], lut, start, EngineUnder(lut)) {
        assert EngineUnder(lut) == Engine(IdentityFrame(n), start);
        ExactBegins(kind, n, lut, start);
      }
      var i: nat := 0;
      while i < |gates|
        invariant i <= |gates| && Valid() && frame.Shape(n) && |shards| == |old(shards)|
        invariant frame.Lawful(kind, n)
        invariant forall lut {:trigger ExactUnder(kind, n, gates[..i], lut, start, EngineUnder(lut))} ::
          AngleTable(lut, params) ==> ExactUnder(kind, n, gates[..i], lut, start, EngineUnder(lut))
      {
        ghost var h, before, f, done, next := heap, shards, frame.View(), gates[..i], gates[..i + 1];
        forall lut | AngleTable(lut, params)
          ensures ExactUnder(kind, n, done, lut, start, Engine(f, StoredUnder(h, before, full, lut)))
        {
          assert EngineUnder(lut) == Engine(f, StoredUnder(h, before, full, lut));
        }
        Step(kind, gates[i], passes[i], orders[3 * i], orders[3 * i + 1], orders[3 * i + 2]);
        forall lut | AngleTable(lut, params) ensures ExactUnder(kind, n, next, lut, start, EngineUnder(lut)) {
          assert RotatedUnder(kind, n, gates[i], lut, Engine(f, StoredUnder(h, before, full, lut)),
            Engine(frame.View(), Stored(lut)));
          ExactContinues(kind, n, gates, i, params, lut, start, Engine(f, StoredUnder(h, before, full, lut)),
            EngineUnder(lut));
        }
        i := i + 1;
      }
      assert gates[..i] == gates;
    }

    /**
     Compiles every partition to a tape of its own and merges the tapes. For every table of
     angles the model is worth the expectation value of the operator. The rows give their
     coefficients up.
     */
    method Compile(kind: BasisKind, state: seq<bool>) returns (model: Model)
      requires frame.Shape(n)
      requires Valid()
      requires frame.Lawful(kind, n)
      modifies `shards
      ensures ModelOk(model)
      ensures |shards| == |old(shards)| && forall d :: 0 <= d < |shards| ==> GaveUp(old(shards)[d], shards[d])
      ensures forall lut {:trigger ModelValue(model, lut)} ::
        ModelValue(model, lut) == RunLaws.Expectation(kind, old(EngineUnder(lut)), state)
    {
      hide TapeOk, TapeValues, LiveShape, LiveAll, Others, ShardsOk, ShardOk, FrameOk, ModelValue, SumRows,
        RunLaws.Expectation, StoredUnder, RootsFit, TermsSum;
      ghost var before, f := shards, frame.View();
      var tapes: seq<Tape>, parts: seq<seq<SurrogateTerm>> := [], [];
      for d := 0 to |shards|
        invariant |shards| == |before| && |tapes| == |parts| == d
        invariant forall i ::
          0 <= i < |shards| ==> if i < d then GaveUp(before[i], shards[i]) else shards[i] == before[i]
        invariant forall i :: 0 <= i < d ==> TapeOk(tapes[i]) && RootsFit(parts[i], |tapes[i]|)
        invariant forall i, lut {:trigger PartCompiled(kind, f, heap, before, i, tapes, parts, state, lut)} ::
          0 <= i < d ==> PartCompiled(kind, f, heap, before, i, tapes, parts, state, lut)
      {
        ShardFacts(before, d, n, full);
        WorkerApart(before, d, before[d]);
        ghost var tapes0, parts0 := tapes, parts;
        var ops, terms, left := CompileShard(kind, heap, shards[d], frame, n, state, Others(before, d));
        shards := shards[d := left];
        tapes, parts := tapes + [ops], parts + [terms];
        forall i, lut | 0 <= i < d + 1 ensures PartCompiled(kind, f, heap, before, i, tapes, parts, state, lut) {
          if i < d {
            assert PartCompiled(kind, f, heap, before, i, tapes0, parts0, state, lut);
          } else {
            assert TermsSum(TapeValues(ops, lut), terms)
              == SumRows(kind, f, PartUnder(heap, before[d], lut), |before[d].keys|, state);
          }
        }
      }
      model := Merge(kind, n, f, heap, before, full, tapes, parts, state);
    }
  }

  // ---- setting out --------------------------------------------------------------

  lemma NoRows(shards: seq<Shard>, n: nat, full: Key -> nat)
    requires |shards| > 0 && forall d :: 0 <= d < |shards| ==> shards[d] == Shard([], [])
    ensures ShardsOk(shards, n, full) && LiveShape([], LiveAll(shards))
  {
    TotalNone(shards, HeldBy);
  }

  lemma NothingStored(h: Heap, shards: seq<Shard>, full: Key -> nat, lut: seq<real>)
    requires |shards| > 0 && forall d :: 0 <= d < |shards| ==> shards[d] == Shard([], [])
    ensures StoredUnder(h, shards, full, lut) == map[]
  {
  }

  lemma ShardFacts(shards: seq<Shard>, d: nat, n: nat, full: Key -> nat)
    requires ShardsOk(shards, n, full) && d < |shards|
    ensures ShardOk(shards[d], n, full, |shards|, d) && Wide(shards[d], n) && Distinct(shards[d].keys)
  {
  }

  lemma SameKeysOk(shards: seq<Shard>, d: nat, s: Shard, n: nat, full: Key -> nat)
    requires ShardsOk(shards, n, full) && d < |shards| && s.keys == shards[d].keys && |s.coeffs| == |s.keys|
    ensures ShardsOk(shards[d := s], n, full)
  {
    hide Distinct;
    var after := shards[d := s];
    forall i | 0 <= i < |after| ensures ShardOk(after[i], n, full, |after|, i) {
      assert ShardOk(shards[i], n, full, |shards|, i);
    }
  }

  function EmptyOutboxes(s: nat): (boxes: seq<seq<seq<Message>>>)
    ensures SquareBoxes(boxes, s) && forall i, d :: 0 <= i < s && 0 <= d < s ==> boxes[i][d] == []
  {
    seq(s, i => seq(s, d => []))
  }

  lemma SentNothing(boxes: seq<seq<seq<Message>>>, n: nat, full: Key -> nat)
    requires SquareBoxes(boxes, |boxes|) && forall i, d :: 0 <= i < |boxes| && 0 <= d < |boxes| ==> boxes[i][d] == []
    ensures LiveBoxes(boxes) == multiset{}
    ensures forall i :: 0 <= i < |boxes| ==> LiveOut(boxes[i]) == multiset{} && AllBound(boxes[i], n, full)
  {
    forall i | 0 <= i < |boxes| ensures LiveOut(boxes[i]) == multiset{} && AllBound(boxes[i], n, full) {
      NothingCarried();
      TotalNone(boxes[i], Carried);
      NothingBound(boxes[i], n, full);
    }
    TotalNone(boxes, LiveOut);
  }

  lemma NothingWaits(waiting: seq<seq<Message>>)
    requires forall d :: 0 <= d < |waiting| ==> waiting[d] == []
    ensures LiveOut(waiting) == multiset{}
  {
    NothingCarried();
    TotalNone(waiting, Carried);
  }

  lemma AllGrounded(h: Heap, shards: seq<Shard>)
    requires LiveShape(h, LiveAll(shards))
    ensures Grounded(h, shards)
  {
    hide LiveShape, LiveAll;
    NoneAdded(LiveAll(shards), multiset{});
    LiveIsGrounded(h, shards, multiset{});
  }

  lemma Aligned(shards: seq<Shard>, n: nat, full: Key -> nat)
    requires ShardsOk(shards, n, full)
    ensures forall d :: 0 <= d < |shards| ==> |shards[d].coeffs| == |shards[d].keys|
  {
    forall d | 0 <= d < |shards| ensures |shards[d].coeffs| == |shards[d].keys| {
      ShardFacts(shards, d, n, full);
    }
  }

  lemma StoredWidth(h: Heap, shards: seq<Shard>, n: nat, full: Key -> nat, lut: seq<real>)
    requires ShardsOk(shards, n, full)
    ensures TermsOf(StoredUnder(h, shards, full, lut), n)
  {
    PartsAreOk(h, shards, n, full, lut);
  }

  lemma OneReplaced(shards: seq<Shard>, d: nat, s: Shard, n: nat, full: Key -> nat)
    requires ShardsOk(shards, n, full) && d < |shards| && ShardOk(s, n, full, |shards|, d)
    ensures ShardsOk(shards[d := s], n, full)
  {
    hide ShardOk;
  }

  // ---- truncation that loses nothing --------------------------------------------

  /** No coefficient has changed, and above the floor no empty row has stayed. */
  ghost predicate PassedOver(m: Terms, minTerms: Option<nat>, m': Terms, shards: seq<Shard>)
  {
    SameCoefs(m, m') && if minTerms.None? || |m| >= minTerms.value then NoneEmpty(shards) else m' == m
  }

  lemma SameAsItself()
    ensures forall m: Terms {:trigger SameCoefs(m, m)} :: SameCoefs(m, m)
  {
  }

  lemma OneSimplified(h: Heap, shards: seq<Shard>, full: Key -> nat, d: nat, r: Rows, lut: seq<real>)
    requires Grounded(h, shards) && HeapOk(r.heap) && h <= r.heap && d < |shards|
      && PartUnder(r.heap, r.shard, lut) == PartUnder(h, shards[d], lut)
    ensures StoredUnder(r.heap, shards[d := r.shard], full, lut) == StoredUnder(h, shards, full, lut)
  {
    hide Global, PartUnder;
    StoredKept(h, r.heap, shards, full, lut);
    var after := shards[d := r.shard];
    forall i | 0 <= i < |after| ensures PartsUnder(r.heap, after, lut)[i] == PartsUnder(h, shards, lut)[i] {
      assert PartsUnder(r.heap, shards, lut)[i] == PartsUnder(h, shards, lut)[i];
    }
    assert PartsUnder(r.heap, after, lut) == PartsUnder(h, shards, lut);
  }

  lemma DroppedStillLive(h: Heap, shards: seq<Shard>)
    requires LiveShape(h, LiveAll(shards)) && forall d :: 0 <= d < |shards| ==> |shards[d].coeffs| == |shards[d].keys|
    ensures LiveShape(h, LiveAll(WithoutEmpty(shards)))
  {
    hide LiveShape, LiveAll;
    var less := LiveAll(WithoutEmpty(shards));
    forall c: Coeff | c.Some? ensures less[c] <= LiveAll(shards)[c] {
      DroppedLive(shards, c);
    }
    LiveLess(h, LiveAll(shards), less);
  }

  // ---- what a gate does to what is read out -------------------------------------

  /** What is read out has been rotated by the gate. */
  ghost predicate RotatedUnder(kind: BasisKind, n: nat, g: SymGate, lut: seq<real>, e: Engine, e': Engine)
  {
    && |g.gen| == n && n % 2 == 0 && FrameShape(n, e.frame) && FrameShape(n, e'.frame) && TermsOf(e.terms, n)
      && TermsOf(e'.terms, n)
    && forall k: Key {:trigger ReadFun(kind, e')(k)} | |k| == n ::
         ReadFun(kind, e')(k) == Rotated(kind, PlainTurn(GateUnder(g, lut)), ReadFun(kind, e), k)
  }

  lemma FixedGateOk(g: SymGate, n: nat, params: nat)
    requires SymGateOf(g, n, params) && g.param.Numeric?
    ensures GateOf(Gate(g.gen, g.param.cos, g.param.sin), n)
  {
  }

  lemma EmptyRotates(kind: BasisKind, n: nat, params: nat, g: SymGate, lut: seq<real>, f: Frame)
    requires SymGateOf(g, n, params) && AngleTable(lut, params) && FrameShape(n, f)
    ensures RotatedUnder(kind, n, g, lut, Engine(f, map[]), Engine(f, map[]))
  {
    hide ReadCoef, AngleTable, ParamOk, Rotated;
    GateUnderOk(g, n, params, lut);
    var e := Engine(f, map[]);
    forall k: Key | |k| == n
      ensures ReadFun(kind, e)(k) == Rotated(kind, PlainTurn(GateUnder(g, lut)), ReadFun(kind, e), k)
    {
      EmptyIsExact(kind, n, e, GateUnder(g, lut), k);
    }
  }

  lemma DeferralRotates(kind: BasisKind, n: nat, params: nat, g: SymGate, lut: seq<real>, f: Frame, m: Terms)
    requires SymGateOf(g, n, params) && AngleTable(lut, params) && TermsOf(m, n)
    requires g.param.Numeric? && g.param.cos == 0.0 && IsSign(g.param.sin) && FrameShape(n, f)
    requires FrameOk(kind, n, f)
    ensures var f' := ComposeFrames(kind, f, RotationFrame(kind, g.gen, g.param.sin));
      RotatedUnder(kind, n, g, lut, Engine(f, m), Engine(f', m))
  {
    hide ReadCoef, AngleTable, ParamOk, Rotated, ComposeFrames, RotationRows, FrameOk;
    GateUnderOk(g, n, params, lut);
    var e := Engine(f, m);
    var e' := Engine(ComposeFrames(kind, f, RotationFrame(kind, g.gen, g.param.sin)), m);
    forall k: Key | |k| == n
      ensures ReadFun(kind, e')(k) == Rotated(kind, PlainTurn(GateUnder(g, lut)), ReadFun(kind, e), k)
    {
      DeferralIsExact(kind, n, e, GateUnder(g, lut), k);
    }
  }

  lemma ScalingRotates(kind: BasisKind, n: nat, params: nat, g: SymGate, lut: seq<real>, f: Frame, full: Key -> nat,
                       h0: Heap, shards0: seq<Shard>, h: Heap, shards: seq<Shard>, row: Row)
    requires SymGateOf(g, n, params) && AngleTable(lut, params) && g.param.Numeric? && g.param.sin == 0.0
      && FrameShape(n, f)
    requires row == Applied(kind, f.generator, g.gen) && TermsOf(StoredUnder(h, shards, full, lut), n)
    requires ScaledUnder(kind, row.image, g.param.cos, full, h0, shards0, h, shards, lut)
    requires FrameOk(kind, n, f)
    ensures RotatedUnder(kind, n, g, lut, Engine(f, StoredUnder(h0, shards0, full, lut)),
      Engine(f, StoredUnder(h, shards, full, lut)))
  {
    hide AngleTable, ParamOk, Rotated, Image, ScaleStep, StoredUnder, UndoesAll, HomRows, ReadCoef, Coef;
    var gate := GateUnder(g, lut);
    GateUnderOk(g, n, params, lut);
    var e, after := Engine(f, StoredUnder(h0, shards0, full, lut)), StoredUnder(h, shards, full, lut);
    var t := PulledBack(kind, f, gate);
    forall p: Key | |p| == |t.gen| ensures Coef(after, p) == Rotated(kind, t, CoefOf(e.terms), p) {
      ScaleStepIsRotation(kind, t, e.terms, p);
    }
    forall k: Key | |k| == n
      ensures ReadFun(kind, Engine(f, after))(k) == Rotated(kind, PlainTurn(gate), ReadFun(kind, e), k)
    {
      PullBackIsExact(kind, e, gate, after, k);
    }
  }

  lemma PairingRotates(kind: BasisKind, n: nat, params: nat, g: SymGate, lut: seq<real>, f: Frame, full: Key -> nat,
                       h0: Heap, shards0: seq<Shard>, h: Heap, shards: seq<Shard>, row: Row)
    requires SymGateOf(g, n, params) && AngleTable(lut, params) && FrameShape(n, f)
    requires row == Applied(kind, f.generator, g.gen) && TermsOf(StoredUnder(h, shards, full, lut), n)
    requires PairedUnder(kind, TurnUnder(row.image, row.sign, g.param, lut), full, h0, shards0, h, shards, lut)
    requires FrameOk(kind, n, f)
    ensures RotatedUnder(kind, n, g, lut, Engine(f, StoredUnder(h0, shards0, full, lut)),
      Engine(f, StoredUnder(h, shards, full, lut)))
  {
    hide AngleTable, ParamOk, Rotated, Image, PairStep, StoredUnder, UndoesAll, HomRows, ReadCoef, Coef;
    var gate := GateUnder(g, lut);
    GateUnderOk(g, n, params, lut);
    var e, after := Engine(f, StoredUnder(h0, shards0, full, lut)), StoredUnder(h, shards, full, lut);
    var t := PulledBack(kind, f, gate);
    forall p: Key | |p| == |t.gen| ensures Coef(after, p) == Rotated(kind, t, CoefOf(e.terms), p) {
      LosslessStep(kind, t, NoCutoff(), e.terms, p);
    }
    forall k: Key | |k| == n
      ensures ReadFun(kind, Engine(f, after))(k) == Rotated(kind, PlainTurn(gate), ReadFun(kind, e), k)
    {
      PullBackIsExact(kind, e, gate, after, k);
    }
  }

  /** Read-out sees coefficients only: rows worth nothing may come and go. */
  lemma SameCoefsRotate(kind: BasisKind, n: nat, g: SymGate, lut: seq<real>, e: Engine, e': Engine, m: Terms)
    requires RotatedUnder(kind, n, g, lut, e, e') && SameCoefs(e'.terms, m) && TermsOf(m, n)
    ensures RotatedUnder(kind, n, g, lut, e, Engine(e'.frame, m))
  {
    hide Coef, Image, Rotated;
    forall k: Key | |k| == n ensures ReadFun(kind, Engine(e'.frame, m))(k) == ReadFun(kind, e')(k) {
    }
  }

  // ---- seeding ------------------------------------------------------------------

  function Plussed(m: Terms, key: Key, c: real): Terms { m[key := Coef(m, key) + c] }

  /** An observable as an operator: repeated keys add up. */
  function Observed(observable: seq<(Key, real)>): Terms
  {
    if observable == [] then map[]
    else Plussed(Observed(observable[..|observable| - 1]), observable[|observable| - 1].0,
         observable[|observable| - 1].1)
  }

  lemma SeedLive(h: Heap, shards: seq<Shard>, d: nat, msg: Message, c: real)
    requires LiveShape(h, LiveAll(shards)) && d < |shards| && msg.node == Some(|h|)
    ensures LiveShape(h + [Scalar(c)], multiset(shards[d].coeffs) + Carried([msg]) + Others(shards, d))
  {
    hide LiveShape, LiveAll, Others;
    WorkerApart(shards, d, shards[d]);
    LiveStarted(h, LiveAll(shards), c);
    assert NodesOf([msg]) == [msg.node];
    assert LiveAll(shards) + multiset{Some(|h|)} == multiset(shards[d].coeffs) + Carried([msg]) + Others(shards, d);
  }

  lemma SeedUnder(h: Heap, shards: seq<Shard>, n: nat, full: Key -> nat, d: nat, msg: Message, c: real, r: Rows,
                  lut: seq<real>)
    requires Grounded(h, shards) && ShardsOk(shards, n, full) && d < |shards| && msg.node == Some(|h|)
      && |msg.key| == n && d == OwnerOf(full, |shards|, msg.key)
    requires HeapOk(r.heap) && h + [Scalar(c)] <= r.heap && ShardOk(r.shard, n, full, |shards|, d)
    requires FoldedUnder(Rows(h + [Scalar(c)], shards[d]), [msg], r, lut)
    ensures StoredUnder(r.heap, shards[d := r.shard], full, lut)
      == Plussed(StoredUnder(h, shards, full, lut), msg.key, c)
  {
    hide Global, AbsorbOne, ShardsOk, PartsOk, AllInHeap;
    var g, parts, q := h + [Scalar(c)], PartsUnder(h, shards, lut), PartUnder(r.heap, r.shard, lut);
    PushOk(h, Scalar(c), lut);
    assert g[|h|] == Scalar(c);
    PartKept(h, g, shards[d], lut);
    var box := BoxUnder(g, [msg], lut);
    assert box == [Routed(msg.key, msg.hash, c)] && box[..0] == [];
    assert AbsorbAll(parts[d], box) == AbsorbOne(parts[d], Routed(msg.key, msg.hash, c));
    HashUnseen(parts[d], msg.key, msg.hash, c);
    PartsAreOk(h, shards, n, full, lut);
    AddedTo(parts, n, full, msg.key, c, q);
    assert h <= r.heap;
    StoredKept(h, r.heap, shards, full, lut);
    assert PartsUnder(r.heap, shards[d := r.shard], lut) == parts[d := q];
  }

  lemma HashUnseen(p: Part, key: Key, hash: nat, c: real)
    requires |p.coeffs| == |p.keys|
    ensures AbsorbOne(p, Routed(key, hash, c)) == AbsorbOne(p, Routed(key, 0, c))
  {
  }

  // ---- whole runs ---------------------------------------------------------------

  function GatesUnder(gates: seq<SymGate>, lut: seq<real>): (r: seq<Gate>)
    ensures |r| == |gates| && forall i :: 0 <= i < |gates| ==> r[i] == GateUnder(gates[i], lut)
  {
    seq(|gates|, i requires 0 <= i < |gates| => GateUnder(gates[i], lut))
  }

  /** A gate with parameter `p` turns by the angle given for `p`. */
  lemma {:induction false} AnglesReachGates(gen: Key, p: nat, angles: seq<Angle>)
    requires p < |angles| && forall i :: 0 <= i < |angles| ==> Unitary(angles[i].cos, angles[i].sin)
    ensures AngleTable(MakeLut(angles), |angles|)
    ensures GateUnder(SymGate(gen, Symbolic(p)), MakeLut(angles)) == Gate(gen, angles[p].cos, angles[p].sin)
  {
    hide MakeLut;
    var lut := MakeLut(angles);
    LutHoldsAngles(angles, p);
    forall i | 0 <= i < |angles| ensures Unitary(lut[2 * i], lut[2 * i + 1]) {
      LutHoldsAngles(angles, i);
    }
  }

  /** What `e` reads out is the start evolved exactly by the gates under the table. */
  ghost predicate ExactUnder(kind: BasisKind, n: nat, gates: seq<SymGate>, lut: seq<real>, start: Terms, e: Engine)
  {
    && n % 2 == 0 && GatesOf(GatesUnder(gates, lut), n) && FrameShape(n, e.frame) && TermsOf(e.terms, n)
      && TermsOf(start, n)
    && forall k: Key {:trigger ReadFun(kind, e)(k)} | |k| == n ::
         ReadFun(kind, e)(k) == Exact(kind, n, GatesUnder(gates, lut), start)(k)
  }

  lemma ExactBegins(kind: BasisKind, n: nat, lut: seq<real>, start: Terms)
    requires n % 2 == 0 && TermsOf(start, n)
    ensures ExactUnder(kind, n, [], lut, start, Engine(IdentityFrame(n), start))
  {
    hide ReadCoef;
    forall k: Key | |k| == n ensures ReadFun(kind, Engine(IdentityFrame(n), start))(k) == Exact(kind, n, [], start)(k) {
      IdentityReads(kind, n, start, k);
    }
  }

  lemma ExactContinues(kind: BasisKind, n: nat, gates: seq<SymGate>, i: nat, params: nat, lut: seq<real>, start: Terms,
                       e: Engine, e': Engine)
    requires i < |gates| && SymGateOf(gates[i], n, params) && AngleTable(lut, params)
    requires ExactUnder(kind, n, gates[..i], lut, start, e) && RotatedUnder(kind, n, gates[i], lut, e, e')
    ensures ExactUnder(kind, n, gates[..i + 1], lut, start, e')
  {
    hide AngleTable, ReadFun, Rotated, FrameShape;
    var (g, g') := (GatesUnder(gates[..i], lut), GatesUnder(gates[..i + 1], lut));
    GateUnderOk(gates[i], n, params, lut);
    assert g'[..|g'| - 1] == g;
    var t := PlainTurn(g'[i]);
    forall k: Key | |k| == n ensures ReadFun(kind, e')(k) == Exact(kind, n, g', start)(k) {
      assert ReadFun(kind, e)(Partner(t, k)) == Exact(kind, n, g, start)(Partner(t, k));
      RotatedSame(kind, t, ReadFun(kind, e), Exact(kind, n, g, start), k);
    }
  }

  // ---- compiling ----------------------------------------------------------------

  /** The same rows, their coefficients taken. */
  predicate GaveUp(s: Shard, left: Shard)
  {
    left.keys == s.keys && |left.coeffs| == |s.coeffs| && forall i :: 0 <= i < |left.coeffs| ==> left.coeffs[i] == None
  }

  /** The tape of partition `i` is worth that partition's share. */
  ghost predicate PartCompiled(kind: BasisKind, f: Frame, h: Heap, shards: seq<Shard>, i: nat, tapes: seq<Tape>,
                               parts: seq<seq<SurrogateTerm>>, state: seq<bool>, lut: seq<real>)
  {
    && i < |shards| && i < |tapes| && i < |parts| && TapeOk(tapes[i]) && |shards[i].keys| == |shards[i].coeffs|
    && TermsSum(TapeValues(tapes[i], lut), parts[i])
      == SumRows(kind, f, PartUnder(h, shards[i], lut), |shards[i].keys|, state)
  }

  /** Merges the tapes; every term follows its tape to its offset. */
  method Merge(ghost kind: BasisKind, ghost n: nat, ghost f: Frame, ghost h: Heap, ghost shards: seq<Shard>,
               ghost full: Key -> nat, tapes: seq<Tape>, parts: seq<seq<SurrogateTerm>>, ghost state: seq<bool>)
      returns (model: Model)
    requires n % 2 == 0 && ShardsOk(shards, n, full) && |tapes| == |parts| == |shards|
    requires forall i :: 0 <= i < |tapes| ==> TapeOk(tapes[i]) && RootsFit(parts[i], |tapes[i]|)
    requires forall i, lut {:trigger PartCompiled(kind, f, h, shards, i, tapes, parts, state, lut)} ::
      0 <= i < |tapes| ==> PartCompiled(kind, f, h, shards, i, tapes, parts, state, lut)
    ensures ModelOk(model)
    ensures forall lut {:trigger ModelValue(model, lut)} ::
      ModelValue(model, lut) == RunLaws.Expectation(kind, Engine(f, StoredUnder(h, shards, full, lut)), state)
  {
    hide TapeOk, TapeValues, ShardsOk, SumRows, SumParts, RunLaws.Expectation, PartCompiled, MergedUnder;
    var tape, offsets := MergeShards(tapes);
    var terms: seq<SurrogateTerm> := [];
    forall lut ensures MergedUnder(kind, f, h, shards, 0, tape, terms, state, lut) {
      NothingMerged(kind, n, f, h, shards, full, tape, state, lut);
    }
    for d := 0 to |parts|
      invariant TapeOk(tape) && RootsFit(terms, |tape|)
      invariant forall lut {:trigger MergedUnder(kind, f, h, shards, d, tape, terms, state, lut)} ::
        MergedUnder(kind, f, h, shards, d, tape, terms, state, lut)
    {
      ghost var sofar, next := terms, d + 1;
      terms := terms + Moved(parts[d], offsets[d]);
      forall lut ensures MergedUnder(kind, f, h, shards, next, tape, terms, state, lut) {
        assert MergedUnder(kind, f, h, shards, d, tape, sofar, state, lut);
        assert PartCompiled(kind, f, h, shards, d, tapes, parts, state, lut);
        forall i: nat | i < |tapes[d]| ensures TapeValues(tape, lut)[offsets[d] + i] == TapeValues(tapes[d], lut)[i] {
        }
        MergedNext(kind, f, h, shards, d, tape, sofar, tapes, parts, offsets[d], state, lut);
      }
    }
    model := Model(tape, terms);
    forall lut
      ensures ModelValue(model, lut) == RunLaws.Expectation(kind, Engine(f, StoredUnder(h, shards, full, lut)), state)
    {
      assert MergedUnder(kind, f, h, shards, |parts|, tape, terms, state, lut);
      MergedAll(kind, n, f, h, shards, full, tape, terms, state, lut);
    }
  }

  /** The terms merged so far are worth the shares of the first `d` partitions. */
  ghost predicate MergedUnder(kind: BasisKind, f: Frame, h: Heap, shards: seq<Shard>, d: nat, tape: Tape,
                              terms: seq<SurrogateTerm>, state: seq<bool>, lut: seq<real>)
  {
    && TapeOk(tape) && d <= |shards| && (forall i :: 0 <= i < |shards| ==> |shards[i].keys| == |shards[i].coeffs|)
    && TermsSum(TapeValues(tape, lut), terms) == SumParts(kind, f, PartsUnder(h, shards, lut), d, state)
  }

  lemma NothingMerged(kind: BasisKind, n: nat, f: Frame, h: Heap, shards: seq<Shard>, full: Key -> nat, tape: Tape,
                      state: seq<bool>, lut: seq<real>)
    requires ShardsOk(shards, n, full) && TapeOk(tape)
    ensures MergedUnder(kind, f, h, shards, 0, tape, [], state, lut)
  {
    Aligned(shards, n, full);
  }

  lemma {:induction false} MergedNext(kind: BasisKind, f: Frame, h: Heap, shards: seq<Shard>, d: nat, tape: Tape,
                                      terms: seq<SurrogateTerm>, tapes: seq<Tape>, parts: seq<seq<SurrogateTerm>>,
                                        offset: nat, state: seq<bool>, lut: seq<real>)
    requires MergedUnder(kind, f, h, shards, d, tape, terms, state, lut)
      && PartCompiled(kind, f, h, shards, d, tapes, parts, state, lut)
    requires RootsFit(parts[d], |tapes[d]|) && offset + |tapes[d]| <= |tape|
    requires forall i :: 0 <= i < |tapes[d]| ==> TapeValues(tape, lut)[offset + i] == TapeValues(tapes[d], lut)[i]
    ensures MergedUnder(kind, f, h, shards, d + 1, tape, terms + Moved(parts[d], offset), state, lut)
  {
    hide TapeValues, SumRows, TermsSum;
    TermsSumAppend(TapeValues(tape, lut), terms, Moved(parts[d], offset));
    MovedSum(TapeValues(tapes[d], lut), TapeValues(tape, lut), parts[d], offset);
  }

  lemma MergedAll(kind: BasisKind, n: nat, f: Frame, h: Heap, shards: seq<Shard>, full: Key -> nat, tape: Tape,
                  terms: seq<SurrogateTerm>, state: seq<bool>, lut: seq<real>)
    requires n % 2 == 0 && ShardsOk(shards, n, full)
      && MergedUnder(kind, f, h, shards, |shards|, tape, terms, state, lut) && RootsFit(terms, |tape|)
    ensures ModelValue(Model(tape, terms), lut)
      == RunLaws.Expectation(kind, Engine(f, StoredUnder(h, shards, full, lut)), state)
  {
    hide TapeValues, SumParts, ShardsOk, RunLaws.Expectation, Global, PartsOk;
    PartsAreOk(h, shards, n, full, lut);
    SomeShards(shards, n, full);
    SumPartsIsExpectation(kind, f, PartsUnder(h, shards, lut), n, full, state);
  }

  // ---- the whole surrogate ------------------------------------------------------

  /** The model is worth what the numeric run with these angles, deferring or not, expects. */
  ghost predicate AgreesWithRun(kind: BasisKind, n: nat, gates: seq<SymGate>, lut: seq<real>, defer: bool,
                                start: Terms, state: seq<bool>, m: Model)
  {
    && n % 2 == 0 && TermsOf(start, n) && GatesOf(GatesUnder(gates, lut), n)
    && ModelValue(m, lut)
      == RunLaws.Expectation(kind, Run(kind, n, defer, NoCutoff(), GatesUnder(gates, lut), start), state)
  }

  /**
   Builds a model from an observable and a circuit, over any number of partitions, with any
   hash, any order of the workers and any of the gates followed by the simplifying pass. For
   every table of angles it evaluates to the expectation value that the numeric run with those
   angles computes.
   */
  method Build(kind: BasisKind, n: nat, params: nat, observable: seq<(Key, real)>, gates: seq<SymGate>,
               full: Key -> nat, nPartitions: nat, passes: seq<Truncation>, orders: seq<seq<nat>>, state: seq<bool>)
      returns (m: Model)
    requires n % 2 == 0 && (forall i :: 0 <= i < |observable| ==> |observable[i].0| == n)
    requires forall i :: 0 <= i < |gates| ==> SymGateOf(gates[i], n, params)
    requires |passes| == |gates| && |orders| == 3 * |gates|
    requires forall i :: 0 <= i < |orders| ==> Permutation(orders[i], if nPartitions < 1 then 1 else nPartitions)
    ensures ModelOk(m)
    ensures forall lut, defer {:trigger AgreesWithRun(kind, n, gates, lut, defer, Observed(observable), state, m)} ::
      AngleTable(lut, params) ==> AgreesWithRun(kind, n, gates, lut, defer, Observed(observable), state, m)
  {
    hide AngleTable, ExactUnder, AgreesWithRun, FrameOk, FrameShape, LiveShape, LiveAll, ShardsOk, ModelOk, ModelValue,
      StoredUnder, RunLaws.Expectation,
      Observed, SymGateOf, Permutation;
    var op := new SymbolicOperator(n, params, full, nPartitions);
    forall lut ensures op.Stored(lut) == map[] {
      assert op.EngineUnder(lut) == Engine(IdentityFrame(n), map[]);
    }
    assert op.frame.View() == IdentityFrame(n) by {
      assert op.EngineUnder([]) == Engine(IdentityFrame(n), map[]);
    }
    op.AddObservable(observable);
    ghost var start := Observed(observable);
    ObservedWidth(observable, n);
    op.Propagate(kind, gates, passes, orders, start);
    ghost var h, shards, f := op.heap, op.shards, op.frame.View();
    forall lut | AngleTable(lut, params)
      ensures ExactUnder(kind, n, gates, lut, start, Engine(f, StoredUnder(h, shards, full, lut)))
    {
      assert ExactUnder(kind, n, gates, lut, start, op.EngineUnder(lut));
    }
    assert forall lut :: op.EngineUnder(lut) == Engine(f, StoredUnder(h, shards, full, lut));
    m := op.Compile(kind, state);
    forall lut, defer | AngleTable(lut, params) ensures AgreesWithRun(kind, n, gates, lut, defer, start, state, m) {
      ExactAgrees(kind, n, gates, lut, defer, start, state, m, Engine(f, StoredUnder(h, shards, full, lut)));
    }
  }

  lemma {:induction false} ObservedWidth(observable: seq<(Key, real)>, n: nat)
    requires forall i :: 0 <= i < |observable| ==> |observable[i].0| == n
    ensures TermsOf(Observed(observable), n)
    decreases |observable|
  {
    if observable != [] {
      ObservedWidth(observable[..|observable| - 1], n);
    }
  }

  lemma ExactAgrees(kind: BasisKind, n: nat, gates: seq<SymGate>, lut: seq<real>, defer: bool, start: Terms,
                    state: seq<bool>, m: Model, e: Engine)
    requires ExactUnder(kind, n, gates, lut, start, e)
    requires ModelValue(m, lut) == RunLaws.Expectation(kind, e, state)
    requires FrameOk(kind, n, e.frame)
    ensures AgreesWithRun(kind, n, gates, lut, defer, start, state, m)
  {
    hide Run, FrameOk, ReadCoef, Exact, ModelValue, RunLaws.Expectation;
    var numeric := GatesUnder(gates, lut);
    var run := Run(kind, n, defer, NoCutoff(), numeric, start);
    RunKeepsFrame(kind, n, defer, NoCutoff(), numeric, start);
    forall k: Key | |k| == n ensures ReadCoef(kind, e, k) == ReadCoef(kind, run, k) {
      assert ReadFun(kind, e)(k) == Exact(kind, n, numeric, start)(k);
      RunIsExact(kind, n, defer, NoCutoff(), numeric, start, k);
    }
    SameReadSameExpectation(kind, n, e, run, state);
  }
}
