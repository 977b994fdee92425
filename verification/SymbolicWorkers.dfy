/**
 The other things a worker does to its symbolic rows: folding in what it receives, scaling,
 simplifying, dropping empty rows and compiling.
 */
module SymbolicWorkers {
  import opened Wrappers
  import opened BasisStrings
  import opened BasisAlgebra
  import opened TableauRows
  import opened Frames
  import opened JordanWigner
  import opened PairProtocol
  import opened GateRounds
  import opened CliffordTableaus
  import opened PartitionedTermSums
  import opened ReadOuts
  import opened SymbolicCoeffs
  import opened CompiledTapes
  import opened Simplification
  import opened SurrogateModels
  import opened SymbolicRows

  /** One partition's rows and the graph of all coefficients. */
  datatype Rows = Rows(heap: Heap, shard: Shard)

  // ---- folding in ---------------------------------------------------------------

  /** Row `row` holds `key`, or no row does. */
  ghost predicate FoundAt(keys: seq<Key>, key: Key, row: Option<nat>)
  {
    if row.Some? then row.value < |keys| && keys[row.value] == key else key !in keys
  }

  method Find(keys: seq<Key>, key: Key) returns (row: Option<nat>)
    ensures FoundAt(keys, key, row)
  {
    for i := 0 to |keys|
      invariant key !in keys[..i]
    {
      if keys[i] == key {
        return Some(i);
      }
      assert keys[..i + 1] == keys[..i] + [keys[i]];
    }
    assert keys[..|keys|] == keys;
    row := None;
  }

  /** A branch joins row `row`, or becomes a row if there is none. */
  function Taken(r: Rows, msg: Message, row: Option<nat>): Rows
    requires row.Some? ==> row.value < |r.shard.coeffs|
  {
    if row.None? then Rows(r.heap, Shard(r.shard.keys + [msg.key], r.shard.coeffs + [msg.node]))
    else
      var a := r.shard.coeffs[row.value];
      if a.None? then Rows(r.heap, r.shard.(coeffs := r.shard.coeffs[row.value := msg.node]))
      else if msg.node.None? then r
      else Rows(r.heap + [Add(a.value, msg.node.value)],
           r.shard.(coeffs := r.shard.coeffs[row.value := Some(|r.heap|)]))
  }

  lemma TakenLive(r: Rows, msg: Message, row: Option<nat>, rest: multiset<Coeff>)
    requires row.Some? ==> row.value < |r.shard.coeffs|
    requires LiveShape(r.heap, multiset(r.shard.coeffs) + multiset{msg.node} + rest)
    ensures var r' := Taken(r, msg, row); LiveShape(r'.heap, multiset(r'.shard.coeffs) + rest) && r.heap <= r'.heap
  {
    hide LiveShape;
    var r' := Taken(r, msg, row);
    var coeffs, live := r.shard.coeffs, multiset(r.shard.coeffs) + multiset{msg.node} + rest;
    if row.None? {
      assert multiset(coeffs + [msg.node]) == multiset(coeffs) + multiset{msg.node};
    } else {
      var a := coeffs[row.value];
      assert a in coeffs;
      if a.None? {
        assert multiset(r'.shard.coeffs) == multiset(coeffs) - multiset{a} + multiset{msg.node};
        LiveLess(r.heap, live, multiset(r'.shard.coeffs) + rest);
      } else if msg.node.None? {
        LiveLess(r.heap, live, multiset(coeffs) + rest);
      } else {
        TwoAmong(multiset(coeffs), a, msg.node, Some(|r.heap|), rest);
        LiveJoined(r.heap, live, a.value, msg.node.value);
        assert multiset(r'.shard.coeffs) == multiset(coeffs) - multiset{a} + multiset{Some(|r.heap|)};
      }
    }
  }

  lemma TwoAmong(live: multiset<Coeff>, a: Coeff, b: Coeff, c: Coeff, rest: multiset<Coeff>)
    requires a in live
    ensures multiset{a, b} <= live + multiset{b} + rest
    ensures live + multiset{b} + rest - multiset{a, b} + multiset{c} == (live - multiset{a} + multiset{c}) + rest
  {
  }

  lemma TakenUnder(r: Rows, msg: Message, row: Option<nat>, lut: seq<real>)
    requires |r.shard.coeffs| == |r.shard.keys| && FoundAt(r.shard.keys, msg.key, row) && Distinct(r.shard.keys)
    requires HeapOk(r.heap) && HeapOk(Taken(r, msg, row).heap) && AllInHeap(r.heap, r.shard.coeffs)
      && InHeap(r.heap, msg.node)
    ensures var r' := Taken(r, msg, row);
      PartUnder(r'.heap, r'.shard, lut) == AbsorbOne(PartUnder(r.heap, r.shard, lut), RoutedUnder(r.heap, msg, lut))
  {
    hide AllInHeap, CoeffUnder;
    var r', p := Taken(r, msg, row), PartUnder(r.heap, r.shard, lut);
    PartKept(r.heap, r'.heap, r.shard, lut);
    if row.Some? {
      JoinedUnder(r, msg, row.value, lut);
      var sum := p.coeffs[row.value] + CoeffUnder(r.heap, msg.node, lut);
      forall i | 0 <= i < |p.coeffs|
        ensures PartUnder(r'.heap, r'.shard, lut).coeffs[i] == p.coeffs[row.value := sum][i]
      {
        assert PartUnder(r'.heap, r.shard, lut).coeffs[i] == p.coeffs[i];
      }
      assert PartUnder(r'.heap, r'.shard, lut).coeffs == p.coeffs[row.value := sum];
    } else {
      assert PartUnder(r'.heap, r'.shard, lut).coeffs == p.coeffs + [CoeffUnder(r.heap, msg.node, lut)];
    }
  }

  /** The row's new coefficient is worth the old one and the branch. */
  lemma JoinedUnder(r: Rows, msg: Message, i: nat, lut: seq<real>)
    requires i < |r.shard.coeffs| && HeapOk(r.heap) && HeapOk(Taken(r, msg, Some(i)).heap)
      && AllInHeap(r.heap, r.shard.coeffs) && InHeap(r.heap, msg.node)
    ensures var r' := Taken(r, msg, Some(i));
      CoeffUnder(r'.heap, r'.shard.coeffs[i], lut)
        == CoeffUnder(r.heap, r.shard.coeffs[i], lut) + CoeffUnder(r.heap, msg.node, lut)
  {
    var a := r.shard.coeffs[i];
    assert InHeap(r.heap, a);
    if a.Some? && msg.node.Some? {
      var x := Add(a.value, msg.node.value);
      PushOk(r.heap, x, lut);
      assert (r.heap + [x])[|r.heap|] == x;
    }
  }

  /** Under the table, `r` holds the start with the first `i` branches folded in. */
  ghost predicate FoldingUnder(r0: Rows, msgs: seq<Message>, r: Rows, i: nat, lut: seq<real>)
  {
    && |r0.shard.coeffs| == |r0.shard.keys| && i <= |msgs|
    && PartUnder(r.heap, r.shard, lut)
      == AbsorbAll(PartUnder(r0.heap, r0.shard, lut), BoxUnder(r0.heap, msgs, lut)[..i])
  }

  ghost predicate FoldedUnder(r0: Rows, msgs: seq<Message>, r: Rows, lut: seq<real>)
  {
    && |r0.shard.coeffs| == |r0.shard.keys|
    && PartUnder(r.heap, r.shard, lut) == AbsorbAll(PartUnder(r0.heap, r0.shard, lut), BoxUnder(r0.heap, msgs, lut))
  }

  lemma FoldBegins(r: Rows, msgs: seq<Message>, lut: seq<real>)
    requires |r.shard.coeffs| == |r.shard.keys|
    ensures FoldingUnder(r, msgs, r, 0, lut)
  {
    assert BoxUnder(r.heap, msgs, lut)[..0] == [];
  }

  lemma FoldContinues(r0: Rows, msgs: seq<Message>, r: Rows, i: nat, row: Option<nat>, lut: seq<real>)
    requires FoldingUnder(r0, msgs, r, i, lut) && i < |msgs| && FoundAt(r.shard.keys, msgs[i].key, row)
    requires |r.shard.coeffs| == |r.shard.keys| && Distinct(r.shard.keys) && r0.heap <= r.heap
    requires HeapOk(r0.heap) && HeapOk(r.heap) && HeapOk(Taken(r, msgs[i], row).heap)
    requires AllInHeap(r.heap, r.shard.coeffs) && AllInHeap(r0.heap, NodesOf(msgs))
    ensures FoldingUnder(r0, msgs, Taken(r, msgs[i], row), i + 1, lut)
  {
    hide AbsorbOne, AbsorbAll, Taken, CoeffUnder, HeapOk;
    var box := BoxUnder(r0.heap, msgs, lut);
    assert InHeap(r0.heap, NodesOf(msgs)[i]);
    CoeffKept(r0.heap, r.heap, msgs[i].node, lut);
    TakenUnder(r, msgs[i], row, lut);
    assert box[..i + 1] == box[..i] + [box[i]];
    AbsorbNext(PartUnder(r0.heap, r0.shard, lut), box[..i], box[i]);
  }

  lemma FoldEnds(r0: Rows, msgs: seq<Message>, r: Rows, lut: seq<real>)
    requires FoldingUnder(r0, msgs, r, |msgs|, lut)
    ensures FoldedUnder(r0, msgs, r, lut)
  {
    var box := BoxUnder(r0.heap, msgs, lut);
    assert box[..|msgs|] == box;
  }

  /** The rows of partition `d`: wide, distinct, and its own. */
  ghost predicate ShardOk(s: Shard, n: nat, full: Key -> nat, nParts: nat, d: nat)
  {
    Wide(s, n) && Distinct(s.keys) && forall k :: k in s.keys ==> OwnerOf(full, nParts, k) == d
  }

  lemma TakenOk(r: Rows, msg: Message, row: Option<nat>, n: nat, full: Key -> nat, nParts: nat, d: nat)
    requires ShardOk(r.shard, n, full, nParts, d) && FoundAt(r.shard.keys, msg.key, row)
    requires |msg.key| == n && OwnerOf(full, nParts, msg.key) == d
    ensures ShardOk(Taken(r, msg, row).shard, n, full, nParts, d)
  {
  }

  /** What is left to fold in. */
  lemma OneFewer(live: multiset<Coeff>, msgs: seq<Message>, i: nat, rest: multiset<Coeff>)
    requires i < |msgs|
    ensures live + Carried(msgs[i..]) + rest == live + multiset{msgs[i].node} + (Carried(msgs[i + 1..]) + rest)
  {
    assert NodesOf(msgs[i..]) == [msgs[i].node] + NodesOf(msgs[i + 1..]);
  }

  /**
   One worker's share of the exchange: every branch joins its row or becomes one. `rest` is what
   the other workers hold.
   */
  method AbsorbShard(h: Heap, s: Shard, msgs: seq<Message>, ghost n: nat, ghost full: Key -> nat, ghost nParts: nat,
                     ghost d: nat, ghost rest: multiset<Coeff>) returns (r: Rows)
    requires ShardOk(s, n, full, nParts, d) && BoundFor(msgs, n, full, nParts, d)
    requires LiveShape(h, multiset(s.coeffs) + Carried(msgs) + rest)
    ensures h <= r.heap && LiveShape(r.heap, multiset(r.shard.coeffs) + rest) && ShardOk(r.shard, n, full, nParts, d)
    ensures forall lut {:trigger FoldedUnder(Rows(h, s), msgs, r, lut)} :: FoldedUnder(Rows(h, s), msgs, r, lut)
  {
    hide LiveShape, FoldingUnder, FoldedUnder, ShardOk, Taken, Carried;
    r := Rows(h, s);
    ghost var r0 := r;
    assert |s.coeffs| == |s.keys| by { ShardWide(s, n, full, nParts, d); }
    assert msgs[0..] == msgs;
    assert HeapOk(h) && AllInHeap(h, NodesOf(msgs)) by {
      BoxLive(h, multiset(s.coeffs), msgs, rest);
    }
    forall lut ensures FoldingUnder(r0, msgs, r, 0, lut) {
      FoldBegins(r, msgs, lut);
    }
    var i: nat := 0;
    while i < |msgs|
      invariant i <= |msgs| && h <= r.heap && ShardOk(r.shard, n, full, nParts, d)
      invariant LiveShape(r.heap, multiset(r.shard.coeffs) + Carried(msgs[i..]) + rest)
      invariant forall lut {:trigger FoldingUnder(r0, msgs, r, i, lut)} :: FoldingUnder(r0, msgs, r, i, lut)
    {
      ShardWide(r.shard, n, full, nParts, d);
      var row := Find(r.shard.keys, msgs[i].key);
      ghost var before, next := r, i + 1;
      RowsLive(r.heap, r.shard.coeffs, Carried(msgs[i..]), rest);
      OneFewer(multiset(r.shard.coeffs), msgs, i, rest);
      TakenLive(r, msgs[i], row, Carried(msgs[i + 1..]) + rest);
      TakenOk(r, msgs[i], row, n, full, nParts, d);
      r := Taken(r, msgs[i], row);
      assert multiset(r.shard.coeffs) + (Carried(msgs[next..]) + rest)
        == multiset(r.shard.coeffs) + Carried(msgs[next..]) + rest;
      LiveHeapOk(r.heap, multiset(r.shard.coeffs) + Carried(msgs[next..]) + rest);
      forall lut ensures FoldingUnder(r0, msgs, r, next, lut) {
        assert FoldingUnder(r0, msgs, before, i, lut);
        FoldContinues(r0, msgs, before, i, row, lut);
      }
      i := i + 1;
    }
    assert msgs[i..] == [] && Carried([]) == multiset{} by { NothingCarried(); }
    assert multiset(r.shard.coeffs) + multiset{} + rest == multiset(r.shard.coeffs) + rest;
    forall lut ensures FoldedUnder(r0, msgs, r, lut) {
      assert FoldingUnder(r0, msgs, r, i, lut);
      FoldEnds(r0, msgs, r, lut);
    }
  }

  lemma NothingCarried()
    ensures Carried([]) == multiset{}
  {
    assert NodesOf([]) == [];
  }

  lemma ShardWide(s: Shard, n: nat, full: Key -> nat, nParts: nat, d: nat)
    requires ShardOk(s, n, full, nParts, d)
    ensures Wide(s, n) && Distinct(s.keys)
  {
  }

  lemma BoxLive(h: Heap, live: multiset<Coeff>, msgs: seq<Message>, rest: multiset<Coeff>)
    requires LiveShape(h, live + Carried(msgs) + rest)
    ensures HeapOk(h) && AllInHeap(h, NodesOf(msgs))
  {
    assert live + Carried(msgs) + rest == multiset(NodesOf(msgs)) + (live + rest);
    LiveInHeap(h, NodesOf(msgs), live + rest);
  }

  lemma RowsLive(h: Heap, coeffs: seq<Coeff>, other: multiset<Coeff>, rest: multiset<Coeff>)
    requires LiveShape(h, multiset(coeffs) + other + rest)
    ensures HeapOk(h) && AllInHeap(h, coeffs)
  {
    assert multiset(coeffs) + other + rest == multiset(coeffs) + (other + rest);
    LiveInHeap(h, coeffs, other + rest);
  }

  // ---- scaling ------------------------------------------------------------------

  /** Row `i` scaled. */
  function RowScaled(r: Rows, factor: real, i: nat): Rows
    requires i < |r.shard.coeffs|
  {
    var a := r.shard.coeffs[i];
    if a.None? then r
      else Rows(r.heap + [Scale(factor, a.value)], r.shard.(coeffs := r.shard.coeffs[i := Some(|r.heap|)]))
  }

  lemma RowScaledLive(r: Rows, factor: real, i: nat, rest: multiset<Coeff>)
    requires i < |r.shard.coeffs| && LiveShape(r.heap, multiset(r.shard.coeffs) + rest)
    ensures var r' := RowScaled(r, factor, i); LiveShape(r'.heap, multiset(r'.shard.coeffs) + rest) && r.heap <= r'.heap
  {
    hide LiveShape;
    var a := r.shard.coeffs[i];
    assert a in r.shard.coeffs;
    if a.Some? {
      var live, r' := multiset(r.shard.coeffs) + rest, RowScaled(r, factor, i);
      LiveWrapped(r.heap, live, a.value, Scale(factor, a.value));
      assert multiset(r'.shard.coeffs) == multiset(r.shard.coeffs) - multiset{a} + multiset{Some(|r.heap|)};
      assert live - multiset{a} + multiset{Some(|r.heap|)} == multiset(r'.shard.coeffs) + rest;
    }
  }

  /** Under the table the first `i` rows of `r0` are scaled in `r`. */
  ghost predicate ScalingUnder(kind: BasisKind, gen: Key, factor: real, r0: Rows, r: Rows, i: nat, lut: seq<real>)
  {
    && Wide(r0.shard, |gen|) && |gen| % 2 == 0 && r.shard.keys == r0.shard.keys && |r.shard.coeffs| == |r0.shard.coeffs|
    && forall j :: 0 <= j < |r0.shard.keys| ==>
      CoeffUnder(r.heap, r.shard.coeffs[j], lut) ==
        if j < i && Anticommutes(kind, gen, r0.shard.keys[j]) then CoeffUnder(r0.heap, r0.shard.coeffs[j], lut) * factor
        else CoeffUnder(r0.heap, r0.shard.coeffs[j], lut)
  }

  ghost predicate RescaledUnder(kind: BasisKind, gen: Key, factor: real, r0: Rows, r: Rows, lut: seq<real>)
  {
    ScaledPart(kind, gen, factor, PartUnder(r0.heap, r0.shard, lut), PartUnder(r.heap, r.shard, lut))
  }

  lemma ScaleContinues(kind: BasisKind, gen: Key, factor: real, r0: Rows, r: Rows, r': Rows, i: nat, lut: seq<real>)
    requires ScalingUnder(kind, gen, factor, r0, r, i, lut) && i < |r0.shard.keys| && HeapOk(r.heap) && HeapOk(r'.heap)
    requires AllInHeap(r.heap, r.shard.coeffs)
    requires r' == if Anticommutes(kind, gen, r0.shard.keys[i]) then RowScaled(r, factor, i) else r
    ensures ScalingUnder(kind, gen, factor, r0, r', i + 1, lut)
  {
    hide Anticommutes, AllInHeap, CoeffUnder;
    if Anticommutes(kind, gen, r0.shard.keys[i]) {
      RowScaledUnder(r, factor, i, lut);
      PartKept(r.heap, r'.heap, r.shard, lut);
      forall j | 0 <= j < |r.shard.coeffs| && j != i
        ensures CoeffUnder(r'.heap, r'.shard.coeffs[j], lut) == CoeffUnder(r.heap, r.shard.coeffs[j], lut)
      {
        assert PartUnder(r'.heap, r.shard, lut).coeffs[j] == PartUnder(r.heap, r.shard, lut).coeffs[j];
      }
    }
  }

  lemma RowScaledUnder(r: Rows, factor: real, i: nat, lut: seq<real>)
    requires i < |r.shard.coeffs| && HeapOk(r.heap) && HeapOk(RowScaled(r, factor, i).heap)
      && AllInHeap(r.heap, r.shard.coeffs)
    ensures var r' := RowScaled(r, factor, i);
      CoeffUnder(r'.heap, r'.shard.coeffs[i], lut) == CoeffUnder(r.heap, r.shard.coeffs[i], lut) * factor
  {
    var a := r.shard.coeffs[i];
    assert InHeap(r.heap, a);
    if a.Some? {
      var x := Scale(factor, a.value);
      PushOk(r.heap, x, lut);
      assert (r.heap + [x])[|r.heap|] == x;
      TimesLaws(factor, Value(r.heap, a.value, lut), 0.0);
      assert Times(Value(r.heap, a.value, lut), factor) == Value(r.heap, a.value, lut) * factor;
    } else {
      assert 0.0 * factor == 0.0;
    }
  }

  lemma ScaleEnds(kind: BasisKind, gen: Key, factor: real, r0: Rows, r: Rows, lut: seq<real>)
    requires ScalingUnder(kind, gen, factor, r0, r, |r0.shard.keys|, lut) && Distinct(r0.shard.keys)
    ensures RescaledUnder(kind, gen, factor, r0, r, lut)
  {
    hide Anticommutes, CoeffUnder;
    var p, q := PartUnder(r0.heap, r0.shard, lut), PartUnder(r.heap, r.shard, lut);
    forall j | 0 <= j < |p.coeffs|
      ensures q.coeffs[j] == if Anticommutes(kind, gen, p.keys[j]) then p.coeffs[j] * factor else p.coeffs[j]
    {
      var a := CoeffUnder(r0.heap, r0.shard.coeffs[j], lut);
      SameProduct(a, p.coeffs[j], factor);
    }
  }

  lemma SameProduct(a: real, b: real, factor: real)
    requires a == b
    ensures a * factor == b * factor
  {
  }

  /** A phase-only gate: one worker scales the rows that anticommute with it. */
  method ScaleShard(kind: BasisKind, gen: Key, factor: real, h: Heap, s: Shard, ghost rest: multiset<Coeff>)
      returns (r: Rows)
    requires |gen| % 2 == 0 && Wide(s, |gen|) && Distinct(s.keys) && LiveShape(h, multiset(s.coeffs) + rest)
    ensures h <= r.heap && LiveShape(r.heap, multiset(r.shard.coeffs) + rest) && r.shard.keys == s.keys
      && Wide(r.shard, |gen|)
    ensures forall lut {:trigger RescaledUnder(kind, gen, factor, Rows(h, s), r, lut)} ::
      RescaledUnder(kind, gen, factor, Rows(h, s), r, lut)
  {
    hide Anticommutes, LiveShape, ScalingUnder, RescaledUnder, RowScaled;
    r := Rows(h, s);
    ghost var r0 := r;
    forall lut ensures ScalingUnder(kind, gen, factor, r0, r, 0, lut) {
      NothingScaled(kind, gen, factor, r, lut);
    }
    var i: nat := 0;
    while i < |s.keys|
      invariant i <= |s.keys| && h <= r.heap && r.shard.keys == s.keys && |r.shard.coeffs| == |s.coeffs|
      invariant LiveShape(r.heap, multiset(r.shard.coeffs) + rest)
      invariant forall lut {:trigger ScalingUnder(kind, gen, factor, r0, r, i, lut)} ::
        ScalingUnder(kind, gen, factor, r0, r, i, lut)
    {
      ghost var before, next := r, i + 1;
      LiveInHeap(r.heap, r.shard.coeffs, rest);
      LiveHeapOk(r.heap, multiset(r.shard.coeffs) + rest);
      if Anticommutes(kind, gen, s.keys[i]) {
        RowScaledLive(r, factor, i, rest);
        RowScaledKeeps(r, factor, i);
        r := RowScaled(r, factor, i);
      }
      LiveHeapOk(r.heap, multiset(r.shard.coeffs) + rest);
      forall lut ensures ScalingUnder(kind, gen, factor, r0, r, next, lut) {
        assert ScalingUnder(kind, gen, factor, r0, before, i, lut);
        ScaleContinues(kind, gen, factor, r0, before, r, i, lut);
      }
      i := i + 1;
    }
    forall lut ensures RescaledUnder(kind, gen, factor, r0, r, lut) {
      assert ScalingUnder(kind, gen, factor, r0, r, i, lut);
      ScaleEnds(kind, gen, factor, r0, r, lut);
    }
  }

  lemma NothingScaled(kind: BasisKind, gen: Key, factor: real, r: Rows, lut: seq<real>)
    requires Wide(r.shard, |gen|) && |gen| % 2 == 0
    ensures ScalingUnder(kind, gen, factor, r, r, 0, lut)
  {
  }

  lemma RowScaledKeeps(r: Rows, factor: real, i: nat)
    requires i < |r.shard.coeffs|
    ensures RowScaled(r, factor, i).shard.keys == r.shard.keys
      && |RowScaled(r, factor, i).shard.coeffs| == |r.shard.coeffs|
  {
  }

  // ---- simplifying --------------------------------------------------------------

  /** Coefficients in use can be walked, and each has a root of its own. */
  lemma LiveIsWalkable(h: Heap, coeffs: seq<Coeff>, rest: multiset<Coeff>)
    requires LiveShape(h, multiset(coeffs) + rest)
    ensures HeapOk(h) && SumsWalkable(h) && RootsWalkable(h, coeffs) && OwnRoots(coeffs)
  {
    hide SumsWalkable, RootsWalkable, SumsOwnTheirParts;
    var live := Somes(coeffs);
    forall i | 0 <= i < |coeffs| && coeffs[i].Some? ensures coeffs[i].value in live {
      assert coeffs[i] in multiset(coeffs);
      SomesCount(coeffs, coeffs[i].value);
      assert coeffs[i].value in multiset(live);
    }
    forall i | 0 <= i < |live| ensures live[i] < |h| && Parentless(h, live[i]) && multiset(live)[live[i]] == 1 {
      assert live[i] in multiset(live);
      SomesCount(coeffs, live[i]);
      LiveNode(h, multiset(coeffs) + rest, live[i]);
    }
    forall i, j | 0 <= i < j < |live| ensures live[i] != live[j] {
      if live[i] == live[j] {
        TwiceThere(live, i, j);
      }
    }
    ShapeIsWalkable(h, live, coeffs);
    forall i, j | 0 <= i < j < |coeffs| && coeffs[i].Some? ensures coeffs[i] != coeffs[j] {
      if coeffs[i] == coeffs[j] {
        TwiceThere(coeffs, i, j);
        LiveNode(h, multiset(coeffs) + rest, coeffs[i].value);
      }
    }
  }

  lemma TwiceThere<T>(xs: seq<T>, i: nat, j: nat)
    requires i < j < |xs| && xs[i] == xs[j]
    ensures multiset(xs)[xs[i]] >= 2
  {
    assert xs == xs[..j] + [xs[j]] + xs[j + 1..];
    assert xs[..j][i] == xs[i];
    assert xs[i] in multiset(xs[..j]);
  }

  lemma {:induction false} SomesCount(coeffs: seq<Coeff>, x: nat)
    ensures multiset(coeffs)[Some(x)] == multiset(Somes(coeffs))[x]
    decreases |coeffs|
  {
    if coeffs != [] {
      var last := |coeffs| - 1;
      SomesCount(coeffs[..last], x);
      assert coeffs == coeffs[..last] + [coeffs[last]];
      OneMoreCounted(coeffs[..last], Somes(coeffs[..last]), coeffs[last], x);
    }
  }

  lemma OneMoreCounted(front: seq<Coeff>, somes: seq<nat>, c: Coeff, x: nat)
    requires multiset(front)[Some(x)] == multiset(somes)[x]
    ensures multiset(front + [c])[Some(x)] == multiset(somes + if c.Some? then [c.value] else [])[x]
  {
  }

  lemma {:induction false} DistinctOnce(live: seq<nat>, x: nat)
    requires (forall i, j :: 0 <= i < j < |live| ==> live[i] != live[j]) && x in live
    ensures multiset(live)[x] == 1
    decreases |live|
  {
    var last := |live| - 1;
    assert live == live[..last] + [live[last]];
    if x in live[..last] {
      DistinctOnce(live[..last], x);
    }
  }

  /** The rebuilt coefficients take the place of the old ones. */
  lemma {:induction false} LiveRebuilt(h: Heap, coeffs: seq<Coeff>, h': Heap, simplified: seq<Coeff>,
                                       rest: multiset<Coeff>)
    requires LiveShape(h, multiset(coeffs) + rest) && h <= h' && FreshShape(h', |h|, Somes(simplified))
    ensures LiveShape(h', multiset(simplified) + rest)
  {
    FreshIsShape(h, [], h', Somes(simplified));
    var live, live' := multiset(coeffs) + rest, multiset(simplified) + rest;
    forall c: Coeff | c in live' && c.Some? ensures LiveAt(h', live', c) {
      SomesCount(simplified, c.value);
      if c in rest {
        assert c in live;
        LiveNode(h, live, c.value);
        assert c !in multiset(simplified);
        forall i | 0 <= i < |h'| ensures !Child(h'[i], c.value) {
          if i < |h| {
            assert h'[i] == h[i];
          }
        }
      } else {
        DistinctOnce(Somes(simplified), c.value);
        var i :| 0 <= i < |Somes(simplified)| && Somes(simplified)[i] == c.value;
        assert Parentless(h', Somes(simplified)[i]);
      }
    }
  }

  lemma SimplifiedUnder(h: Heap, x: Coeff, h': Heap, y: Coeff, lut: seq<real>)
    requires Simplified(h, x, h', y)
    ensures CoeffUnder(h', y, lut) == CoeffUnder(h, x, lut)
  {
  }

  /** Every coefficient of the first list is worth what it is worth in the second. */
  ghost predicate SameUnder(h: Heap, coeffs: seq<Coeff>, h': Heap, coeffs': seq<Coeff>, lut: seq<real>)
  {
    |coeffs'| == |coeffs| && Values(h', coeffs', lut) == Values(h, coeffs, lut)
  }

  /** One chunk of a worker's coefficients. */
  method SimplifyChunk(h: Heap, coeffs: seq<Coeff>, start: nat, end: nat, ghost rest: multiset<Coeff>)
      returns (h': Heap, coeffs': seq<Coeff>)
    requires start <= end <= |coeffs| && LiveShape(h, multiset(coeffs) + rest)
    ensures h <= h' && |coeffs'| == |coeffs| && LiveShape(h', multiset(coeffs') + rest)
    ensures forall lut {:trigger SameUnder(h, coeffs, h', coeffs', lut)} :: SameUnder(h, coeffs, h', coeffs', lut)
  {
    hide LiveShape, SumsWalkable, RootsWalkable, OwnRoots, FreshShape, Simplified;
    var chunk := coeffs[start..end];
    ghost var others := multiset(coeffs[..start]) + multiset(coeffs[end..]) + rest;
    assert coeffs == coeffs[..start] + chunk + coeffs[end..];
    assert multiset(coeffs) + rest == multiset(chunk) + others;
    LiveIsWalkable(h, chunk, others);
    var simplified: seq<Coeff>;
    h', simplified := SimplifyBatch(h, chunk);
    LiveRebuilt(h, chunk, h', simplified, others);
    coeffs' := coeffs[..start] + simplified + coeffs[end..];
    assert multiset(coeffs') + rest == multiset(simplified) + others;
    LiveInHeap(h, coeffs, rest);
    forall lut ensures SameUnder(h, coeffs, h', coeffs', lut) {
      ChunkUnder(h, coeffs, start, end, h', simplified, lut);
    }
  }

  lemma ChunkUnder(h: Heap, coeffs: seq<Coeff>, start: nat, end: nat, h': Heap, simplified: seq<Coeff>, lut: seq<real>)
    requires start <= end <= |coeffs| && |simplified| == end - start && HeapOk(h) && HeapOk(h') && h <= h'
      && AllInHeap(h, coeffs)
    requires forall i :: 0 <= i < |simplified| ==> Simplified(h, coeffs[start..end][i], h', simplified[i])
    ensures SameUnder(h, coeffs, h', coeffs[..start] + simplified + coeffs[end..], lut)
  {
    hide Simplified, CoeffUnder;
    var coeffs' := coeffs[..start] + simplified + coeffs[end..];
    forall i | 0 <= i < |coeffs| ensures CoeffUnder(h', coeffs'[i], lut) == CoeffUnder(h, coeffs[i], lut) {
      if start <= i < end {
        assert coeffs[i] == coeffs[start..end][i - start] && coeffs'[i] == simplified[i - start];
        SimplifiedUnder(h, coeffs[i], h', simplified[i - start], lut);
      } else {
        CoeffKept(h, h', coeffs[i], lut);
      }
    }
    assert Values(h', coeffs', lut) == Values(h, coeffs, lut);
  }

  lemma SameThrough(h: Heap, a: seq<Coeff>, h1: Heap, b: seq<Coeff>, h2: Heap, c: seq<Coeff>, lut: seq<real>)
    requires SameUnder(h, a, h1, b, lut) && SameUnder(h1, b, h2, c, lut)
    ensures SameUnder(h, a, h2, c, lut)
  {
  }

  /** A worker simplifies its coefficients, in at most `nChunks` chunks of equal size. */
  method SimplifyShard(h: Heap, s: Shard, nChunks: nat, ghost rest: multiset<Coeff>) returns (r: Rows)
    requires LiveShape(h, multiset(s.coeffs) + rest)
    ensures h <= r.heap && r.shard.keys == s.keys && |r.shard.coeffs| == |s.coeffs|
      && LiveShape(r.heap, multiset(r.shard.coeffs) + rest)
    ensures forall lut {:trigger PartUnder(r.heap, r.shard, lut)} ::
      PartUnder(r.heap, r.shard, lut) == PartUnder(h, s, lut)
  {
    hide LiveShape, SameUnder;
    var n := if nChunks == 0 then 1 else nChunks;
    var chunk := (|s.coeffs| + n - 1) / n;
    if chunk == 0 {
      chunk := 1;
    }
    r := Rows(h, s);
    forall lut ensures SameUnder(h, s.coeffs, h, s.coeffs, lut) {
      SameAtFirst(h, s.coeffs, lut);
    }
    var start := 0;
    while start < |s.coeffs|
      invariant h <= r.heap && r.shard.keys == s.keys && |r.shard.coeffs| == |s.coeffs|
        && LiveShape(r.heap, multiset(r.shard.coeffs) + rest)
      invariant forall lut {:trigger SameUnder(h, s.coeffs, r.heap, r.shard.coeffs, lut)} ::
        SameUnder(h, s.coeffs, r.heap, r.shard.coeffs, lut)
      decreases |s.coeffs| - start
    {
      ghost var before := r;
      var end := if start + chunk < |s.coeffs| then start + chunk else |s.coeffs|;
      var h', coeffs' := SimplifyChunk(r.heap, r.shard.coeffs, start, end, rest);
      r := Rows(h', r.shard.(coeffs := coeffs'));
      forall lut ensures SameUnder(h, s.coeffs, r.heap, r.shard.coeffs, lut) {
        assert SameUnder(h, s.coeffs, before.heap, before.shard.coeffs, lut);
        assert SameUnder(before.heap, before.shard.coeffs, r.heap, r.shard.coeffs, lut);
        SameThrough(h, s.coeffs, before.heap, before.shard.coeffs, r.heap, r.shard.coeffs, lut);
      }
      start := end;
    }
    forall lut ensures PartUnder(r.heap, r.shard, lut) == PartUnder(h, s, lut) {
      assert SameUnder(h, s.coeffs, r.heap, r.shard.coeffs, lut);
      SameAtLast(h, s, r, lut);
    }
  }

  lemma SameAtFirst(h: Heap, coeffs: seq<Coeff>, lut: seq<real>)
    ensures SameUnder(h, coeffs, h, coeffs, lut)
  {
  }

  lemma SameAtLast(h: Heap, s: Shard, r: Rows, lut: seq<real>)
    requires SameUnder(h, s.coeffs, r.heap, r.shard.coeffs, lut) && r.shard.keys == s.keys
    ensures PartUnder(r.heap, r.shard, lut) == PartUnder(h, s, lut)
  {
  }

  // ---- dropping empty rows ------------------------------------------------------

  /** The rows that still have a coefficient, in order. */
  function NonEmpty(s: Shard): (r: Shard)
    requires |s.coeffs| == |s.keys|
    ensures |r.coeffs| == |r.keys|
    decreases |s.keys|
  {
    if s.keys == [] then s
    else
      var last := |s.keys| - 1;
      var front := NonEmpty(Shard(s.keys[..last], s.coeffs[..last]));
      if s.coeffs[last].None? then front else Shard(front.keys + [s.keys[last]], front.coeffs + [s.coeffs[last]])
  }

  /** A row that is left was there, with a coefficient. */
  lemma {:induction false} LeftWasThere(s: Shard, j: nat) returns (i: nat)
    requires |s.coeffs| == |s.keys| && j < |NonEmpty(s).keys|
    ensures i < |s.keys| && s.keys[i] == NonEmpty(s).keys[j] && s.coeffs[i] == NonEmpty(s).coeffs[j]
      && s.coeffs[i].Some?
    decreases |s.keys|
  {
    var last := |s.keys| - 1;
    var front := Shard(s.keys[..last], s.coeffs[..last]);
    if j < |NonEmpty(front).keys| {
      i := LeftWasThere(front, j);
    } else {
      i := last;
    }
  }

  /** A row with a coefficient stays. */
  lemma {:induction false} WithCoeffStays(s: Shard, i: nat) returns (j: nat)
    requires |s.coeffs| == |s.keys| && i < |s.keys| && s.coeffs[i].Some?
    ensures j < |NonEmpty(s).keys| && NonEmpty(s).keys[j] == s.keys[i] && NonEmpty(s).coeffs[j] == s.coeffs[i]
    decreases |s.keys|
  {
    var last := |s.keys| - 1;
    var front := Shard(s.keys[..last], s.coeffs[..last]);
    if i < last {
      j := WithCoeffStays(front, i);
    } else {
      j := |NonEmpty(front).keys|;
    }
  }

  lemma {:induction false} LeftDistinct(s: Shard)
    requires |s.coeffs| == |s.keys| && Distinct(s.keys)
    ensures Distinct(NonEmpty(s).keys)
    decreases |s.keys|
  {
    if s.keys != [] {
      var last := |s.keys| - 1;
      var front := Shard(s.keys[..last], s.coeffs[..last]);
      LeftDistinct(front);
      forall j | 0 <= j < |NonEmpty(front).keys| ensures NonEmpty(front).keys[j] != s.keys[last] {
        var i := LeftWasThere(front, j);
      }
    }
  }

  /** The same coefficients are in use. */
  lemma {:induction false} LeftLive(s: Shard, c: Coeff)
    requires |s.coeffs| == |s.keys| && c.Some?
    ensures multiset(NonEmpty(s).coeffs)[c] == multiset(s.coeffs)[c]
    decreases |s.keys|
  {
    if s.keys != [] {
      var last := |s.keys| - 1;
      LeftLive(Shard(s.keys[..last], s.coeffs[..last]), c);
      assert s.coeffs == s.coeffs[..last] + [s.coeffs[last]];
    }
  }

  /** No key is worth anything else than before. */
  lemma {:induction false} LeftAt(h: Heap, s: Shard, key: Key, lut: seq<real>)
    requires |s.coeffs| == |s.keys| && Distinct(s.keys)
    ensures CoeffAt(PartUnder(h, NonEmpty(s), lut), key) == CoeffAt(PartUnder(h, s, lut), key)
    ensures key in NonEmpty(s).keys ==> key in s.keys
  {
    hide CoeffUnder, NonEmpty, PartUnder, CoeffAt, Distinct;
    var r := NonEmpty(s);
    LeftDistinct(s);
    if key in r.keys {
      var j: nat :| j < |r.keys| && r.keys[j] == key;
      var i := LeftWasThere(s, j);
      RowIsAt(h, s, i, lut);
      RowIsAt(h, r, j, lut);
    } else if key in s.keys {
      var i: nat :| i < |s.keys| && s.keys[i] == key;
      if s.coeffs[i].Some? {
        var j := WithCoeffStays(s, i);
      }
      RowIsAt(h, s, i, lut);
      NoneIsZero(h, lut);
      NotThere(h, r, key, lut);
    } else {
      NotThere(h, r, key, lut);
      NotThere(h, s, key, lut);
    }
  }

  lemma RowIsAt(h: Heap, s: Shard, i: nat, lut: seq<real>)
    requires |s.coeffs| == |s.keys| && Distinct(s.keys) && i < |s.keys|
    ensures CoeffAt(PartUnder(h, s, lut), s.keys[i]) == CoeffUnder(h, s.coeffs[i], lut)
  {
  }

  lemma NotThere(h: Heap, s: Shard, key: Key, lut: seq<real>)
    requires key !in s.keys
    ensures CoeffAt(PartUnder(h, s, lut), key) == 0.0
  {
  }

  lemma NoneIsZero(h: Heap, lut: seq<real>)
    ensures CoeffUnder(h, None, lut) == 0.0
  {
  }

  /** Drops the rows that simplifying has emptied. */
  method DropEmpty(s: Shard) returns (r: Shard)
    requires |s.coeffs| == |s.keys|
    ensures r == NonEmpty(s)
  {
    r := Shard([], []);
    for i := 0 to |s.keys|
      invariant r == NonEmpty(Shard(s.keys[..i], s.coeffs[..i])) && |r.coeffs| == |r.keys|
    {
      assert s.keys[..i + 1][..i] == s.keys[..i] && s.coeffs[..i + 1][..i] == s.coeffs[..i];
      if s.coeffs[i].Some? {
        r := Shard(r.keys + [s.keys[i]], r.coeffs + [s.coeffs[i]]);
      }
    }
    assert s.keys[..|s.keys|] == s.keys && s.coeffs[..|s.keys|] == s.coeffs;
  }

  // ---- compiling ----------------------------------------------------------------

  /** The overlaps times what their coefficients are worth. */
  ghost function OverlapSum(h: Heap, overlaps: seq<real>, coeffs: seq<Coeff>, lut: seq<real>): real
    requires |coeffs| == |overlaps|
  {
    if overlaps == [] then 0.0
    else
      var last := |overlaps| - 1;
      OverlapSum(h, overlaps[..last], coeffs[..last], lut) + Times(overlaps[last], CoeffUnder(h, coeffs[last], lut))
  }

  /** The rows before `i` are accounted for by the overlaps gathered so far. */
  ghost predicate OverlapsUnder(kind: BasisKind, f: Frame, h: Heap, s: Shard, i: nat, overlaps: seq<real>,
                                survivors: seq<Coeff>, state: seq<bool>, lut: seq<real>)
  {
    && |survivors| == |overlaps| && i <= |s.keys| == |s.coeffs|
    && OverlapSum(h, overlaps, survivors, lut) == SumRows(kind, f, PartUnder(h, s, lut), i, state)
  }

  lemma {:induction false} NoOverlap(kind: BasisKind, f: Frame, h: Heap, s: Shard, state: seq<bool>, lut: seq<real>)
    requires |s.keys| == |s.coeffs|
    ensures OverlapsUnder(kind, f, h, s, 0, [], [], state, lut)
  {
  }

  lemma OverlapContinues(kind: BasisKind, f: Frame, h: Heap, s: Shard, i: nat, overlaps: seq<real>,
                         survivors: seq<Coeff>, image: Row, state: seq<bool>, lut: seq<real>)
    requires OverlapsUnder(kind, f, h, s, i, overlaps, survivors, state, lut) && i < |s.keys|
    requires RowsOf(f.readout, |s.keys[i]|) && |s.keys[i]| % 2 == 0 && image == Applied(kind, f.readout, s.keys[i])
    ensures var overlap := image.sign * Trace(kind, image.image, state);
      if overlap != 0.0
        then OverlapsUnder(kind, f, h, s, i + 1, overlaps + [overlap], survivors + [s.coeffs[i]], state, lut)
      else OverlapsUnder(kind, f, h, s, i + 1, overlaps, survivors, state, lut)
  {
    hide Applied, Trace, CoeffUnder;
    var a, overlap := CoeffUnder(h, s.coeffs[i], lut), image.sign * Trace(kind, image.image, state);
    Regroup(a, image.sign, Trace(kind, image.image, state));
    assert SumRows(kind, f, PartUnder(h, s, lut), i + 1, state)
        == SumRows(kind, f, PartUnder(h, s, lut), i, state) + RowShare(kind, f, state, s.keys[i], a);
    assert (overlaps + [overlap])[..|overlaps|] == overlaps && (survivors + [s.coeffs[i]])[..|overlaps|] == survivors;
  }

  lemma Regroup(a: real, sign: real, trace: real)
    ensures a * sign * trace == Times(sign * trace, a)
    ensures sign * trace == 0.0 ==> a * sign * trace == 0.0
  {
  }

  function TermsOver(overlaps: seq<real>, roots: seq<Option<nat>>): (r: seq<SurrogateTerm>)
    requires |overlaps| == |roots|
    ensures |r| == |overlaps| && forall j :: 0 <= j < |r| ==> r[j] == SurrogateTerm(overlaps[j], roots[j])
  {
    seq(|overlaps|, j requires 0 <= j < |overlaps| => SurrogateTerm(overlaps[j], roots[j]))
  }

  /** Term by term, the shard's tape is worth the overlaps times the coefficients. */
  lemma {:induction false} TermsAreOverlaps(h: Heap, overlaps: seq<real>, coeffs: seq<Coeff>, roots: seq<Option<nat>>,
                                            values: seq<real>, lut: seq<real>)
    requires |overlaps| == |coeffs| == |roots|
    requires forall j :: 0 <= j < |roots| ==> RootHits(h, coeffs[j], roots[j], values, lut)
    ensures TermsSum(values, TermsOver(overlaps, roots)) == OverlapSum(h, overlaps, coeffs, lut)
    decreases |overlaps|
  {
    if overlaps != [] {
      var last := |overlaps| - 1;
      assert TermsOver(overlaps, roots)[..last] == TermsOver(overlaps[..last], roots[..last]);
      TermsAreOverlaps(h, overlaps[..last], coeffs[..last], roots[..last], values, lut);
      assert RootHits(h, coeffs[last], roots[last], values, lut);
      TimesLaws(overlaps[last], 0.0, 0.0);
    }
  }

  /** The place on the tape holds the coefficient's value; a missing coefficient has no place. */
  ghost predicate RootHits(h: Heap, c: Coeff, root: Option<nat>, values: seq<real>, lut: seq<real>)
  {
    if c.None? then root.None? else root.Some? && root.value < |values| && values[root.value] == CoeffUnder(h, c, lut)
  }

  /** What the batch compiler promises, row by row. */
  lemma {:induction false} CompiledHits(h: Heap, coeffs: seq<Coeff>, ops: Tape, roots: seq<Option<nat>>,
                                        order: seq<nat>, lut: seq<real>)
    requires HeapOk(h) && TapeOk(ops) && |order| == |ops| && |roots| == |coeffs|
    requires forall i :: 0 <= i < |coeffs| ==> roots[i].Some? == coeffs[i].Some?
    requires forall i ::
      0 <= i < |roots| && roots[i].Some? ==> roots[i].value < |ops| && order[roots[i].value] == coeffs[i].value
    requires forall i :: 0 <= i < |ops| ==> order[i] < |h|
    requires forall i: nat, l: seq<real> {:trigger TapeValues(ops, l)[i]} ::
      i < |ops| ==> TapeValues(ops, l)[i] == Value(h, order[i], l)
    ensures forall j :: 0 <= j < |roots| ==> RootHits(h, coeffs[j], roots[j], TapeValues(ops, lut), lut)
  {
    hide TapeValues, Value;
    forall j | 0 <= j < |roots| ensures RootHits(h, coeffs[j], roots[j], TapeValues(ops, lut), lut) {
      if roots[j].Some? {
        assert TapeValues(ops, lut)[roots[j].value] == Value(h, order[roots[j].value], lut);
      }
    }
  }

  /** Every row gives its coefficient up; those that overlap the state survive. */
  method TakeSurvivors(kind: BasisKind, ghost h: Heap, s: Shard, frame: CliffordTableau, n: nat, state: seq<bool>)
      returns (overlaps: seq<real>, survivors: seq<Coeff>, left: Shard)
    requires n % 2 == 0 && Wide(s, n) && frame.Shape(n)
    requires frame.Lawful(kind, n)
    ensures left.keys == s.keys && |left.coeffs| == |s.coeffs|
      && forall i :: 0 <= i < |left.coeffs| ==> left.coeffs[i] == None
    ensures |survivors| == |overlaps| && Among(survivors, s.coeffs)
    ensures forall lut {:trigger OverlapsUnder(kind, frame.View(), h, s, |s.keys|, overlaps, survivors, state, lut)} ::
      OverlapsUnder(kind, frame.View(), h, s, |s.keys|, overlaps, survivors, state, lut)
  {
    hide FrameOk, Trace, Image, OverlapsUnder, Applied, Among;
    ghost var f := frame.View();
    assert Among([], s.coeffs[..0]) by { NoneAmong(); }
    overlaps, survivors, left := [], [], s;
    forall lut ensures OverlapsUnder(kind, f, h, s, 0, [], [], state, lut) {
      NoOverlap(kind, f, h, s, state, lut);
    }
    var i: nat := 0;
    while i < |s.keys|
      invariant i <= |s.keys| && |survivors| == |overlaps| && left.keys == s.keys && |left.coeffs| == |s.coeffs|
      invariant forall j :: 0 <= j < |s.coeffs| ==> left.coeffs[j] == if j < i then None else s.coeffs[j]
      invariant Among(survivors, s.coeffs[..i])
      invariant forall lut {:trigger OverlapsUnder(kind, f, h, s, i, overlaps, survivors, state, lut)} ::
        OverlapsUnder(kind, f, h, s, i, overlaps, survivors, state, lut)
    {
      var image := frame.Conjugate(kind, s.keys[i]);
      var overlap := image.sign * Trace(kind, image.image, state);
      ghost var before, weights, next := survivors, overlaps, i + 1;
      OneMoreSurvivor(survivors, s.coeffs, i);
      var coeff := left.coeffs[i];
      left := left.(coeffs := left.coeffs[i := None]);
      if overlap != 0.0 {
        overlaps := overlaps + [overlap];
        survivors := survivors + [coeff];
      }
      forall lut ensures OverlapsUnder(kind, f, h, s, next, overlaps, survivors, state, lut) {
        assert OverlapsUnder(kind, f, h, s, i, weights, before, state, lut);
        OverlapContinues(kind, f, h, s, i, weights, before, image, state, lut);
      }
      i := i + 1;
    }
    assert s.coeffs[..i] == s.coeffs;
  }

  /**
   A worker compiles its partition: the rows that overlap the state go to one tape, and every
   row gives its coefficient up. The tape is worth the partition's share of the expectation.
   */
  method CompileShard(kind: BasisKind, h: Heap, s: Shard, frame: CliffordTableau, n: nat, state: seq<bool>,
                      ghost rest: multiset<Coeff>)
      returns (ops: Tape, terms: seq<SurrogateTerm>, left: Shard)
    requires n % 2 == 0 && Wide(s, n) && frame.Shape(n) && LiveShape(h, multiset(s.coeffs) + rest)
    requires frame.Lawful(kind, n)
    ensures TapeOk(ops) && RootsFit(terms, |ops|)
    ensures left.keys == s.keys && |left.coeffs| == |s.coeffs|
      && forall i :: 0 <= i < |left.coeffs| ==> left.coeffs[i] == None
    ensures forall lut {:trigger TapeValues(ops, lut)} ::
      TermsSum(TapeValues(ops, lut), terms) == SumRows(kind, frame.View(), PartUnder(h, s, lut), |s.keys|, state)
  {
    hide LiveShape, TapeValues, TapeOk, Value, FrameOk, SumRows, OverlapSum, OverlapsUnder, SumsWalkable,
      RootsWalkable, RootHits, TermsSum;
    ghost var f := frame.View();
    var overlaps, survivors;
    overlaps, survivors, left := TakeSurvivors(kind, h, s, frame, n, state);
    assert f == frame.View();
    SurvivorsWalk(h, s.coeffs, survivors, rest);
    var ok, roots;
    ghost var order;
    ok, ops, roots, order := CompileBatch(h, survivors);
    terms := TermsOver(overlaps, roots);
    forall lut
      ensures TermsSum(TapeValues(ops, lut), terms) == SumRows(kind, f, PartUnder(h, s, lut), |s.keys|, state)
    {
      assert OverlapsUnder(kind, f, h, s, |s.keys|, overlaps, survivors, state, lut);
      OverlapEnds(kind, f, h, s, overlaps, survivors, state, lut);
      CompiledHits(h, survivors, ops, roots, order, lut);
      TermsAreOverlaps(h, overlaps, survivors, roots, TapeValues(ops, lut), lut);
    }
  }

  /** No coefficient survives more often than it was there. */
  ghost predicate Among(survivors: seq<Coeff>, coeffs: seq<Coeff>) { multiset(survivors) <= multiset(coeffs) }

  lemma NoneAmong()
    ensures forall coeffs {:trigger Among([], coeffs)} :: Among([], coeffs)
  {
  }

  lemma SurvivorsWalk(h: Heap, coeffs: seq<Coeff>, survivors: seq<Coeff>, rest: multiset<Coeff>)
    requires LiveShape(h, multiset(coeffs) + rest) && Among(survivors, coeffs)
    ensures HeapOk(h) && SumsWalkable(h) && RootsWalkable(h, survivors)
  {
    hide LiveShape;
    LiveLess(h, multiset(coeffs) + rest, multiset(survivors) + multiset{});
    LiveIsWalkable(h, survivors, multiset{});
  }

  lemma OneMoreSurvivor(survivors: seq<Coeff>, coeffs: seq<Coeff>, i: nat)
    requires i < |coeffs| && Among(survivors, coeffs[..i])
    ensures Among(survivors, coeffs[..i + 1]) && Among(survivors + [coeffs[i]], coeffs[..i + 1])
  {
    assert coeffs[..i + 1] == coeffs[..i] + [coeffs[i]];
  }

  lemma {:induction false} OverlapEnds(kind: BasisKind, f: Frame, h: Heap, s: Shard, overlaps: seq<real>,
                                       survivors: seq<Coeff>, state: seq<bool>, lut: seq<real>)
    requires OverlapsUnder(kind, f, h, s, |s.keys|, overlaps, survivors, state, lut)
    ensures |survivors| == |overlaps|
      && OverlapSum(h, overlaps, survivors, lut) == SumRows(kind, f, PartUnder(h, s, lut), |s.keys|, state)
  {
  }
}
