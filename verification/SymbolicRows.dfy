/**
 Rows with symbolic coefficients: what one worker does to its own partition of them. All
 coefficients live in one graph, so a worker must leave alone the nodes the others hold.
 */
module SymbolicRows {
  import opened Wrappers
  import opened BasisStrings
  import opened BasisAlgebra
  import opened TableauRows
  import opened PairRule
  import opened PairProtocol
  import opened GateRounds
  import opened TermSums
  import opened SymbolicCoeffs

  /** A coefficient, or none: what simplifying leaves of a sum that cancels. */
  type Coeff = Option<nat>

  /** A free parameter, or a fixed angle by its cosine and sine. */
  datatype Param = Symbolic(param: nat) | Numeric(cos: real, sin: real)

  /** Cosines and sines of `params` angles, interleaved. */
  predicate AngleTable(lut: seq<real>, params: nat)
  {
    |lut| == 2 * params && forall p :: 0 <= p < params ==> Unitary(lut[2 * p], lut[2 * p + 1])
  }

  predicate Unitary(c: real, s: real) { c * c + s * s == 1.0 }

  predicate ParamOk(x: Param, params: nat)
  {
    match x
    case Symbolic(p) => p < params
    case Numeric(c, s) => Unitary(c, s)
  }

  function CosUnder(x: Param, lut: seq<real>): real { if x.Symbolic? then CosOf(lut, x.param) else x.cos }

  function SinUnder(x: Param, lut: seq<real>): real { if x.Symbolic? then SinOf(lut, x.param) else x.sin }

  function TurnUnder(gen: Key, sign: real, x: Param, lut: seq<real>): Turn
  {
    Turn(gen, sign, CosUnder(x, lut), SinUnder(x, lut))
  }

  lemma TurnUnderOk(gen: Key, sign: real, x: Param, params: nat, lut: seq<real>)
    requires |gen| % 2 == 0 && IsSign(sign) && ParamOk(x, params) && AngleTable(lut, params)
    ensures TurnOf(TurnUnder(gen, sign, x, lut), |gen|)
  {
    match x
    case Symbolic(p) => assert Unitary(lut[2 * p], lut[2 * p + 1]);
    case Numeric(c, s) =>
  }

  // ---- the coefficients in use --------------------------------------------------

  /** The coefficients in use, wherever they are held: each its own node that nothing points to. */
  ghost predicate LiveShape(h: Heap, live: multiset<Coeff>)
  {
    HeapOk(h) && SumsOwnTheirParts(h)
      && forall c: Coeff {:trigger live[c]} :: c in live && c.Some? ==> LiveAt(h, live, c)
  }

  ghost predicate LiveAt(h: Heap, live: multiset<Coeff>, c: Coeff)
    requires c.Some?
  {
    live[c] == 1 && c.value < |h| && Parentless(h, c.value)
  }

  lemma LiveNode(h: Heap, live: multiset<Coeff>, a: nat)
    requires LiveShape(h, live) && Some(a) in live
    ensures a < |h| && Parentless(h, a) && live[Some(a)] == 1
  {
    assert LiveAt(h, live, Some(a));
  }

  /** Fewer coefficients in use, or more that are missing. */
  lemma LiveLess(h: Heap, live: multiset<Coeff>, less: multiset<Coeff>)
    requires LiveShape(h, live) && forall c: Coeff {:trigger less[c]} :: c.Some? ==> less[c] <= live[c]
    ensures LiveShape(h, less)
  {
    forall c: Coeff | c in less && c.Some? ensures LiveAt(h, less, c) {
      assert LiveAt(h, live, c);
    }
  }

  /** A coefficient replaced by one node over it. */
  lemma LiveWrapped(h: Heap, live: multiset<Coeff>, a: nat, x: Node)
    requires LiveShape(h, live) && Some(a) in live && Over(x, a)
    ensures LiveShape(h + [x], live - multiset{Some(a)} + multiset{Some(|h|)})
  {
    var h', live' := h + [x], live - multiset{Some(a)} + multiset{Some(|h|)};
    LiveNode(h, live, a);
    assert forall i :: 0 <= i < |h| ==> h'[i] == h[i];
    FreshNotLive(h, live);
    forall c: Coeff | c in live' && c.Some? ensures LiveAt(h', live', c) {
      if c != Some(|h|) {
        LiveNode(h, live, c.value);
      }
    }
  }

  /** A coefficient split into two nodes over it. */
  lemma LiveSplit(h: Heap, live: multiset<Coeff>, a: nat, x: Node, y: Node)
    requires LiveShape(h, live) && Some(a) in live && Over(x, a) && Over(y, a)
    ensures LiveShape(h + [x, y], live - multiset{Some(a)} + multiset{Some(|h|), Some(|h| + 1)})
  {
    var h', live' := h + [x, y], live - multiset{Some(a)} + multiset{Some(|h|), Some(|h| + 1)};
    LiveNode(h, live, a);
    assert forall i :: 0 <= i < |h| ==> h'[i] == h[i];
    assert h'[|h|] == x && h'[|h| + 1] == y;
    FreshNotLive(h, live);
    forall c: Coeff | c in live' && c.Some? ensures LiveAt(h', live', c) {
      if c.value < |h| {
        LiveNode(h, live, c.value);
      }
    }
  }

  lemma FreshNotLive(h: Heap, live: multiset<Coeff>)
    requires LiveShape(h, live)
    ensures forall c: Coeff :: c.Some? && c.value >= |h| ==> c !in live
  {
    forall c: Coeff | c.Some? && c in live ensures c.value < |h| {
      LiveNode(h, live, c.value);
    }
  }

  /** Two coefficients in use made one sum. */
  lemma LiveJoined(h: Heap, live: multiset<Coeff>, a: nat, b: nat)
    requires LiveShape(h, live) && multiset{Some(a), Some(b)} <= live
    ensures LiveShape(h + [Add(a, b)], live - multiset{Some(a), Some(b)} + multiset{Some(|h|)})
  {
    var h', live' := h + [Add(a, b)], live - multiset{Some(a), Some(b)} + multiset{Some(|h|)};
    LiveNode(h, live, a);
    LiveNode(h, live, b);
    assert multiset{Some(a), Some(b)}[Some(a)] == if a == b then 2 else 1;
    assert forall i :: 0 <= i < |h| ==> h'[i] == h[i];
    FreshNotLive(h, live);
    forall c: Coeff | c in live' && c.Some? ensures LiveAt(h', live', c) {
      if c.value < |h| {
        LiveNode(h, live, c.value);
      }
    }
  }

  /** A new scalar in use. */
  lemma LiveStarted(h: Heap, live: multiset<Coeff>, x: real)
    requires LiveShape(h, live)
    ensures LiveShape(h + [Scalar(x)], live + multiset{Some(|h|)})
  {
    var h', live' := h + [Scalar(x)], live + multiset{Some(|h|)};
    assert forall i :: 0 <= i < |h| ==> h'[i] == h[i];
    FreshNotLive(h, live);
    forall c: Coeff | c in live' && c.Some? ensures LiveAt(h', live', c) {
      if c.value < |h| {
        LiveNode(h, live, c.value);
      }
    }
  }

  // ---- what coefficients stand for ----------------------------------------------

  /** The value of a coefficient under a table of angles; a missing one is worth nothing. */
  function CoeffUnder(h: Heap, c: Coeff, lut: seq<real>): real
  {
    if HeapOk(h) && c.Some? && c.value < |h| then Value(h, c.value, lut) else 0.0
  }

  predicate InHeap(h: Heap, c: Coeff) { c.Some? ==> c.value < |h| }

  lemma CoeffKept(h: Heap, g: Heap, c: Coeff, lut: seq<real>)
    requires HeapOk(h) && HeapOk(g) && h <= g && InHeap(h, c)
    ensures CoeffUnder(g, c, lut) == CoeffUnder(h, c, lut)
  {
    if c.Some? {
      var more := g[|h|..];
      assert g == h + more;
      ValueKept(h, more, c.value, lut);
    }
  }

  /** One partition's rows. */
  datatype Shard = Shard(keys: seq<Key>, coeffs: seq<Coeff>)

  /** A routed symbolic branch. */
  datatype Message = Message(key: Key, hash: nat, node: Coeff)

  function NodesOf(box: seq<Message>): (r: seq<Coeff>)
    ensures |r| == |box| && forall i :: 0 <= i < |box| ==> r[i] == box[i].node
  {
    seq(|box|, i requires 0 <= i < |box| => box[i].node)
  }

  function Values(h: Heap, coeffs: seq<Coeff>, lut: seq<real>): (r: seq<real>)
    ensures |r| == |coeffs| && forall i :: 0 <= i < |coeffs| ==> r[i] == CoeffUnder(h, coeffs[i], lut)
  {
    seq(|coeffs|, i requires 0 <= i < |coeffs| => CoeffUnder(h, coeffs[i], lut))
  }

  /** The rows as a numeric partition, once the angles are known. */
  function PartUnder(h: Heap, s: Shard, lut: seq<real>): Part { Part(s.keys, Values(h, s.coeffs, lut), map[], []) }

  function RoutedUnder(h: Heap, m: Message, lut: seq<real>): Routed
  {
    Routed(m.key, m.hash, CoeffUnder(h, m.node, lut))
  }

  /** The branches as they are under a table of angles. */
  function BoxUnder(h: Heap, box: seq<Message>, lut: seq<real>): (r: seq<Routed>)
    ensures |r| == |box| && forall i :: 0 <= i < |box| ==> r[i] == RoutedUnder(h, box[i], lut)
  {
    seq(|box|, i requires 0 <= i < |box| => RoutedUnder(h, box[i], lut))
  }

  function BoxesUnder(h: Heap, out: seq<seq<Message>>, lut: seq<real>): (r: seq<seq<Routed>>)
    ensures |r| == |out| && forall d :: 0 <= d < |out| ==> r[d] == BoxUnder(h, out[d], lut)
  {
    seq(|out|, d requires 0 <= d < |out| => BoxUnder(h, out[d], lut))
  }

  ghost predicate AllInHeap(h: Heap, coeffs: seq<Coeff>) { forall i :: 0 <= i < |coeffs| ==> InHeap(h, coeffs[i]) }

  lemma LiveInHeap(h: Heap, coeffs: seq<Coeff>, rest: multiset<Coeff>)
    requires LiveShape(h, multiset(coeffs) + rest)
    ensures AllInHeap(h, coeffs)
  {
    forall i | 0 <= i < |coeffs| ensures InHeap(h, coeffs[i]) {
      assert coeffs[i] in multiset(coeffs);
      if coeffs[i].Some? {
        LiveNode(h, multiset(coeffs) + rest, coeffs[i].value);
      }
    }
  }

  lemma PartKept(h: Heap, g: Heap, s: Shard, lut: seq<real>)
    requires HeapOk(h) && HeapOk(g) && h <= g && AllInHeap(h, s.coeffs)
    ensures PartUnder(g, s, lut) == PartUnder(h, s, lut)
  {
    forall i | 0 <= i < |s.coeffs| ensures CoeffUnder(g, s.coeffs[i], lut) == CoeffUnder(h, s.coeffs[i], lut) {
      CoeffKept(h, g, s.coeffs[i], lut);
    }
    assert Values(g, s.coeffs, lut) == Values(h, s.coeffs, lut);
  }

  lemma BoxKept(h: Heap, g: Heap, box: seq<Message>, lut: seq<real>)
    requires HeapOk(h) && HeapOk(g) && h <= g && AllInHeap(h, NodesOf(box))
    ensures BoxUnder(g, box, lut) == BoxUnder(h, box, lut)
  {
    forall i | 0 <= i < |box| ensures CoeffUnder(g, box[i].node, lut) == CoeffUnder(h, box[i].node, lut) {
      assert NodesOf(box)[i] == box[i].node;
      CoeffKept(h, g, box[i].node, lut);
    }
    assert BoxUnder(g, box, lut) == BoxUnder(h, box, lut);
  }

  // ---- branching ----------------------------------------------------------------

  /** The nodes a rotation appends over `node`: the cosine branch first, the sine branch last. */
  function BranchNodes(x: Param, sign: real, node: nat, base: nat): (r: seq<Node>)
    ensures 2 <= |r| <= 3
  {
    match x
    case Symbolic(p) =>
      if sign == 1.0 then [Cos(p, node), Sin(p, node)] else [Cos(p, node), Sin(p, node), Scale(sign, base + 1)]
    case Numeric(c, s) => [Scale(c, node), Scale(Times(s, sign), node)]
  }

  /** What a rotation appends for a coefficient; nothing for a missing one. */
  function Branches(x: Param, sign: real, c: Coeff, base: nat): seq<Node>
  {
    if c.None? then [] else BranchNodes(x, sign, c.value, base)
  }

  /** The cosine and the sine branch afterwards. */
  function CosBranch(c: Coeff, base: nat): Coeff { if c.None? then None else Some(base) }

  function SineBranch(x: Param, sign: real, c: Coeff, base: nat): Coeff
  {
    if c.None? then None else Some(base + |BranchNodes(x, sign, c.value, base)| - 1)
  }

  /** The branches replace the coefficient among those in use. */
  lemma LiveBranched(h: Heap, live: multiset<Coeff>, x: Param, sign: real, c: Coeff)
    requires LiveShape(h, live) && c in live
    ensures LiveShape(h + Branches(x, sign, c, |h|),
                      live - multiset{c} + multiset{CosBranch(c, |h|), SineBranch(x, sign, c, |h|)})
  {
    hide LiveShape;
    if c.None? {
      assert h + [] == h;
      LiveLess(h, live, live - multiset{c} + multiset{None, None});
    } else {
      NodesBranched(h, live, c.value, BranchNodes(x, sign, c.value, |h|));
    }
  }

  lemma NodesBranched(h: Heap, live: multiset<Coeff>, a: nat, more: seq<Node>)
    requires LiveShape(h, live) && Some(a) in live && 2 <= |more| <= 3 && Over(more[0], a) && Over(more[1], a)
    requires |more| == 3 ==> Over(more[2], |h| + 1)
    ensures LiveShape(h + more, live - multiset{Some(a)} + multiset{Some(|h|), Some(|h| + |more| - 1)})
  {
    hide LiveShape, Over;
    var others, two := live - multiset{Some(a)}, h + [more[0], more[1]];
    LiveSplit(h, live, a, more[0], more[1]);
    if |more| == 3 {
      LastReplaced(others, Some(|h|), Some(|h| + 1), Some(|h| + 2));
      LiveWrapped(two, others + multiset{Some(|h|), Some(|h| + 1)}, |h| + 1, more[2]);
      assert two + [more[2]] == h + more;
    } else {
      assert two == h + more;
    }
  }

  lemma LastReplaced(others: multiset<Coeff>, u: Coeff, v: Coeff, w: Coeff)
    ensures v in others + multiset{u, v}
      && others + multiset{u, v} - multiset{v} + multiset{w} == others + multiset{u, w}
  {
  }

  /** What the two branches stand for. */
  lemma BranchValues(h: Heap, x: Param, sign: real, c: Coeff, lut: seq<real>)
    requires HeapOk(h) && InHeap(h, c) && HeapOk(h + Branches(x, sign, c, |h|)) && IsSign(sign)
    ensures var g := h + Branches(x, sign, c, |h|);
      && CoeffUnder(g, CosBranch(c, |h|), lut) == CosUnder(x, lut) * CoeffUnder(h, c, lut)
      && CoeffUnder(g, SineBranch(x, sign, c, |h|), lut) == CoeffUnder(h, c, lut) * SinUnder(x, lut) * sign
  {
    if c.None? {
      NoBranch(CosUnder(x, lut), SinUnder(x, lut), sign);
    } else {
      var more := BranchNodes(x, sign, c.value, |h|);
      var g := h + more;
      assert Branches(x, sign, c, |h|) == more;
      ValueKept(h, more, c.value, lut);
      assert g[|h|] == more[0] && g[|h| + 1] == more[1];
      var a, last := Value(h, c.value, lut), |h| + |more| - 1;
      SineProduct(a, SinUnder(x, lut), sign);
      assert g[last] == more[|more| - 1];
      assert Value(g, last, lut) == a * SinUnder(x, lut) * sign;
    }
  }

  lemma NoBranch(c: real, s: real, sign: real)
    ensures c * 0.0 == 0.0 && 0.0 * s * sign == 0.0
  {
  }

  lemma SineProduct(a: real, s: real, sign: real)
    requires IsSign(sign)
    ensures Times(Times(s, sign), a) == a * s * sign
    ensures Times(s, a) == a * s * 1.0
    ensures Times(sign, Times(s, a)) == a * s * sign
  {
  }

  /** The sign of the sine branch of `key`. */
  function BranchSignOf(kind: BasisKind, gen: Key, sign: real, key: Key): real
    requires |key| == |gen| && |key| % 2 == 0
  {
    -(PhaseIm(PhaseExp(kind, gen, key)) * sign)
  }

  lemma SignOfBranch(kind: BasisKind, gen: Key, sign: real, key: Key)
    requires |key| == |gen| && |key| % 2 == 0 && IsSign(sign) && Anticommutes(kind, gen, key)
    ensures IsSign(BranchSignOf(kind, gen, sign, key))
  {
    AnticommutesIsImaginary(kind, gen, key);
  }

  // ---- scanning a partition -----------------------------------------------------

  /** All coefficients of a list of holders together. */
  ghost function Total<T>(xs: seq<T>, of: T -> multiset<Coeff>): multiset<Coeff>
  {
    if xs == [] then multiset{} else Total(xs[..|xs| - 1], of) + of(xs[|xs| - 1])
  }

  lemma {:induction false} TotalUpdate<T>(xs: seq<T>, of: T -> multiset<Coeff>, d: nat, x: T)
    requires d < |xs|
    ensures Total(xs[d := x], of) + of(xs[d]) == Total(xs, of) + of(x)
    decreases |xs|
  {
    var last := |xs| - 1;
    var after := xs[d := x];
    if d < last {
      TotalUpdate(xs[..last], of, d, x);
      assert after[..last] == xs[..last][d := x] && after[last] == xs[last] && xs[..last][d] == xs[d];
      BothMore(Total(after[..last], of), of(xs[d]), Total(xs[..last], of), of(x), of(xs[last]));
    } else {
      assert after[..last] == xs[..last] && after[last] == x;
      BothMore(Total(xs[..last], of), of(xs[last]), Total(xs[..last], of), of(xs[last]), of(x));
    }
  }

  lemma BothMore(a: multiset<Coeff>, x: multiset<Coeff>, b: multiset<Coeff>, y: multiset<Coeff>, more: multiset<Coeff>)
    requires a + x == b + y
    ensures (a + more) + x == (b + more) + y
  {
    assert (a + more) + x == (a + x) + more;
    assert (b + more) + y == (b + y) + more;
  }

  /** One holder's coefficients apart from the others'. */
  lemma {:induction false} TotalApart<T>(xs: seq<T>, of: T -> multiset<Coeff>, d: nat, none: T, x: T)
    requires d < |xs| && of(none) == multiset{}
    ensures Total(xs[d := x], of) == of(x) + Total(xs[d := none], of)
    ensures Total(xs, of) == of(xs[d]) + Total(xs[d := none], of)
  {
    hide Total;
    var without := xs[d := none];
    TotalUpdate(without, of, d, x);
    TotalUpdate(without, of, d, xs[d]);
    assert without[d := x] == xs[d := x] && without[d := xs[d]] == xs;
    NoneAdded(Total(xs[d := x], of), of(none));
    NoneAdded(Total(xs, of), of(none));
  }

  lemma NoneAdded(a: multiset<Coeff>, none: multiset<Coeff>)
    requires none == multiset{}
    ensures a + none == a
  {
  }

  lemma {:induction false} TotalNone<T>(xs: seq<T>, of: T -> multiset<Coeff>)
    requires forall d :: 0 <= d < |xs| ==> of(xs[d]) == multiset{}
    ensures Total(xs, of) == multiset{}
    decreases |xs|
  {
    if xs != [] {
      TotalNone(xs[..|xs| - 1], of);
    }
  }

  /** Holder by holder two lists together. */
  lemma {:induction false} TotalBoth<T>(xs: seq<T>, ys: seq<T>, zs: seq<T>, of: T -> multiset<Coeff>)
    requires |xs| == |ys| == |zs| && forall d :: 0 <= d < |zs| ==> of(zs[d]) == of(xs[d]) + of(ys[d])
    ensures Total(zs, of) == Total(xs, of) + Total(ys, of)
    decreases |zs|
  {
    if zs != [] {
      var last := |zs| - 1;
      TotalBoth(xs[..last], ys[..last], zs[..last], of);
    }
  }

  ghost function Carried(box: seq<Message>): multiset<Coeff> { multiset(NodesOf(box)) }

  /** The coefficients on their way, by destination. */
  ghost function LiveOut(out: seq<seq<Message>>): multiset<Coeff> { Total(out, Carried) }

  /** A partition under scan: the graph, its rows and its outbox. */
  datatype Scan = Scan(heap: Heap, shard: Shard, out: seq<seq<Message>>)

  ghost function LiveScan(w: Scan): multiset<Coeff> { multiset(w.shard.coeffs) + LiveOut(w.out) }

  ghost predicate Wide(s: Shard, n: nat)
  {
    |s.coeffs| == |s.keys| && forall i :: 0 <= i < |s.keys| ==> |s.keys[i]| == n
  }

  /** What is on its way to `d` belongs there. */
  ghost predicate BoundFor(box: seq<Message>, n: nat, full: Key -> nat, nParts: nat, d: nat)
  {
    forall i ::
      0 <= i < |box| ==>
        |box[i].key| == n && box[i].hash == full(box[i].key) && PartitionFromHash(box[i].hash, nParts) == d
  }

  ghost predicate AllBound(out: seq<seq<Message>>, n: nat, full: Key -> nat)
  {
    forall d :: 0 <= d < |out| ==> BoundFor(out[d], n, full, |out|, d)
  }

  /** Row `i` keeps its cosine branch and sends its sine branch. */
  function RowSplit(kind: BasisKind, gen: Key, sign: real, x: Param, full: Key -> nat, w: Scan, i: nat): Scan
    requires i < |w.shard.keys| == |w.shard.coeffs| && |w.shard.keys[i]| == |gen| && |gen| % 2 == 0 && |w.out| > 0
  {
    var b, c := BranchSignOf(kind, gen, sign, w.shard.keys[i]), w.shard.coeffs[i];
    var child := Xor(gen, w.shard.keys[i]);
    var hash := full(child);
    var d := PartitionFromHash(hash, |w.out|);
    Scan(w.heap + Branches(x, b, c, |w.heap|), w.shard.(coeffs := w.shard.coeffs[i := CosBranch(c, |w.heap|)]),
         w.out[d := w.out[d] + [Message(child, hash, SineBranch(x, b, c, |w.heap|))]])
  }

  lemma SplitLive(kind: BasisKind, gen: Key, sign: real, x: Param, full: Key -> nat, w: Scan, i: nat,
                  rest: multiset<Coeff>)
    requires i < |w.shard.keys| == |w.shard.coeffs| && |w.shard.keys[i]| == |gen| && |gen| % 2 == 0 && |w.out| > 0
    requires LiveShape(w.heap, LiveScan(w) + rest)
    ensures var w' := RowSplit(kind, gen, sign, x, full, w, i);
      LiveShape(w'.heap, LiveScan(w') + rest) && w.heap <= w'.heap
  {
    hide LiveShape, Branches, SineBranch, CosBranch;
    var w' := RowSplit(kind, gen, sign, x, full, w, i);
    var b, c := BranchSignOf(kind, gen, sign, w.shard.keys[i]), w.shard.coeffs[i];
    var u, v := CosBranch(c, |w.heap|), SineBranch(x, b, c, |w.heap|);
    var d := PartitionFromHash(full(Xor(gen, w.shard.keys[i])), |w.out|);
    var live := LiveScan(w) + rest;
    assert c in w.shard.coeffs;
    LiveBranched(w.heap, live, x, b, c);
    OneSent(w.out, d, w'.out[d][|w.out[d]|]);
    assert multiset(w'.shard.coeffs) == multiset(w.shard.coeffs) - multiset{c} + multiset{u};
    Regrouped(multiset(w.shard.coeffs), LiveOut(w.out), rest, c, u, v);
    assert live - multiset{c} + multiset{u, v} == LiveScan(w') + rest;
  }

  lemma OneSent(out: seq<seq<Message>>, d: nat, msg: Message)
    requires d < |out|
    ensures LiveOut(out[d := out[d] + [msg]]) == LiveOut(out) + multiset{msg.node}
  {
    var box := out[d] + [msg];
    TotalUpdate(out, Carried, d, box);
    assert NodesOf(box) == NodesOf(out[d]) + [msg.node];
    OffBoth(LiveOut(out[d := box]), LiveOut(out), multiset(NodesOf(out[d])), multiset{msg.node});
  }

  lemma OffBoth(a: multiset<Coeff>, b: multiset<Coeff>, x: multiset<Coeff>, y: multiset<Coeff>)
    requires a + x == b + (x + y)
    ensures a == b + y
  {
    assert a == a + x - x;
    assert b + y == b + (x + y) - x;
  }

  lemma Regrouped(a: multiset<Coeff>, b: multiset<Coeff>, rest: multiset<Coeff>, c: Coeff, u: Coeff, v: Coeff)
    requires c in a
    ensures (a + b + rest) - multiset{c} + multiset{u, v} == (a - multiset{c} + multiset{u}) + (b + multiset{v}) + rest
  {
  }

  lemma SplitBound(kind: BasisKind, gen: Key, sign: real, x: Param, full: Key -> nat, w: Scan, i: nat)
    requires i < |w.shard.keys| == |w.shard.coeffs| && |w.shard.keys[i]| == |gen| && |gen| % 2 == 0 && |w.out| > 0
    requires AllBound(w.out, |gen|, full)
    ensures AllBound(RowSplit(kind, gen, sign, x, full, w, i).out, |gen|, full)
  {
  }

  /** Under any angles splitting the symbolic row is scanning the numeric one. */
  lemma SplitUnder(kind: BasisKind, gen: Key, sign: real, x: Param, full: Key -> nat, w: Scan, i: nat, params: nat,
                   lut: seq<real>)
    requires i < |w.shard.keys| == |w.shard.coeffs| && |w.shard.keys[i]| == |gen| && |gen| % 2 == 0 && |w.out| > 0
    requires HeapOk(w.heap) && HeapOk(RowSplit(kind, gen, sign, x, full, w, i).heap)
      && AllInHeap(w.heap, w.shard.coeffs)
    requires forall d :: 0 <= d < |w.out| ==> AllInHeap(w.heap, NodesOf(w.out[d]))
    requires IsSign(sign) && ParamOk(x, params) && AngleTable(lut, params) && Anticommutes(kind, gen, w.shard.keys[i])
    ensures var w' := RowSplit(kind, gen, sign, x, full, w, i);
      var t := TurnUnder(gen, sign, x, lut);
      var p := PartUnder(w.heap, w.shard, lut);
      && PartUnder(w'.heap, w'.shard, lut) == RowScanned(kind, t, NoCutoff(), p, i)
      && BoxesUnder(w'.heap, w'.out, lut) == RowSent(kind, t, NoCutoff(), full, p, i, BoxesUnder(w.heap, w.out, lut))
  {
    hide PhaseExp, PhaseIm, Branches, SineBranch, CosBranch, Anticommutes, Xor, AngleTable, ParamOk, HeapOk,
      CoeffUnder, AllInHeap, InHeap;
    var w' := RowSplit(kind, gen, sign, x, full, w, i);
    var t := TurnUnder(gen, sign, x, lut);
    var key := w.shard.keys[i];
    var b, c := BranchSignOf(kind, gen, sign, key), w.shard.coeffs[i];
    SignOfBranch(kind, gen, sign, key);
    InHeapAt(w.heap, w.shard.coeffs, i);
    BranchValues(w.heap, x, b, c, lut);
    PartKept(w.heap, w'.heap, w.shard, lut);
    var a := CoeffUnder(w.heap, c, lut);
    var p := PartUnder(w.heap, w.shard, lut);
    ghost var q := PartUnder(w'.heap, w'.shard, lut).coeffs;
    assert q[i] == Damp(t, a);
    forall j | 0 <= j < |q| && j != i ensures q[j] == p.coeffs[j] {
      assert PartUnder(w'.heap, w.shard, lut).coeffs[j] == p.coeffs[j];
      assert w'.shard.coeffs[j] == w.shard.coeffs[j];
    }
    assert q == p.coeffs[i := Damp(t, a)];
    var d := PartitionFromHash(full(Xor(gen, key)), |w.out|);
    forall k | 0 <= k < |w.out| ensures BoxUnder(w'.heap, w.out[k], lut) == BoxUnder(w.heap, w.out[k], lut) {
      BoxKept(w.heap, w'.heap, w.out[k], lut);
    }
    var msg := MsgOf(kind, t, full, key, a);
    assert RoutedUnder(w'.heap, Message(Xor(gen, key), full(Xor(gen, key)), SineBranch(x, b, c, |w.heap|)), lut) == msg;
    assert BoxUnder(w'.heap, w'.out[d], lut) == BoxUnder(w.heap, w.out[d], lut) + [msg];
    assert BoxesUnder(w'.heap, w'.out, lut)
      == BoxesUnder(w.heap, w.out, lut)[d := BoxUnder(w.heap, w.out[d], lut) + [msg]];
  }

  lemma InHeapAt(h: Heap, coeffs: seq<Coeff>, i: nat)
    requires AllInHeap(h, coeffs) && i < |coeffs|
    ensures InHeap(h, coeffs[i])
  {
  }

  lemma ScanInHeap(w: Scan, rest: multiset<Coeff>)
    requires LiveShape(w.heap, LiveScan(w) + rest)
    ensures HeapOk(w.heap) && AllInHeap(w.heap, w.shard.coeffs)
    ensures forall d :: 0 <= d < |w.out| ==> AllInHeap(w.heap, NodesOf(w.out[d]))
  {
    assert LiveScan(w) + rest == multiset(w.shard.coeffs) + (LiveOut(w.out) + rest);
    LiveInHeap(w.heap, w.shard.coeffs, LiveOut(w.out) + rest);
    forall d | 0 <= d < |w.out| ensures AllInHeap(w.heap, NodesOf(w.out[d])) {
      BoxInHeap(w, rest, d);
    }
  }

  lemma BoxInHeap(w: Scan, rest: multiset<Coeff>, d: nat)
    requires LiveShape(w.heap, LiveScan(w) + rest) && d < |w.out|
    ensures AllInHeap(w.heap, NodesOf(w.out[d]))
  {
    hide LiveShape;
    var mine, less := multiset(NodesOf(w.out[d])), LiveOut(w.out[d := []]);
    TakenOut(w.out, d);
    var others := multiset(w.shard.coeffs) + less + rest;
    Swapped(multiset(w.shard.coeffs), less, mine, rest);
    assert LiveScan(w) + rest == mine + others;
    LiveInHeap(w.heap, NodesOf(w.out[d]), others);
  }

  lemma Swapped(a: multiset<Coeff>, less: multiset<Coeff>, mine: multiset<Coeff>, rest: multiset<Coeff>)
    ensures a + (less + mine) + rest == mine + (a + less + rest)
  {
  }

  /** One box emptied. */
  lemma TakenOut(out: seq<seq<Message>>, d: nat)
    requires d < |out|
    ensures LiveOut(out) == LiveOut(out[d := []]) + multiset(NodesOf(out[d]))
  {
    TotalUpdate(out, Carried, d, []);
    assert NodesOf([]) == [];
  }

  /** Under the table, the rows scanned so far are those of `seen`. */
  ghost predicate ScanningUnder(kind: BasisKind, gen: Key, sign: real, x: Param, full: Key -> nat, w0: Scan, w: Scan,
                                seen: set<nat>, lut: seq<real>)
  {
    && |gen| % 2 == 0 && PartOk(PartUnder(w0.heap, w0.shard, lut), |gen|) && |w.out| > 0
    && ScanSoFar(kind, TurnUnder(gen, sign, x, lut), NoCutoff(), full, PartUnder(w0.heap, w0.shard, lut),
      PartUnder(w.heap, w.shard, lut),
                 BoxesUnder(w.heap, w.out, lut), seen)
  }

  ghost predicate ScannedUnder(kind: BasisKind, gen: Key, sign: real, x: Param, full: Key -> nat, w0: Scan, w: Scan,
                               lut: seq<real>)
  {
    && |gen| % 2 == 0
    && ScanOf(kind, TurnUnder(gen, sign, x, lut), NoCutoff(), full, |gen|, PartUnder(w0.heap, w0.shard, lut),
      PartUnder(w.heap, w.shard, lut),
              BoxesUnder(w.heap, w.out, lut))
  }

  lemma ScanBegins(kind: BasisKind, gen: Key, sign: real, x: Param, full: Key -> nat, w: Scan, lut: seq<real>)
    requires |gen| % 2 == 0 && Wide(w.shard, |gen|) && Distinct(w.shard.keys) && |w.out| > 0
    requires forall d :: 0 <= d < |w.out| ==> w.out[d] == []
    ensures ScanningUnder(kind, gen, sign, x, full, w, w, {}, lut)
  {
    hide Anticommutes;
    var p := PartUnder(w.heap, w.shard, lut);
    ScanNone(kind, TurnUnder(gen, sign, x, lut), NoCutoff(), full, p, p, BoxesUnder(w.heap, w.out, lut));
  }

  lemma ScanContinues(kind: BasisKind, gen: Key, sign: real, x: Param, full: Key -> nat, w0: Scan, w: Scan,
                      seen: set<nat>, i: nat, params: nat, lut: seq<real>, rest: multiset<Coeff>)
    requires ScanningUnder(kind, gen, sign, x, full, w0, w, seen, lut) && Wide(w.shard, |gen|) && i < |w.shard.keys|
    requires i !in seen && w.shard.keys == w0.shard.keys && |w0.shard.coeffs| == |w0.shard.keys|
      && LiveShape(w.heap, LiveScan(w) + rest)
    requires IsSign(sign) && ParamOk(x, params) && AngleTable(lut, params) && Anticommutes(kind, gen, w.shard.keys[i])
    ensures ScanningUnder(kind, gen, sign, x, full, w0, RowSplit(kind, gen, sign, x, full, w, i), seen + {i}, lut)
  {
    hide Anticommutes, ScanSoFar, RowScanned, RowSent, AngleTable, ParamOk, PartOk, Branches, SineBranch, CosBranch,
      LiveShape, AllInHeap, CoeffUnder;
    SplitLive(kind, gen, sign, x, full, w, i, rest);
    LiveHeapOk(RowSplit(kind, gen, sign, x, full, w, i).heap,
      LiveScan(RowSplit(kind, gen, sign, x, full, w, i)) + rest);
    ScanInHeap(w, rest);
    SplitUnder(kind, gen, sign, x, full, w, i, params, lut);
    ScanStep(kind, TurnUnder(gen, sign, x, lut), NoCutoff(), full, PartUnder(w0.heap, w0.shard, lut),
      PartUnder(w.heap, w.shard, lut),
             BoxesUnder(w.heap, w.out, lut), seen, i);
  }

  lemma LiveHeapOk(h: Heap, live: multiset<Coeff>)
    requires LiveShape(h, live)
    ensures HeapOk(h)
  {
  }

  lemma ScanEnds(kind: BasisKind, gen: Key, sign: real, x: Param, full: Key -> nat, w0: Scan, w: Scan, seen: set<nat>,
                 lut: seq<real>)
    requires ScanningUnder(kind, gen, sign, x, full, w0, w, seen, lut)
    requires forall i: nat {:trigger i in seen} :: i in seen <==>
      i < |w0.shard.keys| && |w0.shard.keys[i]| == |gen| && |gen| % 2 == 0 && Anticommutes(kind, gen, w0.shard.keys[i])
    ensures ScannedUnder(kind, gen, sign, x, full, w0, w, lut)
  {
    hide Anticommutes, ScanSoFar, Scanned, Emitted;
    ScanDone(kind, TurnUnder(gen, sign, x, lut), NoCutoff(), full, PartUnder(w0.heap, w0.shard, lut),
      PartUnder(w.heap, w.shard, lut),
             BoxesUnder(w.heap, w.out, lut), seen);
  }

  /**
   One worker's scan: every anticommuting row splits, and its sine branch goes to the box of the
   partition that owns it. `rest` is what the other workers hold.
   */
  method ScanShard(kind: BasisKind, gen: Key, sign: real, x: Param, full: Key -> nat, h: Heap, s: Shard, nParts: nat,
                   ghost params: nat, ghost rest: multiset<Coeff>) returns (w: Scan)
    requires |gen| % 2 == 0 && Wide(s, |gen|) && Distinct(s.keys) && nParts > 0 && IsSign(sign) && ParamOk(x, params)
    requires LiveShape(h, multiset(s.coeffs) + rest)
    ensures h <= w.heap && LiveShape(w.heap, LiveScan(w) + rest)
    ensures w.shard.keys == s.keys && Wide(w.shard, |gen|) && |w.out| == nParts && AllBound(w.out, |gen|, full)
    ensures forall lut {:trigger ScannedUnder(kind, gen, sign, x, full, Scan(h, s, []), w, lut)} ::
      AngleTable(lut, params) ==> ScannedUnder(kind, gen, sign, x, full, Scan(h, s, []), w, lut)
  {
    hide Anticommutes, ParamOk, AngleTable, ScanningUnder, ScannedUnder, Branches, SineBranch, CosBranch, PhaseExp,
      LiveShape, AllBound, BranchSignOf;
    w := Scan(h, s, seq(nParts, d => []));
    ghost var w0 := w;
    TotalNone(w.out, Carried);
    assert multiset(s.coeffs) + rest == LiveScan(w) + rest;
    NothingBound(w.out, |gen|, full);
    ghost var seen: set<nat> := {};
    forall lut ensures ScanningUnder(kind, gen, sign, x, full, w0, w0, {}, lut) {
      ScanBegins(kind, gen, sign, x, full, w0, lut);
    }
    var i: nat := 0;
    while i < |s.keys|
      invariant i <= |s.keys| && w.shard.keys == s.keys && Wide(w.shard, |gen|) && |w.out| == nParts && h <= w.heap
      invariant LiveShape(w.heap, LiveScan(w) + rest) && AllBound(w.out, |gen|, full)
      invariant forall j: nat {:trigger j in seen} :: j in seen <==>
        j < i && |s.keys[j]| == |gen| && Anticommutes(kind, gen, s.keys[j])
      invariant forall lut {:trigger ScanningUnder(kind, gen, sign, x, full, w0, w, seen, lut)} ::
        AngleTable(lut, params) ==> ScanningUnder(kind, gen, sign, x, full, w0, w, seen, lut)
    {
      if Anticommutes(kind, gen, s.keys[i]) {
        ghost var before := w;
        forall lut | AngleTable(lut, params)
          ensures ScanningUnder(kind, gen, sign, x, full, w0, RowSplit(kind, gen, sign, x, full, before, i),
            seen + {i}, lut)
        {
          ScanContinues(kind, gen, sign, x, full, w0, before, seen, i, params, lut, rest);
        }
        SplitLive(kind, gen, sign, x, full, w, i, rest);
        SplitBound(kind, gen, sign, x, full, w, i);
        w := RowSplit(kind, gen, sign, x, full, w, i);
        seen := seen + {i};
      }
      i := i + 1;
    }
    forall lut | AngleTable(lut, params) ensures ScannedUnder(kind, gen, sign, x, full, Scan(h, s, []), w, lut) {
      ScanEnds(kind, gen, sign, x, full, w0, w, seen, lut);
      SameScanStart(kind, gen, sign, x, full, w0, w, lut);
    }
  }

  lemma NothingBound(out: seq<seq<Message>>, n: nat, full: Key -> nat)
    requires forall d :: 0 <= d < |out| ==> out[d] == []
    ensures AllBound(out, n, full)
  {
  }

  lemma SameScanStart(kind: BasisKind, gen: Key, sign: real, x: Param, full: Key -> nat, w0: Scan, w: Scan,
                      lut: seq<real>)
    requires ScannedUnder(kind, gen, sign, x, full, w0, w, lut)
    ensures ScannedUnder(kind, gen, sign, x, full, Scan(w0.heap, w0.shard, []), w, lut)
  {
  }
}
