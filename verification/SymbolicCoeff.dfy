/**
 Symbolic coefficients: a shared graph of nodes. A node's place in the heap is its identity;
 a node is built from nodes that exist already, so children lie below their parents.
 */
module SymbolicCoeffs {

  datatype Node =
    | Scalar(c: real)
    | Add(left: nat, right: nat)
    | Scale(factor: real, inner: nat)
    | Cos(param: nat, inner: nat)
    | Sin(param: nat, inner: nat)

  type Heap = seq<Node>

  /** `c` is a child of the node. */
  predicate Child(x: Node, c: nat)
  {
    match x
    case Scalar(_) => false
    case Add(a, b) => c == a || c == b
    case Scale(_, a) => c == a
    case Cos(_, a) => c == a
    case Sin(_, a) => c == a
  }

  /** The children of a node all lie below `bound`. */
  predicate Fits(x: Node, bound: nat)
  {
    match x
    case Scalar(_) => true
    case Add(a, b) => a < bound && b < bound
    case Scale(_, a) => a < bound
    case Cos(_, a) => a < bound
    case Sin(_, a) => a < bound
  }

  predicate HeapOk(h: Heap)
  {
    forall i :: 0 <= i < |h| ==> Fits(h[i], i)
  }

  /** `y` is `x` or lies below it. */
  predicate Reaches(h: Heap, x: nat, y: nat)
    requires HeapOk(h) && x < |h|
    decreases x
  {
    x == y || match h[x]
      case Scalar(_) => false
      case Add(a, b) => Reaches(h, a, y) || Reaches(h, b, y)
      case Scale(_, a) => Reaches(h, a, y)
      case Cos(_, a) => Reaches(h, a, y)
      case Sin(_, a) => Reaches(h, a, y)
  }

  /** `y` lies strictly below `x`. */
  ghost predicate Below(h: Heap, x: nat, y: nat)
    requires HeapOk(h) && x < |h|
  {
    exists c :: Child(h[x], c) && Reaches(h, c, y)
  }

  lemma {:induction false} ReachesIs(h: Heap, x: nat, y: nat)
    requires HeapOk(h) && x < |h|
    ensures Reaches(h, x, y) <==> x == y || Below(h, x, y)
  {
    if Reaches(h, x, y) && x != y {
      match h[x]
      case Add(a, b) => assert Child(h[x], a) && Child(h[x], b);
      case Scale(_, a) => assert Child(h[x], a);
      case Cos(_, a) => assert Child(h[x], a);
      case Sin(_, a) => assert Child(h[x], a);
    }
  }

  lemma {:induction false} ReachesDown(h: Heap, x: nat, y: nat)
    requires HeapOk(h) && x < |h| && Reaches(h, x, y)
    ensures y <= x
    ensures Below(h, x, y) ==> y < x
    decreases x
  {
    ReachesIs(h, x, y);
    if Below(h, x, y) {
      var c :| Child(h[x], c) && Reaches(h, c, y);
      ReachesDown(h, c, y);
    }
  }

  lemma BelowIsSmaller(h: Heap, x: nat, y: nat)
    requires HeapOk(h) && x < |h| && Below(h, x, y)
    ensures y < x
  {
    ReachesIs(h, x, y);
    ReachesDown(h, x, y);
  }

  lemma {:induction false} ReachesTrans(h: Heap, x: nat, y: nat, z: nat)
    requires HeapOk(h) && x < |h| && y < |h| && Reaches(h, x, y) && Reaches(h, y, z)
    ensures Reaches(h, x, z)
    decreases x
  {
    ReachesIs(h, x, y);
    if x != y {
      var c :| Child(h[x], c) && Reaches(h, c, y);
      ReachesTrans(h, c, y, z);
      ReachesIs(h, x, z);
    }
  }

  /** Nodes added later change nothing about the ones that were there. */
  lemma {:induction false} ReachesKept(h: Heap, more: Heap, x: nat, y: nat)
    requires HeapOk(h) && HeapOk(h + more) && x < |h|
    ensures Reaches(h + more, x, y) == Reaches(h, x, y)
    decreases x
  {
    assert (h + more)[x] == h[x];
    match h[x]
    case Scalar(_) =>
    case Add(a, b) =>
      ReachesKept(h, more, a, y);
      ReachesKept(h, more, b, y);
    case Scale(_, a) => ReachesKept(h, more, a, y);
    case Cos(_, a) => ReachesKept(h, more, a, y);
    case Sin(_, a) => ReachesKept(h, more, a, y);
  }

  // ---- what a node stands for ---------------------------------------------------

  function Times(x: real, y: real): real { x * y }

  lemma TimesLaws(x: real, y: real, z: real)
    ensures Times(x, Times(y, z)) == Times(y, Times(x, z)) == Times(Times(x, y), z)
    ensures Times(x, y) == Times(y, x) && Times(x, y + z) == Times(x, y) + Times(x, z)
      && Times(x + y, z) == Times(x, z) + Times(y, z)
    ensures Times(1.0, x) == x && Times(x, 1.0) == x && Times(0.0, x) == 0.0 && Times(x, 0.0) == 0.0
  {
    assert x * (y * z) == y * (x * z);
    assert (x * y) * z == x * (y * z);
  }

  /** Cosine and sine of parameter `p`, from the table of angles. */
  function CosOf(lut: seq<real>, p: nat): real { if 2 * p < |lut| then lut[2 * p] else 0.0 }

  function SinOf(lut: seq<real>, p: nat): real { if 2 * p + 1 < |lut| then lut[2 * p + 1] else 0.0 }

  function Value(h: Heap, x: nat, lut: seq<real>): real
    requires HeapOk(h) && x < |h|
    decreases x
  {
    match h[x]
    case Scalar(c) => c
    case Add(a, b) => Value(h, a, lut) + Value(h, b, lut)
    case Scale(f, a) => Times(f, Value(h, a, lut))
    case Cos(p, a) => Times(CosOf(lut, p), Value(h, a, lut))
    case Sin(p, a) => Times(SinOf(lut, p), Value(h, a, lut))
  }

  lemma {:induction false} ValueKept(h: Heap, more: Heap, x: nat, lut: seq<real>)
    requires HeapOk(h) && HeapOk(h + more) && x < |h|
    ensures Value(h + more, x, lut) == Value(h, x, lut)
    decreases x
  {
    assert (h + more)[x] == h[x];
    match h[x]
    case Scalar(_) =>
    case Add(a, b) =>
      ValueKept(h, more, a, lut);
      ValueKept(h, more, b, lut);
    case Scale(_, a) => ValueKept(h, more, a, lut);
    case Cos(_, a) => ValueKept(h, more, a, lut);
    case Sin(_, a) => ValueKept(h, more, a, lut);
  }

  // ---- the shape the gate loop keeps --------------------------------------------

  /** No node of the heap has `x` for a child. */
  ghost predicate Parentless(h: Heap, x: nat)
  {
    forall i :: 0 <= i < |h| ==> !Child(h[i], x)
  }

  /** The two summands of a sum are different and belong to no other node. */
  ghost predicate SumsOwnTheirParts(h: Heap)
  {
    forall i, j, c :: 0 <= i < |h| && h[i].Add? && Child(h[i], c) && 0 <= j < |h| && Child(h[j], c) ==>
      i == j && h[i].left != h[i].right
  }

  /** Coefficients in use: each a different node that nothing points to. */
  ghost predicate LiveOk(h: Heap, live: seq<nat>)
  {
    && (forall i :: 0 <= i < |live| ==> live[i] < |h| && Parentless(h, live[i]))
    && (forall i, j :: 0 <= i < j < |live| ==> live[i] != live[j])
  }

  ghost predicate Shape(h: Heap, live: seq<nat>)
  {
    HeapOk(h) && SumsOwnTheirParts(h) && LiveOk(h, live)
  }

  /** No coefficient in use lies below another. */
  ghost predicate Antichain(h: Heap, live: seq<nat>)
    requires HeapOk(h) && forall i :: 0 <= i < |live| ==> live[i] < |h|
  {
    forall i, j :: 0 <= i < |live| && 0 <= j < |live| && i != j ==> !Reaches(h, live[i], live[j])
  }

  /** In no sum does one summand lie below the other. */
  ghost predicate SumsIncomparable(h: Heap)
    requires HeapOk(h)
  {
    forall i :: 0 <= i < |h| && h[i].Add? ==>
      !Reaches(h, h[i].left, h[i].right) && !Reaches(h, h[i].right, h[i].left)
  }

  /** Whatever reaches a node from elsewhere comes in through one of its parents. */
  lemma {:induction false} ThroughParent(h: Heap, x: nat, y: nat) returns (p: nat)
    requires HeapOk(h) && x < |h| && Reaches(h, x, y) && x != y
    ensures p < |h| && Reaches(h, x, p) && Child(h[p], y)
    decreases x
  {
    ReachesIs(h, x, y);
    var c :| Child(h[x], c) && Reaches(h, c, y);
    if c == y {
      p := x;
    } else {
      p := ThroughParent(h, c, y);
      ReachesIs(h, x, c);
      ReachesIs(h, x, p);
      assert Below(h, x, p);
    }
  }

  /** The shape makes the coefficients in use an antichain and keeps summands apart. */
  lemma ShapeIsAntichain(h: Heap, live: seq<nat>)
    requires Shape(h, live)
    ensures Antichain(h, live) && SumsIncomparable(h)
  {
    forall i, j | 0 <= i < |live| && 0 <= j < |live| && i != j ensures !Reaches(h, live[i], live[j]) {
      if Reaches(h, live[i], live[j]) {
        var p := ThroughParent(h, live[i], live[j]);
      }
    }
    forall i | 0 <= i < |h| && h[i].Add?
      ensures !Reaches(h, h[i].left, h[i].right) && !Reaches(h, h[i].right, h[i].left)
    {
      SummandsApart(h, i, h[i].left, h[i].right);
      SummandsApart(h, i, h[i].right, h[i].left);
    }
  }

  lemma {:induction false} SummandsApart(h: Heap, i: nat, a: nat, b: nat)
    requires HeapOk(h) && SumsOwnTheirParts(h) && i < |h| && h[i].Add?
    requires Child(h[i], a) && Child(h[i], b) && {a, b} == {h[i].left, h[i].right}
    ensures !Reaches(h, a, b)
  {
    if Reaches(h, a, b) {
      assert a != b;
      var p := ThroughParent(h, a, b);
      assert p == i;
      ReachesDown(h, a, p);
    }
  }

  // ---- building nodes -----------------------------------------------------------

  lemma PushOk(h: Heap, x: Node, lut: seq<real>)
    requires HeapOk(h) && Fits(x, |h|)
    ensures HeapOk(h + [x])
    ensures forall i: nat :: i < |h| ==> Value(h + [x], i, lut) == Value(h, i, lut)
  {
    forall i: nat | i < |h| ensures Value(h + [x], i, lut) == Value(h, i, lut) {
      ValueKept(h, [x], i, lut);
    }
  }

  /** A node with `a` for its only child. */
  predicate Over(x: Node, a: nat)
  {
    match x
    case Scalar(_) => false
    case Add(_, _) => false
    case Scale(_, b) => b == a
    case Cos(_, b) => b == a
    case Sin(_, b) => b == a
  }

  /** What stays in use when the coefficient at `at` is replaced. */
  lemma ReplaceKeeps(h: Heap, live: seq<nat>, at: nat, x: Node)
    requires Shape(h, live) && at < |live| && Over(x, live[at])
    ensures Shape(h + [x], live[at := |h|])
  {
    var h' := h + [x];
    forall i | 0 <= i < |live| && i != at ensures Parentless(h', live[i]) {
      assert Parentless(h, live[i]);
    }
    assert Parentless(h, live[at]);
    assert forall i :: 0 <= i < |h| ==> h'[i] == h[i];
  }

  /** A rotation splits one coefficient into a cosine and a sine branch over the same node. */
  lemma BranchKeeps(h: Heap, live: seq<nat>, at: nat, x: Node, y: Node)
    requires Shape(h, live) && at < |live| && Over(x, live[at]) && Over(y, live[at])
    ensures Shape(h + [x] + [y], live[at := |h|] + [|h| + 1])
  {
    var h' := h + [x] + [y];
    assert forall i :: 0 <= i < |h| ==> h'[i] == h[i];
    assert h'[|h|] == x && h'[|h| + 1] == y;
    forall i | 0 <= i < |live| && i != at ensures Parentless(h', live[i]) {
      assert Parentless(h, live[i]);
    }
    assert Parentless(h, live[at]);
  }

  /** Merging two coefficients in use makes one sum out of them. */
  lemma MergeKeeps(h: Heap, live: seq<nat>, at: nat, from: nat)
    requires Shape(h, live) && at < from < |live|
    ensures Shape(h + [Add(live[at], live[from])], live[at := |h|][..from] + live[from + 1..])
  {
    var x := Add(live[at], live[from]);
    var h' := h + [x];
    assert forall i :: 0 <= i < |h| ==> h'[i] == h[i];
    assert Parentless(h, live[at]) && Parentless(h, live[from]);
    forall i | 0 <= i < |live| && i != at && i != from ensures Parentless(h', live[i]) {
      assert Parentless(h, live[i]);
    }
  }

  /** A new scalar joins the coefficients in use. */
  lemma FreshKeeps(h: Heap, live: seq<nat>, c: real)
    requires Shape(h, live)
    ensures Shape(h + [Scalar(c)], live + [|h|])
  {
    var h' := h + [Scalar(c)];
    assert forall i :: 0 <= i < |h| ==> h'[i] == h[i];
    forall i | 0 <= i < |live| ensures Parentless(h', live[i]) {
      assert Parentless(h, live[i]);
    }
  }

  lemma DropKeeps(h: Heap, live: seq<nat>, from: nat)
    requires Shape(h, live) && from < |live|
    ensures Shape(h, live[..from] + live[from + 1..])
  {
  }
}
