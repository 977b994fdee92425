/**
 Compiling shared coefficient graphs into one flat tape, and evaluating, merging and moving
 tapes about.
 */
module CompiledTapes {
  import opened Wrappers
  import opened SymbolicCoeffs

  datatype Op =
    | OpScalar(c: real)
    | OpAdd(left: nat, right: nat)
    | OpScale(factor: real, inner: nat)
    | OpCos(param: nat, inner: nat)
    | OpSin(param: nat, inner: nat)

  type Tape = seq<Op>

  /** Operands come before their users. */
  predicate OpFits(op: Op, bound: nat)
  {
    match op
    case OpScalar(_) => true
    case OpAdd(a, b) => a < bound && b < bound
    case OpScale(_, a) => a < bound
    case OpCos(_, a) => a < bound
    case OpSin(_, a) => a < bound
  }

  predicate TapeOk(ops: Tape) { forall i :: 0 <= i < |ops| ==> OpFits(ops[i], i) }

  /** The value of one operation, given the values before it. */
  function OpValue(op: Op, before: seq<real>, lut: seq<real>): real
    requires OpFits(op, |before|)
  {
    match op
    case OpScalar(c) => c
    case OpAdd(a, b) => before[a] + before[b]
    case OpScale(f, a) => Times(f, before[a])
    case OpCos(p, a) => Times(CosOf(lut, p), before[a])
    case OpSin(p, a) => Times(SinOf(lut, p), before[a])
  }

  /** The values of a tape, from the first operation on. */
  function TapeValues(ops: Tape, lut: seq<real>): (r: seq<real>)
    requires TapeOk(ops)
    ensures |r| == |ops|
  {
    if ops == [] then []
    else
      var before := TapeValues(ops[..|ops| - 1], lut);
      before + [OpValue(ops[|ops| - 1], before, lut)]
  }

  lemma {:induction false} TapeValueAt(ops: Tape, lut: seq<real>, i: nat)
    requires TapeOk(ops) && i < |ops|
    ensures TapeOk(ops[..i]) && TapeValues(ops, lut)[..i] == TapeValues(ops[..i], lut)
    ensures TapeValues(ops, lut)[i] == OpValue(ops[i], TapeValues(ops[..i], lut), lut)
    decreases |ops|
  {
    var last := |ops| - 1;
    if i < last {
      TapeValueAt(ops[..last], lut, i);
      assert ops[..last][..i] == ops[..i];
      assert TapeValues(ops, lut)[..i] == TapeValues(ops[..last], lut)[..i];
    } else {
      assert TapeValues(ops, lut)[..last] == TapeValues(ops[..last], lut);
    }
  }

  /** Evaluates into a reused buffer; whatever was in it does not matter. */
  method EvaluateInto(ops: Tape, lut: seq<real>, buffer: seq<real>) returns (out: seq<real>)
    requires TapeOk(ops)
    ensures out == TapeValues(ops, lut)
  {
    out := if |buffer| < |ops| then buffer + seq(|ops| - |buffer|, i => 0.0) else buffer[..|ops|];
    var i := 0;
    while i < |ops|
      invariant i <= |ops| == |out|
      invariant out[..i] == TapeValues(ops, lut)[..i]
    {
      TapeValueAt(ops, lut, i);
      var value := match ops[i]
        case OpScalar(c) => c
        case OpAdd(a, b) => out[a] + out[b]
        case OpScale(f, a) => Times(f, out[a])
        case OpCos(p, a) => Times(CosOf(lut, p), out[a])
        case OpSin(p, a) => Times(SinOf(lut, p), out[a]);
      assert value == OpValue(ops[i], out[..i], lut);
      out := out[i := value];
      assert out[..i + 1] == out[..i] + [value];
      i := i + 1;
    }
    assert out[..i] == out && TapeValues(ops, lut)[..i] == TapeValues(ops, lut);
  }

  // ---- compiling ----------------------------------------------------------------

  /** A node to be visited, or one whose children have been. */
  datatype Visit = Enter(node: nat) | Exit(node: nat)

  /** Every child of the node has been compiled. */
  predicate Ready(x: Node, memo: map<nat, nat>)
  {
    match x
    case Scalar(_) => true
    case Add(a, b) => a in memo && b in memo
    case Scale(_, a) => a in memo
    case Cos(_, a) => a in memo
    case Sin(_, a) => a in memo
  }

  /** The operation of a node whose children are compiled. */
  function OpOf(x: Node, memo: map<nat, nat>): (op: Op)
    requires Ready(x, memo)
  {
    match x
    case Scalar(c) => OpScalar(c)
    case Add(a, b) => OpAdd(memo[a], memo[b])
    case Scale(f, a) => OpScale(f, memo[a])
    case Cos(p, a) => OpCos(p, memo[a])
    case Sin(p, a) => OpSin(p, memo[a])
  }

  /**
   The part of the graph compiled so far: `order` lists its nodes as they were compiled, each
   once, children before parents, and the memo finds each at its place on the tape.
   */
  ghost predicate Compiled(h: Heap, order: seq<nat>, memo: map<nat, nat>, ops: Tape)
    requires HeapOk(h)
  {
    && |order| == |ops|
    && (forall i :: 0 <= i < |order| ==> order[i] < |h| && order[i] in memo && memo[order[i]] == i)
    && (forall x :: x in memo ==> memo[x] < |order| && order[memo[x]] == x)
    && (forall i :: 0 <= i < |order| ==> CompiledAt(h, order, memo, ops, i))
  }

  ghost predicate CompiledAt(h: Heap, order: seq<nat>, memo: map<nat, nat>, ops: Tape, i: nat)
    requires HeapOk(h)
  {
    && i < |order| == |ops| && order[i] < |h|
    && (forall c :: Child(h[order[i]], c) ==> c in memo && memo[c] < i)
    && Ready(h[order[i]], memo) && ops[i] == OpOf(h[order[i]], memo)
  }

  /** Compiled nodes evaluate to their values. */
  lemma {:induction false} CompiledValue(h: Heap, order: seq<nat>, memo: map<nat, nat>, ops: Tape, i: nat,
                                         lut: seq<real>)
    requires HeapOk(h) && Compiled(h, order, memo, ops) && i < |ops|
    ensures TapeOk(ops) && TapeValues(ops, lut)[i] == Value(h, order[i], lut)
    decreases i
  {
    CompiledTapeOk(h, order, memo, ops);
    assert CompiledAt(h, order, memo, ops, i);
    var x := h[order[i]];
    forall c | Child(x, c) ensures c in memo && memo[c] < i && TapeValues(ops, lut)[memo[c]] == Value(h, c, lut) {
      CompiledValue(h, order, memo, ops, memo[c], lut);
    }
    TapeValueAt(ops, lut, i);
    assert forall j :: 0 <= j < i ==> TapeValues(ops[..i], lut)[j] == TapeValues(ops, lut)[j];
    match x
    case Scalar(_) =>
    case Add(a, b) => assert Child(x, a) && Child(x, b);
    case Scale(_, a) => assert Child(x, a);
    case Cos(_, a) => assert Child(x, a);
    case Sin(_, a) => assert Child(x, a);
  }

  lemma CompiledTapeOk(h: Heap, order: seq<nat>, memo: map<nat, nat>, ops: Tape)
    requires HeapOk(h) && Compiled(h, order, memo, ops)
    ensures TapeOk(ops)
  {
    forall i | 0 <= i < |ops| ensures OpFits(ops[i], i) {
      assert CompiledAt(h, order, memo, ops, i);
      var x := h[order[i]];
      match x
      case Scalar(_) =>
      case Add(a, b) => assert Child(x, a) && Child(x, b);
      case Scale(_, a) => assert Child(x, a);
      case Cos(_, a) => assert Child(x, a);
      case Sin(_, a) => assert Child(x, a);
    }
  }

  // ---- the walk -----------------------------------------------------------------

  /** Every node on the stack is a different one, scheduled and not yet compiled. */
  ghost predicate StackOk(h: Heap, stack: seq<Visit>, scheduled: set<nat>, memo: map<nat, nat>)
    requires HeapOk(h)
  {
    && (forall i :: 0 <= i < |stack| ==> stack[i].node < |h| && stack[i].node in scheduled && stack[i].node !in memo)
    && (forall i, j :: 0 <= i < j < |stack| ==> stack[i].node != stack[j].node)
    && (forall x :: x in scheduled ==> x < |h| && (x in memo || exists i :: 0 <= i < |stack| && stack[i].node == x))
    && (forall x :: x in memo ==> x in scheduled)
  }

  /** What lies above a frame: descendants of an open node, nothing that leads to a waiting one. */
  ghost predicate Nested(h: Heap, stack: seq<Visit>)
    requires HeapOk(h)
  {
    forall i, j :: 0 <= i < j < |stack| ==> NestedAt(h, stack[i], stack[j].node)
  }

  ghost predicate NestedAt(h: Heap, low: Visit, high: nat)
    requires HeapOk(h)
  {
    && low.node < |h| && high < |h|
    && if low.Exit? then Below(h, low.node, high) else !Reaches(h, high, low.node)
  }

  /** The children of the open nodes among the first `k` frames are compiled or above them. */
  ghost predicate Covered(h: Heap, stack: seq<Visit>, memo: map<nat, nat>, k: nat)
  {
    forall i, c ::
      0 <= i < k && i < |stack| && stack[i].Exit? && ChildOf(h, stack[i].node, c) ==> c in memo || Above(stack, i, c)
  }

  predicate ChildOf(h: Heap, x: nat, c: nat) { x < |h| && Child(h[x], c) }

  ghost predicate Above(stack: seq<Visit>, i: nat, x: nat) { exists j :: i < j < |stack| && stack[j].node == x }

  /** Work left on the stack. */
  function Work(stack: seq<Visit>): nat
  {
    if stack == [] then 0 else Work(stack[..|stack| - 1]) + if stack[|stack| - 1].Enter? then 2 else 1
  }

  ghost function Unscheduled(h: Heap, scheduled: set<nat>): set<nat>
  {
    set x: nat | x < |h| && x !in scheduled
  }

  lemma UnscheduledShrinks(h: Heap, scheduled: set<nat>, x: nat)
    requires x < |h| && x !in scheduled
    ensures |Unscheduled(h, scheduled + {x})| < |Unscheduled(h, scheduled)|
  {
    assert Unscheduled(h, scheduled) == Unscheduled(h, scheduled + {x}) + {x};
  }

  /** The walk's whole state is consistent. */
  ghost predicate WalkOk(h: Heap, stack: seq<Visit>, scheduled: set<nat>, memo: map<nat, nat>)
    requires HeapOk(h)
  {
    StackOk(h, stack, scheduled, memo) && Nested(h, stack)
  }

  /** A scheduled child of the node on top has been compiled already. */
  lemma ScheduledChildDone(h: Heap, stack: seq<Visit>, scheduled: set<nat>, memo: map<nat, nat>, c: nat)
    requires HeapOk(h) && WalkOk(h, stack, scheduled, memo) && stack != []
    requires ChildOf(h, stack[|stack| - 1].node, c) && c in scheduled
    ensures c in memo
  {
    var top := |stack| - 1;
    var n := stack[top].node;
    assert c < n;
    if c !in memo {
      var i :| 0 <= i < |stack| && stack[i].node == c;
      assert NestedAt(h, stack[i], n);
      if stack[i].Exit? {
        BelowIsSmaller(h, c, n);
      } else {
        ReachesIs(h, n, c);
      }
    }
  }

  /** Opening the top node leaves the walk consistent. */
  lemma Opened(h: Heap, rest: seq<Visit>, n: nat, scheduled: set<nat>, memo: map<nat, nat>)
    requires HeapOk(h) && WalkOk(h, rest + [Enter(n)], scheduled, memo)
      && Covered(h, rest + [Enter(n)], memo, |rest| + 1)
    ensures WalkOk(h, rest + [Exit(n)], scheduled, memo) && Covered(h, rest + [Exit(n)], memo, |rest|)
  {
    var before, after := rest + [Enter(n)], rest + [Exit(n)];
    forall i | 0 <= i < |after| ensures after[i].node == before[i].node {
    }
    forall x | x in scheduled && x !in memo ensures exists i :: 0 <= i < |after| && after[i].node == x {
      var i :| 0 <= i < |before| && before[i].node == x;
      assert after[i].node == x;
    }
    forall i, j | 0 <= i < j < |after| ensures NestedAt(h, after[i], after[j].node) {
      assert NestedAt(h, before[i], before[j].node);
    }
    forall i, c | 0 <= i < |rest| && after[i].Exit? && ChildOf(h, after[i].node, c) && c !in memo
      ensures Above(after, i, c)
    {
      assert Above(before, i, c);
      var j :| i < j < |before| && before[j].node == c;
      assert after[j].node == c;
    }
  }

  /** A child of the open node at `k` goes on top, provided nothing above `k` waits below it. */
  lemma {:induction false} Pushed(h: Heap, stack: seq<Visit>, k: nat, c: nat, scheduled: set<nat>, memo: map<nat, nat>)
    requires HeapOk(h) && WalkOk(h, stack, scheduled, memo) && Covered(h, stack, memo, k)
    requires k < |stack| && stack[k].Exit? && ChildOf(h, stack[k].node, c) && c !in scheduled
    requires forall j :: k < j < |stack| ==> stack[j].Enter? && stack[j].node < |h| && !Reaches(h, c, stack[j].node)
    ensures WalkOk(h, stack + [Enter(c)], scheduled + {c}, memo) && Covered(h, stack + [Enter(c)], memo, k)
  {
    PushedNested(h, stack, k, c, scheduled, memo);
    PushedScheduled(h, stack, c, scheduled, memo);
    PushedCovered(h, stack, k, c, memo);
  }

  lemma {:induction false} PushedNested(h: Heap, stack: seq<Visit>, k: nat, c: nat, scheduled: set<nat>,
                                        memo: map<nat, nat>)
    requires HeapOk(h) && WalkOk(h, stack, scheduled, memo)
    requires k < |stack| && stack[k].Exit? && ChildOf(h, stack[k].node, c)
    requires forall j :: k < j < |stack| ==> stack[j].Enter? && stack[j].node < |h| && !Reaches(h, c, stack[j].node)
    ensures c < |h| && Nested(h, stack + [Enter(c)])
  {
    var n, after := stack[k].node, stack + [Enter(c)];
    assert c < |h|;
    forall i | 0 <= i < |stack| ensures NestedAt(h, after[i], c) {
      if i < k {
        assert NestedAt(h, stack[i], n);
        DownToChild(h, stack[i], n, c);
      } else if i == k {
        assert Reaches(h, c, c);
      }
    }
    forall i, j | 0 <= i < j < |after| ensures NestedAt(h, after[i], after[j].node) {
      if j < |stack| {
        assert NestedAt(h, stack[i], stack[j].node);
      }
    }
  }

  lemma PushedScheduled(h: Heap, stack: seq<Visit>, c: nat, scheduled: set<nat>, memo: map<nat, nat>)
    requires HeapOk(h) && StackOk(h, stack, scheduled, memo) && c < |h| && c !in scheduled
    ensures StackOk(h, stack + [Enter(c)], scheduled + {c}, memo)
  {
    var after := stack + [Enter(c)];
    forall x | x in scheduled + {c} && x !in memo ensures exists i :: 0 <= i < |after| && after[i].node == x {
      if x == c {
        assert after[|stack|].node == c;
      } else {
        var i :| 0 <= i < |stack| && stack[i].node == x;
        assert after[i].node == x;
      }
    }
  }

  lemma PushedCovered(h: Heap, stack: seq<Visit>, k: nat, c: nat, memo: map<nat, nat>)
    requires Covered(h, stack, memo, k) && k < |stack|
    ensures Covered(h, stack + [Enter(c)], memo, k)
  {
    var after := stack + [Enter(c)];
    forall i, d | 0 <= i < k && after[i].Exit? && ChildOf(h, after[i].node, d) && d !in memo
      ensures Above(after, i, d)
    {
      assert Above(stack, i, d);
      var j :| i < j < |stack| && stack[j].node == d;
      assert after[j].node == d;
    }
  }

  /** What holds between a frame and a node above it holds for the node's children. */
  lemma DownToChild(h: Heap, low: Visit, n: nat, c: nat)
    requires HeapOk(h) && NestedAt(h, low, n) && ChildOf(h, n, c)
    ensures NestedAt(h, low, c)
  {
    ReachesIs(h, n, c);
    assert Reaches(h, c, c);
    assert Reaches(h, n, c);
    if low.Exit? {
      var d :| Child(h[low.node], d) && Reaches(h, d, n);
      ReachesTrans(h, d, n, c);
    } else if Reaches(h, c, low.node) {
      ReachesTrans(h, n, c, low.node);
    }
  }

  /** Closing the top node: its children are compiled, and the rest stays consistent. */
  lemma Closed(h: Heap, rest: seq<Visit>, n: nat, scheduled: set<nat>, memo: map<nat, nat>, at: nat)
    requires HeapOk(h) && WalkOk(h, rest + [Exit(n)], scheduled, memo) && Covered(h, rest + [Exit(n)], memo, |rest| + 1)
    ensures n < |h| && n !in memo && Ready(h[n], memo)
    ensures WalkOk(h, rest, scheduled, memo[n := at]) && Covered(h, rest, memo[n := at], |rest|)
  {
    var before, memo' := rest + [Exit(n)], memo[n := at];
    assert before[|rest|] == Exit(n);
    assert n in scheduled;
    forall i, j | 0 <= i < j < |rest| ensures rest[i].node != rest[j].node {
      assert before[i].node != before[j].node;
    }
    forall c | Child(h[n], c) ensures c in memo {
      assert ChildOf(h, before[|rest|].node, c);
    }
    ReadyIfChildren(h[n], memo);
    forall i, j | 0 <= i < j < |rest| ensures NestedAt(h, rest[i], rest[j].node) {
      assert NestedAt(h, before[i], before[j].node);
    }
    forall i | 0 <= i < |rest| ensures rest[i].node < |h| && rest[i].node in scheduled && rest[i].node !in memo' {
      assert before[i] == rest[i];
    }
    forall x | x in scheduled && x !in memo' ensures exists i :: 0 <= i < |rest| && rest[i].node == x {
      var i :| 0 <= i < |before| && before[i].node == x;
      assert rest[i].node == x;
    }
    forall i, c | 0 <= i < |rest| && rest[i].Exit? && ChildOf(h, rest[i].node, c) && c !in memo'
      ensures Above(rest, i, c)
    {
      assert before[i] == rest[i];
      assert Above(before, i, c);
      var j :| i < j < |before| && before[j].node == c;
      assert rest[j].node == c;
    }
  }

  lemma ReadyIfChildren(x: Node, memo: map<nat, nat>)
    requires forall c :: Child(x, c) ==> c in memo
    ensures Ready(x, memo)
  {
    match x
    case Scalar(_) =>
    case Add(a, b) => assert Child(x, a) && Child(x, b);
    case Scale(_, a) => assert Child(x, a);
    case Cos(_, a) => assert Child(x, a);
    case Sin(_, a) => assert Child(x, a);
  }

  // ---- the compiler -------------------------------------------------------------

  /** The left summand of no sum leads to its right one. */
  ghost predicate SumsWalkable(h: Heap)
    requires HeapOk(h)
  {
    forall i :: 0 <= i < |h| && h[i].Add? ==> h[i].left == h[i].right || !Reaches(h, h[i].left, h[i].right)
  }

  /** Some coefficient leads to `x`. */
  ghost predicate FromRoots(h: Heap, coeffs: seq<Option<nat>>, x: nat)
    requires HeapOk(h)
  {
    exists i :: 0 <= i < |coeffs| && RootReaches(h, coeffs[i], x)
  }

  predicate RootReaches(h: Heap, root: Option<nat>, x: nat)
    requires HeapOk(h)
  {
    root.Some? && root.value < |h| && Reaches(h, root.value, x)
  }

  /** No coefficient leads to an earlier one, unless they are the same node. */
  ghost predicate RootsWalkable(h: Heap, coeffs: seq<Option<nat>>)
    requires HeapOk(h)
  {
    && (forall i :: 0 <= i < |coeffs| && coeffs[i].Some? ==> coeffs[i].value < |h|)
    && (forall i, j :: 0 <= i < j < |coeffs| && coeffs[i].Some? && coeffs[j].Some? ==>
          coeffs[i] == coeffs[j] || !RootReaches(h, coeffs[j], coeffs[i].value))
  }

  /** Schedules a child unless it is scheduled already. */
  method PushChild(h: Heap, stack: seq<Visit>, ghost k: nat, c: nat, scheduled: set<nat>, ghost memo: map<nat, nat>)
      returns (stack': seq<Visit>, scheduled': set<nat>)
    requires HeapOk(h) && WalkOk(h, stack, scheduled, memo) && Covered(h, stack, memo, k)
    requires k < |stack| && stack[k].Exit? && ChildOf(h, stack[k].node, c)
    requires c !in scheduled ==>
      forall j :: k < j < |stack| ==> stack[j].Enter? && stack[j].node < |h| && !Reaches(h, c, stack[j].node)
    ensures WalkOk(h, stack', scheduled', memo) && Covered(h, stack', memo, k)
    ensures if c in scheduled then stack' == stack && scheduled' == scheduled
            else stack' == stack + [Enter(c)] && scheduled' == scheduled + {c}
  {
    stack', scheduled' := stack, scheduled;
    if c !in scheduled {
      Pushed(h, stack, k, c, scheduled, memo);
      scheduled' := scheduled + {c};
      stack' := stack + [Enter(c)];
    }
  }

  /** Opens the top node: it waits for its children, which go above it if they are new. */
  method OpenNode(h: Heap, rest: seq<Visit>, n: nat, scheduled: set<nat>, ghost memo: map<nat, nat>)
      returns (stack': seq<Visit>, scheduled': set<nat>)
    requires HeapOk(h) && SumsWalkable(h) && WalkOk(h, rest + [Enter(n)], scheduled, memo)
    requires Covered(h, rest + [Enter(n)], memo, |rest| + 1) && n < |h|
    ensures WalkOk(h, stack', scheduled', memo) && Covered(h, stack', memo, |stack'|)
    ensures scheduled <= scheduled' && forall x :: x in scheduled' ==> x in scheduled || ChildOf(h, n, x)
    ensures scheduled' == scheduled ==> stack' == rest + [Exit(n)]
  {
    hide WalkOk, Covered;
    ghost var k := |rest|;
    Opened(h, rest, n, scheduled, memo);
    stack', scheduled' := rest + [Exit(n)], scheduled;
    match h[n] {
      case Scalar(_) =>
      case Add(a, b) =>
        stack', scheduled' := PushChild(h, stack', k, b, scheduled', memo);
        stack', scheduled' := PushChild(h, stack', k, a, scheduled', memo);
      case Scale(_, a) => stack', scheduled' := PushChild(h, stack', k, a, scheduled', memo);
      case Cos(_, a) => stack', scheduled' := PushChild(h, stack', k, a, scheduled', memo);
      case Sin(_, a) => stack', scheduled' := PushChild(h, stack', k, a, scheduled', memo);
    }
    forall c | ChildOf(h, n, c) ensures c in memo || Above(stack', k, c) {
      if c in scheduled {
        ScheduledChildDone(h, rest + [Enter(n)], scheduled, memo, c);
      } else {
        assert stack'[|stack'| - 1].node == c || stack'[k + 1].node == c;
      }
    }
    CoveredAll(h, stack', memo, k);
  }

  lemma CoveredAll(h: Heap, stack: seq<Visit>, memo: map<nat, nat>, k: nat)
    requires Covered(h, stack, memo, k) && k < |stack|
    requires forall c :: ChildOf(h, stack[k].node, c) ==> c in memo || Above(stack, k, c)
    requires forall j :: k < j < |stack| ==> stack[j].Enter?
    ensures Covered(h, stack, memo, |stack|)
  {
  }

  /** Puts every coefficient's root on the stack, each once. */
  method ScheduleRoots(h: Heap, coeffs: seq<Option<nat>>) returns (stack: seq<Visit>, scheduled: set<nat>)
    requires HeapOk(h) && RootsWalkable(h, coeffs)
    ensures WalkOk(h, stack, scheduled, map[]) && Covered(h, stack, map[], |stack|)
    ensures forall x :: x in scheduled <==> Some(x) in coeffs
  {
    stack, scheduled := [], {};
    for k := 0 to |coeffs|
      invariant WalkOk(h, stack, scheduled, map[])
      invariant forall i :: 0 <= i < |stack| ==> stack[i].Enter? && Some(stack[i].node) in coeffs[..k]
      invariant forall x :: x in scheduled <==> Some(x) in coeffs[..k]
    {
      assert coeffs[..k + 1] == coeffs[..k] + [coeffs[k]];
      if coeffs[k].Some? && coeffs[k].value !in scheduled {
        RootPushed(h, coeffs, k, stack, scheduled);
        scheduled := scheduled + {coeffs[k].value};
        stack := stack + [Enter(coeffs[k].value)];
      }
    }
    assert coeffs[..|coeffs|] == coeffs;
  }

  lemma RootPushed(h: Heap, coeffs: seq<Option<nat>>, k: nat, stack: seq<Visit>, scheduled: set<nat>)
    requires HeapOk(h) && RootsWalkable(h, coeffs) && k < |coeffs| && coeffs[k].Some? && coeffs[k].value !in scheduled
    requires WalkOk(h, stack, scheduled, map[])
    requires forall i :: 0 <= i < |stack| ==> stack[i].Enter? && Some(stack[i].node) in coeffs[..k]
    ensures WalkOk(h, stack + [Enter(coeffs[k].value)], scheduled + {coeffs[k].value}, map[])
  {
    var c := coeffs[k].value;
    var after := stack + [Enter(c)];
    forall i | 0 <= i < |stack| ensures NestedAt(h, after[i], c) {
      var root := Some(stack[i].node);
      assert root in coeffs[..k];
      var j :| 0 <= j < |coeffs[..k]| && coeffs[..k][j] == root;
      assert coeffs[j] == root && stack[i].node in scheduled;
    }
    forall i, j | 0 <= i < j < |after| ensures NestedAt(h, after[i], after[j].node) {
      if j < |stack| {
        assert NestedAt(h, stack[i], stack[j].node);
      }
    }
    forall x | x in scheduled + {c} ensures exists i :: 0 <= i < |after| && after[i].node == x {
      if x == c {
        assert after[|stack|].node == c;
      } else {
        var i :| 0 <= i < |stack| && stack[i].node == x;
        assert after[i].node == x;
      }
    }
  }

  /** One more node compiled. */
  lemma CompiledOne(h: Heap, order: seq<nat>, memo: map<nat, nat>, ops: Tape, n: nat)
    requires HeapOk(h) && Compiled(h, order, memo, ops) && n < |h| && n !in memo && Ready(h[n], memo)
    ensures Compiled(h, order + [n], memo[n := |ops|], ops + [OpOf(h[n], memo)])
  {
    var order', memo', ops' := order + [n], memo[n := |ops|], ops + [OpOf(h[n], memo)];
    forall i | 0 <= i < |order'| ensures CompiledAt(h, order', memo', ops', i) {
      if i < |order| {
        assert CompiledAt(h, order, memo, ops, i);
        assert Ready(h[order[i]], memo) && Ready(h[order[i]], memo');
      } else {
        ReadyChildren(h[n], memo);
        ReadyIfChildren(h[n], memo');
      }
    }
  }

  lemma ReadyChildren(x: Node, memo: map<nat, nat>)
    requires Ready(x, memo)
    ensures forall c :: Child(x, c) ==> c in memo
  {
  }

  /** What each compiled node stands for: its own nodes, no others, each once. */
  ghost predicate CompilesExactly(h: Heap, coeffs: seq<Option<nat>>, order: seq<nat>)
    requires HeapOk(h)
  {
    && (forall i, j :: 0 <= i < j < |order| ==> order[i] != order[j])
    && (forall x :: x in order <==> FromRoots(h, coeffs, x))
  }

  /**
   The batch compiler. With walkable roots and sums no child is ever looked up before it is
   compiled; operands come before their users; every node the coefficients lead to is
   compiled exactly once and no other; and each root evaluates to its coefficient.
   */
  method CompileBatch(h: Heap, coeffs: seq<Option<nat>>)
      returns (ok: bool, ops: Tape, roots: seq<Option<nat>>, ghost order: seq<nat>)
    requires HeapOk(h) && SumsWalkable(h) && RootsWalkable(h, coeffs)
    ensures ok && TapeOk(ops) && |order| == |ops| && CompilesExactly(h, coeffs, order)
    ensures |roots| == |coeffs| && forall i :: 0 <= i < |coeffs| ==> roots[i].Some? == coeffs[i].Some?
    ensures forall i ::
      0 <= i < |roots| && roots[i].Some? ==> roots[i].value < |ops| && order[roots[i].value] == coeffs[i].value
    ensures forall i :: 0 <= i < |ops| ==> order[i] < |h|
    ensures forall i: nat, lut {:trigger TapeValues(ops, lut)[i]} ::
      i < |ops| ==> TapeValues(ops, lut)[i] == Value(h, order[i], lut)
  {
    hide WalkOk, Covered, SumsWalkable, RootsWalkable, TapeOk, TapeValues;
    var stack, scheduled := ScheduleRoots(h, coeffs);
    RootsReachThemselves(h, coeffs);
    var memo: map<nat, nat> := map[];
    ops, order, ok := [], [], true;
    while stack != []
      invariant WalkOk(h, stack, scheduled, memo) && Covered(h, stack, memo, |stack|)
      invariant Compiled(h, order, memo, ops)
      invariant forall x :: x in scheduled ==> FromRoots(h, coeffs, x)
      invariant forall x :: Some(x) in coeffs ==> x in scheduled
      decreases |Unscheduled(h, scheduled)|, Work(stack)
    {
      var top, rest := stack[|stack| - 1], stack[..|stack| - 1];
      assert stack == rest + [top];
      TopIsNode(h, rest, top, scheduled, memo);
      ghost var before := scheduled;
      match top {
        case Enter(n) =>
          stack, scheduled := OpenNode(h, rest, n, scheduled, memo);
          OpeningWorks(h, coeffs, rest, n, before, scheduled, stack);
        case Exit(n) =>
          Closed(h, rest, n, scheduled, memo, |ops|);
          if !Ready(h[n], memo) {
            return false, ops, [], order;
          }
          CompiledOne(h, order, memo, ops, n);
          var op := OpOf(h[n], memo);
          ops := ops + [op];
          memo := memo[n := |ops| - 1];
          order := order + [n];
          stack := rest;
      }
    }
    AllCompiled(h, coeffs, order, memo, ops, scheduled);
    roots := seq(|coeffs|, i requires 0 <= i < |coeffs| =>
      if coeffs[i].Some? && coeffs[i].value in memo then Some(memo[coeffs[i].value]) else None);
  }

  lemma RootsReachThemselves(h: Heap, coeffs: seq<Option<nat>>)
    requires HeapOk(h) && RootsWalkable(h, coeffs)
    ensures forall x :: Some(x) in coeffs ==> FromRoots(h, coeffs, x)
  {
    forall x | Some(x) in coeffs ensures FromRoots(h, coeffs, x) {
      var i :| 0 <= i < |coeffs| && coeffs[i] == Some(x);
      assert RootReaches(h, coeffs[i], x);
    }
  }

  lemma TopIsNode(h: Heap, rest: seq<Visit>, top: Visit, scheduled: set<nat>, memo: map<nat, nat>)
    requires HeapOk(h) && WalkOk(h, rest + [top], scheduled, memo)
    ensures top.node < |h| && top.node in scheduled
  {
    assert (rest + [top])[|rest|] == top;
  }

  /** Opening a node makes progress and stays below the roots. */
  lemma {:induction false} OpeningWorks(h: Heap, coeffs: seq<Option<nat>>, rest: seq<Visit>, n: nat, before: set<nat>,
                                        after: set<nat>, stack: seq<Visit>)
    requires HeapOk(h) && n in before && before <= after && (forall x :: x in after ==> x in before || ChildOf(h, n, x))
    requires after == before ==> stack == rest + [Exit(n)]
    requires forall x :: x in before ==> FromRoots(h, coeffs, x)
    ensures forall x :: x in after ==> FromRoots(h, coeffs, x)
    ensures |Unscheduled(h, after)| < |Unscheduled(h, before)|
      || (after == before && Work(stack) < Work(rest + [Enter(n)]))
  {
    forall x | x in after ensures FromRoots(h, coeffs, x) {
      if x !in before {
        var i :| 0 <= i < |coeffs| && RootReaches(h, coeffs[i], n);
        assert Reaches(h, x, x);
        ReachesIs(h, n, x);
        ReachesTrans(h, coeffs[i].value, n, x);
        assert RootReaches(h, coeffs[i], x);
      }
    }
    assert (rest + [Enter(n)])[..|rest|] == rest && (rest + [Exit(n)])[..|rest|] == rest;
    if after != before {
      var x :| x in after && x !in before;
      UnscheduledShrinks(h, before, x);
      FewerUnscheduled(h, before + {x}, after);
    }
  }

  lemma FewerUnscheduled(h: Heap, a: set<nat>, b: set<nat>)
    requires a <= b
    ensures |Unscheduled(h, b)| <= |Unscheduled(h, a)|
  {
    Fewer(Unscheduled(h, b), Unscheduled(h, a));
  }

  lemma {:induction false} Fewer(a: set<nat>, b: set<nat>)
    requires a <= b
    ensures |a| <= |b|
    decreases |a|
  {
    if a != {} {
      var x :| x in a;
      Fewer(a - {x}, b - {x});
    }
  }

  /** Once the stack is empty exactly the nodes below the roots are compiled. */
  lemma {:induction false} AllCompiled(h: Heap, coeffs: seq<Option<nat>>, order: seq<nat>, memo: map<nat, nat>,
                                       ops: Tape, scheduled: set<nat>)
    requires HeapOk(h) && Compiled(h, order, memo, ops) && WalkOk(h, [], scheduled, memo)
    requires forall x :: x in scheduled ==> FromRoots(h, coeffs, x)
    requires forall x :: Some(x) in coeffs ==> x in scheduled
    ensures CompilesExactly(h, coeffs, order) && TapeOk(ops)
    ensures forall x :: Some(x) in coeffs ==> x in memo
    ensures forall i :: 0 <= i < |ops| ==> order[i] < |h|
    ensures forall i: nat, lut {:trigger TapeValues(ops, lut)[i]} ::
      i < |ops| ==> TapeValues(ops, lut)[i] == Value(h, order[i], lut)
  {
    CompiledTapeOk(h, order, memo, ops);
    forall i: nat, lut | i < |ops| ensures order[i] < |h| && TapeValues(ops, lut)[i] == Value(h, order[i], lut) {
      CompiledValue(h, order, memo, ops, i, lut);
    }
    forall x ensures x in order <==> FromRoots(h, coeffs, x) {
      if FromRoots(h, coeffs, x) {
        var i :| 0 <= i < |coeffs| && RootReaches(h, coeffs[i], x);
        assert Some(coeffs[i].value) in coeffs;
        CompiledBelow(h, order, memo, ops, coeffs[i].value, x);
        assert order[memo[x]] == x;
      }
      if x in order {
        assert x in memo && x in scheduled;
      }
    }
  }

  lemma {:induction false} CompiledBelow(h: Heap, order: seq<nat>, memo: map<nat, nat>, ops: Tape, x: nat, y: nat)
    requires HeapOk(h) && Compiled(h, order, memo, ops) && x in memo && x < |h| && Reaches(h, x, y)
    ensures y in memo
    decreases x
  {
    ReachesIs(h, x, y);
    if x != y {
      var c :| Child(h[x], c) && Reaches(h, c, y);
      assert CompiledAt(h, order, memo, ops, memo[x]);
      CompiledBelow(h, order, memo, ops, c, y);
    }
  }

  /** What the gate loop builds can always be compiled. */
  lemma ShapeIsWalkable(h: Heap, live: seq<nat>, coeffs: seq<Option<nat>>)
    requires Shape(h, live)
    requires forall i :: 0 <= i < |coeffs| && coeffs[i].Some? ==> coeffs[i].value in live
    ensures SumsWalkable(h) && RootsWalkable(h, coeffs)
  {
    ShapeIsAntichain(h, live);
    forall i, j | 0 <= i < j < |coeffs| && coeffs[i].Some? && coeffs[j].Some? && coeffs[i] != coeffs[j]
      ensures !RootReaches(h, coeffs[j], coeffs[i].value)
    {
      var a :| 0 <= a < |live| && live[a] == coeffs[i].value;
      var b :| 0 <= b < |live| && live[b] == coeffs[j].value;
      assert !Reaches(h, live[b], live[a]);
    }
  }

  // ---- shards -------------------------------------------------------------------

  function ShiftOp(op: Op, offset: nat): Op
  {
    match op
    case OpScalar(c) => OpScalar(c)
    case OpAdd(a, b) => OpAdd(a + offset, b + offset)
    case OpScale(f, a) => OpScale(f, a + offset)
    case OpCos(p, a) => OpCos(p, a + offset)
    case OpSin(p, a) => OpSin(p, a + offset)
  }

  function Shifted(ops: Tape, offset: nat): (r: Tape)
    ensures |r| == |ops| && forall i :: 0 <= i < |ops| ==> r[i] == ShiftOp(ops[i], offset)
  {
    seq(|ops|, i requires 0 <= i < |ops| => ShiftOp(ops[i], offset))
  }

  lemma AppendedOk(front: Tape, ops: Tape)
    requires TapeOk(front) && TapeOk(ops)
    ensures TapeOk(front + Shifted(ops, |front|))
  {
    var all := front + Shifted(ops, |front|);
    forall i | 0 <= i < |all| ensures OpFits(all[i], i) {
      if i >= |front| {
        assert OpFits(ops[i - |front|], i - |front|);
      }
    }
  }

  lemma ShiftedValue(op: Op, front: seq<real>, before: seq<real>, lut: seq<real>)
    requires OpFits(op, |before|)
    ensures OpFits(ShiftOp(op, |front|), |front + before|)
    ensures OpValue(ShiftOp(op, |front|), front + before, lut) == OpValue(op, before, lut)
  {
  }

  /** A tape set behind another keeps its values, and so does the one in front. */
  lemma {:induction false} AppendedValues(front: Tape, ops: Tape, lut: seq<real>)
    requires TapeOk(front) && TapeOk(ops) && TapeOk(front + Shifted(ops, |front|))
    ensures TapeValues(front + Shifted(ops, |front|), lut) == TapeValues(front, lut) + TapeValues(ops, lut)
    decreases |ops|
  {
    hide OpValue, ShiftOp;
    var all := front + Shifted(ops, |front|);
    if ops == [] {
      assert all == front;
    } else {
      var last := |ops| - 1;
      var (f, b) := (TapeValues(front, lut), TapeValues(ops[..last], lut));
      assert all[..|all| - 1] == front + Shifted(ops[..last], |front|);
      AppendedValues(front, ops[..last], lut);
      ShiftedValue(ops[last], f, b, lut);
      assert TapeValues(all, lut) == f + b + [OpValue(ops[last], b, lut)];
      assert TapeValues(ops, lut) == b + [OpValue(ops[last], b, lut)];
    }
  }

  /** Joins the shards into one tape, each operand moved by its shard's offset. */
  method MergeShards(shards: seq<Tape>) returns (ops: Tape, offsets: seq<nat>)
    requires forall k :: 0 <= k < |shards| ==> TapeOk(shards[k])
    ensures TapeOk(ops) && |offsets| == |shards|
    ensures forall k :: 0 <= k < |shards| ==> offsets[k] + |shards[k]| <= |ops|
    ensures forall k, i, lut ::
      0 <= k < |shards| && 0 <= i < |shards[k]| ==>
        TapeValues(ops, lut)[offsets[k] + i] == TapeValues(shards[k], lut)[i]
  {
    hide TapeValues;
    ops, offsets := [], [];
    for n := 0 to |shards|
      invariant TapeOk(ops) && |offsets| == n
      invariant forall k :: 0 <= k < n ==> offsets[k] + |shards[k]| <= |ops|
      invariant forall k, i, lut ::
        0 <= k < n && 0 <= i < |shards[k]| ==> TapeValues(ops, lut)[offsets[k] + i] == TapeValues(shards[k], lut)[i]
    {
      ghost var before := ops;
      var offset := |ops|;
      offsets := offsets + [offset];
      AppendedOk(ops, shards[n]);
      ops := ops + Shifted(shards[n], offset);
      forall k, i, lut | 0 <= k < n + 1 && 0 <= i < |shards[k]|
        ensures TapeValues(ops, lut)[offsets[k] + i] == TapeValues(shards[k], lut)[i]
      {
        AppendedValues(before, shards[n], lut);
      }
    }
  }
}
