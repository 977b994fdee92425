/**
 The walk that prunes a shared graph: an explicit stack, a set of what has been scheduled and
 a memo. What it memoizes for a node depends on how many factors and which power of two lie
 above it, so one node may be pruned more than once.
 */
module PruneWalks {
  import opened Wrappers
  import opened SymbolicCoeffs
  import opened CompiledTapes
  import opened Pruning

  /** A node of the graph, with the number of factors and the power of two above it. */
  datatype Key = Key(node: nat, depth: nat, exp: int)

  datatype Frame = Opening(at: Key) | Closing(at: Key)

  /** What the memo is asked: depth and power only matter under a limit of their kind. */
  function Masked(l: Limits, at: Key): Key
  {
    Key(at.node, if l.frequency.Some? then at.depth else 0, if l.cutoff.Some? then at.exp else 0)
  }

  /** Where a child of `at` is pruned. */
  function Down(l: Limits, h: Heap, at: Key, c: nat): Key
  {
    if at.node >= |h| then Key(c, at.depth, at.exp)
    else
      match h[at.node]
      case Scalar(_) => Key(c, at.depth, at.exp)
      case Add(_, _) => Key(c, at.depth, at.exp)
      case Scale(k, _) => Key(c, at.depth, if l.cutoff.Some? then at.exp + l.ceilLog(k) else at.exp)
      case Cos(_, _) => Key(c, SatAdd(at.depth, 1), at.exp)
      case Sin(_, _) => Key(c, SatAdd(at.depth, 1), at.exp)
  }

  // ---- the tree a node unfolds to -----------------------------------------------

  function Unfold(h: Heap, x: nat): Tree
    requires HeapOk(h) && x < |h|
    decreases x
  {
    match h[x]
    case Scalar(c) => Leaf(c)
    case Add(a, b) => Sum(Unfold(h, a), Unfold(h, b))
    case Scale(k, a) => Scaled(k, Unfold(h, a))
    case Cos(p, a) => Trig(p, false, Unfold(h, a))
    case Sin(p, a) => Trig(p, true, Unfold(h, a))
  }

  lemma {:induction false} UnfoldKept(h: Heap, g: Heap, x: nat)
    requires HeapOk(h) && HeapOk(g) && h <= g && x < |h|
    ensures Unfold(g, x) == Unfold(h, x)
    decreases x
  {
    assert g[x] == h[x];
    match h[x]
    case Scalar(_) =>
    case Add(a, b) =>
      UnfoldKept(h, g, a);
      UnfoldKept(h, g, b);
    case Scale(_, a) => UnfoldKept(h, g, a);
    case Cos(_, a) => UnfoldKept(h, g, a);
    case Sin(_, a) => UnfoldKept(h, g, a);
  }

  /** The node holds exactly the tree, or there is neither. */
  ghost predicate Holds(g: Heap, r: Option<nat>, t: Option<Tree>)
    requires HeapOk(g)
  {
    r.Some? == t.Some? && (r.Some? ==> r.value < |g| && Unfold(g, r.value) == t.value)
  }

  lemma HoldsKept(g: Heap, g': Heap, r: Option<nat>, t: Option<Tree>)
    requires HeapOk(g) && HeapOk(g') && g <= g' && Holds(g, r, t)
    ensures Holds(g', r, t)
  {
    if r.Some? {
      UnfoldKept(g, g', r.value);
    }
  }

  /** Without a limit of its kind, what lies above makes no difference. */
  lemma {:induction false} MaskingIsHarmless(l: Limits, t: Tree, d: nat, e: int, d': nat, e': int)
    requires (l.frequency.Some? ==> d == d') && (l.cutoff.Some? ==> e == e')
    ensures PruneAt(l, t, d, e) == PruneAt(l, t, d', e')
    decreases t
  {
    hide MinFreq, MaxFreq, Upper, Times;
    match t
    case Leaf(_) =>
    case Sum(a, b) =>
      MaskingIsHarmless(l, a, d, e, d', e');
      MaskingIsHarmless(l, b, d, e, d', e');
    case Scaled(k, a) =>
      MaskingIsHarmless(l, a, d, if l.cutoff.Some? then e + l.ceilLog(k) else e, d', if l.cutoff.Some?
        then e' + l.ceilLog(k) else e');
    case Trig(_, _, a) => MaskingIsHarmless(l, a, SatAdd(d, 1), e, SatAdd(d', 1), e');
  }

  // ---- the walk -----------------------------------------------------------------

  ghost predicate StackFits(l: Limits, h: Heap, stack: seq<Frame>, scheduled: set<Key>, memo: map<Key, Option<nat>>)
    requires HeapOk(h)
  {
    && (forall i :: 0 <= i < |stack| ==>
          stack[i].at.node < |h| && Masked(l, stack[i].at) in scheduled && Masked(l, stack[i].at) !in memo)
    && (forall i, j :: 0 <= i < j < |stack| ==> Masked(l, stack[i].at) != Masked(l, stack[j].at))
    && (forall k :: k in scheduled ==> k in memo || OnStack(l, stack, 0, k))
    && (forall k :: k in memo ==> k in scheduled)
  }

  ghost predicate OnStack(l: Limits, stack: seq<Frame>, from: nat, k: Key)
  {
    exists j :: from <= j < |stack| && Masked(l, stack[j].at) == k
  }

  function Seen(f: Frame): Visit { if f.Closing? then Exit(f.at.node) else Enter(f.at.node) }

  ghost predicate FramesNested(h: Heap, stack: seq<Frame>)
    requires HeapOk(h)
  {
    forall i, j :: 0 <= i < j < |stack| ==> NestedAt(h, Seen(stack[i]), stack[j].at.node)
  }

  /** The children of the open nodes among the first `k` frames are memoized or above them. */
  ghost predicate FramesCovered(l: Limits, h: Heap, stack: seq<Frame>, memo: map<Key, Option<nat>>, k: nat)
  {
    forall i, c :: 0 <= i < k && i < |stack| && stack[i].Closing? && ChildOf(h, stack[i].at.node, c) ==>
      var want := Masked(l, Down(l, h, stack[i].at, c));
      want in memo || OnStack(l, stack, i + 1, want)
  }

  ghost predicate FramesOk(l: Limits, h: Heap, stack: seq<Frame>, scheduled: set<Key>, memo: map<Key, Option<nat>>)
    requires HeapOk(h)
  {
    StackFits(l, h, stack, scheduled, memo) && FramesNested(h, stack)
  }

  /** A child of the node on top that has been scheduled has been pruned. */
  lemma ScheduledIsPruned(l: Limits, h: Heap, stack: seq<Frame>, scheduled: set<Key>, memo: map<Key, Option<nat>>,
                          c: nat)
    requires HeapOk(h) && FramesOk(l, h, stack, scheduled, memo) && stack != []
    requires ChildOf(h, stack[|stack| - 1].at.node, c)
    requires Masked(l, Down(l, h, stack[|stack| - 1].at, c)) in scheduled
    ensures Masked(l, Down(l, h, stack[|stack| - 1].at, c)) in memo
  {
    var top := |stack| - 1;
    var n, want := stack[top].at.node, Masked(l, Down(l, h, stack[top].at, c));
    assert c < n;
    if want !in memo {
      var i :| 0 <= i < |stack| && Masked(l, stack[i].at) == want;
      assert stack[i].at.node == c && i < top;
      assert NestedAt(h, Seen(stack[i]), n);
      if stack[i].Closing? {
        BelowIsSmaller(h, c, n);
      } else {
        ReachesIs(h, n, c);
      }
    }
  }

  /** The node on top waits for its children: nothing else changes. */
  lemma FrameOpened(l: Limits, h: Heap, rest: seq<Frame>, at: Key, scheduled: set<Key>, memo: map<Key, Option<nat>>)
    requires HeapOk(h) && FramesOk(l, h, rest + [Opening(at)], scheduled, memo)
    requires FramesCovered(l, h, rest + [Opening(at)], memo, |rest| + 1)
    ensures FramesOk(l, h, rest + [Closing(at)], scheduled, memo)
    ensures FramesCovered(l, h, rest + [Closing(at)], memo, |rest|)
  {
    hide Masked, Down, ChildOf;
    var before, after := rest + [Opening(at)], rest + [Closing(at)];
    forall i | 0 <= i < |after| ensures after[i].at == before[i].at {
    }
    forall from: nat, k | OnStack(l, before, from, k) ensures OnStack(l, after, from, k) {
      var j :| from <= j < |before| && Masked(l, before[j].at) == k;
      assert Masked(l, after[j].at) == k;
    }
    forall i, j | 0 <= i < j < |after| ensures NestedAt(h, Seen(after[i]), after[j].at.node) {
      assert NestedAt(h, Seen(before[i]), before[j].at.node);
      assert after[i] == before[i];
    }
    forall i, c | 0 <= i < |rest| && after[i].Closing? && ChildOf(h, after[i].at.node, c)
      ensures Masked(l, Down(l, h, after[i].at, c)) in memo
        || OnStack(l, after, i + 1, Masked(l, Down(l, h, after[i].at, c)))
    {
      assert before[i] == after[i];
    }
  }

  /** A child of the open node at `k` goes on top, provided nothing above `k` waits below it. */
  lemma {:induction false} FramePushed(l: Limits, h: Heap, stack: seq<Frame>, k: nat, c: nat, scheduled: set<Key>,
                                       memo: map<Key, Option<nat>>)
    requires HeapOk(h) && FramesOk(l, h, stack, scheduled, memo) && FramesCovered(l, h, stack, memo, k)
    requires k < |stack| && stack[k].Closing? && ChildOf(h, stack[k].at.node, c)
    requires Masked(l, Down(l, h, stack[k].at, c)) !in scheduled
    requires forall j ::
      k < j < |stack| ==> stack[j].Opening? && stack[j].at.node < |h| && !Reaches(h, c, stack[j].at.node)
    ensures FramesOk(l, h, stack + [Opening(Down(l, h, stack[k].at, c))],
      scheduled + {Masked(l, Down(l, h, stack[k].at, c))}, memo)
    ensures FramesCovered(l, h, stack + [Opening(Down(l, h, stack[k].at, c))], memo, k)
  {
    var at := Down(l, h, stack[k].at, c);
    assert at.node == c && c < |h|;
    FramePushedNested(l, h, stack, k, at);
    FramePushedFits(l, h, stack, at, scheduled, memo);
    FramePushedCovered(l, h, stack, k, at, memo);
  }

  lemma {:induction false} FramePushedNested(l: Limits, h: Heap, stack: seq<Frame>, k: nat, at: Key)
    requires HeapOk(h) && FramesNested(h, stack)
    requires k < |stack| && stack[k].Closing? && ChildOf(h, stack[k].at.node, at.node) && at.node < |h|
    requires forall j ::
      k < j < |stack| ==> stack[j].Opening? && stack[j].at.node < |h| && !Reaches(h, at.node, stack[j].at.node)
    ensures FramesNested(h, stack + [Opening(at)])
  {
    var n, c, after := stack[k].at.node, at.node, stack + [Opening(at)];
    forall i | 0 <= i < |stack| ensures NestedAt(h, Seen(after[i]), c) {
      if i < k {
        assert NestedAt(h, Seen(stack[i]), n);
        DownToChild(h, Seen(stack[i]), n, c);
      } else if i == k {
        assert Reaches(h, c, c);
      }
    }
    forall i, j | 0 <= i < j < |after| ensures NestedAt(h, Seen(after[i]), after[j].at.node) {
      if j < |stack| {
        assert NestedAt(h, Seen(stack[i]), stack[j].at.node);
      }
    }
  }

  lemma FramePushedFits(l: Limits, h: Heap, stack: seq<Frame>, at: Key, scheduled: set<Key>,
                        memo: map<Key, Option<nat>>)
    requires HeapOk(h) && StackFits(l, h, stack, scheduled, memo) && at.node < |h| && Masked(l, at) !in scheduled
    ensures StackFits(l, h, stack + [Opening(at)], scheduled + {Masked(l, at)}, memo)
  {
    hide Masked;
    var after := stack + [Opening(at)];
    forall k | k in scheduled + {Masked(l, at)} && k !in memo ensures OnStack(l, after, 0, k) {
      if k == Masked(l, at) {
        assert Masked(l, after[|stack|].at) == k;
      } else {
        MoreOnStack(l, stack, at, 0, k);
      }
    }
  }

  lemma MoreOnStack(l: Limits, stack: seq<Frame>, at: Key, from: nat, k: Key)
    requires OnStack(l, stack, from, k)
    ensures OnStack(l, stack + [Opening(at)], from, k)
  {
    var j :| from <= j < |stack| && Masked(l, stack[j].at) == k;
    assert Masked(l, (stack + [Opening(at)])[j].at) == k;
  }

  lemma FramePushedCovered(l: Limits, h: Heap, stack: seq<Frame>, k: nat, at: Key, memo: map<Key, Option<nat>>)
    requires FramesCovered(l, h, stack, memo, k) && k < |stack|
    ensures FramesCovered(l, h, stack + [Opening(at)], memo, k)
  {
    hide Masked, Down, ChildOf, OnStack;
    var after := stack + [Opening(at)];
    forall i, c | 0 <= i < k && after[i].Closing? && ChildOf(h, after[i].at.node, c)
      ensures Masked(l, Down(l, h, after[i].at, c)) in memo
        || OnStack(l, after, i + 1, Masked(l, Down(l, h, after[i].at, c)))
    {
      assert after[i] == stack[i];
      var want := Masked(l, Down(l, h, stack[i].at, c));
      if want !in memo {
        MoreOnStack(l, stack, at, i + 1, want);
      }
    }
  }

  /** The top frame is done with: its answer is in the memo. */
  lemma FrameDone(l: Limits, h: Heap, rest: seq<Frame>, f: Frame, scheduled: set<Key>, memo: map<Key, Option<nat>>,
                  r: Option<nat>)
    requires HeapOk(h) && FramesOk(l, h, rest + [f], scheduled, memo)
    requires FramesCovered(l, h, rest + [f], memo, |rest| + 1)
    ensures FramesOk(l, h, rest, scheduled, memo[Masked(l, f.at) := r])
    ensures FramesCovered(l, h, rest, memo[Masked(l, f.at) := r], |rest|)
  {
    hide Masked, Down, ChildOf;
    var before, memo' := rest + [f], memo[Masked(l, f.at) := r];
    assert before[|rest|] == f;
    forall i | 0 <= i < |rest| ensures rest[i] == before[i] && Masked(l, rest[i].at) != Masked(l, f.at) {
      assert Masked(l, before[i].at) != Masked(l, before[|rest|].at);
    }
    forall i, j | 0 <= i < j < |rest| ensures Masked(l, rest[i].at) != Masked(l, rest[j].at) {
      assert Masked(l, before[i].at) != Masked(l, before[j].at);
    }
    forall i, j | 0 <= i < j < |rest| ensures NestedAt(h, Seen(rest[i]), rest[j].at.node) {
      assert NestedAt(h, Seen(before[i]), before[j].at.node);
    }
    forall from: nat, k | OnStack(l, before, from, k) && k != Masked(l, f.at) ensures OnStack(l, rest, from, k) {
      var j :| from <= j < |before| && Masked(l, before[j].at) == k;
      assert Masked(l, rest[j].at) == k;
    }
  }

  /** The open node on top has every answer it needs. */
  lemma AnswersReady(l: Limits, h: Heap, rest: seq<Frame>, at: Key, memo: map<Key, Option<nat>>, c: nat)
    requires FramesCovered(l, h, rest + [Closing(at)], memo, |rest| + 1) && ChildOf(h, at.node, c)
    ensures Masked(l, Down(l, h, at, c)) in memo
  {
    var stack := rest + [Closing(at)];
    assert stack[|rest|] == Closing(at);
  }

  /** How much walking a node can cost, shared or not. */
  function Cost(h: Heap, x: nat): nat
    requires HeapOk(h) && x < |h|
    decreases x
  {
    match h[x]
    case Scalar(_) => 2
    case Add(a, b) => 2 + Cost(h, a) + Cost(h, b)
    case Scale(_, a) => 2 + Cost(h, a)
    case Cos(_, a) => 2 + Cost(h, a)
    case Sin(_, a) => 2 + Cost(h, a)
  }

  function FrameCost(h: Heap, f: Frame): nat
    requires HeapOk(h)
  {
    if f.Closing? || f.at.node >= |h| then 1 else Cost(h, f.at.node)
  }

  function StackCost(h: Heap, stack: seq<Frame>): nat
    requires HeapOk(h)
  {
    if stack == [] then 0 else StackCost(h, stack[..|stack| - 1]) + FrameCost(h, stack[|stack| - 1])
  }

  lemma {:induction false} OneMore(h: Heap, stack: seq<Frame>, f: Frame)
    requires HeapOk(h)
    ensures StackCost(h, stack + [f]) == StackCost(h, stack) + FrameCost(h, f)
  {
    assert (stack + [f])[..|stack|] == stack;
  }

  /** Schedules a child of `at` unless the memo's question about it is scheduled already. */
  method PushFrame(l: Limits, h: Heap, stack: seq<Frame>, at: Key, c: nat, scheduled: set<Key>,
                   ghost k: nat, ghost memo: map<Key, Option<nat>>)
      returns (stack': seq<Frame>, scheduled': set<Key>)
    requires HeapOk(h) && FramesOk(l, h, stack, scheduled, memo) && FramesCovered(l, h, stack, memo, k)
    requires k < |stack| && stack[k] == Closing(at) && ChildOf(h, at.node, c)
    requires Masked(l, Down(l, h, at, c)) !in scheduled ==>
               forall j ::
                 k < j < |stack| ==> stack[j].Opening? && stack[j].at.node < |h| && !Reaches(h, c, stack[j].at.node)
    ensures FramesOk(l, h, stack', scheduled', memo) && FramesCovered(l, h, stack', memo, k)
    ensures var want := Masked(l, Down(l, h, at, c));
      if want in scheduled then stack' == stack && scheduled' == scheduled
      else stack' == stack + [Opening(Down(l, h, at, c))] && scheduled' == scheduled + {want}
    ensures Down(l, h, at, c).node == c && StackCost(h, stack') <= StackCost(h, stack) + Cost(h, c)
  {
    hide StackCost, FramesOk, FramesCovered, Masked;
    stack', scheduled' := stack, scheduled;
    var below := Down(l, h, at, c);
    assert below.node == c;
    OneMore(h, stack, Opening(below));
    if Masked(l, below) !in scheduled {
      FramePushed(l, h, stack, k, c, scheduled, memo);
      scheduled' := scheduled + {Masked(l, below)};
      stack' := stack + [Opening(below)];
    }
  }

  /** Schedules the children of the node that waits at `k`, each unless it is scheduled already. */
  method PushChildren(l: Limits, h: Heap, stack: seq<Frame>, at: Key, scheduled: set<Key>, ghost k: nat,
                      ghost memo: map<Key, Option<nat>>)
      returns (stack': seq<Frame>, scheduled': set<Key>)
    requires HeapOk(h) && SumsWalkable(h) && at.node < |h|
    requires FramesOk(l, h, stack, scheduled, memo) && FramesCovered(l, h, stack, memo, k)
    requires |stack| == k + 1 && stack[k] == Closing(at)
    ensures FramesOk(l, h, stack', scheduled', memo) && FramesCovered(l, h, stack', memo, k)
    ensures scheduled <= scheduled' && |stack| <= |stack'| && stack'[..k + 1] == stack
    ensures forall j :: k < j < |stack'| ==> stack'[j].Opening?
    ensures StackCost(h, stack') + 2 <= StackCost(h, stack) + Cost(h, at.node)
    ensures forall c {:trigger Down(l, h, at, c)} | ChildOf(h, at.node, c) ::
      Masked(l, Down(l, h, at, c)) in scheduled || OnStack(l, stack', k + 1, Masked(l, Down(l, h, at, c)))
  {
    hide FramesOk, FramesCovered, StackCost, Masked, Down, SumsWalkable, Reaches;
    SummandsInTurn(h, at.node);
    match h[at.node] {
      case Scalar(_) => stack', scheduled' := stack, scheduled;
      case Add(a, b) =>
        stack', scheduled' := PushFrame(l, h, stack, at, b, scheduled, k, memo);
        ghost var first := stack';
        PushedOnStack(l, h, stack, first, at, b, scheduled);
        stack', scheduled' := PushFrame(l, h, stack', at, a, scheduled', k, memo);
        BothOnStack(l, first, stack', k + 1, Masked(l, Down(l, h, at, b)));
        PushedOnStack(l, h, stack, stack', at, a, scheduled);
      case Scale(_, a) =>
        stack', scheduled' := PushFrame(l, h, stack, at, a, scheduled, k, memo);
        PushedOnStack(l, h, stack, stack', at, a, scheduled);
      case Cos(_, a) =>
        stack', scheduled' := PushFrame(l, h, stack, at, a, scheduled, k, memo);
        PushedOnStack(l, h, stack, stack', at, a, scheduled);
      case Sin(_, a) =>
        stack', scheduled' := PushFrame(l, h, stack, at, a, scheduled, k, memo);
        PushedOnStack(l, h, stack, stack', at, a, scheduled);
    }
  }

  /** A child that was not scheduled stands on top, or the frame next to the waiting one asks the same. */
  lemma PushedOnStack(l: Limits, h: Heap, stack: seq<Frame>, stack': seq<Frame>, at: Key, c: nat, scheduled: set<Key>)
    requires |stack| <= |stack'|
    requires var want := Masked(l, Down(l, h, at, c));
      || want in scheduled
      || (|stack| < |stack'| && stack'[|stack'| - 1].at == Down(l, h, at, c))
      || (|stack| < |stack'| && Masked(l, stack'[|stack|].at) == want)
    ensures var want := Masked(l, Down(l, h, at, c)); want in scheduled || OnStack(l, stack', |stack|, want)
  {
  }

  lemma BothOnStack(l: Limits, first: seq<Frame>, stack: seq<Frame>, from: nat, want: Key)
    requires first <= stack
    ensures OnStack(l, first, from, want) ==> OnStack(l, stack, from, want)
  {
    if OnStack(l, first, from, want) {
      var j :| from <= j < |first| && Masked(l, first[j].at) == want;
      assert stack[j] == first[j];
    }
  }

  /** Opens the top node: it waits for its children, which go above it if they are new. */
  method OpenFrame(l: Limits, h: Heap, rest: seq<Frame>, at: Key, scheduled: set<Key>,
                   ghost memo: map<Key, Option<nat>>)
      returns (stack': seq<Frame>, scheduled': set<Key>)
    requires HeapOk(h) && SumsWalkable(h) && FramesOk(l, h, rest + [Opening(at)], scheduled, memo)
    requires FramesCovered(l, h, rest + [Opening(at)], memo, |rest| + 1) && at.node < |h|
    ensures FramesOk(l, h, stack', scheduled', memo) && FramesCovered(l, h, stack', memo, |stack'|)
    ensures scheduled <= scheduled' && |stack'| > |rest| && stack'[..|rest| + 1] == rest + [Closing(at)]
    ensures forall j :: |rest| < j < |stack'| ==> stack'[j].Opening?
    ensures StackCost(h, stack') < StackCost(h, rest + [Opening(at)])
  {
    hide FramesOk, FramesCovered, StackCost, Masked, Down, SumsWalkable, OnStack, Cost;
    FrameOpened(l, h, rest, at, scheduled, memo);
    OneMore(h, rest, Opening(at));
    OneMore(h, rest, Closing(at));
    stack', scheduled' := PushChildren(l, h, rest + [Closing(at)], at, scheduled, |rest|, memo);
    forall c | ChildOf(h, at.node, c)
      ensures Masked(l, Down(l, h, at, c)) in memo || OnStack(l, stack', |rest| + 1, Masked(l, Down(l, h, at, c)))
    {
      if Masked(l, Down(l, h, at, c)) in scheduled {
        ScheduledIsPruned(l, h, rest + [Opening(at)], scheduled, memo, c);
      }
    }
    FramesCoveredAll(l, h, stack', memo, |rest|);
  }

  lemma {:induction false} SummandsInTurn(h: Heap, x: nat)
    requires HeapOk(h) && SumsWalkable(h) && x < |h|
    ensures h[x].Add? ==> h[x].left == h[x].right || !Reaches(h, h[x].left, h[x].right)
  {
  }

  lemma FramesCoveredAll(l: Limits, h: Heap, stack: seq<Frame>, memo: map<Key, Option<nat>>, k: nat)
    requires FramesCovered(l, h, stack, memo, k) && k < |stack|
    requires forall c :: ChildOf(h, stack[k].at.node, c) ==>
               Masked(l, Down(l, h, stack[k].at, c)) in memo
                 || OnStack(l, stack, k + 1, Masked(l, Down(l, h, stack[k].at, c)))
    requires forall j :: k < j < |stack| ==> stack[j].Opening?
    ensures FramesCovered(l, h, stack, memo, |stack|)
  {
    hide Masked, Down, ChildOf, OnStack;
  }

  // ---- where pruned nodes come from ---------------------------------------------

  /** `y` is `x`, or a summand of the sum `x`, or a summand of a summand, and so on. */
  predicate SumBelow(h: Heap, x: nat, y: nat)
    requires HeapOk(h) && x < |h|
    decreases x
  {
    x == y || (h[x].Add? && (SumBelow(h, h[x].left, y) || SumBelow(h, h[x].right, y)))
  }

  /** The one child of a scaling or a trig factor. */
  function InnerOf(x: Node): Option<nat>
  {
    match x
    case Scalar(_) => None
    case Add(_, _) => None
    case Scale(_, a) => Some(a)
    case Cos(_, a) => Some(a)
    case Sin(_, a) => Some(a)
  }

  /** Node `i` of `g` is what is left of node `o[i]` of `h`: of its children, or of their summands. */
  ghost predicate StandsFor(h: Heap, g: Heap, o: seq<nat>, i: nat)
    requires HeapOk(h) && HeapOk(g) && |o| == |g| && i < |g|
  {
    && o[i] < |h|
    && (InnerOf(g[i]).Some? ==> InnerOf(h[o[i]]).Some? && SumBelow(h, InnerOf(h[o[i]]).value, o[InnerOf(g[i]).value]))
    && (g[i].Add? ==>
      h[o[i]].Add? && SumBelow(h, h[o[i]].left, o[g[i].left]) && SumBelow(h, h[o[i]].right, o[g[i].right]))
  }

  /** `g` grew out of `h`, and every node of it stands for one of `h`. */
  ghost predicate Traced(h: Heap, g: Heap, o: seq<nat>)
  {
    && HeapOk(h) && HeapOk(g) && h <= g && |o| == |g|
    && (forall i :: 0 <= i < |h| ==> o[i] == i)
    && (forall i :: 0 <= i < |g| ==> StandsFor(h, g, o, i))
  }

  /** What a node was pruned to is left of the node itself. */
  ghost predicate LeftOf(h: Heap, o: seq<nat>, x: nat, r: Option<nat>)
    requires HeapOk(h)
  {
    x < |h| && (r.Some? ==> r.value < |o| && SumBelow(h, x, o[r.value]))
  }

  ghost predicate AllLeft(h: Heap, o: seq<nat>, memo: map<Key, Option<nat>>)
    requires HeapOk(h)
  {
    forall k :: k in memo ==> LeftOf(h, o, k.node, memo[k])
  }

  /** Pruning grew the graph by nodes that stand for old ones. */
  ghost predicate CutTo(h: Heap, x: nat, g: Heap, r: Option<nat>)
  {
    exists o: seq<nat> :: Traced(h, g, o) && LeftOf(h, o, x, r)
  }

  lemma OldNodesStay(h: Heap, g: Heap, o: seq<nat>)
    requires Traced(h, g, o)
    ensures |o| == |g| && forall i :: 0 <= i < |h| ==> o[i] == i
  {
  }

  lemma TracedAtFirst(h: Heap)
    requires HeapOk(h)
    ensures Traced(h, h, seq(|h|, i => i))
  {
  }

  /** One more node that stands for `x`. */
  lemma {:induction false} TracedMore(h: Heap, g: Heap, o: seq<nat>, x: nat, node: Node)
    requires Traced(h, g, o) && x < |h| && Fits(node, |g|)
    requires InnerOf(node).Some? ==> InnerOf(h[x]).Some? && SumBelow(h, InnerOf(h[x]).value, o[InnerOf(node).value])
    requires node.Add? ==> h[x].Add? && SumBelow(h, h[x].left, o[node.left]) && SumBelow(h, h[x].right, o[node.right])
    ensures Traced(h, g + [node], o + [x])
  {
    hide SumBelow;
    var g', o' := g + [node], o + [x];
    forall i | 0 <= i < |g'| ensures StandsFor(h, g', o', i) {
      if i < |g| {
        assert StandsFor(h, g, o, i) && g'[i] == g[i];
      }
    }
  }

  // ---- the answers --------------------------------------------------------------

  /** Every answer in the memo is the pruned tree of its node. */
  ghost predicate Answers(l: Limits, h: Heap, g: Heap, memo: map<Key, Option<nat>>)
    requires HeapOk(h) && HeapOk(g)
  {
    forall k :: k in memo ==> Answer(l, h, g, k, memo[k])
  }

  ghost predicate Answer(l: Limits, h: Heap, g: Heap, k: Key, r: Option<nat>)
    requires HeapOk(h) && HeapOk(g)
  {
    k.node < |h| && Holds(g, r, PruneAt(l, Unfold(h, k.node), k.depth, k.exp))
  }

  lemma AnswersKept(l: Limits, h: Heap, g: Heap, g': Heap, memo: map<Key, Option<nat>>)
    requires HeapOk(h) && HeapOk(g) && HeapOk(g') && g <= g' && Answers(l, h, g, memo)
    ensures Answers(l, h, g', memo)
  {
    hide PruneAt, Unfold, Holds;
    forall k | k in memo ensures Answer(l, h, g', k, memo[k]) {
      assert Answer(l, h, g, k, memo[k]);
      HoldsKept(g, g', memo[k], PruneAt(l, Unfold(h, k.node), k.depth, k.exp));
    }
  }

  /** The memo's answer to the masked question answers the question itself. */
  lemma MaskedAnswer(l: Limits, h: Heap, g: Heap, at: Key, r: Option<nat>)
    requires HeapOk(h) && HeapOk(g) && at.node < |h|
    ensures Answer(l, h, g, Masked(l, at), r) == Answer(l, h, g, at, r)
  {
    hide PruneAt, Unfold, Holds;
    var k := Masked(l, at);
    MaskingIsHarmless(l, Unfold(h, at.node), at.depth, at.exp, k.depth, k.exp);
  }

  /** Neither given up nor kept whole: the node's children decide. */
  ghost predicate Undecided(l: Limits, h: Heap, at: Key)
    requires HeapOk(h)
  {
    at.node < |h| &&
    var t := Unfold(h, at.node);
    !TooManyFactors(l, t, at.depth) && !TooSmall(l, t, at.exp) && !Safe(l, t, at.depth)
  }

  /** Adds a node. */
  method Grow(g: Heap, x: Node) returns (g': Heap, node: nat)
    requires HeapOk(g) && Fits(x, |g|)
    ensures HeapOk(g') && g' == g + [x] && node == |g|
  {
    g', node := g + [x], |g|;
  }

  /** The answer for a sum whose summands are pruned. */
  method CloseSum(l: Limits, h: Heap, g: Heap, ghost o: seq<nat>, at: Key, x: Option<nat>, y: Option<nat>)
      returns (g': Heap, r: Option<nat>, ghost o': seq<nat>)
    requires HeapOk(h) && HeapOk(g) && h <= g && Undecided(l, h, at) && h[at.node].Add?
    requires Answer(l, h, g, Key(h[at.node].left, at.depth, at.exp), x)
      && Answer(l, h, g, Key(h[at.node].right, at.depth, at.exp), y)
    requires Traced(h, g, o) && LeftOf(h, o, h[at.node].left, x) && LeftOf(h, o, h[at.node].right, y)
    ensures HeapOk(g') && g <= g' && Answer(l, h, g', at, r)
    ensures o <= o' && Traced(h, g', o') && LeftOf(h, o', at.node, r)
  {
    hide TooManyFactors, TooSmall, Safe, Traced;
    OldNodesStay(h, g, o);
    g', o' := g, o;
    if x.None? {
      r := y;
    } else if y.None? {
      r := x;
    } else if x == Some(h[at.node].left) && y == Some(h[at.node].right) {
      r := Some(at.node);
      UnfoldKept(h, g, at.node);
    } else {
      var node: nat;
      TracedMore(h, g, o, at.node, Add(x.value, y.value));
      g', node := Grow(g, Add(x.value, y.value));
      o' := o + [at.node];
      UnfoldKept(g, g', x.value);
      UnfoldKept(g, g', y.value);
      r := Some(node);
    }
  }

  /** The answer for a node with one child that is pruned. */
  method CloseOne(l: Limits, h: Heap, g: Heap, ghost o: seq<nat>, at: Key, c: nat, x: Option<nat>)
      returns (g': Heap, r: Option<nat>, ghost o': seq<nat>)
    requires HeapOk(h) && HeapOk(g) && h <= g && Undecided(l, h, at) && ChildOf(h, at.node, c) && !h[at.node].Add?
    requires Answer(l, h, g, Down(l, h, at, c), x) && Traced(h, g, o) && LeftOf(h, o, c, x)
    ensures HeapOk(g') && g <= g' && Answer(l, h, g', at, r)
    ensures o <= o' && Traced(h, g', o') && LeftOf(h, o', at.node, r)
  {
    hide TooManyFactors, TooSmall, Safe, Traced;
    OldNodesStay(h, g, o);
    g', r, o' := g, x, o;
    if x == Some(c) {
      r := Some(at.node);
      UnfoldKept(h, g, at.node);
    } else if x.Some? {
      var rebuilt := match h[at.node]
        case Scale(k, _) => Scale(k, x.value)
        case Cos(p, _) => Cos(p, x.value)
        case Sin(p, _) => Sin(p, x.value);
      TracedMore(h, g, o, at.node, rebuilt);
      var node: nat;
      g', node := Grow(g, rebuilt);
      o' := o + [at.node];
      UnfoldKept(g, g', x.value);
      r := Some(node);
    }
  }

  lemma UndecidedNode(l: Limits, h: Heap, at: Key)
    requires HeapOk(h) && Undecided(l, h, at)
    ensures at.node < |h|
  {
  }

  lemma DownSum(l: Limits, h: Heap, at: Key, c: nat)
    requires at.node < |h| && h[at.node].Add?
    ensures Down(l, h, at, c) == Key(c, at.depth, at.exp)
  {
  }

  /** An undecided scalar stays. */
  lemma CloseScalar(l: Limits, h: Heap, g: Heap, o: seq<nat>, at: Key)
    requires Traced(h, g, o) && Undecided(l, h, at) && h[at.node].Scalar?
    ensures Answer(l, h, g, at, Some(at.node)) && LeftOf(h, o, at.node, Some(at.node))
  {
    UnfoldKept(h, g, at.node);
  }

  /** Closes the node on top, from its children's answers. */
  method CloseFrame(l: Limits, h: Heap, g: Heap, ghost o: seq<nat>, at: Key, memo: map<Key, Option<nat>>)
      returns (g': Heap, r: Option<nat>, ghost o': seq<nat>)
    requires HeapOk(h) && HeapOk(g) && h <= g && Undecided(l, h, at) && Answers(l, h, g, memo)
    requires forall c :: ChildOf(h, at.node, c) ==> Masked(l, Down(l, h, at, c)) in memo
    requires Traced(h, g, o) && AllLeft(h, o, memo)
    ensures HeapOk(g') && g <= g' && Answer(l, h, g', at, r)
    ensures o <= o' && Traced(h, g', o') && LeftOf(h, o', at.node, r)
  {
    hide Answer, Masked, Undecided, Down, Traced, LeftOf;
    UndecidedNode(l, h, at);
    match h[at.node] {
      case Scalar(c) =>
        g', r, o' := g, Some(at.node), o;
        CloseScalar(l, h, g, o, at);
      case Add(a, b) =>
        assert ChildOf(h, at.node, a) && ChildOf(h, at.node, b);
        MaskedAnswer(l, h, g, Key(a, at.depth, at.exp), memo[Masked(l, Down(l, h, at, a))]);
        MaskedAnswer(l, h, g, Key(b, at.depth, at.exp), memo[Masked(l, Down(l, h, at, b))]);
        DownSum(l, h, at, a);
        DownSum(l, h, at, b);
        LeftChild(l, h, o, at, a, memo);
        LeftChild(l, h, o, at, b, memo);
        g', r, o' := CloseSum(l, h, g, o, at, memo[Masked(l, Down(l, h, at, a))], memo[Masked(l, Down(l, h, at, b))]);
      case Scale(_, a) => g', r, o' := CloseChild(l, h, g, o, at, a, memo);
      case Cos(_, a) => g', r, o' := CloseChild(l, h, g, o, at, a, memo);
      case Sin(_, a) => g', r, o' := CloseChild(l, h, g, o, at, a, memo);
    }
  }

  method CloseChild(l: Limits, h: Heap, g: Heap, ghost o: seq<nat>, at: Key, c: nat, memo: map<Key, Option<nat>>)
      returns (g': Heap, r: Option<nat>, ghost o': seq<nat>)
    requires HeapOk(h) && HeapOk(g) && h <= g && Undecided(l, h, at) && ChildOf(h, at.node, c) && !h[at.node].Add?
    requires Masked(l, Down(l, h, at, c)) in memo && Answers(l, h, g, memo)
    requires Traced(h, g, o) && AllLeft(h, o, memo)
    ensures HeapOk(g') && g <= g' && Answer(l, h, g', at, r)
    ensures o <= o' && Traced(h, g', o') && LeftOf(h, o', at.node, r)
  {
    hide Answer, Undecided, Traced, LeftOf;
    var x := memo[Masked(l, Down(l, h, at, c))];
    MaskedAnswer(l, h, g, Down(l, h, at, c), x);
    LeftChild(l, h, o, at, c, memo);
    g', r, o' := CloseOne(l, h, g, o, at, c, x);
  }

  lemma LeftChild(l: Limits, h: Heap, o: seq<nat>, at: Key, c: nat, memo: map<Key, Option<nat>>)
    requires HeapOk(h) && AllLeft(h, o, memo) && Masked(l, Down(l, h, at, c)) in memo
    ensures LeftOf(h, o, c, memo[Masked(l, Down(l, h, at, c))])
  {
  }

  lemma LeftStays(h: Heap, o: seq<nat>, o': seq<nat>, memo: map<Key, Option<nat>>)
    requires HeapOk(h) && AllLeft(h, o, memo) && o <= o'
    ensures AllLeft(h, o', memo)
  {
    hide SumBelow;
    forall k | k in memo ensures LeftOf(h, o', k.node, memo[k]) {
      assert LeftOf(h, o, k.node, memo[k]);
    }
  }

  ghost predicate ClosingUndecided(l: Limits, h: Heap, stack: seq<Frame>)
    requires HeapOk(h)
  {
    forall i :: 0 <= i < |stack| && stack[i].Closing? ==> Undecided(l, h, stack[i].at)
  }

  /** What a first look at a node decides, if it does. */
  function AtOnce(l: Limits, h: Heap, at: Key): Option<Option<nat>>
    requires HeapOk(h) && at.node < |h|
  {
    var t := Unfold(h, at.node);
    if TooManyFactors(l, t, at.depth) || TooSmall(l, t, at.exp) then Some(None)
    else if Safe(l, t, at.depth) then Some(Some(at.node))
    else None
  }

  lemma AtOnceAnswers(l: Limits, h: Heap, g: Heap, at: Key)
    requires HeapOk(h) && HeapOk(g) && h <= g && at.node < |h|
    ensures AtOnce(l, h, at).Some? ==> Answer(l, h, g, Masked(l, at), AtOnce(l, h, at).value)
    ensures AtOnce(l, h, at).None? ==> Undecided(l, h, at)
  {
    hide TooManyFactors, TooSmall, Safe;
    UnfoldKept(h, g, at.node);
    if AtOnce(l, h, at).Some? {
      MaskedAnswer(l, h, g, at, AtOnce(l, h, at).value);
    }
  }

  lemma AtOnceLeft(l: Limits, h: Heap, g: Heap, o: seq<nat>, at: Key)
    requires Traced(h, g, o) && at.node < |h|
    ensures AtOnce(l, h, at).Some? ==> LeftOf(h, o, at.node, AtOnce(l, h, at).value)
  {
  }

  /** Prunes a coefficient: the graph grows by what is rebuilt, and the result is the pruned tree. */
  method PruneNode(l: Limits, h: Heap, root: nat) returns (g: Heap, r: Option<nat>)
    requires HeapOk(h) && SumsWalkable(h) && root < |h|
    ensures HeapOk(g) && h <= g
    ensures Holds(g, r, PruneAt(l, Unfold(h, root), 0, 0)) && CutTo(h, root, g, r)
  {
    hide FramesOk, FramesCovered, StackCost, Masked, Answer, AtOnce, Undecided, SumsWalkable, Traced, LeftOf;
    ghost var o: seq<nat> := seq(|h|, i => i);
    TracedAtFirst(h);
    var start := Key(root, 0, 0);
    MaskedStart(l, start);
    g := h;
    var memo: map<Key, Option<nat>> := map[];
    var scheduled := {start};
    var stack := [Opening(start)];
    FirstFrame(l, h, start);
    while stack != []
      invariant HeapOk(g) && h <= g
      invariant FramesOk(l, h, stack, scheduled, memo) && FramesCovered(l, h, stack, memo, |stack|)
      invariant ClosingUndecided(l, h, stack) && Answers(l, h, g, memo) && start in scheduled
      invariant Traced(h, g, o) && AllLeft(h, o, memo)
      decreases StackCost(h, stack)
    {
      var rest, f := stack[..|stack| - 1], stack[|stack| - 1];
      assert stack == rest + [f];
      OneMore(h, rest, f);
      FrameNode(l, h, stack, scheduled, memo);
      MaskedNode(l, f.at);
      if f.Closing? {
        forall c | ChildOf(h, f.at.node, c) ensures Masked(l, Down(l, h, f.at, c)) in memo {
          AnswersReady(l, h, rest, f.at, memo, c);
        }
        var node;
        ghost var was, from := g, o;
        g, node, o := CloseFrame(l, h, g, o, f.at, memo);
        AnswersKept(l, h, was, g, memo);
        LeftStays(h, from, o, memo);
        MaskedAnswer(l, h, g, f.at, node);
        FrameDone(l, h, rest, f, scheduled, memo, node);
        memo := memo[Masked(l, f.at) := node];
        stack := rest;
      } else {
        AtOnceAnswers(l, h, g, f.at);
        AtOnceLeft(l, h, g, o, f.at);
        var decided := AtOnce(l, h, f.at);
        if decided.Some? {
          FrameDone(l, h, rest, f, scheduled, memo, decided.value);
          memo := memo[Masked(l, f.at) := decided.value];
          stack := rest;
        } else {
          stack, scheduled := OpenFrame(l, h, rest, f.at, scheduled, memo);
          StillUndecided(l, h, rest, f.at, stack);
        }
      }
    }
    AllPruned(l, h, scheduled, memo);
    r := memo[start];
    RootAnswer(l, h, g, start, r);
    assert Traced(h, g, o) && LeftOf(h, o, root, r);
  }

  lemma MaskedStart(l: Limits, start: Key)
    requires start.depth == 0 && start.exp == 0
    ensures Masked(l, start) == start
  {
  }

  lemma MaskedNode(l: Limits, at: Key)
    ensures Masked(l, at).node == at.node
  {
  }

  lemma AllPruned(l: Limits, h: Heap, scheduled: set<Key>, memo: map<Key, Option<nat>>)
    requires HeapOk(h) && FramesOk(l, h, [], scheduled, memo)
    ensures forall k :: k in scheduled ==> k in memo
  {
  }

  lemma {:induction false} RootAnswer(l: Limits, h: Heap, g: Heap, k: Key, r: Option<nat>)
    requires HeapOk(h) && HeapOk(g) && k.node < |h| && Answer(l, h, g, k, r)
    ensures Holds(g, r, PruneAt(l, Unfold(h, k.node), k.depth, k.exp))
  {
  }

  lemma FirstFrame(l: Limits, h: Heap, start: Key)
    requires HeapOk(h) && start.node < |h| && Masked(l, start) == start
    ensures FramesOk(l, h, [Opening(start)], {start}, map[]) && FramesCovered(l, h, [Opening(start)], map[], 1)
  {
    var stack := [Opening(start)];
    assert Masked(l, stack[0].at) == start;
  }

  lemma FrameNode(l: Limits, h: Heap, stack: seq<Frame>, scheduled: set<Key>, memo: map<Key, Option<nat>>)
    requires HeapOk(h) && FramesOk(l, h, stack, scheduled, memo) && stack != []
    ensures stack[|stack| - 1].at.node < |h| && FrameCost(h, stack[|stack| - 1]) > 0
  {
  }

  lemma StillUndecided(l: Limits, h: Heap, rest: seq<Frame>, at: Key, stack: seq<Frame>)
    requires HeapOk(h) && ClosingUndecided(l, h, rest + [Opening(at)]) && Undecided(l, h, at)
    requires |stack| > |rest| && stack[..|rest| + 1] == rest + [Closing(at)]
    requires forall j :: |rest| < j < |stack| ==> stack[j].Opening?
    ensures ClosingUndecided(l, h, stack)
  {
    hide Undecided;
    forall i | 0 <= i < |stack| && stack[i].Closing? ensures Undecided(l, h, stack[i].at) {
      assert stack[i] == stack[..|rest| + 1][i];
      if i < |rest| {
        assert (rest + [Opening(at)])[i] == stack[i];
      }
    }
  }

  // ---- what a coefficient is worth ----------------------------------------------

  function FactorsValue(factors: seq<(nat, bool)>, lut: seq<real>): real
  {
    if factors == [] then 1.0
    else Times(if factors[0].1 then SinOf(lut, factors[0].0) else CosOf(lut, factors[0].0),
         FactorsValue(factors[1..], lut))
  }

  function MonoValue(m: Mono, lut: seq<real>): real { Times(m.scalar, FactorsValue(m.factors, lut)) }

  function MonosValue(ms: seq<Mono>, lut: seq<real>): real
  {
    if ms == [] then 0.0 else MonosValue(ms[..|ms| - 1], lut) + MonoValue(ms[|ms| - 1], lut)
  }

  lemma {:induction false} MonosAppend(a: seq<Mono>, b: seq<Mono>, lut: seq<real>)
    ensures MonosValue(a + b, lut) == MonosValue(a, lut) + MonosValue(b, lut)
    decreases |b|
  {
    if b == [] {
      assert a + b == a;
    } else {
      MonosAppend(a, b[..|b| - 1], lut);
      assert (a + b)[..|a + b| - 1] == a + b[..|b| - 1];
    }
  }

  lemma {:induction false} MonosRescaled(ms: seq<Mono>, k: real, lut: seq<real>)
    ensures MonosValue(Rescaled(ms, k), lut) == Times(k, MonosValue(ms, lut))
    decreases |ms|
  {
    hide Times;
    TimesLaws(k, 0.0, 0.0);
    if ms != [] {
      var last := |ms| - 1;
      MonosRescaled(ms[..last], k, lut);
      assert Rescaled(ms, k)[..last] == Rescaled(ms[..last], k);
      TimesLaws(k, ms[last].scalar, FactorsValue(ms[last].factors, lut));
      TimesLaws(k, MonosValue(ms[..last], lut), MonoValue(ms[last], lut));
    }
  }

  lemma {:induction false} MonosMultiplied(ms: seq<Mono>, p: nat, isSin: bool, lut: seq<real>)
    ensures MonosValue(Multiplied(ms, p, isSin), lut)
      == Times(if isSin then SinOf(lut, p) else CosOf(lut, p), MonosValue(ms, lut))
    decreases |ms|
  {
    hide Times;
    var v := if isSin then SinOf(lut, p) else CosOf(lut, p);
    TimesLaws(v, 0.0, 0.0);
    if ms != [] {
      var last := |ms| - 1;
      MonosMultiplied(ms[..last], p, isSin, lut);
      assert Multiplied(ms, p, isSin)[..last] == Multiplied(ms[..last], p, isSin);
      assert ([(p, isSin)] + ms[last].factors)[1..] == ms[last].factors;
      TimesLaws(v, ms[last].scalar, FactorsValue(ms[last].factors, lut));
      TimesLaws(v, MonosValue(ms[..last], lut), MonoValue(ms[last], lut));
    }
  }

  /** A coefficient's value is the sum of its monomials. */
  lemma {:induction false} MonosAddUp(h: Heap, x: nat, lut: seq<real>)
    requires HeapOk(h) && x < |h|
    ensures Value(h, x, lut) == MonosValue(Monos(Unfold(h, x)), lut)
    decreases x
  {
    hide Times;
    match h[x]
    case Scalar(c) =>
      TimesLaws(c, 0.0, 0.0);
      assert Monos(Unfold(h, x))[..0] == [];
    case Add(a, b) =>
      MonosAddUp(h, a, lut);
      MonosAddUp(h, b, lut);
      MonosAppend(Monos(Unfold(h, a)), Monos(Unfold(h, b)), lut);
    case Scale(k, a) =>
      MonosAddUp(h, a, lut);
      MonosRescaled(Monos(Unfold(h, a)), k, lut);
    case Cos(p, a) =>
      MonosAddUp(h, a, lut);
      MonosMultiplied(Monos(Unfold(h, a)), p, false, lut);
    case Sin(p, a) =>
      MonosAddUp(h, a, lut);
      MonosMultiplied(Monos(Unfold(h, a)), p, true, lut);
  }
}
