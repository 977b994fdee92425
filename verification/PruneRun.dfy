/**
 Graphs that are pruned between gates. Pruning may leave one node shared by two sums, so the
 shape the gate loop keeps by itself is lost. What remains true is that every node stands for
 one of the graph that was never pruned, and that is enough for every later walk.
 */
module PruneRuns {
  import opened Wrappers
  import opened SymbolicCoeffs
  import opened CompiledTapes
  import opened Pruning
  import opened PruneWalks
  import opened Simplification

  // ---- summands below a node ----------------------------------------------------

  lemma {:induction false} SumBelowReaches(h: Heap, x: nat, y: nat)
    requires HeapOk(h) && x < |h| && SumBelow(h, x, y)
    ensures Reaches(h, x, y) && y <= x
    decreases x
  {
    if x != y {
      var c := if SumBelow(h, h[x].left, y) then h[x].left else h[x].right;
      SumBelowReaches(h, c, y);
    }
  }

  lemma {:induction false} SumBelowTrans(h: Heap, x: nat, y: nat, z: nat)
    requires HeapOk(h) && x < |h| && y < |h| && SumBelow(h, x, y) && SumBelow(h, y, z)
    ensures SumBelow(h, x, z)
    decreases x
  {
    if x != y {
      var c := if SumBelow(h, h[x].left, y) then h[x].left else h[x].right;
      SumBelowTrans(h, c, y, z);
    }
  }

  lemma {:induction false} SumBelowKept(h: Heap, h': Heap, x: nat, y: nat)
    requires HeapOk(h) && HeapOk(h') && h <= h' && x < |h|
    ensures SumBelow(h', x, y) == SumBelow(h, x, y)
    decreases x
  {
    assert h'[x] == h[x];
    if h[x].Add? {
      SumBelowKept(h, h', h[x].left, y);
      SumBelowKept(h, h', h[x].right, y);
    }
  }

  /** A summand below `x` other than `x` itself is a child of a sum that is below `x` too. */
  lemma {:induction false} SumAbove(h: Heap, x: nat, y: nat) returns (q: nat)
    requires HeapOk(h) && x < |h| && SumBelow(h, x, y) && x != y
    ensures q < |h| && h[q].Add? && Child(h[q], y) && SumBelow(h, x, q)
    decreases x
  {
    var c := if SumBelow(h, h[x].left, y) then h[x].left else h[x].right;
    if c == y {
      q := x;
    } else {
      q := SumAbove(h, c, y);
    }
  }

  /** If neither of two nodes leads to the other, no summand of one leads to a summand of the other. */
  lemma {:induction false} NoCrossing(h: Heap, u: nat, v: nat, x: nat, y: nat)
    requires HeapOk(h) && SumsOwnTheirParts(h) && u < |h| && v < |h| && !Reaches(h, u, v) && !Reaches(h, v, u)
    requires SumBelow(h, u, x) && SumBelow(h, v, y)
    ensures x < |h| && y < |h| && !Reaches(h, x, y)
    decreases v - y
  {
    SumBelowReaches(h, u, x);
    SumBelowReaches(h, v, y);
    if Reaches(h, x, y) {
      if y == v {
        ReachesTrans(h, u, x, y);
      } else {
        var q := SumAbove(h, v, y);
        assert y < q;
        if x == y {
          if x == u {
            assert false;
          } else {
            var p := SumAbove(h, u, x);
            assert p == q;
            NoCrossing(h, u, v, q, q);
            assert false;
          }
        } else {
          var p := ThroughParent(h, x, y);
          assert p == q;
          NoCrossing(h, u, v, x, q);
        }
      }
    }
  }

  // ---- what stands for what -----------------------------------------------------

  /** Node `i` of `g` is what is left of node `o[i]` of `h`; `h` need not be where `g` grew from. */
  ghost predicate AllStand(h: Heap, g: Heap, o: seq<nat>)
  {
    HeapOk(h) && HeapOk(g) && |o| == |g| && forall i :: 0 <= i < |g| ==> StandsFor(h, g, o, i)
  }

  lemma StandsChild(h: Heap, g: Heap, o: seq<nat>, i: nat, c: nat) returns (d: nat)
    requires AllStand(h, g, o) && i < |g| && Child(g[i], c)
    ensures o[i] < |h| && Child(h[o[i]], d) && d < |h| && c < |g| && SumBelow(h, d, o[c])
  {
    assert StandsFor(h, g, o, i);
    match g[i]
    case Add(a, b) => d := if c == a then h[o[i]].left else h[o[i]].right;
    case Scale(_, _) => d := InnerOf(h[o[i]]).value;
    case Cos(_, _) => d := InnerOf(h[o[i]]).value;
    case Sin(_, _) => d := InnerOf(h[o[i]]).value;
  }

  /** A path in the pruned graph stands for a path in the other. */
  lemma {:induction false} PathsStand(h: Heap, g: Heap, o: seq<nat>, x: nat, y: nat)
    requires AllStand(h, g, o) && x < |g| && Reaches(g, x, y)
    ensures y < |g| && o[x] < |h| && o[y] < |h| && Reaches(h, o[x], o[y])
    decreases x
  {
    assert StandsFor(h, g, o, x);
    ReachesIs(g, x, y);
    if x != y {
      var c: nat :| Child(g[x], c) && Reaches(g, c, y);
      var d := StandsChild(h, g, o, x, c);
      PathsStand(h, g, o, c, y);
      SumBelowReaches(h, d, o[c]);
      ReachesTrans(h, d, o[c], o[y]);
      ReachesIs(h, o[x], o[y]);
    }
  }

  lemma {:induction false} SumBelowStands(h: Heap, g: Heap, o: seq<nat>, x: nat, y: nat)
    requires AllStand(h, g, o) && x < |g| && SumBelow(g, x, y)
    ensures y < |g| && o[x] < |h| && SumBelow(h, o[x], o[y])
    decreases x
  {
    assert StandsFor(h, g, o, x);
    if x != y {
      var c := if SumBelow(g, g[x].left, y) then g[x].left else g[x].right;
      var d := if SumBelow(g, g[x].left, y) then h[o[x]].left else h[o[x]].right;
      SumBelowStands(h, g, o, c, y);
      SumBelowTrans(h, d, o[c], o[y]);
    }
  }

  /** Standing for composes. */
  lemma StandingComposes(h: Heap, g: Heap, o: seq<nat>, f: Heap, p: seq<nat>, q: seq<nat>)
    requires AllStand(h, g, o) && AllStand(g, f, p) && |q| == |p|
      && forall i :: 0 <= i < |p| ==> p[i] < |g| && q[i] == o[p[i]]
    ensures AllStand(h, f, q)
  {
    hide SumBelow;
    forall i | 0 <= i < |f| ensures StandsFor(h, f, q, i) {
      var x := p[i];
      assert StandsFor(g, f, p, i) && StandsFor(h, g, o, x);
      if InnerOf(f[i]).Some? {
        StandsDown(h, g, o, InnerOf(h[o[x]]).value, InnerOf(g[x]).value, p[InnerOf(f[i]).value]);
      }
      if f[i].Add? {
        StandsDown(h, g, o, h[o[x]].left, g[x].left, p[f[i].left]);
        StandsDown(h, g, o, h[o[x]].right, g[x].right, p[f[i].right]);
      }
    }
  }

  lemma {:induction false} StandsDown(h: Heap, g: Heap, o: seq<nat>, d: nat, c: nat, y: nat)
    requires AllStand(h, g, o) && d < |h| && c < |g| && SumBelow(h, d, o[c]) && SumBelow(g, c, y)
    ensures y < |g| && SumBelow(h, d, o[y])
  {
    SumBelowStands(h, g, o, c, y);
    SumBelowTrans(h, d, o[c], o[y]);
  }

  // ---- the history of a pruned graph --------------------------------------------

  /**
   `h` with its coefficients `roots` is a graph that was never pruned; every node of `g` stands
   for one of it, and so does every coefficient that is left.
   */
  ghost predicate Tracks(h: Heap, roots: seq<nat>, g: Heap, live: seq<Option<nat>>, o: seq<nat>)
  {
    && Shape(h, roots) && AllStand(h, g, o) && |live| == |roots|
    && forall i :: 0 <= i < |live| ==> RootStands(h, roots[i], |g|, live[i], o)
  }

  ghost predicate RootStands(h: Heap, root: nat, n: nat, x: Option<nat>, o: seq<nat>)
    requires HeapOk(h) && n == |o|
  {
    root < |h| && (x.Some? ==> x.value < n && SumBelow(h, root, o[x.value]))
  }

  /** A graph with such a history can be walked: no summand leads to its sibling, no coefficient to another. */
  lemma {:induction false} TracksIsWalkable(h: Heap, roots: seq<nat>, g: Heap, live: seq<Option<nat>>, o: seq<nat>)
    requires Tracks(h, roots, g, live, o)
    ensures SumsIncomparable(g) && SumsWalkable(g) && RootsWalkable(g, live) && OwnRoots(live)
    ensures forall i, j :: 0 <= i < |live| && 0 <= j < |live| && i != j && live[i].Some? && live[j].Some? ==>
              !Reaches(g, live[i].value, live[j].value)
  {
    hide StandsFor, SumBelow, Reaches;
    ShapeIsAntichain(h, roots);
    forall i | 0 <= i < |g| && g[i].Add?
      ensures !Reaches(g, g[i].left, g[i].right) && !Reaches(g, g[i].right, g[i].left)
    {
      SummandsTracked(h, roots, g, live, o, i);
    }
    forall i, j | 0 <= i < |live| && 0 <= j < |live| && i != j && live[i].Some? && live[j].Some?
      ensures !Reaches(g, live[i].value, live[j].value)
    {
      assert RootStands(h, roots[i], |g|, live[i], o) && RootStands(h, roots[j], |g|, live[j], o);
      NoCrossing(h, roots[i], roots[j], o[live[i].value], o[live[j].value]);
      if Reaches(g, live[i].value, live[j].value) {
        PathsStand(h, g, o, live[i].value, live[j].value);
      }
    }
    forall i | 0 <= i < |live| && live[i].Some?
      ensures live[i].value < |g| && Reaches(g, live[i].value, live[i].value)
    {
      assert RootStands(h, roots[i], |g|, live[i], o);
      ReachesIs(g, live[i].value, live[i].value);
    }
  }

  lemma {:induction false} SummandsTracked(h: Heap, roots: seq<nat>, g: Heap, live: seq<Option<nat>>, o: seq<nat>,
                                           i: nat)
    requires Tracks(h, roots, g, live, o) && SumsIncomparable(h) && i < |g| && g[i].Add?
    ensures !Reaches(g, g[i].left, g[i].right) && !Reaches(g, g[i].right, g[i].left)
  {
    assert StandsFor(h, g, o, i);
    var (a, b) := (g[i].left, g[i].right);
    var (u, v) := (h[o[i]].left, h[o[i]].right);
    NoCrossing(h, u, v, o[a], o[b]);
    NoCrossing(h, v, u, o[b], o[a]);
    if Reaches(g, a, b) {
      PathsStand(h, g, o, a, b);
    }
    if Reaches(g, b, a) {
      PathsStand(h, g, o, b, a);
    }
  }

  // ---- runs ---------------------------------------------------------------------

  /**
   What happens to coefficients: gates split and wrap them, arriving branches are merged in or
   dropped, pruning cuts one, and simplification rebuilds a stretch of them.
   */
  datatype Move =
    | Start(c: real)
    | Wrap(at: nat, x: Node)
    | Split(at: nat, x: Node, y: Node)
    | Merge(at: nat, from: nat)
    | Drop(at: nat)
    | Cut(at: nat)
    | Rebuild(lo: nat, hi: nat)

  function Without<T>(s: seq<T>, i: nat): seq<T>
    requires i < |s|
  {
    s[..i] + s[i + 1..]
  }

  /** One move: a missing coefficient stays missing until another is merged into it. */
  ghost predicate Moved(g: Heap, live: seq<Option<nat>>, m: Move, g': Heap, live': seq<Option<nat>>)
  {
    match m
    case Start(c) => g' == g + [Scalar(c)] && live' == live + [Some(|g|)]
    case Wrap(at, x) =>
      at < |live| &&
      if live[at].None? then g' == g && live' == live
      else Over(x, live[at].value) && g' == g + [x] && live' == live[at := Some(|g|)]
    case Split(at, x, y) =>
      at < |live| &&
      if live[at].None? then g' == g && live' == live + [None]
      else
        && Over(x, live[at].value) && Over(y, live[at].value)
        && g' == g + [x] + [y] && live' == live[at := Some(|g|)] + [Some(|g| + 1)]
    case Merge(at, from) =>
      at < from < |live| &&
      if live[at].None? then g' == g && live' == Without(live[at := live[from]], from)
      else if live[from].None? then g' == g && live' == Without(live, from)
      else g' == g + [Add(live[at].value, live[from].value)] && live' == Without(live[at := Some(|g|)], from)
    case Drop(at) => at < |live| && g' == g && live' == Without(live, at)
    case Cut(at) =>
      at < |live| &&
      if live[at].None? then g' == g && live' == live
      else exists r :: CutTo(g, live[at].value, g', r) && live' == live[at := r]
    case Rebuild(lo, hi) =>
      lo <= hi <= |live| && |live'| == |live| && live'[..lo] == live[..lo] && live'[hi..] == live[hi..]
      && g <= g' && FreshShape(g', |g|, Somes(live'[lo..hi]))
  }

  /** The history grows by nodes at the end: what stood for a node still does. */
  lemma HistoryGrows(h: Heap, h': Heap, g: Heap, o: seq<nat>)
    requires AllStand(h, g, o) && HeapOk(h') && h <= h'
    ensures AllStand(h', g, o)
  {
    hide SumBelow;
    forall i | 0 <= i < |g| ensures StandsFor(h', g, o, i) {
      assert StandsFor(h, g, o, i) && h'[o[i]] == h[o[i]];
      if InnerOf(g[i]).Some? {
        SumBelowKept(h, h', InnerOf(h[o[i]]).value, o[InnerOf(g[i]).value]);
      }
      if g[i].Add? {
        SumBelowKept(h, h', h[o[i]].left, o[g[i].left]);
        SumBelowKept(h, h', h[o[i]].right, o[g[i].right]);
      }
    }
  }

  lemma RootGrows(h: Heap, h': Heap, root: nat, x: Option<nat>, o: seq<nat>, o': seq<nat>)
    requires HeapOk(h) && HeapOk(h') && h <= h' && o <= o' && RootStands(h, root, |o|, x, o)
    ensures RootStands(h', root, |o'|, x, o')
  {
    if x.Some? {
      SumBelowKept(h, h', root, o[x.value]);
    }
  }

  /** One more node on each side, one standing for the other. */
  lemma {:induction false} BothGrow(h: Heap, g: Heap, o: seq<nat>, x: Node, y: Node)
    requires AllStand(h, g, o) && Fits(x, |h|) && Fits(y, |g|)
    requires InnerOf(y).Some? ==> InnerOf(x).Some? && SumBelow(h, InnerOf(x).value, o[InnerOf(y).value])
    requires y.Add? ==> x.Add? && SumBelow(h, x.left, o[y.left]) && SumBelow(h, x.right, o[y.right])
    ensures AllStand(h + [x], g + [y], o + [|h|])
  {
    hide SumBelow;
    var h', g', o' := h + [x], g + [y], o + [|h|];
    HistoryGrows(h, h', g, o);
    forall i | 0 <= i < |g'| ensures StandsFor(h', g', o', i) {
      if i < |g| {
        assert StandsFor(h', g, o, i) && g'[i] == g[i];
      } else {
        if InnerOf(y).Some? {
          SumBelowKept(h, h', InnerOf(x).value, o[InnerOf(y).value]);
        }
        if y.Add? {
          SumBelowKept(h, h', x.left, o[y.left]);
          SumBelowKept(h, h', x.right, o[y.right]);
        }
      }
    }
  }

  /** The same node over another child. */
  function Moved1(x: Node, a: nat): Node
  {
    match x
    case Scalar(c) => Scalar(c)
    case Add(b, c) => Add(b, c)
    case Scale(k, _) => Scale(k, a)
    case Cos(p, _) => Cos(p, a)
    case Sin(p, _) => Sin(p, a)
  }

  lemma StartTracked(h: Heap, roots: seq<nat>, g: Heap, live: seq<Option<nat>>, o: seq<nat>, c: real)
      returns (h': Heap, roots': seq<nat>, o': seq<nat>)
    requires Tracks(h, roots, g, live, o)
    ensures Tracks(h', roots', g + [Scalar(c)], live + [Some(|g|)], o')
  {
    hide StandsFor;
    h', roots', o' := h + [Scalar(c)], roots + [|h|], o + [|h|];
    FreshKeeps(h, roots, c);
    BothGrow(h, g, o, Scalar(c), Scalar(c));
    RootsGrow(h, h', roots, live, o, o');
  }

  lemma RootsGrow(h: Heap, h': Heap, roots: seq<nat>, live: seq<Option<nat>>, o: seq<nat>, o': seq<nat>)
    requires HeapOk(h) && HeapOk(h') && h <= h' && o <= o' && |live| == |roots|
    requires forall i :: 0 <= i < |live| ==> RootStands(h, roots[i], |o|, live[i], o)
    ensures forall i :: 0 <= i < |live| ==> RootStands(h', roots[i], |o'|, live[i], o')
  {
    forall i | 0 <= i < |live| ensures RootStands(h', roots[i], |o'|, live[i], o') {
      RootGrows(h, h', roots[i], live[i], o, o');
    }
  }

  lemma WrapTracked(h: Heap, roots: seq<nat>, g: Heap, live: seq<Option<nat>>, o: seq<nat>, at: nat, x: Node)
      returns (h': Heap, roots': seq<nat>, o': seq<nat>)
    requires Tracks(h, roots, g, live, o) && at < |live| && live[at].Some? && Over(x, live[at].value)
    ensures Tracks(h', roots', g + [x], live[at := Some(|g|)], o')
  {
    hide StandsFor;
    assert RootStands(h, roots[at], |g|, live[at], o);
    var y := Moved1(x, roots[at]);
    h', roots', o' := h + [y], roots[at := |h|], o + [|h|];
    ReplaceKeeps(h, roots, at, y);
    BothGrow(h, g, o, y, x);
    RootsGrow(h, h', roots, live, o, o');
  }

  lemma SplitTracked(h: Heap, roots: seq<nat>, g: Heap, live: seq<Option<nat>>, o: seq<nat>, at: nat, x: Node, y: Node)
      returns (h': Heap, roots': seq<nat>, o': seq<nat>)
    requires Tracks(h, roots, g, live, o) && at < |live| && live[at].Some? && Over(x, live[at].value)
      && Over(y, live[at].value)
    ensures Tracks(h', roots', g + [x] + [y], live[at := Some(|g|)] + [Some(|g| + 1)], o')
  {
    hide StandsFor;
    assert RootStands(h, roots[at], |g|, live[at], o);
    var u, v := Moved1(x, roots[at]), Moved1(y, roots[at]);
    var h1 := h + [u];
    h', roots', o' := h1 + [v], roots[at := |h|] + [|h| + 1], o + [|h|] + [|h| + 1];
    BranchKeeps(h, roots, at, u, v);
    BothGrow(h, g, o, u, x);
    SumBelowKept(h, h1, roots[at], o[live[at].value]);
    BothGrow(h1, g + [x], o + [|h|], v, y);
    RootsGrow(h, h', roots, live, o, o');
  }

  lemma MergeTracked(h: Heap, roots: seq<nat>, g: Heap, live: seq<Option<nat>>, o: seq<nat>, at: nat, from: nat)
      returns (h': Heap, roots': seq<nat>, o': seq<nat>)
    requires Tracks(h, roots, g, live, o) && at < from < |live| && live[at].Some? && live[from].Some?
    ensures Tracks(h', roots', g + [Add(live[at].value, live[from].value)], Without(live[at := Some(|g|)], from), o')
  {
    hide StandsFor;
    assert RootStands(h, roots[at], |g|, live[at], o) && RootStands(h, roots[from], |g|, live[from], o);
    var x, y := Add(roots[at], roots[from]), Add(live[at].value, live[from].value);
    h', roots', o' := h + [x], Without(roots[at := |h|], from), o + [|h|];
    assert roots' == roots[at := |h|][..from] + roots[from + 1..];
    MergeKeeps(h, roots, at, from);
    BothGrow(h, g, o, x, y);
    RootsGrow(h, h', roots, live, o, o');
  }

  /** Merging with a missing coefficient: the history has the sum, the graph what is left of it. */
  lemma HalfMergeTracked(h: Heap, roots: seq<nat>, g: Heap, live: seq<Option<nat>>, o: seq<nat>, at: nat, from: nat)
      returns (h': Heap, roots': seq<nat>)
    requires Tracks(h, roots, g, live, o) && at < from < |live| && (live[at].None? || live[from].None?)
    ensures Tracks(h', roots', g, Without(live[at := if live[at].None? then live[from] else live[at]], from), o)
  {
    hide StandsFor;
    assert RootStands(h, roots[at], |g|, live[at], o) && RootStands(h, roots[from], |g|, live[from], o);
    var x := Add(roots[at], roots[from]);
    h', roots' := h + [x], Without(roots[at := |h|], from);
    assert roots' == roots[at := |h|][..from] + roots[from + 1..];
    MergeKeeps(h, roots, at, from);
    HistoryGrows(h, h', g, o);
    RootsGrow(h, h', roots, live, o, o);
  }

  lemma OriginsInside(g: Heap, g': Heap, p: seq<nat>)
    requires Traced(g, g', p)
    ensures forall i :: 0 <= i < |g'| ==> p[i] < |g|
  {
    forall i | 0 <= i < |g'| ensures p[i] < |g| {
      assert StandsFor(g, g', p, i);
    }
  }

  lemma CutTracked(h: Heap, roots: seq<nat>, g: Heap, live: seq<Option<nat>>, o: seq<nat>, at: nat, g': Heap,
                   r: Option<nat>)
      returns (o': seq<nat>)
    requires Tracks(h, roots, g, live, o) && at < |live| && live[at].Some? && CutTo(g, live[at].value, g', r)
    ensures Tracks(h, roots, g', live[at := r], o')
  {
    hide StandsFor, SumBelow;
    var p: seq<nat> :| Traced(g, g', p) && LeftOf(g, p, live[at].value, r);
    OriginsInside(g, g', p);
    o' := seq(|p|, i requires 0 <= i < |p| => o[p[i]]);
    StandingComposes(h, g, o, g', p, o');
    assert forall i :: 0 <= i < |o| ==> o'[i] == o[i];
    assert o <= o';
    RootsGrow(h, h, roots, live, o, o');
    if r.Some? {
      assert RootStands(h, roots[at], |g|, live[at], o);
      StandsDown(h, g, o, roots[at], live[at].value, p[r.value]);
    }
  }

  // ---- rebuilding ---------------------------------------------------------------

  /** The node with its children moved from `base` on to `to` on. */
  function ShiftNode(x: Node, base: nat, to: nat): Node
  {
    match x
    case Scalar(c) => Scalar(c)
    case Add(a, b) => Add(Shift(a, base, to), Shift(b, base, to))
    case Scale(k, a) => Scale(k, Shift(a, base, to))
    case Cos(p, a) => Cos(p, Shift(a, base, to))
    case Sin(p, a) => Sin(p, Shift(a, base, to))
  }

  function Shift(a: nat, base: nat, to: nat): nat { if a >= base then a - base + to else to }

  /** The fresh nodes of `g` behind `h`. */
  function Appended(h: Heap, g: Heap, base: nat): (r: Heap)
    requires base <= |g|
    ensures |r| == |h| + |g| - base && h <= r
    ensures forall i :: base <= i < |g| ==> r[Shift(i, base, |h|)] == ShiftNode(g[i], base, |h|)
  {
    h + seq(|g| - base, k requires 0 <= k < |g| - base => ShiftNode(g[base + k], base, |h|))
  }

  lemma AppendedHeapOk(h: Heap, g: Heap, base: nat)
    requires HeapOk(h) && HeapOk(g) && base <= |g| && ClosedFrom(g, base)
    ensures HeapOk(Appended(h, g, base))
  {
    var r := Appended(h, g, base);
    forall i | 0 <= i < |r| ensures Fits(r[i], i) {
      if i >= |h| {
        var k := i - |h| + base;
        assert r[Shift(k, base, |h|)] == ShiftNode(g[k], base, |h|) && Fits(g[k], k);
        ShiftedChildren(g, base, k, |h|);
      }
    }
  }

  /** The children of a shifted node are the shifted children. */
  lemma ShiftedChildren(g: Heap, base: nat, k: nat, to: nat)
    requires HeapOk(g) && base <= k < |g| && ClosedFrom(g, base)
    ensures forall c: nat :: Child(g[k], c) ==> base <= c < k && Child(ShiftNode(g[k], base, to), Shift(c, base, to))
    ensures forall d: nat :: Child(ShiftNode(g[k], base, to), d) ==> d >= to && Child(g[k], d - to + base)
    ensures Fits(ShiftNode(g[k], base, to), k - base + to)
  {
    var x := g[k];
    match x
    case Scalar(_) =>
    case Add(a, b) => assert Child(x, a) && Child(x, b);
    case Scale(_, a) => assert Child(x, a);
    case Cos(_, a) => assert Child(x, a);
    case Sin(_, a) => assert Child(x, a);
  }

  lemma AppendedAt(h: Heap, g: Heap, base: nat, i: nat)
    requires base <= |g| && i < |Appended(h, g, base)|
    ensures i < |h| ==> Appended(h, g, base)[i] == h[i]
    ensures i >= |h| ==>
      i - |h| + base < |g| && Appended(h, g, base)[i] == ShiftNode(g[i - |h| + base], base, |h|)
  {
    hide ShiftNode;
    var r := Appended(h, g, base);
    if i >= |h| {
      var k := i - |h| + base;
      assert r[Shift(k, base, |h|)] == ShiftNode(g[k], base, |h|);
    }
  }

  /** The children of every node of the whole lie on its own side. */
  lemma AppendedChild(h: Heap, g: Heap, base: nat, i: nat, c: nat)
    requires HeapOk(h) && HeapOk(g) && base <= |g| && ClosedFrom(g, base) && i < |Appended(h, g, base)|
      && Child(Appended(h, g, base)[i], c)
    ensures if i < |h| then c < |h| && Child(h[i], c) else c >= |h| && Child(g[i - |h| + base], c - |h| + base)
    ensures i >= |h| ==> Appended(h, g, base)[i] == ShiftNode(g[i - |h| + base], base, |h|)
  {
    hide Appended, ShiftNode, ClosedFrom, Shift, HeapOk, Child;
    AppendedAt(h, g, base, i);
    if i < |h| {
      ChildBelow(h, i, c);
    } else {
      FreshChild(g, base, i - |h| + base, |h|, c);
    }
  }

  lemma ChildBelow(h: Heap, i: nat, c: nat)
    requires HeapOk(h) && i < |h| && Child(h[i], c)
    ensures c < |h|
  {
    assert Fits(h[i], i);
  }

  lemma FreshChild(g: Heap, base: nat, k: nat, to: nat, c: nat)
    requires HeapOk(g) && base <= k < |g| && ClosedFrom(g, base) && Child(ShiftNode(g[k], base, to), c)
    ensures c >= to && Child(g[k], c - to + base)
  {
    hide Child, ShiftNode, ClosedFrom, HeapOk;
    ShiftedChildren(g, base, k, to);
  }

  lemma AppendedSums(h: Heap, g: Heap, base: nat)
    requires HeapOk(h) && SumsOwnTheirParts(h) && base <= |g| && exists live :: FreshShape(g, base, live)
    ensures SumsOwnTheirParts(Appended(h, g, base))
  {
    var r := Appended(h, g, base);
    forall i: nat, j: nat, c: nat | i < |r| && r[i].Add? && Child(r[i], c) && j < |r| && Child(r[j], c)
      ensures i == j && r[i].left != r[i].right
    {
      hide Appended;
      AppendedChild(h, g, base, i, c);
      AppendedChild(h, g, base, j, c);
      if i >= |h| {
        AppendedSum(h, g, base, i, j, c);
      }
    }
  }

  /** A fresh sum owns its parts wherever the fresh nodes are put. */
  lemma AppendedSum(h: Heap, g: Heap, base: nat, i: nat, j: nat, c: nat)
    requires HeapOk(h) && HeapOk(g) && base <= |g| && (exists live :: FreshShape(g, base, live)) && |h| <= i
    requires i - |h| + base < |g| && j - |h| + base < |g| && |h| <= j && |h| <= c
    requires Child(g[i - |h| + base], c - |h| + base) && Child(g[j - |h| + base], c - |h| + base)
    requires ShiftNode(g[i - |h| + base], base, |h|).Add?
    ensures i == j && ShiftNode(g[i - |h| + base], base, |h|).left != ShiftNode(g[i - |h| + base], base, |h|).right
  {
    var k := i - |h| + base;
    var live :| FreshShape(g, base, live);
    assert g[k].Add? && Child(g[k], g[k].left) && Child(g[k], g[k].right);
  }

  /** Nodes without parents have none in the whole either. */
  lemma AppendedParentless(h: Heap, g: Heap, base: nat, x: nat)
    requires HeapOk(h) && HeapOk(g) && base <= |g| && ClosedFrom(g, base)
    requires if x < |h| then Parentless(h, x) else Parentless(g, x - |h| + base)
    ensures Parentless(Appended(h, g, base), x)
  {
    var r := Appended(h, g, base);
    forall i: nat | i < |r| ensures !Child(r[i], x) {
      if Child(r[i], x) {
        AppendedChild(h, g, base, i, x);
      }
    }
  }

  /** The new roots: a rebuilt coefficient's own, or the old one where nothing is left. */
  function NewRoots(roots: seq<nat>, live: seq<Option<nat>>, lo: nat, hi: nat, base: nat, to: nat): (r: seq<nat>)
    requires lo <= hi <= |live| == |roots|
    ensures |r| == |roots|
      && forall i ::
        0 <= i < |r| ==> r[i] == if lo <= i < hi && live[i].Some? then Shift(live[i].value, base, to) else roots[i]
  {
    seq(|roots|, i requires 0 <= i < |roots| => if lo <= i < hi
      && live[i].Some? then Shift(live[i].value, base, to) else roots[i])
  }

  lemma {:induction false} SomesAt(coeffs: seq<Option<nat>>, i: nat) returns (k: nat)
    requires i < |coeffs| && coeffs[i].Some?
    ensures k < |Somes(coeffs)| && Somes(coeffs)[k] == coeffs[i].value
    decreases |coeffs|
  {
    var last := |coeffs| - 1;
    if i < last {
      k := SomesAt(coeffs[..last], i);
    } else {
      k := |Somes(coeffs[..last])|;
    }
  }

  ghost predicate AllDifferent(s: seq<nat>) { forall i, j :: 0 <= i < j < |s| ==> s[i] != s[j] }

  lemma {:induction false} SomesApart(coeffs: seq<Option<nat>>, i: nat, j: nat)
    requires i < j < |coeffs| && coeffs[i].Some? && coeffs[j].Some? && AllDifferent(Somes(coeffs))
    ensures coeffs[i] != coeffs[j]
    decreases |coeffs|
  {
    var last := |coeffs| - 1;
    var front := Somes(coeffs[..last]);
    assert front == Somes(coeffs)[..|front|];
    if j < last {
      SomesApart(coeffs[..last], i, j);
    } else {
      var k := SomesAt(coeffs[..last], i);
      assert Somes(coeffs)[k] == front[k] && Somes(coeffs)[|front|] == coeffs[j].value;
      assert Somes(coeffs)[k] != Somes(coeffs)[|front|];
    }
  }

  lemma NewRootLive(h: Heap, roots: seq<nat>, g: Heap, base: nat, live: seq<Option<nat>>, lo: nat, hi: nat, i: nat)
    requires Shape(h, roots) && lo <= hi <= |live| == |roots| && base <= |g|
      && FreshShape(g, base, Somes(live[lo..hi])) && i < |roots|
    ensures var x := NewRoots(roots, live, lo, hi, base, |h|)[i];
      x < |Appended(h, g, base)| && Parentless(Appended(h, g, base), x)
    ensures NewRoots(roots, live, lo, hi, base, |h|)[i] < |h| <==> !(lo <= i < hi && live[i].Some?)
    ensures lo <= i < hi && live[i].Some? ==> base <= live[i].value < |g|
  {
    hide Parentless, SumsOwnTheirParts, ClosedFrom, Appended;
    assert |Appended(h, g, base)| == |h| + |g| - base;
    if lo <= i < hi && live[i].Some? {
      var k := SomesAt(live[lo..hi], i - lo);
    }
    AppendedParentless(h, g, base, NewRoots(roots, live, lo, hi, base, |h|)[i]);
  }

  lemma NewRootsApart(roots: seq<nat>, live: seq<Option<nat>>, lo: nat, hi: nat, base: nat, to: nat, i: nat, j: nat)
    requires lo <= hi <= |live| == |roots| && i < j < |roots| && roots[i] != roots[j] && roots[i] < to && roots[j] < to
    requires AllDifferent(Somes(live[lo..hi]))
    requires forall k :: k in {i, j} && lo <= k < hi && live[k].Some? ==> base <= live[k].value
    ensures var ns := NewRoots(roots, live, lo, hi, base, to); ns[i] != ns[j]
  {
    if lo <= i && j < hi && live[i].Some? && live[j].Some? {
      SomesApart(live[lo..hi], i - lo, j - lo);
    }
  }

  lemma NewRootsLive(h: Heap, roots: seq<nat>, g: Heap, base: nat, live: seq<Option<nat>>, lo: nat, hi: nat)
    requires Shape(h, roots) && lo <= hi <= |live| == |roots| && base <= |g| && FreshShape(g, base, Somes(live[lo..hi]))
    ensures LiveOk(Appended(h, g, base), NewRoots(roots, live, lo, hi, base, |h|))
    ensures forall i :: lo <= i < hi && live[i].Some? ==> base <= live[i].value < |g|
  {
    hide Parentless, SumsOwnTheirParts, ClosedFrom, Appended, Somes, Shift, NewRoots;
    var r, ns := Appended(h, g, base), NewRoots(roots, live, lo, hi, base, |h|);
    forall i: nat | i < |ns|
      ensures ns[i] < |r| && Parentless(r, ns[i])
      ensures lo <= i < hi && live[i].Some? ==> base <= live[i].value < |g|
    {
      NewRootLive(h, roots, g, base, live, lo, hi, i);
    }
    assert AllDifferent(Somes(live[lo..hi]));
    forall i: nat, j: nat | 0 <= i < j < |ns| ensures ns[i] != ns[j] {
      assert roots[i] != roots[j] && roots[i] < |h| && roots[j] < |h|;
      NewRootsApart(roots, live, lo, hi, base, |h|, i, j);
    }
  }

  lemma RebuildTracked(h: Heap, roots: seq<nat>, g: Heap, live: seq<Option<nat>>, o: seq<nat>, lo: nat, hi: nat,
                       g': Heap, live': seq<Option<nat>>)
      returns (h': Heap, roots': seq<nat>, o': seq<nat>)
    requires Tracks(h, roots, g, live, o) && Moved(g, live, Rebuild(lo, hi), g', live')
    ensures Tracks(h', roots', g', live', o')
  {
    hide SumsOwnTheirParts, LiveOk, StandsFor, Parentless, Appended, NewRoots;
    var base := |g|;
    h', roots' := Appended(h, g', base), NewRoots(roots, live', lo, hi, base, |h|);
    o' := o + seq(|g'| - base, k => |h| + k);
    AppendedHeapOk(h, g', base);
    AppendedSums(h, g', base);
    NewRootsLive(h, roots, g', base, live', lo, hi);
    HistoryGrows(h, h', g, o);
    forall i | 0 <= i < |g'| ensures StandsFor(h', g', o', i) {
      RebuiltStands(h, g, o, g', o', i);
    }
    forall i | 0 <= i < |live'| ensures RootStands(h', roots'[i], |g'|, live'[i], o') {
      if lo <= i < hi {
        assert live'[i].None? ==> RootStands(h, roots[i], |g|, live[i], o);
      } else {
        assert live'[i] == live[i] by {
          if i < lo {
            assert live'[..lo][i] == live[..lo][i];
          } else {
            assert live'[hi..][i - hi] == live[hi..][i - hi];
          }
        }
        RootGrows(h, h', roots[i], live[i], o, o');
      }
    }
  }

  lemma RebuiltStands(h: Heap, g: Heap, o: seq<nat>, g': Heap, o': seq<nat>, i: nat)
    requires AllStand(h, g, o) && g <= g' && HeapOk(g') && ClosedFrom(g', |g|) && i < |g'|
    requires |o'| == |g'| && o <= o' && forall k :: |g| <= k < |g'| ==> o'[k] == k - |g| + |h|
    requires HeapOk(Appended(h, g', |g|)) && AllStand(Appended(h, g', |g|), g, o)
    ensures StandsFor(Appended(h, g', |g|), g', o', i)
  {
    hide Appended, SumBelow, Child, ClosedFrom;
    if i < |g| {
      assert StandsFor(Appended(h, g', |g|), g, o, i) && g'[i] == g[i];
    } else {
      FreshStands(h, g', |g|, o', i);
    }
  }

  /** A rebuilt node stands for its copy. */
  lemma FreshStands(h: Heap, g: Heap, base: nat, o: seq<nat>, i: nat)
    requires HeapOk(g) && base <= i < |g| && ClosedFrom(g, base) && HeapOk(Appended(h, g, base))
    requires |o| == |g| && forall k :: base <= k < |g| ==> o[k] == k - base + |h|
    ensures StandsFor(Appended(h, g, base), g, o, i)
  {
    hide Appended, SumBelow, Child, ClosedFrom, HeapOk;
    var r, x := Appended(h, g, base), g[i];
    assert r[Shift(i, base, |h|)] == ShiftNode(x, base, |h|) && |r| == |h| + |g| - base;
    if x.Add? {
      ShiftedSummands(g, base, i, |h|, r);
    } else if InnerOf(x).Some? {
      ShiftedInner(g, base, i, |h|, r, InnerOf(x).value);
    }
  }

  lemma {:induction false} ShiftedSummands(g: Heap, base: nat, k: nat, to: nat, r: Heap)
    requires HeapOk(g) && base <= k < |g| && ClosedFrom(g, base) && HeapOk(r) && |r| == to + |g| - base && g[k].Add?
    ensures base <= g[k].left < k && SumBelow(r, Shift(g[k].left, base, to), Shift(g[k].left, base, to))
    ensures base <= g[k].right < k && SumBelow(r, Shift(g[k].right, base, to), Shift(g[k].right, base, to))
  {
    assert Child(g[k], g[k].left) && Child(g[k], g[k].right);
    SumBelowSelf(r, Shift(g[k].left, base, to));
    SumBelowSelf(r, Shift(g[k].right, base, to));
  }

  lemma {:induction false} SumBelowSelf(h: Heap, x: nat)
    requires HeapOk(h) && x < |h|
    ensures SumBelow(h, x, x)
  {
  }

  lemma {:induction false} ShiftedInner(g: Heap, base: nat, k: nat, to: nat, r: Heap, a: nat)
    requires HeapOk(g) && base <= k < |g| && ClosedFrom(g, base) && HeapOk(r) && |r| == to + |g| - base
      && InnerOf(g[k]) == Some(a)
    ensures base <= a < k && SumBelow(r, Shift(a, base, to), Shift(a, base, to))
  {
    assert Child(g[k], a);
    SumBelowSelf(r, Shift(a, base, to));
  }

  /** Every move keeps some history. */
  lemma MoveTracked(h: Heap, roots: seq<nat>, g: Heap, live: seq<Option<nat>>, o: seq<nat>, m: Move, g': Heap,
                    live': seq<Option<nat>>)
      returns (h': Heap, roots': seq<nat>, o': seq<nat>)
    requires Tracks(h, roots, g, live, o) && Moved(g, live, m, g', live')
    ensures Tracks(h', roots', g', live', o')
  {
    hide Tracks, CutTo;
    h', roots', o' := h, roots, o;
    match m
    case Start(c) => h', roots', o' := StartTracked(h, roots, g, live, o, c);
    case Wrap(at, x) =>
      if live[at].Some? {
        h', roots', o' := WrapTracked(h, roots, g, live, o, at, x);
      }
    case Split(at, x, y) =>
      if live[at].Some? {
        h', roots', o' := SplitTracked(h, roots, g, live, o, at, x, y);
      } else {
        h', roots' := NothingTracked(h, roots, g, live, o);
      }
    case Merge(at, from) =>
      if live[at].Some? && live[from].Some? {
        h', roots', o' := MergeTracked(h, roots, g, live, o, at, from);
      } else {
        h', roots' := HalfMergeTracked(h, roots, g, live, o, at, from);
        assert live[at := live[at]] == live;
      }
    case Drop(at) => roots' := DropTracked(h, roots, g, live, o, at);
    case Cut(at) =>
      if live[at].Some? {
        var r :| CutTo(g, live[at].value, g', r) && live' == live[at := r];
        o' := CutTracked(h, roots, g, live, o, at, g', r);
      }
    case Rebuild(lo, hi) => h', roots', o' := RebuildTracked(h, roots, g, live, o, lo, hi, g', live');
  }

  /** A branch of a missing coefficient is missing. */
  lemma NothingTracked(h: Heap, roots: seq<nat>, g: Heap, live: seq<Option<nat>>, o: seq<nat>)
      returns (h': Heap, roots': seq<nat>)
    requires Tracks(h, roots, g, live, o)
    ensures Tracks(h', roots', g, live + [None], o)
  {
    hide StandsFor;
    h', roots' := h + [Scalar(0.0)], roots + [|h|];
    FreshKeeps(h, roots, 0.0);
    HistoryGrows(h, h', g, o);
    RootsGrow(h, h', roots, live, o, o);
  }

  lemma DropTracked(h: Heap, roots: seq<nat>, g: Heap, live: seq<Option<nat>>, o: seq<nat>, at: nat)
      returns (roots': seq<nat>)
    requires Tracks(h, roots, g, live, o) && at < |live|
    ensures Tracks(h, roots', g, Without(live, at), o)
  {
    hide StandsFor;
    roots' := Without(roots, at);
    DropKeeps(h, roots, at);
  }

  /** The states of a run, from nothing on. */
  ghost predicate IsRun(heaps: seq<Heap>, lives: seq<seq<Option<nat>>>, moves: seq<Move>)
  {
    && |heaps| == |lives| == |moves| + 1 && heaps[0] == [] && lives[0] == []
    && forall i :: 0 <= i < |moves| ==> Moved(heaps[i], lives[i], moves[i], heaps[i + 1], lives[i + 1])
  }

  lemma {:induction false} RunTracked(heaps: seq<Heap>, lives: seq<seq<Option<nat>>>, moves: seq<Move>, i: nat)
      returns (h: Heap, roots: seq<nat>, o: seq<nat>)
    requires IsRun(heaps, lives, moves) && i <= |moves|
    ensures Tracks(h, roots, heaps[i], lives[i], o)
    decreases i
  {
    if i == 0 {
      h, roots, o := [], [], [];
    } else {
      hide Tracks, Moved;
      h, roots, o := RunTracked(heaps, lives, moves, i - 1);
      h, roots, o := MoveTracked(h, roots, heaps[i - 1], lives[i - 1], o, moves[i - 1], heaps[i], lives[i]);
    }
  }

  /** Some of `n` places, each at most once, in any order. */
  ghost predicate Choice(at: seq<nat>, n: nat)
  {
    (forall j :: 0 <= j < |at| ==> at[j] < n) && forall i, j :: 0 <= i < j < |at| ==> at[i] != at[j]
  }

  /** The coefficients at these places. */
  function Chosen(live: seq<Option<nat>>, at: seq<nat>): (r: seq<Option<nat>>)
    requires forall j :: 0 <= j < |at| ==> at[j] < |live|
    ensures |r| == |at| && forall j :: 0 <= j < |at| ==> r[j] == live[at[j]]
  {
    seq(|at|, j requires 0 <= j < |at| => live[at[j]])
  }

  lemma {:induction false} ChosenWalkable(g: Heap, live: seq<Option<nat>>, at: seq<nat>)
    requires HeapOk(g) && RootsWalkable(g, live) && OwnRoots(live) && Choice(at, |live|)
    requires forall i, j :: 0 <= i < |live| && 0 <= j < |live| && i != j && live[i].Some? && live[j].Some? ==>
               !Reaches(g, live[i].value, live[j].value)
    ensures RootsWalkable(g, Chosen(live, at)) && OwnRoots(Chosen(live, at))
  {
    hide Reaches;
  }

  /**
   After any sequence of rotations, merges, drops, prunings and simplifications, any of the
   coefficients can be compiled, simplified and pruned again, in any order: the walks never
   look up what is not done yet.
   */
  lemma {:induction false} EveryRunIsWalkable(heaps: seq<Heap>, lives: seq<seq<Option<nat>>>, moves: seq<Move>, i: nat)
    requires IsRun(heaps, lives, moves) && i <= |moves|
    ensures HeapOk(heaps[i]) && SumsIncomparable(heaps[i]) && SumsWalkable(heaps[i])
    ensures RootsWalkable(heaps[i], lives[i]) && OwnRoots(lives[i])
    ensures forall at {:trigger Choice(at, |lives[i]|)} | Choice(at, |lives[i]|) ::
      RootsWalkable(heaps[i], Chosen(lives[i], at)) && OwnRoots(Chosen(lives[i], at))
  {
    hide RootsWalkable, OwnRoots, Reaches;
    var h, roots, o := RunTracked(heaps, lives, moves, i);
    TracksIsWalkable(h, roots, heaps[i], lives[i], o);
    forall at | Choice(at, |lives[i]|)
      ensures RootsWalkable(heaps[i], Chosen(lives[i], at)) && OwnRoots(Chosen(lives[i], at))
    {
      ChosenWalkable(heaps[i], lives[i], at);
    }
  }

  /** The sum 4 lies below two factors at 8 and below one at 5: its cosine is too much only at 8. */
  function ExampleHeap(c: real): Heap
  {
    [Scalar(c), Cos(0, 0), Sin(0, 0), Scalar(c), Add(1, 3), Cos(1, 4), Sin(1, 4), Cos(1, 6), Sin(1, 6), Add(5, 8)]
  }

  function ExamplePruned(c: real): Heap { ExampleHeap(c) + [Sin(1, 3), Sin(1, 10), Add(5, 11)] }

  /** How the example comes about: rotations, merges and drops, and a pruning at the end. */
  function ExampleMoves(c: real): seq<Move>
  {
    [Start(c), Split(0, Cos(0, 0), Sin(0, 0)), Drop(1), Start(c), Merge(0, 1), Split(0, Cos(1, 4), Sin(1, 4)),
      Split(1, Cos(1, 6), Sin(1, 6)),
     Drop(1), Merge(0, 1), Cut(0)]
  }

  function ExampleHeaps(c: real): seq<Heap>
  {
    var h := ExampleHeap(c);
    [[], h[..1], h[..3], h[..3], h[..4], h[..5], h[..7], h[..9], h[..9], h, ExamplePruned(c)]
  }

  function ExampleLives(): seq<seq<Option<nat>>>
  {
    [[], [Some(0)], [Some(1), Some(2)], [Some(1)], [Some(1), Some(3)], [Some(4)], [Some(5), Some(6)],
      [Some(5), Some(7), Some(8)],
     [Some(5), Some(8)], [Some(9)], [Some(12)]]
  }

  lemma ExampleShape(c: real)
    ensures Shape(ExampleHeap(c), [9])
  {
  }

  lemma ExampleCut(c: real)
    ensures CutTo(ExampleHeap(c), 9, ExamplePruned(c), Some(12))
  {
    var h, g := ExampleHeap(c), ExamplePruned(c);
    var o: seq<nat> := [0, 1, 2, 3, 4, 5, 6, 7, 8, 9, 6, 8, 9];
    forall i | 0 <= i < |g| ensures StandsFor(h, g, o, i) {
    }
    assert Traced(h, g, o) && LeftOf(h, o, 9, Some(12));
  }

  lemma ExampleIsRun(c: real)
    ensures IsRun(ExampleHeaps(c), ExampleLives(), ExampleMoves(c))
  {
    hide CutTo, ExamplePruned;
    var hs, ls, ms := ExampleHeaps(c), ExampleLives(), ExampleMoves(c);
    assert ms[9] == Cut(0) && ls[9][0] == Some(9) && ls[9][0 := Some(12)] == ls[10];
    ExampleCut(c);
    assert Moved(hs[9], ls[9], ms[9], hs[10], ls[10]);
    forall i | 0 <= i < 9 ensures Moved(hs[i], ls[i], ms[i], hs[i + 1], ls[i + 1]) {
      ExampleMoved(c, i);
    }
  }

  lemma ExampleMoved(c: real, i: nat)
    requires i < 9
    ensures Moved(ExampleHeaps(c)[i], ExampleLives()[i], ExampleMoves(c)[i], ExampleHeaps(c)[i + 1],
      ExampleLives()[i + 1])
  {
    var h, hs := ExampleHeap(c), ExampleHeaps(c);
    assert h[..1] == [] + [h[0]] && h[..3] == h[..1] + [h[1]] + [h[2]] && h[..4] == h[..3] + [h[3]]
      && h[..5] == h[..4] + [h[4]];
    assert h[..7] == h[..5] + [h[5]] + [h[6]] && h[..9] == h[..7] + [h[7]] + [h[8]] && h == h[..9] + [h[9]];
  }

  /**
   The shape itself does not survive pruning: in this run the graph has it before the last
   move, and afterwards a summand is a part of another node too.
   */
  lemma {:induction false} PruningLosesShape(l: Limits, c: real)
    requires l.frequency == Some(2) && l.cutoff.None?
    ensures IsRun(ExampleHeaps(c), ExampleLives(), ExampleMoves(c)) && ExampleMoves(c)[9] == Cut(0)
    ensures ExampleHeaps(c)[9] == ExampleHeap(c) && Shape(ExampleHeap(c), [9])
      && ExampleHeaps(c)[10] == ExamplePruned(c)
    ensures HeapOk(ExamplePruned(c)) && Holds(ExamplePruned(c), Some(12), PruneAt(l, Unfold(ExampleHeap(c), 9), 0, 0))
    ensures !SumsOwnTheirParts(ExamplePruned(c))
  {
    hide Shape, CutTo, PruneAt, Unfold, IsRun;
    var g := ExamplePruned(c);
    ExampleIsRun(c);
    ExampleShape(c);
    assert HeapOk(g) && HeapOk(ExampleHeap(c));
    assert g[4].Add? && Child(g[4], 3) && Child(g[10], 3);
    PruneExample(l, c);
    UnfoldExample(ExampleHeap(c), g, c);
  }

  /** The tree of the example, and what pruning leaves of it. */
  function Twin(c: real): Tree { Sum(Trig(0, false, Leaf(c)), Leaf(c)) }

  lemma {:induction false} PruneExample(l: Limits, c: real)
    requires l.frequency == Some(2) && l.cutoff.None?
    ensures PruneAt(l, Sum(Trig(1, false, Twin(c)), Trig(1, true, Trig(1, true, Twin(c)))), 0, 0)
         == Some(Sum(Trig(1, false, Twin(c)), Trig(1, true, Trig(1, true, Leaf(c)))))
  {
    hide Upper;
    var t := Twin(c);
    assert MinFreq(t) == 0 && MaxFreq(t) == 1;
    assert PruneAt(l, Trig(0, false, Leaf(c)), 2, 0) == None;
    assert PruneAt(l, t, 2, 0) == Some(Leaf(c));
    assert PruneAt(l, Trig(1, true, t), 1, 0) == Some(Trig(1, true, Leaf(c)));
    assert PruneAt(l, Trig(1, true, Trig(1, true, t)), 0, 0) == Some(Trig(1, true, Trig(1, true, Leaf(c))));
    assert PruneAt(l, Trig(1, false, t), 0, 0) == Some(Trig(1, false, t));
  }

  lemma {:induction false} UnfoldExample(h: Heap, g: Heap, c: real)
    requires h == ExampleHeap(c) && g == ExamplePruned(c) && HeapOk(h) && HeapOk(g)
    ensures Unfold(h, 9) == Sum(Trig(1, false, Twin(c)), Trig(1, true, Trig(1, true, Twin(c))))
    ensures Unfold(g, 12) == Sum(Trig(1, false, Twin(c)), Trig(1, true, Trig(1, true, Leaf(c))))
  {
    assert Unfold(h, 4) == Twin(c) && Unfold(h, 8) == Trig(1, true, Trig(1, true, Twin(c)));
    UnfoldKept(h, g, 4);
    UnfoldKept(h, g, 5);
    assert Unfold(g, 11) == Trig(1, true, Trig(1, true, Leaf(c)));
  }
}
