/**
 The engine: partitions, routing buffers and deferred frame, refined to one abstract engine
 state and one abstract step per gate.
 */
module Engines {
  import opened BasisStrings
  import opened BasisAlgebra
  import opened TableauRows
  import opened Frames
  import opened FiniteSums
  import opened PairRule
  import opened Propagation
  import opened RunLaws
  import opened PairProtocol
  import opened GateRounds
  import opened ProbeTable
  import opened OperatorIndexes
  import opened InvertedIndexes
  import opened CliffordTableaus
  import opened TermSums
  import opened PartitionedTermSums
  import opened ReadOuts

  method FreshPartitions(s: nat, n: nat, overflowMark: nat, hashing: Hashing, inlineWidth: nat)
      returns (parts: seq<TermSum>)
    requires n % 2 == 0 && n <= overflowMark && MAX_INLINE_POSITIONS < overflowMark
    ensures |parts| == s && fresh(parts) && fresh(Stores(parts)) && fresh(Transposed(parts))
      && PartsValid(parts, n, hashing)
    ensures forall i :: 0 <= i < s ==> parts[i].State() == Part([], [], map[], [])
  {
    hide TermSum.Valid, TermSum.State;
    parts := [];
    for d := 0 to s
      invariant |parts| == d && PartsValid(parts, n, hashing)
      invariant forall i :: 0 <= i < d ==> fresh(parts[i]) && fresh(parts[i].store) && fresh(parts[i].inverted)
      invariant forall i :: 0 <= i < d ==> parts[i].State() == Part([], [], map[], [])
    {
      var p := new TermSum(n, overflowMark, hashing, inlineWidth);
      parts := parts + [p];
    }
  }

  /** Adds a term to one partition; the others stay as they are. */
  method AddAt(parts: seq<TermSum>, key: Key, coeff: real, d: nat, n: nat, hashing: Hashing) returns (ok: bool)
    requires PartsValid(parts, n, hashing) && |key| == n && d < |parts|
    modifies parts[d], parts[d].store
    ensures PartsValid(parts, n, hashing) && SameStorage(parts) && OnlyAt(parts, d)
    ensures PartOk(parts[d].State(), n)
    ensures ok <==> key in old(parts[d].State()).keys || |old(parts[d].State()).keys| + 1 < EMPTY
    ensures !ok ==> parts[d].State() == old(parts[d].State())
    ensures ok ==> AddedRow(old(parts[d].State()), key, coeff, parts[d].State())
  {
    hide TermSum.Valid, TermSum.Pending, PartOk;
    parts[d].StateOk();
    ok := parts[d].Add(key, coeff);
    parts[d].StateOk();
  }

  ghost predicate AddedRow(p: Part, key: Key, coeff: real, q: Part)
  {
    && |p.coeffs| == |p.keys| && q.keys == AbsorbOne(p, Routed(key, 0, coeff)).keys
    && q.coeffs == AbsorbOne(p, Routed(key, 0, coeff)).coeffs
  }

  class PartitionedTermSum {
    const n: nat
    const hashing: Hashing
    var partitions: seq<TermSum>
    /** Scratch routing buffers, by source and destination, reused across gates. */
    var outboxes: seq<seq<seq<Routed>>>
    var rescueOutboxes: seq<seq<seq<Routed>>>
    var frame: CliffordTableau
    var deferCliffords: bool

    ghost predicate Valid(kind: BasisKind)
      reads this, frame, partitions, Stores(partitions), Transposed(partitions)
    {
      && n % 2 == 0 && PartsValid(partitions, n, hashing) && PartsOk(States(partitions), n, hashing.full)
      && Square3(outboxes, |partitions|) && Square3(rescueOutboxes, |partitions|)
      && frame.Shape(n) && frame.Lawful(kind, n)
    }

    /** The abstract engine these partitions and this frame stand for. */
    ghost function Operator(): Engine
      reads this, frame, partitions, Stores(partitions)
    {
      Engine(frame.View(), if partitions == [] then map[] else Global(States(partitions), hashing.full))
    }

    lemma OperatorOk(kind: BasisKind)
      requires Valid(kind)
      ensures EngineOk(kind, n, Operator()) && FrameShape(n, Operator().frame)
    {
      GlobalTerms(States(partitions), n, hashing.full);
    }

    /** An empty operator over at least one partition. */
    constructor (kind: BasisKind, n: nat, nPartitions: nat, overflowMark: nat, hashing: Hashing, inlineWidth: nat)
      requires n % 2 == 0 && n <= overflowMark && MAX_INLINE_POSITIONS < overflowMark
      ensures Valid(kind) && fresh(frame) && fresh(partitions) && fresh(Stores(partitions))
        && fresh(Transposed(partitions))
      ensures this.n == n && this.hashing == hashing && |partitions| == (if nPartitions < 1 then 1 else nPartitions)
      ensures Operator() == Engine(IdentityFrame(n), map[]) && deferCliffords
    {
      hide FrameOk, FrameShape, IdentityRows, TermSum.Valid, TermSum.State, Global, PartsOk, Square3, RowsOf, HomRows,
        PartsValid;
      this.n, this.hashing := n, hashing;
      var s := if nPartitions < 1 then 1 else nPartitions;
      var parts := FreshPartitions(s, n, overflowMark, hashing, inlineWidth);
      partitions := parts;
      outboxes, rescueOutboxes := EmptyBoxes(s), EmptyBoxes(s);
      frame := new CliffordTableau(n);
      deferCliffords := true;
      new;
      IdentityFrameOk(kind, n);
      NothingStored(States(partitions), n, hashing.full);
    }

    lemma NothingStored(parts: seq<Part>, n: nat, full: Key -> nat)
      requires |parts| > 0 && forall i :: 0 <= i < |parts| ==> parts[i] == Part([], [], map[], [])
      ensures PartsOk(parts, n, full) && Global(parts, full) == map[]
    {
    }

    /** The number of live terms. */
    method Len(ghost kind: BasisKind) returns (live: nat)
      requires Valid(kind)
      ensures live == |Operator().terms|
    {
      live := LenOf(partitions, n, hashing);
    }

    /** Adds `coeff` to `key`'s term in the partition that owns it. */
    method Add(kind: BasisKind, key: Key, coeff: real) returns (ok: bool)
      requires |key| == n
      requires Valid(kind)
      modifies partitions, Stores(partitions)
      ensures ok <==>
        key in old(Operator()).terms
          || |Owning(old(Operator()).terms, hashing.full, |partitions|, OwnerOf(hashing.full, |partitions|, key))| + 1
            < EMPTY
      ensures Operator().frame == old(Operator()).frame
      ensures Operator().terms == if ok then old(Operator()).terms[key := Coef(old(Operator()).terms, key) + coeff]
        else old(Operator()).terms
      ensures Valid(kind)
    {
      hide FrameOk, FrameShape, Global, PartsValid, Owning, CoeffAt, Coef;
      Partitioned(partitions, n, hashing.full);
      ghost var start := States(partitions);
      var owner := PartitionFromHash(hashing.full(key), |partitions|);
      RowsOwned(start, n, hashing.full, owner);
      GlobalAt(start, n, hashing.full, key);
      ok := AddAt(partitions, key, coeff, owner, n, hashing);
      if ok {
        AddedTo(start, n, hashing.full, key, coeff, partitions[owner].State());
        assert States(partitions) == start[owner := partitions[owner].State()];
      } else {
        assert States(partitions) == start;
      }
    }

    /** Defers the gate into the frame when it is a Clifford the cutoff allows to be deferred. */
    method TryDefer(kind: BasisKind, g: Gate, cut: Cutoff) returns (deferred: bool)
      requires GateOf(g, n)
      requires Valid(kind)
      modifies frame
      ensures deferred <==> Defers(kind, deferCliffords, cut, g)
      ensures Operator() == if deferred then old(Operator()).(frame := AfterDeferral(kind, old(frame.View()), g))
        else old(Operator())
      ensures Valid(kind)
    {
      hide TermSum.Valid, TermSum.State, FrameOk, ComposeFrames, ChangesSupport, PartsOk, Global;
      deferred := false;
      if deferCliffords {
        var step := CliffordTableau.ForRotation(kind, n, g);
        if step.Some? {
          var changes := step.value.ChangesWeight();
          if cut.maxWeight.None? || !changes {
            frame.Compose(kind, n, step.value);
            deferred := true;
          }
        }
      }
      assert States(partitions) == old(States(partitions));
    }

    lemma FrameView()
      ensures Operator().frame == frame.View()
    {
    }

    /** As it stands the operator fits. */
    lemma FitsAsItIs(kind: BasisKind)
      requires Valid(kind)
      ensures Room(Operator().terms, hashing.full, |partitions|)
    {
      hide FrameOk, PartsValid, Room;
      RoomNow(partitions, n, hashing);
    }

    /** Takes the routing buffers out or puts them back. */
    method SetBoxes(boxes: seq<seq<seq<Routed>>>, rescues: seq<seq<seq<Routed>>>)
      modifies `outboxes, `rescueOutboxes
      ensures outboxes == boxes && rescueOutboxes == rescues
      ensures PartsValid(partitions, n, hashing) == old(PartsValid(partitions, n, hashing))
      ensures States(partitions) == old(States(partitions))
      ensures Stores(partitions) == old(Stores(partitions)) && Transposed(partitions) == old(Transposed(partitions))
    {
      hide TermSum.Valid, TermSum.State;
      outboxes, rescueOutboxes := boxes, rescues;
    }

    /** The stored terms after a gate that is not deferred; the buffers are lost at the ceiling. */
    method RotateStored(kind: BasisKind, t: Turn, cut: Cutoff, orders: Orders) returns (ok: bool, added: nat)
      requires PartsValid(partitions, n, hashing) && PartsOk(States(partitions), n, hashing.full) && TurnOf(t, n)
      requires Square3(outboxes, |partitions|) && Square3(rescueOutboxes, |partitions|)
      requires OrdersOk(orders, |partitions|)
      modifies `outboxes, `rescueOutboxes, partitions, Stores(partitions), Transposed(partitions)
      ensures Stores(partitions) == old(Stores(partitions)) && Transposed(partitions) == old(Transposed(partitions))
      ensures ok <==> Room(StoredAfter(kind, t, cut, old(Operator()).terms), hashing.full, |partitions|)
      ensures ok ==> Operator().terms == StoredAfter(kind, t, cut, old(Operator()).terms)
      ensures ok ==> Gained(old(Operator()).terms, Operator().terms, added)
      ensures ok ==>
        PartsOk(States(partitions), n, hashing.full) && Square3(outboxes, |partitions|)
          && Square3(rescueOutboxes, |partitions|)
      ensures !ok ==> outboxes == [] && rescueOutboxes == []
      ensures PartsValid(partitions, n, hashing)
    {
      hide PartsValid, States, PartsOk, Global, StoredAfter, OrdersOk, Square3, Room;
      assert partitions != [] by { Partitioned(partitions, n, hashing.full); }
      var boxes, rescues := outboxes, rescueOutboxes;
      SetBoxes([], []);
      ok, added, boxes, rescues := RotateParts(partitions, kind, t, cut, boxes, rescues, orders, n, hashing);
      if ok {
        SetBoxes(boxes, rescues);
      }
    }

    /**
     One gate. The engine takes exactly the abstract step, whatever the number of partitions,
     the hash and the order the workers run in; it fails iff the result would put some
     partition at the row ceiling.
     */
    method ApplyRotation(kind: BasisKind, g: Gate, cut: Cutoff, orders: Orders) returns (ok: bool, added: nat)
      requires GateOf(g, n) && OrdersOk(orders, |partitions|)
      requires Valid(kind)
      modifies `outboxes, `rescueOutboxes, frame, partitions, Stores(partitions), Transposed(partitions)
      ensures Stores(partitions) == old(Stores(partitions)) && Transposed(partitions) == old(Transposed(partitions))
      ensures FrameShape(n, old(Operator()).frame) && TermsOf(old(Operator()).terms, n)
      ensures ok <==>
        Room(EngineStep(kind, n, deferCliffords, cut, old(Operator()), g).terms, hashing.full, |partitions|)
      ensures ok ==> Operator() == EngineStep(kind, n, deferCliffords, cut, old(Operator()), g)
      ensures ok ==> Gained(old(Operator()).terms, Operator().terms, added)
      ensures !ok ==> outboxes == [] && rescueOutboxes == []
      ensures ok ==> Valid(kind)
    {
      hide PartsValid, States, PartsOk, Global, Room, Square3, OrdersOk, FrameOk, FrameShape, TermsOf, EngineStep,
        Steps;
      OperatorOk(kind);
      StepCases(kind, n, deferCliffords, cut, Operator(), g);
      ok, added := TakeStep(kind, g, cut, orders, Operator(), EngineStep(kind, n, deferCliffords, cut, Operator(), g));
    }

    /** Pulls the generator back through the frame and rotates the stored terms about it. */
    method PullBackAndRotate(kind: BasisKind, g: Gate, cut: Cutoff, orders: Orders, ghost e: Engine)
        returns (ok: bool, added: nat)
      requires GateOf(g, n) && OrdersOk(orders, |partitions|)
      requires e == Operator() && RowsOf(e.frame.generator, n)
      requires Valid(kind)
      modifies `outboxes, `rescueOutboxes, partitions, Stores(partitions), Transposed(partitions)
      ensures Stores(partitions) == old(Stores(partitions)) && Transposed(partitions) == old(Transposed(partitions))
      ensures ok <==> Room(StoredAfter(kind, PulledBack(kind, e.frame, g), cut, e.terms), hashing.full, |partitions|)
      ensures ok ==> Operator() == Engine(e.frame, StoredAfter(kind, PulledBack(kind, e.frame, g), cut, e.terms))
      ensures ok ==> Gained(e.terms, Operator().terms, added)
      ensures !ok ==> outboxes == [] && rescueOutboxes == []
      ensures ok ==> Valid(kind)
    {
      hide PartsValid, States, PartsOk, Global, Room, Square3, OrdersOk, FrameOk, TermsOf, StoredAfter, Image, Gained;
      hide PartitionedTermSum.Operator, Applied, PulledBack, IdentityRows, FrameShape;
      assert Operator().frame == frame.View() by { FrameView(); }
      var r := frame.ConjugateGenerator(kind, g.gen);
      var t := Turn(r.image, r.sign, g.cos, g.sin);
      assert t == PulledBack(kind, e.frame, g) by { PulledIs(kind, e.frame, g); }
      PulledShape(kind, n, e.frame, g);
      ok, added := RotateStored(kind, t, cut, orders);
      FrameView();
    }

    method TakeStep(kind: BasisKind, g: Gate, cut: Cutoff, orders: Orders, ghost e: Engine, ghost want: Engine)
        returns (ok: bool, added: nat)
      requires GateOf(g, n) && OrdersOk(orders, |partitions|)
      requires e == Operator() && Steps(kind, n, deferCliffords, cut, e, g, want)
      requires Valid(kind)
      modifies `outboxes, `rescueOutboxes, frame, partitions, Stores(partitions), Transposed(partitions)
      ensures Stores(partitions) == old(Stores(partitions)) && Transposed(partitions) == old(Transposed(partitions))
      ensures ok <==> Room(want.terms, hashing.full, |partitions|)
      ensures ok ==> Operator() == want && Gained(e.terms, want.terms, added)
      ensures !ok ==> outboxes == [] && rescueOutboxes == []
      ensures ok ==> Valid(kind)
    {
      hide Room, OrdersOk, FrameShape, TermsOf, StoredAfter, AfterDeferral, Defers, Applied;
      hide PartitionedTermSum.Valid, PartitionedTermSum.Operator;
      assert Operator().frame == frame.View() by { FrameView(); }
      FitsAsItIs(kind);
      var live := Len(kind);
      if live == 0 {
        return true, 0;
      }
      var effective := AtSize(cut, live);
      var deferred := TryDefer(kind, g, effective);
      if deferred {
        return true, 0;
      }
      ok, added := PullBackAndRotate(kind, g, effective, orders, e);
    }

    /** The expectation value: every stored term, as its signed image under the frame. */
    method Expectation(kind: BasisKind, state: seq<bool>) returns (r: real)
      requires Valid(kind)
      ensures r == RunLaws.Expectation(kind, Operator(), state)
    {
      hide TermSum.Valid, TermSum.State, Global, FrameOk, FrameShape, Share, OwnedBelow, Sum, SumRows, PartsOk;
      Partitioned(partitions, n, hashing.full);
      ghost var e := Operator();
      ghost var states := States(partitions);
      OwnedAll(states, n, hashing.full);
      BelowAll(states, n, hashing.full);
      ghost var f := Share(kind, e, state);
      r := 0.0;
      assert Sum({}, f) == 0.0 by { SumZero({}, f); }
      for d := 0 to |partitions|
        invariant r == Sum(OwnedBelow(e.terms, hashing.full, |states|, d), f)
      {
        var share := PartExpectation(partitions[d], frame, kind, state);
        SumOwned(kind, e.frame, states, n, hashing.full, d, state);
        r := r + share;
      }
      assert States(partitions) == states && frame.View() == e.frame;
    }

    /**
     A whole circuit, with any schedule of the workers. Without truncation what is read out at
     the end is the exact evolution of the start, whatever was deferred on the way.
     */
    method Propagate(kind: BasisKind, gates: seq<Gate>, cut: Cutoff, schedule: seq<Orders>, ghost start: Terms)
        returns (ok: bool)
      requires GatesOf(gates, n) && TermsOf(start, n) && |schedule| == |gates|
      requires forall i :: 0 <= i < |schedule| ==> OrdersOk(schedule[i], |partitions|)
      requires Operator() == Engine(IdentityFrame(n), start)
      requires Valid(kind)
      modifies `outboxes, `rescueOutboxes, frame, partitions, Stores(partitions), Transposed(partitions)
      ensures n % 2 == 0
      ensures ok <==> RunFits(kind, n, deferCliffords, cut, gates, start, hashing.full, |partitions|, |gates|)
      ensures ok ==> Operator() == Run(kind, n, deferCliffords, cut, gates, start)
      ensures ok && Lossless(cut) ==>
        forall k: Key ::
          |k| == n ==>
            ReadCoef(kind, Run(kind, n, deferCliffords, cut, gates, start), k) == Exact(kind, n, gates, start)(k)
      ensures ok ==> Valid(kind)
    {
      hide Room, OrdersOk, FrameShape, EngineStep, Run, Exact, ReadCoef, RunFits, Gained;
      hide PartitionedTermSum.Valid, PartitionedTermSum.Operator;
      assert n % 2 == 0 by { Even(kind); }
      RunFrom(kind, n, deferCliffords, cut, gates, start);
      NothingToFit(kind, n, deferCliffords, cut, gates, start, hashing.full, |partitions|);
      var i := 0;
      while i < |gates|
        invariant RunFits(kind, n, deferCliffords, cut, gates, start, hashing.full, |partitions|, i)
        invariant i <= |gates| && Valid(kind) && Operator() == Run(kind, n, deferCliffords, cut, gates[..i], start)
        invariant Stores(partitions) == old(Stores(partitions)) && Transposed(partitions) == old(Transposed(partitions))
      {
        RunNext(kind, n, deferCliffords, cut, gates, i, start);
        NextFits(kind, n, deferCliffords, cut, gates, start, hashing.full, |partitions|, i);
        var added: nat;
        ok, added := ApplyRotation(kind, gates[i], cut, schedule[i]);
        if !ok {
          return;
        }
        i := i + 1;
      }
      assert gates[..i] == gates;
      ok := true;
    }

    lemma Even(kind: BasisKind)
      requires Valid(kind)
      ensures n % 2 == 0
    {
    }
  }

  lemma {:induction false} RunNext(kind: BasisKind, n: nat, defer: bool, cut: Cutoff, gates: seq<Gate>, i: nat,
                                   start: Terms)
    requires n % 2 == 0 && TermsOf(start, n) && GatesOf(gates, n) && i < |gates|
    ensures Run(kind, n, defer, cut, gates[..i + 1], start)
      == EngineStep(kind, n, defer, cut, Run(kind, n, defer, cut, gates[..i], start), gates[i])
  {
    hide EngineStep;
    assert gates[..i + 1][..i] == gates[..i];
  }

  lemma {:induction false} RunFrom(kind: BasisKind, n: nat, defer: bool, cut: Cutoff, gates: seq<Gate>, start: Terms)
    requires n % 2 == 0 && TermsOf(start, n) && GatesOf(gates, n)
    ensures Run(kind, n, defer, cut, gates[..0], start) == Engine(IdentityFrame(n), start)
    ensures Lossless(cut) ==>
      forall k: Key ::
        |k| == n ==> ReadCoef(kind, Run(kind, n, defer, cut, gates, start), k) == Exact(kind, n, gates, start)(k)
  {
    hide EngineStep, ReadCoef, Exact;
    if Lossless(cut) {
      forall k: Key | |k| == n
        ensures ReadCoef(kind, Run(kind, n, defer, cut, gates, start), k) == Exact(kind, n, gates, start)(k)
      {
        RunIsExact(kind, n, defer, cut, gates, start, k);
      }
    }
  }

  /** After each of the first `upto` gates of a run every partition is below the ceiling. */
  ghost predicate RunFits(kind: BasisKind, n: nat, defer: bool, cut: Cutoff, gates: seq<Gate>, start: Terms,
                          full: Key -> nat, s: nat, upto: nat)
    requires n % 2 == 0 && TermsOf(start, n) && GatesOf(gates, n)
  {
    forall i: nat :: i < upto && i < |gates| ==> StepFits(kind, n, defer, cut, gates, start, full, s, i)
  }

  ghost predicate StepFits(kind: BasisKind, n: nat, defer: bool, cut: Cutoff, gates: seq<Gate>, start: Terms,
                           full: Key -> nat, s: nat, i: nat)
    requires n % 2 == 0 && TermsOf(start, n) && GatesOf(gates, n) && i < |gates|
  {
    Room(Run(kind, n, defer, cut, gates[..i + 1], start).terms, full, s)
  }

  lemma NothingToFit(kind: BasisKind, n: nat, defer: bool, cut: Cutoff, gates: seq<Gate>, start: Terms,
                     full: Key -> nat, s: nat)
    requires n % 2 == 0 && TermsOf(start, n) && GatesOf(gates, n)
    ensures RunFits(kind, n, defer, cut, gates, start, full, s, 0)
  {
  }

  lemma {:induction false} NextFits(kind: BasisKind, n: nat, defer: bool, cut: Cutoff, gates: seq<Gate>, start: Terms,
                                    full: Key -> nat, s: nat, i: nat)
    requires n % 2 == 0 && TermsOf(start, n) && GatesOf(gates, n) && i < |gates|
      && RunFits(kind, n, defer, cut, gates, start, full, s, i)
    ensures RunFits(kind, n, defer, cut, gates, start, full, s, i + 1) <==>
      Room(Run(kind, n, defer, cut, gates[..i + 1], start).terms, full, s)
    ensures RunFits(kind, n, defer, cut, gates, start, full, s, |gates|) ==>
      RunFits(kind, n, defer, cut, gates, start, full, s, i + 1)
  {
    hide Run, Room;
    assert StepFits(kind, n, defer, cut, gates, start, full, s, i)
      == Room(Run(kind, n, defer, cut, gates[..i + 1], start).terms, full, s);
  }

  /** The three things a gate can do. */
  ghost predicate Steps(kind: BasisKind, n: nat, defer: bool, cut: Cutoff, e: Engine, g: Gate, want: Engine)
    requires GateOf(g, n)
  {
    var cut' := AtSize(cut, |e.terms|);
    && RowsOf(e.frame.generator, n)
    && want ==
      if e.terms == map[] then e
      else if Defers(kind, defer, cut', g) then Engine(AfterDeferral(kind, e.frame, g), e.terms)
      else Engine(e.frame, StoredAfter(kind, PulledBack(kind, e.frame, g), cut', e.terms))
  }

  lemma StepCases(kind: BasisKind, n: nat, defer: bool, cut: Cutoff, e: Engine, g: Gate)
    requires FrameShape(n, e.frame) && TermsOf(e.terms, n) && GateOf(g, n)
    ensures Steps(kind, n, defer, cut, e, g, EngineStep(kind, n, defer, cut, e, g))
  {
    hide ComposeFrames, RotationFrame, PairStep, ScaleStep, ChangesSupport, Image;
    PulledShape(kind, n, e.frame, g);
    if g.cos == 0.0 {
      SineIsSign(g);
    }
  }

  lemma Partitioned(parts: seq<TermSum>, n: nat, full: Key -> nat)
    requires PartsOk(States(parts), n, full)
    ensures parts != []
  {
  }

  /** A phase-only gate scales, any other rotates pairs. */
  method RotateParts(parts: seq<TermSum>, kind: BasisKind, t: Turn, cut: Cutoff, outboxes: seq<seq<seq<Routed>>>,
                     rescueOutboxes: seq<seq<seq<Routed>>>, orders: Orders, n: nat, hashing: Hashing)
      returns (ok: bool, added: nat, boxes: seq<seq<seq<Routed>>>, rescues: seq<seq<seq<Routed>>>)
    requires PartsValid(parts, n, hashing) && PartsOk(States(parts), n, hashing.full) && TurnOf(t, n)
    requires OrdersOk(orders, |parts|) && Square3(outboxes, |parts|) && Square3(rescueOutboxes, |parts|)
    modifies parts, Stores(parts), Transposed(parts)
    ensures Stores(parts) == old(Stores(parts)) && Transposed(parts) == old(Transposed(parts))
    ensures PartsValid(parts, n, hashing) && Square3(boxes, |parts|) && Square3(rescues, |parts|)
    ensures ok <==> Room(StoredAfter(kind, t, cut, old(Global(States(parts), hashing.full))), hashing.full, |parts|)
    ensures ok ==> PartsOk(States(parts), n, hashing.full)
    ensures ok ==>
      Global(States(parts), hashing.full) == StoredAfter(kind, t, cut, old(Global(States(parts), hashing.full)))
    ensures ok ==> |Global(States(parts), hashing.full)| == |old(Global(States(parts), hashing.full))| + added
  {
    hide PartsValid, States, PartsOk, Global, PairStep, ScaleStep, OrdersOk, Square3, Room;
    Partitioned(parts, n, hashing.full);
    ghost var start := Global(States(parts), hashing.full);
    if t.sin == 0.0 {
      ScaleAll(parts, kind, t.gen, t.cos, n, hashing);
      RoomNow(parts, n, hashing);
      ScalingKeepsLen(kind, t.gen, t.cos, start);
      return true, 0, outboxes, rescueOutboxes;
    }
    ok, added, boxes, rescues := RotatePairs(parts, kind, t, cut, outboxes, rescueOutboxes, orders, n, hashing);
  }

  lemma PulledIs(kind: BasisKind, f: Frame, g: Gate)
    requires RowsOf(f.generator, |g.gen|)
    ensures PulledBack(kind, f, g)
         == Turn(Applied(kind, f.generator, g.gen).image, Applied(kind, f.generator, g.gen).sign, g.cos, g.sin)
  {
  }

  /** `added` terms are new. */
  ghost predicate Gained(m: Terms, m': Terms, added: nat) { |m'| == |m| + added }

  lemma ScalingKeepsLen(kind: BasisKind, g: Key, factor: real, m: Terms)
    requires |g| % 2 == 0 && TermsOf(m, |g|)
    ensures |ScaleStep(kind, g, factor, m)| == |m|
  {
    assert ScaleStep(kind, g, factor, m).Keys == m.Keys;
  }

  /** What a gate that is not deferred makes of the stored terms. */
  ghost function StoredAfter(kind: BasisKind, t: Turn, cut: Cutoff, m: Terms): Terms
  {
    if |t.gen| % 2 != 0 || !TermsOf(m, |t.gen|) then m
    else if t.sin == 0.0 then ScaleStep(kind, t.gen, t.cos, m) else PairStep(kind, t, cut, m)
  }

  /** The frame once the rotation is composed into it. */
  ghost function AfterDeferral(kind: BasisKind, f: Frame, g: Gate): Frame
  {
    if FrameShape(|g.gen|, f) && |g.gen| % 2 == 0 && IsSign(g.sin)
      then ComposeFrames(kind, f, RotationFrame(kind, g.gen, g.sin)) else f
  }
}
