/**
 The operator spread over hash partitions, with its deferred frame: the engine itself.
 */
module PartitionedTermSums {
  import opened BasisStrings
  import opened BasisAlgebra
  import opened PairRule
  import opened PairProtocol
  import opened GateRounds
  import opened ProbeTable
  import opened OperatorIndexes
  import opened InvertedIndexes
  import opened TermSums

  /** Some order in which the workers take their turn. */
  ghost predicate Permutation(order: seq<nat>, s: nat)
  {
    && |order| == s && (forall d: nat :: d < s ==> d in order) && (forall d :: d in order ==> d < s)
    && (forall i, j :: 0 <= i < j < |order| ==> order[i] != order[j])
  }

  /** The orders of the workers in the three phases of a gate. */
  datatype Orders = Orders(scan: seq<nat>, exchange: seq<nat>, rescue: seq<nat>)

  ghost predicate OrdersOk(orders: Orders, s: nat)
  {
    Permutation(orders.scan, s) && Permutation(orders.exchange, s) && Permutation(orders.rescue, s)
  }

  /** One partition folds everything addressed to it, source by source. */
  method AbsorbStream(p: TermSum, boxes: seq<seq<seq<Routed>>>, dst: nat) returns (ok: bool, added: nat)
    requires p.Valid() && Square3(boxes, |boxes|) && dst < |boxes| && MsgsOk(boxes, dst, p.n, p.hashing.full)
    modifies p, p.store
    ensures p.Valid() && p.store == old(p.store) && p.inverted == old(p.inverted)
      && p.pendingNeedsPhase == old(p.pendingNeedsPhase)
    ensures ok ==> p.State() == AbsorbAll(old(p.State()), Stream(boxes, dst, |boxes|))
    ensures ok <==> |AbsorbAll(old(p.State()), Stream(boxes, dst, |boxes|)).keys| < EMPTY
    ensures ok ==> |p.State().keys| == |old(p.State()).keys| + added
  {
    hide OperatorIndex.RowsOk, OperatorIndex.IndexOk, InvertedIndex.Indexes, AbsorbAll, AbsorbOne;
    ghost var start := p.State();
    ghost var all := Stream(boxes, dst, |boxes|);
    AbsorbNone(start);
    added := 0;
    var src := 0;
    while src < |boxes|
      invariant src <= |boxes| && p.Valid() && p.store == old(p.store) && p.inverted == old(p.inverted)
      invariant p.pendingNeedsPhase == old(p.pendingNeedsPhase)
      invariant p.State() == AbsorbAll(start, Stream(boxes, dst, src)) && |p.State().keys| == |start.keys| + added
    {
      var bucket := boxes[src][dst];
      var i := 0;
      assert Stream(boxes, dst, src) + bucket[..0] == Stream(boxes, dst, src);
      while i < |bucket|
        invariant i <= |bucket| && p.Valid() && p.store == old(p.store) && p.inverted == old(p.inverted)
        invariant p.pendingNeedsPhase == old(p.pendingNeedsPhase)
        invariant p.State() == AbsorbAll(start, Stream(boxes, dst, src) + bucket[..i])
          && |p.State().keys| == |start.keys| + added
      {
        ghost var sofar := Stream(boxes, dst, src) + bucket[..i];
        assert sofar + [bucket[i]] == Stream(boxes, dst, src) + bucket[..i + 1];
        AbsorbNext(start, sofar, bucket[i]);
        StreamPrefix(boxes, dst, src, i + 1, |boxes|);
        Overflows(start, sofar, bucket[i], all);
        var created := p.AbsorbRouted(bucket[i]);
        if created.None? {
          return false, added;
        }
        OneRowMore(AbsorbAll(start, sofar), bucket[i]);
        added := added + if created.value then 1 else 0;
        i := i + 1;
      }
      assert Stream(boxes, dst, src) + bucket[..i] == Stream(boxes, dst, src + 1);
      src := src + 1;
    }
    StoreBelowCeiling(p);
    ok := true;
  }

  lemma OneRowMore(p: Part, msg: Routed)
    requires |p.coeffs| == |p.keys|
    ensures |AbsorbOne(p, msg).keys| == |p.keys| + if msg.key in p.keys then 0 else 1
  {
  }

  lemma StoreBelowCeiling(p: TermSum)
    requires p.Valid()
    ensures |p.State().keys| < EMPTY
  {
  }

  // ---- all partitions -----------------------------------------------------------

  ghost function Stores(parts: seq<TermSum>): set<OperatorIndex>
    reads parts
  {
    set p | p in parts :: p.store
  }

  ghost function Transposed(parts: seq<TermSum>): set<InvertedIndex>
    reads parts
  {
    set p | p in parts :: p.inverted
  }

  /** No two partitions share any storage. */
  ghost predicate Apart(parts: seq<TermSum>)
    reads parts
  {
    forall i, j :: 0 <= i < j < |parts| ==>
      parts[i] != parts[j] && parts[i].store != parts[j].store && parts[i].inverted != parts[j].inverted
  }

  ghost predicate PartsValid(parts: seq<TermSum>, n: nat, hashing: Hashing)
    reads parts, Stores(parts), Transposed(parts)
  {
    Apart(parts) && forall d :: 0 <= d < |parts| ==> parts[d].Valid() && parts[d].n == n && parts[d].hashing == hashing
  }

  ghost function States(parts: seq<TermSum>): (r: seq<Part>)
    reads parts, Stores(parts)
    ensures |r| == |parts| && forall d :: 0 <= d < |parts| ==> r[d] == parts[d].State()
  {
    seq(|parts|, d requires 0 <= d < |parts| reads parts, Stores(parts) =>
      assert parts[d].store in Stores(parts); parts[d].State())
  }

  /** The rows of all partitions together. */
  function RowCount(states: seq<Part>): nat
  {
    if states == [] then 0 else RowCount(states[..|states| - 1]) + |states[|states| - 1].keys|
  }

  lemma {:induction false} RowCountUpdate(states: seq<Part>, after: seq<Part>, d: nat)
    requires |after| == |states| && d < |states|
      && forall i :: 0 <= i < |states| && i != d ==> after[i].keys == states[i].keys
    ensures RowCount(after) + |states[d].keys| == RowCount(states) + |after[d].keys|
    decreases |states|
  {
    var last := |states| - 1;
    if d < last {
      RowCountUpdate(states[..last], after[..last], d);
    } else {
      RowCountSame(states[..last], after[..last]);
    }
  }

  lemma {:induction false} RowCountSame(states: seq<Part>, after: seq<Part>)
    requires |after| == |states| && forall i :: 0 <= i < |states| ==> after[i].keys == states[i].keys
    ensures RowCount(after) == RowCount(states)
    decreases |states|
  {
    if states != [] {
      var last := |states| - 1;
      RowCountSame(states[..last], after[..last]);
    }
  }

  /** The partitions still own the storage they had. */
  twostate predicate SameStorage(parts: seq<TermSum>)
    reads parts
  {
    forall d ::
      0 <= d < |parts| ==> parts[d].store == old(parts[d].store) && parts[d].inverted == old(parts[d].inverted)
  }

  /** A routing buffer is reused: it is emptied, not rebuilt. */
  method Clear(box: seq<seq<Routed>>) returns (out: seq<seq<Routed>>)
    ensures |out| == |box| && forall d :: 0 <= d < |out| ==> out[d] == []
  {
    out := box;
    for d := 0 to |box|
      invariant |out| == |box| && forall i :: 0 <= i < d ==> out[i] == []
    {
      out := out[d := []];
    }
  }

  /** The partitions other than `d` are as they were. */
  twostate predicate OnlyAt(parts: seq<TermSum>, d: nat)
    reads parts, Stores(parts)
  {
    forall i :: 0 <= i < |parts| && i != d ==>
      parts[i].State() == old(parts[i].State()) && parts[i].pendingNeedsPhase == old(parts[i].pendingNeedsPhase)
  }

  /** One worker's scan: its partition's rows into its own outbox. */
  method ScanOne(parts: seq<TermSum>, kind: BasisKind, t: Turn, cut: Cutoff, outbox: seq<seq<Routed>>, d: nat, n: nat,
                 hashing: Hashing)
      returns (out: seq<seq<Routed>>)
    requires PartsValid(parts, n, hashing) && TurnOf(t, n) && d < |parts| && |outbox| == |parts|
    modifies parts[d], parts[d].inverted
    ensures PartsValid(parts, n, hashing) && SameStorage(parts) && OnlyAt(parts, d) && |out| == |parts|
    ensures ScanOf(kind, t, cut, hashing.full, n, old(States(parts))[d], parts[d].State(), out)
    ensures parts[d].pendingNeedsPhase == Prechecks(cut)
  {
    hide TermSum.Valid, TermSum.State, Emitted, Scanned;
    var box := Clear(outbox);
    out := parts[d].ScanInto(kind, t, cut, box);
  }

  /** Every partition scans its own rows into its own outbox, in any order of the workers. */
  method ScanPhase(parts: seq<TermSum>, kind: BasisKind, t: Turn, cut: Cutoff, outboxes: seq<seq<seq<Routed>>>,
                   order: seq<nat>, n: nat, hashing: Hashing) returns (boxes: seq<seq<seq<Routed>>>)
    requires PartsValid(parts, n, hashing) && TurnOf(t, n) && Square3(outboxes, |parts|) && Permutation(order, |parts|)
    modifies parts, Transposed(parts)
    ensures PartsValid(parts, n, hashing) && SameStorage(parts) && Square3(boxes, |parts|)
    ensures forall d :: 0 <= d < |parts| ==>
      && ScanOf(kind, t, cut, hashing.full, n, old(States(parts))[d], parts[d].State(), boxes[d])
      && parts[d].pendingNeedsPhase == Prechecks(cut)
  {
    hide TermSum.Valid, TermSum.State, ScanOf;
    ghost var start := States(parts);
    boxes := outboxes;
    var i := 0;
    while i < |order|
      invariant i <= |order| && PartsValid(parts, n, hashing) && SameStorage(parts) && Square3(boxes, |parts|)
      invariant forall d :: 0 <= d < |parts| && d !in order[..i] ==> parts[d].State() == start[d]
      invariant forall d :: 0 <= d < |parts| && d in order[..i] ==>
        ScanOf(kind, t, cut, hashing.full, n, start[d], parts[d].State(), boxes[d])
          && parts[d].pendingNeedsPhase == Prechecks(cut)
    {
      var d := order[i];
      assert d in order && order[..i + 1] == order[..i] + [d];
      assert d !in order[..i];
      var out := ScanOne(parts, kind, t, cut, boxes[d], d, n, hashing);
      boxes := boxes[d := out];
      i := i + 1;
    }
    assert order[..i] == order;
  }

  /** Folds the stream in, then releases what was claimed. */
  method FoldAndRelease(p: TermSum, kind: BasisKind, t: Turn, boxes: seq<seq<seq<Routed>>>, outbox: seq<seq<Routed>>,
                        dst: nat, drain: bool)
      returns (ok: bool, added: nat, box: seq<seq<Routed>>)
    requires p.Valid() && TurnOf(t, p.n) && ReadyFor(p.State(), p.n, boxes, dst, p.hashing.full) && |outbox| == |boxes|
    modifies p, p.store
    ensures p.Valid() && p.store == old(p.store) && p.inverted == old(p.inverted)
      && p.pendingNeedsPhase == old(p.pendingNeedsPhase)
    ensures ok <==> Fits(old(p.State()), Inbox(boxes, dst))
    ensures |box| == |boxes|
    ensures ok ==>
      Exchanged(kind, t, p.hashing.full, p.pendingNeedsPhase, old(p.State()), Inbox(boxes, dst), drain, p.State(), box)
    ensures ok ==> |p.State().keys| == |old(p.State()).keys| + added
  {
    hide TermSum.Valid, TermSum.Pending, Released;
    box := outbox;
    AbsorbAllFolds(p.State(), p.n, Stream(boxes, dst, |boxes|));
    ok, added := AbsorbStream(p, boxes, dst);
    if ok && drain {
      box := Clear(box);
      box := p.DrainClaims(kind, t, box);
    }
  }

  /** One worker's share of an exchange; the other partitions stay as they are. */
  method ExchangeOne(parts: seq<TermSum>, kind: BasisKind, t: Turn, boxes: seq<seq<seq<Routed>>>,
                     outbox: seq<seq<Routed>>, dst: nat, drain: bool, n: nat, hashing: Hashing)
      returns (ok: bool, added: nat, box: seq<seq<Routed>>)
    requires PartsValid(parts, n, hashing) && TurnOf(t, n) && dst < |parts| == |boxes| == |outbox|
    requires ReadyFor(parts[dst].State(), n, boxes, dst, hashing.full)
    modifies parts[dst], parts[dst].store
    ensures PartsValid(parts, n, hashing) && SameStorage(parts) && OnlyAt(parts, dst) && |box| == |parts|
    ensures parts[dst].pendingNeedsPhase == old(parts[dst].pendingNeedsPhase)
    ensures ok <==> Fits(old(parts[dst].State()), Inbox(boxes, dst))
    ensures ok ==>
      Exchanged(kind, t, hashing.full, parts[dst].pendingNeedsPhase, old(parts[dst].State()), Inbox(boxes, dst), drain,
        parts[dst].State(), box)
    ensures ok ==> |parts[dst].State().keys| == |old(parts[dst].State()).keys| + added
  {
    hide TermSum.Valid, TermSum.State, ReadyFor, Exchanged, Fits, Inbox;
    ok, added, box := FoldAndRelease(parts[dst], kind, t, boxes, outbox, dst, drain);
  }

  /**
   The exchange over all partitions, in any order of the workers. `drain` asks for the claimed
   branches to be released, which the first exchange of a gate does and the rescue round not.
   */
  method AbsorbExchange(parts: seq<TermSum>, kind: BasisKind, t: Turn, boxes: seq<seq<seq<Routed>>>,
                        outboxes: seq<seq<seq<Routed>>>, order: seq<nat>, drain: bool, n: nat, hashing: Hashing)
      returns (ok: bool, added: nat, rescues: seq<seq<seq<Routed>>>)
    requires PartsValid(parts, n, hashing) && TurnOf(t, n) && Permutation(order, |parts|) && |boxes| == |parts|
      && Square3(outboxes, |parts|)
    requires forall d :: 0 <= d < |parts| ==> ReadyFor(parts[d].State(), n, boxes, d, hashing.full)
    modifies parts, Stores(parts)
    ensures PartsValid(parts, n, hashing) && SameStorage(parts) && Square3(rescues, |parts|)
    ensures forall d :: 0 <= d < |parts| ==> parts[d].pendingNeedsPhase == old(parts[d].pendingNeedsPhase)
    ensures ok <==> forall d :: 0 <= d < |parts| ==> Fits(old(States(parts))[d], Inbox(boxes, d))
    ensures ok ==> forall d :: 0 <= d < |parts| ==>
      Exchanged(kind, t, hashing.full, parts[d].pendingNeedsPhase, old(States(parts))[d], Inbox(boxes, d), drain,
        parts[d].State(), rescues[d])
    ensures ok ==> RowCount(States(parts)) == RowCount(old(States(parts))) + added
  {
    hide TermSum.Valid, TermSum.State, ReadyFor, Exchanged, Fits, Inbox, RowCount;
    ghost var start := States(parts);
    rescues, added := outboxes, 0;
    assert States(parts) == start;
    var i := 0;
    while i < |order|
      invariant i <= |order| && PartsValid(parts, n, hashing) && SameStorage(parts) && Square3(rescues, |parts|)
      invariant RowCount(States(parts)) == RowCount(start) + added
      invariant forall d :: 0 <= d < |parts| ==> parts[d].pendingNeedsPhase == old(parts[d].pendingNeedsPhase)
      invariant forall d :: 0 <= d < |parts| && d !in order[..i] ==> parts[d].State() == start[d]
      invariant forall d :: 0 <= d < |parts| && d in order[..i] ==>
        && Fits(start[d], Inbox(boxes, d))
        && Exchanged(kind, t, hashing.full, parts[d].pendingNeedsPhase, start[d], Inbox(boxes, d), drain,
          parts[d].State(), rescues[d])
    {
      var dst := order[i];
      assert dst in order && order[..i + 1] == order[..i] + [dst];
      assert dst !in order[..i];
      ghost var before := States(parts);
      var gained, box;
      ok, gained, box := ExchangeOne(parts, kind, t, boxes, rescues[dst], dst, drain, n, hashing);
      if !ok {
        return;
      }
      RowCountUpdate(before, States(parts), dst);
      added := added + gained;
      rescues := rescues[dst := box];
      i := i + 1;
    }
    assert order[..i] == order;
    ok := true;
  }

  /** Some rescue box holds a branch. */
  method AnyRescue(boxes: seq<seq<seq<Routed>>>) returns (some: bool)
    requires Square3(boxes, |boxes|)
    ensures some <==> exists i, d :: 0 <= i < |boxes| && 0 <= d < |boxes| && boxes[i][d] != []
  {
    some := false;
    for i := 0 to |boxes|
      invariant some <==> exists i', d :: 0 <= i' < i && 0 <= d < |boxes| && boxes[i'][d] != []
    {
      for d := 0 to |boxes[i]|
        invariant some <==>
          ((exists i', d' :: 0 <= i' < i && 0 <= d' < |boxes| && boxes[i'][d'] != [])
            || exists d' :: 0 <= d' < d && boxes[i][d'] != [])
      {
        some := some || boxes[i][d] != [];
      }
    }
  }

  /** The second exchange: it always has room, and adds no row. */
  method RescueExchange(parts: seq<TermSum>, kind: BasisKind, t: Turn, ghost cut: Cutoff,
                        rescues: seq<seq<seq<Routed>>>, order: seq<nat>, n: nat, hashing: Hashing, ghost x: Rounds)
      returns (ok: bool, added: nat)
    requires PartsValid(parts, n, hashing) && TurnOf(t, n) && Permutation(order, |parts|) && |x.start| == |parts|
    requires RoundOne(kind, t, cut, hashing.full, x) && x.rescues == rescues
    requires AllReleased(kind, t, hashing.full, Prechecks(cut), x.absorbed, States(parts), x.rescues)
    requires forall d :: 0 <= d < |parts| ==> |x.absorbed[d].keys| < EMPTY
    requires forall d :: 0 <= d < |parts| ==> |States(parts)[d].coeffs| == |States(parts)[d].keys|
    modifies parts, Stores(parts)
    ensures PartsValid(parts, n, hashing) && SameStorage(parts) && ok
    ensures States(parts) == Absorbed(old(States(parts)), rescues) && added == 0
  {
    hide TermSum.Valid, TermSum.State, ReadyFor, Released, Fits, Inbox, RoundOne, Prechecks, Emitted, RowCount,
      AbsorbAll, Exchanged,
      PartsValid, Permutation;
    ghost var settled := States(parts);
    forall d | 0 <= d < |parts|
      ensures ReadyFor(settled[d], n, x.rescues, d, hashing.full) && Fits(settled[d], Inbox(rescues, d))
    {
      RescueReady(kind, t, cut, hashing.full, x, settled, d);
      ReadyFits(settled[d], n, x.rescues, d, hashing.full);
    }
    var boxes: seq<seq<seq<Routed>>>;
    ok, added, boxes := AbsorbExchange(parts, kind, t, rescues, rescues, order, false, n, hashing);
    forall d | 0 <= d < |parts| ensures parts[d].State() == AbsorbAll(settled[d], Inbox(rescues, d)) {
      JustFolded(kind, t, hashing.full, parts[d].pendingNeedsPhase, settled[d], Inbox(rescues, d), parts[d].State(),
        boxes[d]);
    }
    assert States(parts) == Absorbed(settled, rescues);
    SettledRows(kind, t, cut, hashing.full, x, settled, States(parts));
  }

  /** The rescue round, which cannot run out of room. */
  method RescueRound(parts: seq<TermSum>, kind: BasisKind, t: Turn, ghost cut: Cutoff, rescues: seq<seq<seq<Routed>>>,
                     order: seq<nat>, n: nat, hashing: Hashing, ghost x: Rounds) returns (ok: bool, added: nat)
    requires PartsValid(parts, n, hashing) && TurnOf(t, n) && Permutation(order, |parts|) && |x.start| == |parts|
    requires RoundOne(kind, t, cut, hashing.full, x) && x.rescues == rescues
    requires AllReleased(kind, t, hashing.full, Prechecks(cut), x.absorbed, States(parts), x.rescues)
    requires forall d :: 0 <= d < |parts| ==> |x.absorbed[d].keys| < EMPTY
    modifies parts, Stores(parts)
    ensures PartsValid(parts, n, hashing) && SameStorage(parts) && ok
    ensures States(parts) == Absorbed(old(States(parts)), rescues) && added == 0
  {
    hide TermSum.Valid, TermSum.State, Released, Inbox, RoundOne, Prechecks, Emitted, AbsorbAll, Permutation;
    ghost var settled := States(parts);
    StatesAligned(parts, n, hashing);
    var some := AnyRescue(rescues);
    assert States(parts) == settled;
    if some {
      ok, added := RescueExchange(parts, kind, t, cut, rescues, order, n, hashing, x);
    } else {
      ok, added := true, 0;
      NothingRescued(settled, rescues);
    }
  }

  lemma {:induction false} JustFolded(kind: BasisKind, t: Turn, full: Key -> nat, needsPhase: bool, p: Part,
                                      inbox: seq<Routed>, q: Part, box: seq<seq<Routed>>)
    requires Exchanged(kind, t, full, needsPhase, p, inbox, false, q, box)
    ensures |p.coeffs| == |p.keys| && q == AbsorbAll(p, inbox)
  {
  }

  lemma NothingRescued(settled: seq<Part>, rescues: seq<seq<seq<Routed>>>)
    requires Square3(rescues, |settled|)
      && forall i, d :: 0 <= i < |rescues| && 0 <= d < |rescues| ==> rescues[i][d] == []
    requires forall d :: 0 <= d < |settled| ==> |settled[d].coeffs| == |settled[d].keys|
    ensures Absorbed(settled, rescues) == settled
  {
    forall d | 0 <= d < |settled| ensures AbsorbAll(settled[d], Inbox(rescues, d)) == settled[d] {
      NoInbox(rescues, d);
      AbsorbNone(settled[d]);
    }
  }

  lemma RescueAddsNothing(kind: BasisKind, t: Turn, cut: Cutoff, full: Key -> nat, x: Rounds, settled: seq<Part>,
                          d: nat)
    requires TurnOf(t, |t.gen|) && RoundOne(kind, t, cut, full, x) && d < |x.start|
    requires AllReleased(kind, t, full, Prechecks(cut), x.absorbed, settled, x.rescues)
    requires |settled| == |x.start| && |settled[d].coeffs| == |settled[d].keys|
    ensures AbsorbAll(settled[d], Inbox(x.rescues, d)).keys == settled[d].keys
  {
    hide Released, RoundOne, Emitted, Folded, Prechecks;
    RescueReady(kind, t, cut, full, x, settled, d);
    AbsorbKeepsFront(settled[d], Inbox(x.rescues, d));
  }

  lemma {:induction false} SettledRows(kind: BasisKind, t: Turn, cut: Cutoff, full: Key -> nat, x: Rounds,
                                       settled: seq<Part>, done: seq<Part>)
    requires TurnOf(t, |t.gen|) && RoundOne(kind, t, cut, full, x)
      && AllReleased(kind, t, full, Prechecks(cut), x.absorbed, settled, x.rescues)
    requires |settled| == |x.start| && forall d :: 0 <= d < |settled| ==> |settled[d].coeffs| == |settled[d].keys|
    requires done == Absorbed(settled, x.rescues)
    ensures RowCount(done) == RowCount(settled)
  {
    hide Released, RoundOne, Emitted, Folded, Prechecks, Inbox;
    forall d | 0 <= d < |settled| ensures done[d].keys == settled[d].keys {
      RescueAddsNothing(kind, t, cut, full, x, settled, d);
    }
    RowCountSame(settled, done);
  }

  lemma {:induction false} AbsorbKeepsFront(p: Part, msgs: seq<Routed>)
    requires |p.coeffs| == |p.keys|
    ensures p.keys <= AbsorbAll(p, msgs).keys
    decreases |msgs|
  {
    if msgs != [] {
      AbsorbKeepsFront(p, msgs[..|msgs| - 1]);
    }
  }

  lemma {:induction false} ReadyFits(p: Part, n: nat, boxes: seq<seq<seq<Routed>>>, d: nat, full: Key -> nat)
    requires ReadyFor(p, n, boxes, d, full)
    ensures |p.coeffs| == |p.keys|
    ensures Fits(p, Inbox(boxes, d)) <==> |AbsorbAll(p, Inbox(boxes, d)).keys| < EMPTY
  {
  }

  lemma NoInbox(boxes: seq<seq<seq<Routed>>>, d: nat)
    requires Square3(boxes, |boxes|) && d < |boxes|
      && forall i, d :: 0 <= i < |boxes| && 0 <= d < |boxes| ==> boxes[i][d] == []
    ensures Inbox(boxes, d) == []
  {
    EmptyStream(boxes, d, |boxes|);
  }

  /** A partition's rows before a gate are the keys it owns. */
  lemma RowsOwned(parts: seq<Part>, n: nat, full: Key -> nat, d: nat)
    requires PartsOk(parts, n, full) && d < |parts|
    ensures |parts[d].keys| == |Owning(Global(parts, full), full, |parts|, d)|
  {
    var keys := parts[d].keys;
    forall k ensures k in keys <==> k in Global(parts, full) && OwnerOf(full, |parts|, k) == d {
      GlobalAt(parts, n, full, k);
      assert PartOk(parts[d], n) && Owned(parts[d], full, |parts|, d);
    }
    assert (set k | k in keys) == Owning(Global(parts, full), full, |parts|, d);
    DistinctCount(keys);
  }

  /** Every partition has room for the keys of `m` that it owns. */
  ghost predicate Room(m: Terms, full: Key -> nat, s: nat)
  {
    forall d: nat :: d < s ==> |Owning(m, full, s, d)| < EMPTY
  }

  /** Stored partitions are below the ceiling as they stand. */
  lemma RoomNow(parts: seq<TermSum>, n: nat, hashing: Hashing)
    requires PartsValid(parts, n, hashing) && PartsOk(States(parts), n, hashing.full)
    ensures Room(Global(States(parts), hashing.full), hashing.full, |parts|)
  {
    hide PartsOk, Global, Owning, TermSum.Valid, TermSum.State;
    forall d: nat | d < |parts|
      ensures |Owning(Global(States(parts), hashing.full), hashing.full, |parts|, d)| < EMPTY
    {
      RowsOwned(States(parts), n, hashing.full, d);
      StoreBelowCeiling(parts[d]);
    }
  }

  lemma {:induction false} ScanKeepsRows(kind: BasisKind, t: Turn, cut: Cutoff, full: Key -> nat, start: seq<Part>,
                                         scanned: seq<Part>, boxes: seq<seq<seq<Routed>>>)
    requires TurnOf(t, |t.gen|) && AllScanned(kind, t, cut, full, start, scanned, boxes)
    ensures RowCount(scanned) == RowCount(start)
  {
    hide Scanned, Emitted, PartOk, PartsOk;
    forall d | 0 <= d < |start| ensures scanned[d].keys == start[d].keys {
      assert ScanOf(kind, t, cut, full, |t.gen|, start[d], scanned[d], boxes[d]);
      ScannedKeeps(kind, t, cut, start[d], scanned[d]);
    }
    RowCountSame(start, scanned);
  }

  /** The rows of all partitions are the terms of the operator. */
  lemma {:induction false} RowsAreTerms(states: seq<Part>, n: nat, full: Key -> nat, d: nat)
    requires PartsOk(states, n, full) && d <= |states|
    ensures RowCount(states[..d]) == |OwnedBelow(Global(states, full), full, |states|, d)|
    ensures d == |states| ==> RowCount(states) == |Global(states, full)|
  {
    hide Global, OwnedBelow;
    OwnedAll(states, n, full);
    if d > 0 {
      RowsAreTerms(states, n, full, d - 1);
      OwnedNext(states, n, full, d - 1);
      assert states[..d][..d - 1] == states[..d - 1];
    }
    assert states[..|states|] == states;
  }

  /** Scan and first exchange; `x` records the states they went through. */
  method FirstRound(parts: seq<TermSum>, kind: BasisKind, t: Turn, cut: Cutoff, outboxes: seq<seq<seq<Routed>>>,
                    rescueOutboxes: seq<seq<seq<Routed>>>, orders: Orders, n: nat, hashing: Hashing)
      returns (ok: bool, added: nat, boxes: seq<seq<seq<Routed>>>, rescues: seq<seq<seq<Routed>>>, ghost x: Rounds)
    requires PartsValid(parts, n, hashing) && PartsOk(States(parts), n, hashing.full) && TurnOf(t, n)
    requires OrdersOk(orders, |parts|) && Square3(outboxes, |parts|) && Square3(rescueOutboxes, |parts|)
    modifies parts, Stores(parts), Transposed(parts)
    ensures PartsValid(parts, n, hashing) && SameStorage(parts) && Square3(boxes, |parts|) && Square3(rescues, |parts|)
    ensures x.start == old(States(parts)) && x.rescues == rescues && RoundOne(kind, t, cut, hashing.full, x)
      && |x.absorbed| == |parts|
    ensures ok <==> forall d :: 0 <= d < |parts| ==> |x.absorbed[d].keys| < EMPTY
    ensures ok ==> AllReleased(kind, t, hashing.full, Prechecks(cut), x.absorbed, States(parts), rescues)
    ensures ok ==> RowCount(States(parts)) == RowCount(old(States(parts))) + added
  {
    hide TermSum.Valid, TermSum.State, ReadyFor, Released, Fits, Inbox, RoundOne, Prechecks, Emitted, ScanOf, PartsOk,
      RowCount, AbsorbAll,
      PartsValid, Exchanged, Permutation;
    ghost var full := hashing.full;
    ghost var start := States(parts);
    boxes := ScanPhase(parts, kind, t, cut, outboxes, orders.scan, n, hashing);
    ghost var scanned := States(parts);
    assert AllScanned(kind, t, cut, full, start, scanned, boxes);
    ScanReady(kind, t, cut, full, start, scanned, boxes);
    forall d | 0 <= d < |parts|
      ensures |scanned[d].coeffs| == |scanned[d].keys|
      ensures Fits(scanned[d], Inbox(boxes, d)) <==> |AbsorbAll(scanned[d], Inbox(boxes, d)).keys| < EMPTY
    {
      ReadyFits(scanned[d], n, boxes, d, full);
    }
    ScanKeepsRows(kind, t, cut, full, start, scanned, boxes);
    ok, added, rescues := AbsorbExchange(parts, kind, t, boxes, rescueOutboxes, orders.exchange, true, n, hashing);
    x := Rounds(start, scanned, boxes, Absorbed(scanned, boxes), rescues, []);
    RoundOneDone(kind, t, cut, full, start, scanned, boxes, x);
    if ok {
      forall d | 0 <= d < |parts|
        ensures parts[d].State() == Settled(x.absorbed[d])
          && Released(kind, t, full, Prechecks(cut), x.absorbed[d], rescues[d])
      {
        JustDrained(kind, t, full, parts[d].pendingNeedsPhase, scanned[d], Inbox(boxes, d), parts[d].State(),
          rescues[d]);
      }
    }
  }

  lemma {:induction false} JustDrained(kind: BasisKind, t: Turn, full: Key -> nat, needsPhase: bool, p: Part,
                                       inbox: seq<Routed>, q: Part, box: seq<seq<Routed>>)
    requires Exchanged(kind, t, full, needsPhase, p, inbox, true, q, box)
    ensures |p.coeffs| == |p.keys| && |t.gen| % 2 == 0 && q == Settled(AbsorbAll(p, inbox))
    ensures Released(kind, t, full, needsPhase, AbsorbAll(p, inbox), box)
  {
  }

  /**
   One gate that is not deferred and has a sine: scan, exchange, rescue. It succeeds iff the
   result leaves every partition below the row ceiling, and then it is the pair rule.
   */
  method RotatePairs(parts: seq<TermSum>, kind: BasisKind, t: Turn, cut: Cutoff, outboxes: seq<seq<seq<Routed>>>,
                     rescueOutboxes: seq<seq<seq<Routed>>>, orders: Orders, n: nat, hashing: Hashing)
      returns (ok: bool, added: nat, boxes: seq<seq<seq<Routed>>>, rescues: seq<seq<seq<Routed>>>)
    requires PartsValid(parts, n, hashing) && PartsOk(States(parts), n, hashing.full) && TurnOf(t, n)
    requires OrdersOk(orders, |parts|) && Square3(outboxes, |parts|) && Square3(rescueOutboxes, |parts|)
    modifies parts, Stores(parts), Transposed(parts)
    ensures PartsValid(parts, n, hashing) && SameStorage(parts) && Square3(boxes, |parts|) && Square3(rescues, |parts|)
    ensures TermsOf(old(Global(States(parts), hashing.full)), n)
    ensures ok <==> Room(PairStep(kind, t, cut, old(Global(States(parts), hashing.full))), hashing.full, |parts|)
    ensures ok ==> PartsOk(States(parts), n, hashing.full)
    ensures ok ==> |Global(States(parts), hashing.full)| == |old(Global(States(parts), hashing.full))| + added
    ensures ok ==>
      Global(States(parts), hashing.full) == PairStep(kind, t, cut, old(Global(States(parts), hashing.full)))
  {
    hide TermSum.Valid, TermSum.State, ReadyFor, Released, Fits, Inbox, RoundOne, Prechecks, Emitted, ScanOf, Global,
      PairStep, Owning,
      PartsValid, Permutation;
    ghost var full := hashing.full;
    ghost var start := States(parts);
    ghost var m := Global(start, full);
    GlobalTerms(start, n, full);
    ghost var x: Rounds;
    ok, added, boxes, rescues, x := FirstRound(parts, kind, t, cut, outboxes, rescueOutboxes, orders, n, hashing);
    forall d: nat | d < |parts| ensures |x.absorbed[d].keys| == |Owning(PairStep(kind, t, cut, m), full, |parts|, d)| {
      RowsNeeded(kind, t, cut, full, x, d);
    }
    if ok {
      ghost var settled := States(parts);
      StatesAligned(parts, n, hashing);
      ghost var before := added;
      var late: nat;
      ok, late := RescueRound(parts, kind, t, cut, rescues, orders.rescue, n, hashing, x);
      ghost var y := x.(done := States(parts));
      OtherDone(kind, t, cut, full, x, y);
      GateDone(kind, t, cut, full, y, settled);
      SettledRows(kind, t, cut, full, y, settled, y.done);
      RowsAreTerms(start, n, full, |start|);
      RowsAreTerms(y.done, n, full, |y.done|);
      added := added + late;
    }
  }

  lemma StatesAligned(parts: seq<TermSum>, n: nat, hashing: Hashing)
    requires PartsValid(parts, n, hashing)
    ensures forall d :: 0 <= d < |parts| ==> |States(parts)[d].coeffs| == |States(parts)[d].keys|
  {
  }

  lemma OtherDone(kind: BasisKind, t: Turn, cut: Cutoff, full: Key -> nat, x: Rounds, y: Rounds)
    requires |t.gen| % 2 == 0 && RoundOne(kind, t, cut, full, x) && y == x.(done := y.done)
    ensures RoundOne(kind, t, cut, full, y)
  {
    hide Scanned, Folded, Emitted;
    forall d | 0 <= d < |x.start| ensures ScannedAndFolded(kind, t, cut, y, d) {
      assert ScannedAndFolded(kind, t, cut, x, d);
    }
  }

  ghost function OwnedBelow(m: Terms, full: Key -> nat, s: nat, d: nat): set<Key>
  {
    set k | k in m && OwnerOf(full, s, k) < d
  }

  lemma OwnedNext(parts: seq<Part>, n: nat, full: Key -> nat, d: nat)
    requires PartsOk(parts, n, full) && d < |parts|
    ensures var m := Global(parts, full);
      |OwnedBelow(m, full, |parts|, d + 1)| == |OwnedBelow(m, full, |parts|, d)| + |parts[d].keys|
  {
    hide Global, PartsOk;
    var m, s := Global(parts, full), |parts|;
    RowsOwned(parts, n, full, d);
    assert OwnedBelow(m, full, s, d + 1) == OwnedBelow(m, full, s, d) + Owning(m, full, s, d);
  }

  lemma OwnedAll(parts: seq<Part>, n: nat, full: Key -> nat)
    requires PartsOk(parts, n, full)
    ensures |OwnedBelow(Global(parts, full), full, |parts|, |parts|)| == |Global(parts, full)|
    ensures OwnedBelow(Global(parts, full), full, |parts|, 0) == {}
  {
    hide Global;
    var m := Global(parts, full);
    assert OwnedBelow(m, full, |parts|, |parts|) == m.Keys;
  }

  lemma LenIs(p: TermSum)
    requires p.Valid()
    ensures p.Len() == |p.State().keys|
  {
  }

  /** The number of live terms over all partitions. */
  method LenOf(parts: seq<TermSum>, ghost n: nat, ghost hashing: Hashing) returns (live: nat)
    requires PartsValid(parts, n, hashing) && PartsOk(States(parts), n, hashing.full)
    ensures live == |Global(States(parts), hashing.full)|
  {
    hide TermSum.Valid, Global, OwnedBelow;
    ghost var states := States(parts);
    ghost var m := Global(states, hashing.full);
    OwnedAll(states, n, hashing.full);
    live := 0;
    for d := 0 to |parts|
      invariant live == |OwnedBelow(m, hashing.full, |parts|, d)|
    {
      OwnedNext(states, n, hashing.full, d);
      assert parts[d].Len() == |states[d].keys| by { LenIs(parts[d]); }
      live := live + parts[d].Len();
    }
    assert States(parts) == states;
  }

  /** A phase-only gate scales every partition. */
  method ScaleAll(parts: seq<TermSum>, kind: BasisKind, g: Key, factor: real, ghost n: nat, ghost hashing: Hashing)
    requires PartsValid(parts, n, hashing) && PartsOk(States(parts), n, hashing.full) && |g| == n && n % 2 == 0
    modifies parts
    ensures PartsValid(parts, n, hashing) && SameStorage(parts) && PartsOk(States(parts), n, hashing.full)
    ensures TermsOf(old(Global(States(parts), hashing.full)), n)
    ensures Global(States(parts), hashing.full) == ScaleStep(kind, g, factor, old(Global(States(parts), hashing.full)))
  {
    hide TermSum.Valid, TermSum.State, Global, PartsOk, ScaledPart, ScaleStep;
    ghost var start := States(parts);
    for d := 0 to |parts|
      invariant PartsValid(parts, n, hashing) && SameStorage(parts)
      invariant forall i ::
        0 <= i < |parts| ==>
          if i < d then ScaledPart(kind, g, factor, start[i], parts[i].State()) else parts[i].State() == start[i]
    {
      ScaleOne(parts, kind, g, factor, d, n, hashing, start[d]);
    }
    ScaledAll(kind, n, g, factor, hashing.full, start, States(parts));
  }

  /** One partition's anticommuting rows scaled. */
  ghost predicate ScaledPart(kind: BasisKind, g: Key, factor: real, p: Part, q: Part)
  {
    && |g| % 2 == 0 && PartOk(p, |g|) && q.keys == p.keys && q.pending == p.pending && |q.coeffs| == |p.coeffs|
    && forall i ::
      0 <= i < |p.coeffs| ==>
        q.coeffs[i] == if Anticommutes(kind, g, p.keys[i]) then p.coeffs[i] * factor else p.coeffs[i]
  }

  method ScaleOne(parts: seq<TermSum>, kind: BasisKind, g: Key, factor: real, d: nat, ghost n: nat,
                  ghost hashing: Hashing, ghost p: Part)
    requires PartsValid(parts, n, hashing) && |g| == n && n % 2 == 0 && d < |parts| && parts[d].State() == p
    modifies parts[d]
    ensures PartsValid(parts, n, hashing) && SameStorage(parts) && OnlyAt(parts, d)
    ensures ScaledPart(kind, g, factor, p, parts[d].State())
  {
    hide TermSum.Valid, TermSum.Pending;
    parts[d].StateOk();
    parts[d].ScaleAnticommuting(kind, g, factor);
  }

  lemma ScaledAll(kind: BasisKind, n: nat, g: Key, factor: real, full: Key -> nat, start: seq<Part>, after: seq<Part>)
    requires PartsOk(start, n, full) && |g| == n && n % 2 == 0 && |after| == |start|
    requires forall d :: 0 <= d < |start| ==> ScaledPart(kind, g, factor, start[d], after[d])
    ensures PartsOk(after, n, full) && TermsOf(Global(start, full), n)
    ensures Global(after, full) == ScaleStep(kind, g, factor, Global(start, full))
  {
    hide Anticommutes, Global, ScaleStep, CoeffAt, Coef;
    forall d | 0 <= d < |after| ensures PartOk(after[d], n) && Owned(after[d], full, |after|, d) {
      assert ScaledPart(kind, g, factor, start[d], after[d]);
      assert PartOk(start[d], n) && Owned(start[d], full, |start|, d);
    }
    GlobalTerms(start, n, full);
    GlobalTerms(after, n, full);
    forall k: Key | |k| == n
      ensures k in Global(after, full) <==> k in ScaleStep(kind, g, factor, Global(start, full))
      ensures Coef(Global(after, full), k) == Coef(ScaleStep(kind, g, factor, Global(start, full)), k)
    {
      ScaledKey(kind, n, g, factor, full, start, after, k);
    }
    SameTerms(Global(after, full), ScaleStep(kind, g, factor, Global(start, full)), n);
  }

  lemma ScaledKey(kind: BasisKind, n: nat, g: Key, factor: real, full: Key -> nat, start: seq<Part>, after: seq<Part>,
                  k: Key)
    requires PartsOk(start, n, full) && PartsOk(after, n, full) && |g| == |k| == n && n % 2 == 0 && |after| == |start|
      && TermsOf(Global(start, full), n)
    requires forall d :: 0 <= d < |start| ==> ScaledPart(kind, g, factor, start[d], after[d])
    ensures k in Global(after, full) <==> k in ScaleStep(kind, g, factor, Global(start, full))
    ensures Coef(Global(after, full), k) == Coef(ScaleStep(kind, g, factor, Global(start, full)), k)
  {
    hide Anticommutes, Global, ScaleStep, CoeffAt, Coef, PartOk, Owned;
    GlobalAt(start, n, full, k);
    GlobalAt(after, n, full, k);
    ScaledAt(kind, g, factor, start[OwnerOf(full, |start|, k)], after[OwnerOf(full, |start|, k)], k);
    ScaleStepAt(kind, g, factor, Global(start, full), k);
  }

  lemma ScaledAt(kind: BasisKind, g: Key, factor: real, p: Part, q: Part, k: Key)
    requires ScaledPart(kind, g, factor, p, q) && |k| == |g|
    ensures CoeffAt(q, k) == if Anticommutes(kind, g, k) then CoeffAt(p, k) * factor else CoeffAt(p, k)
  {
    hide Anticommutes;
    assert 0.0 * factor == 0.0;
  }

  lemma ScaleStepAt(kind: BasisKind, g: Key, factor: real, m: Terms, k: Key)
    requires |g| % 2 == 0 && TermsOf(m, |g|) && |k| == |g|
    ensures k in ScaleStep(kind, g, factor, m) <==> k in m
    ensures Coef(ScaleStep(kind, g, factor, m), k) == if Anticommutes(kind, g, k) then Coef(m, k) * factor
      else Coef(m, k)
  {
    hide Anticommutes;
    assert 0.0 * factor == 0.0;
  }

  // ---- adding one term ----------------------------------------------------------

  /** A term added to the partition that owns its key is added to the operator. */
  lemma AddedTo(parts: seq<Part>, n: nat, full: Key -> nat, key: Key, coeff: real, q: Part)
    requires PartsOk(parts, n, full) && |key| == n
    requires q.keys == AbsorbOne(OwnerPart(parts, full, key), Routed(key, 0, coeff)).keys
    requires q.coeffs == AbsorbOne(OwnerPart(parts, full, key), Routed(key, 0, coeff)).coeffs
    requires PartOk(q, n)
    ensures var after := parts[OwnerOf(full, |parts|, key) := q];
      && PartsOk(after, n, full)
      && Global(after, full) == Global(parts, full)[key := Coef(Global(parts, full), key) + coeff]
  {
    hide Global;
    var d := OwnerOf(full, |parts|, key);
    var p, after := parts[d], parts[d := q];
    assert PartOk(p, n) && Owned(p, full, |parts|, d);
    assert Owned(q, full, |after|, d);
    forall i | 0 <= i < |after| ensures PartOk(after[i], n) && Owned(after[i], full, |after|, i) {
      assert PartOk(parts[i], n) && Owned(parts[i], full, |parts|, i);
    }
    var m, want := Global(parts, full), Global(parts, full)[key := Coef(Global(parts, full), key) + coeff];
    GlobalTerms(parts, n, full);
    GlobalTerms(after, n, full);
    forall k: Key | |k| == n
      ensures (k in Global(after, full) <==> k in want) && Coef(Global(after, full), k) == Coef(want, k)
    {
      GlobalAt(parts, n, full, k);
      GlobalAt(after, n, full, k);
      AddedAt(p, q, key, coeff, k);
    }
    SameTerms(Global(after, full), want, n);
  }

  ghost function OwnerPart(parts: seq<Part>, full: Key -> nat, key: Key): (p: Part)
    requires |parts| > 0 && forall d :: 0 <= d < |parts| ==> |parts[d].coeffs| == |parts[d].keys|
    ensures |p.coeffs| == |p.keys|
  {
    parts[OwnerOf(full, |parts|, key)]
  }

  lemma AddedAt(p: Part, q: Part, key: Key, coeff: real, k: Key)
    requires |p.coeffs| == |p.keys| && Distinct(p.keys) && Distinct(q.keys)
    requires q.keys == AbsorbOne(p, Routed(key, 0, coeff)).keys
      && q.coeffs == AbsorbOne(p, Routed(key, 0, coeff)).coeffs
    ensures k in q.keys <==> k in p.keys || k == key
    ensures CoeffAt(q, k) == CoeffAt(p, k) + if k == key then coeff else 0.0
  {
    if k in p.keys {
      assert q.keys[RowOf(p.keys, k)] == k;
    }
  }
}
