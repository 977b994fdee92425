/**
 Row storage with a linear-probing index over it.

 A row keeps its set positions inline when they fit, and its whole key in an overflow map
 when they do not. The index maps a key to its row by open addressing on a folded hash.
 */
module BitPositions {
  import opened BasisStrings

  /** The set positions at or above `j`, ascending. */
  function PositionsFrom(a: Key, j: nat): (r: seq<nat>)
    requires j <= |a|
    ensures |r| == CountFrom(a, j)
    decreases |a| - j
  {
    if j == |a| then [] else if a[j] then [j] + PositionsFrom(a, j + 1) else PositionsFrom(a, j + 1)
  }

  function Positions(a: Key): (r: seq<nat>)
    ensures |r| == Count(a)
  {
    PositionsFrom(a, 0)
  }

  lemma {:induction false} PositionsFromAre(a: Key, j: nat)
    requires j <= |a|
    ensures forall s ::
      0 <= s < |PositionsFrom(a, j)| ==> j <= PositionsFrom(a, j)[s] < |a| && a[PositionsFrom(a, j)[s]]
    ensures forall p :: j <= p < |a| && a[p] ==> p in PositionsFrom(a, j)
    decreases |a| - j
  {
    if j < |a| {
      PositionsFromAre(a, j + 1);
    }
  }

  lemma {:induction false} PositionsAscend(a: Key, j: nat)
    requires j <= |a|
    ensures forall s, t :: 0 <= s < t < |PositionsFrom(a, j)| ==> PositionsFrom(a, j)[s] < PositionsFrom(a, j)[t]
    decreases |a| - j
  {
    if j < |a| {
      PositionsAscend(a, j + 1);
      PositionsFromAre(a, j + 1);
    }
  }

  /** A string inside another with as many bits is that other. */
  lemma {:induction false} SubsetOfSameCount(a: Key, b: Key, j: nat)
    requires |a| == |b| && j <= |a|
    requires forall p :: j <= p < |a| && a[p] ==> b[p]
    ensures CountFrom(a, j) <= CountFrom(b, j)
    ensures CountFrom(a, j) == CountFrom(b, j) ==> a[j..] == b[j..]
    decreases |a| - j
  {
    if j < |a| {
      SubsetOfSameCount(a, b, j + 1);
      assert a[j..] == [a[j]] + a[j + 1..];
      assert b[j..] == [b[j]] + b[j + 1..];
    }
  }
}

module ProbeTable {

  /** The empty marker, which is also the ceiling on row indices. */
  const EMPTY: nat := 0xFFFF_FFFF

  datatype Slot = Slot(idx: nat, hash: nat)

  const FREE := Slot(EMPTY, 0)

  predicate Taken(s: Slot) { s.idx != EMPTY }

  /** The slot `k` places after `home`, wrapping round. */
  function At(home: nat, k: nat, n: nat): (s: nat)
    requires home < n && k < n
    ensures s < n
  {
    if home + k < n then home + k else home + k - n
  }

  /** How far `s` is from `home` along the probe order. */
  function Dist(home: nat, s: nat, n: nat): (k: nat)
    requires home < n && s < n
    ensures k < n && At(home, k, n) == s
  {
    if s >= home then s - home else s + n - home
  }

  lemma FirstAt(home: nat, n: nat)
    requires home < n
    ensures At(home, 0, n) == home
  {
  }

  lemma NextAt(home: nat, k: nat, n: nat)
    requires home < n && k + 1 < n
    ensures At(home, k + 1, n) == if At(home, k, n) + 1 == n then 0 else At(home, k, n) + 1
  {
  }

  lemma DistAt(home: nat, k: nat, n: nat)
    requires home < n && k < n
    ensures Dist(home, At(home, k, n), n) == k
  {
  }

  /** Where a folded hash starts probing. */
  function Home(spread: nat -> nat, hash: nat, n: nat): (h: nat)
    requires n > 0
    ensures h < n
  {
    spread(hash) % n
  }

  function Used(slots: seq<Slot>): nat
  {
    if slots == [] then 0 else Used(slots[..|slots| - 1]) + (if Taken(slots[|slots| - 1]) then 1 else 0)
  }

  /** Every taken slot is reached from its home without meeting a free one. */
  ghost predicate Chained(spread: nat -> nat, slots: seq<Slot>)
    requires |slots| > 0
  {
    forall s, k: nat ::
      0 <= s < |slots| && Taken(slots[s]) && k < Dist(Home(spread, slots[s].hash, |slots|), s, |slots|) ==>
      Taken(slots[At(Home(spread, slots[s].hash, |slots|), k, |slots|)])
  }

  /** No row is indexed twice. */
  ghost predicate DistinctRows(slots: seq<Slot>)
  {
    forall s, t :: 0 <= s < t < |slots| && Taken(slots[s]) && Taken(slots[t]) ==> slots[s].idx != slots[t].idx
  }

  /** Some entry of the table names row `r`. */
  ghost predicate HasRow(slots: seq<Slot>, r: nat)
  {
    exists s :: 0 <= s < |slots| && slots[s].idx == r
  }

  ghost predicate TableOk(spread: nat -> nat, slots: seq<Slot>)
  {
    |slots| > 0 && Chained(spread, slots) && DistinctRows(slots)
  }

  lemma {:induction false} UsedUpdate(slots: seq<Slot>, s: nat, e: Slot)
    requires s < |slots| && !Taken(slots[s]) && Taken(e)
    ensures Used(slots[s := e]) == Used(slots) + 1
    decreases |slots|
  {
    var n := |slots| - 1;
    var after := slots[s := e];
    if s == n {
      assert after[..n] == slots[..n];
    } else {
      assert after[..n] == slots[..n][s := e];
      UsedUpdate(slots[..n], s, e);
    }
  }

  /** A table that is not full has a free slot, so every probe ends. */
  lemma {:induction false} FreeSlot(slots: seq<Slot>) returns (f: nat)
    requires Used(slots) < |slots|
    ensures f < |slots| && !Taken(slots[f])
    decreases |slots|
  {
    var n := |slots| - 1;
    if !Taken(slots[n]) {
      f := n;
    } else {
      f := FreeSlot(slots[..n]);
    }
  }

  lemma {:induction false} UsedNone(slots: seq<Slot>)
    requires Used(slots) == 0
    ensures forall s :: 0 <= s < |slots| ==> !Taken(slots[s])
    decreases |slots|
  {
    if slots != [] {
      UsedNone(slots[..|slots| - 1]);
    }
  }

  lemma {:induction false} UsedFree(n: nat)
    ensures Used(seq(n, i => FREE)) == 0
    decreases n
  {
    if n > 0 {
      assert seq(n, i => FREE)[..n - 1] == seq(n - 1, i => FREE);
      UsedFree(n - 1);
    }
  }

  lemma {:induction false} UsedPrefix(slots: seq<Slot>, i: nat)
    requires i <= |slots|
    ensures Used(slots[..i]) <= Used(slots)
    decreases |slots| - i
  {
    if i < |slots| {
      UsedPrefix(slots, i + 1);
      assert slots[..i + 1][..i] == slots[..i];
    } else {
      assert slots[..i] == slots;
    }
  }

  lemma UsedNext(slots: seq<Slot>, i: nat)
    requires i < |slots|
    ensures Used(slots[..i + 1]) == Used(slots[..i]) + if Taken(slots[i]) then 1 else 0
  {
    assert slots[..i + 1][..i] == slots[..i];
  }

  lemma TableDistinct(spread: nat -> nat, slots: seq<Slot>)
    requires TableOk(spread, slots)
    ensures DistinctRows(slots)
  {
  }

  lemma EmptyTable(spread: nat -> nat, cap: nat)
    requires cap > 0
    ensures TableOk(spread, seq(cap, i => FREE))
  {
  }

  /** Places an entry in the first free slot of its probe chain. */
  method Place(spread: nat -> nat, slots: seq<Slot>, e: Slot) returns (r: seq<Slot>)
    requires TableOk(spread, slots) && Used(slots) < |slots| && Taken(e)
    requires forall s :: 0 <= s < |slots| ==> slots[s].idx != e.idx
    ensures TableOk(spread, r) && |r| == |slots| && Used(r) == Used(slots) + 1
    ensures forall x: Slot :: Taken(x) ==> (x in r <==> x in slots || x == e)
  {
    var n := |slots|;
    var home := Home(spread, e.hash, n);
    var s := home;
    ghost var k := 0;
    ghost var free := FreeSlot(slots);
    ghost var d := Dist(home, free, n);
    while slots[s].idx != EMPTY
      invariant s < n && k <= d && s == At(home, k, n)
      invariant forall j: nat :: j < k ==> Taken(slots[At(home, j, n)])
      decreases d - k
    {
      s := if s + 1 == n then 0 else s + 1;
      k := k + 1;
    }
    r := slots[s := e];
    Filled(spread, slots, s, e, k);
  }

  /** An entry put in the first free slot of its chain. */
  lemma Filled(spread: nat -> nat, slots: seq<Slot>, s: nat, e: Slot, k: nat)
    requires TableOk(spread, slots) && s < |slots| && !Taken(slots[s]) && Taken(e)
    requires forall i :: 0 <= i < |slots| ==> slots[i].idx != e.idx
    requires k == Dist(Home(spread, e.hash, |slots|), s, |slots|)
    requires forall j: nat :: j < k ==> Taken(slots[At(Home(spread, e.hash, |slots|), j, |slots|)])
    ensures TableOk(spread, slots[s := e]) && Used(slots[s := e]) == Used(slots) + 1
    ensures forall x: Slot :: Taken(x) ==> (x in slots[s := e] <==> x in slots || x == e)
  {
    UsedUpdate(slots, s, e);
    forall x: Slot | Taken(x) ensures x in slots[s := e] <==> x in slots || x == e {
      PlacedIn(slots, s, e, x);
    }
    PlacedChained(spread, slots, s, e, k);
  }

  /** Places every entry of one table into an empty table of `cap` slots. */
  method Rebuild(spread: nat -> nat, slots: seq<Slot>, cap: nat) returns (table: seq<Slot>)
    requires TableOk(spread, slots) && Used(slots) < cap
    ensures TableOk(spread, table) && |table| == cap && Used(table) == Used(slots)
    ensures forall x: Slot :: Taken(x) ==> (x in table <==> x in slots)
  {
    hide TableOk, Used;
    table := seq(cap, i => FREE);
    assert DistinctRows(slots) by { TableDistinct(spread, slots); }
    EmptyTable(spread, cap);
    UsedFree(cap);
    assert Used(slots[..0]) == 0 by { UsedFree(0); assert slots[..0] == seq(0, i => FREE); }
    assert |table| > 0;
    assert 0 < cap;
    UsedNone(table);
    var i := 0;
    while i < |slots|
      invariant i <= |slots| && |table| == cap
      invariant TableOk(spread, table) && Used(table) == Used(slots[..i])
      invariant forall x: Slot :: Taken(x) ==> (x in table <==> x in slots[..i])
    {
      var slot := slots[i];
      assert slots[..i + 1] == slots[..i] + [slot];
      UsedPrefix(slots, i);
      UsedNext(slots, i);
      if slot.idx != EMPTY {
        NotYetMoved(slots, table, i);
        table := Place(spread, table, slot);
      }
      i := i + 1;
    }
    assert slots[..i] == slots;
  }

  lemma NotYetMoved(slots: seq<Slot>, table: seq<Slot>, i: nat)
    requires i < |slots| && Taken(slots[i]) && DistinctRows(slots)
    requires forall x: Slot :: Taken(x) ==> (x in table <==> x in slots[..i])
    ensures forall s :: 0 <= s < |table| ==> table[s].idx != slots[i].idx
  {
    forall s | 0 <= s < |table| ensures table[s].idx != slots[i].idx {
      if Taken(table[s]) {
        assert table[s] in table;
        var t :| 0 <= t < i && slots[..i][t] == table[s];
        assert slots[t] == table[s];
      }
    }
  }

  lemma PlacedIn(slots: seq<Slot>, s: nat, e: Slot, x: Slot)
    requires s < |slots| && !Taken(slots[s]) && Taken(x)
    ensures x in slots[s := e] <==> x in slots || x == e
  {
    if x in slots {
      var i :| 0 <= i < |slots| && slots[i] == x;
      assert slots[s := e][i] == x;
    }
    if x == e {
      assert slots[s := e][s] == x;
    }
  }

  lemma PlacedChained(spread: nat -> nat, slots: seq<Slot>, s: nat, e: Slot, k: nat)
    requires TableOk(spread, slots) && s < |slots| && !Taken(slots[s]) && Taken(e)
    requires forall i :: 0 <= i < |slots| ==> slots[i].idx != e.idx
    requires k == Dist(Home(spread, e.hash, |slots|), s, |slots|)
    requires forall j: nat :: j < k ==> Taken(slots[At(Home(spread, e.hash, |slots|), j, |slots|)])
    ensures TableOk(spread, slots[s := e])
  {
    hide Home;
    var n, r := |slots|, slots[s := e];
    forall i, j: nat | 0 <= i < n && Taken(r[i]) && j < Dist(Home(spread, r[i].hash, n), i, n)
      ensures Taken(r[At(Home(spread, r[i].hash, n), j, n)])
    {
      var at := At(Home(spread, r[i].hash, n), j, n);
      if i == s {
        assert Taken(slots[at]);
      } else {
        assert r[i] == slots[i];
        assert Taken(slots[at]);
      }
    }
  }
}

module OperatorIndexes {
  import opened Wrappers
  import opened BasisStrings
  import opened BitPositions
  import opened ProbeTable

  const MIN_SLOTS := 16
  const MAX_INLINE_POSITIONS := 32

  /** The hash of a key, its fold to what a slot stores, and the avalanche that picks a home. */
  datatype Hashing = Hashing(full: Key -> nat, fold: nat -> nat, spread: nat -> nat)

  function NextPowerOfTwo(p: nat, x: nat): (r: nat)
    requires p > 0
    ensures r >= x && r >= p
    decreases if p < x then x - p else 0
  {
    if p >= x then p else NextPowerOfTwo(2 * p, x)
  }

  /** The inline layout of a row: its count, then its positions. */
  ghost predicate Inline(cells: seq<nat>, key: Key)
  {
    |cells| >= 1 + Count(key) && cells[0] == Count(key)
    && forall s :: 0 <= s < Count(key) ==> cells[1 + s] == Positions(key)[s]
  }

  class OperatorIndex {
    /** Bits of a key, and the value of the position type that marks an overflowed row. */
    const nBits: nat
    const overflowMark: nat
    const hashing: Hashing
    const inlineWidth: nat
    /** One run of `1 + inlineWidth` cells a row. */
    var rows: seq<seq<nat>>
    var overflow: map<nat, Key>
    var slots: seq<Slot>
    var count: nat
    /** The key every row stands for. */
    ghost var keys: seq<Key>

    ghost predicate RowOk(i: nat)
      reads `rows, `overflow, `keys
      requires i < |rows| && i < |keys|
    {
      && |keys[i]| == nBits && |rows[i]| == 1 + inlineWidth
      && if Count(keys[i]) > inlineWidth
         then rows[i][0] == overflowMark && i in overflow && overflow[i] == keys[i]
         else Inline(rows[i], keys[i]) && i !in overflow
    }

    ghost predicate RowsOk()
      reads `rows, `overflow, `keys
    {
      && 1 <= inlineWidth <= MAX_INLINE_POSITIONS && inlineWidth < overflowMark && nBits <= overflowMark
      && |rows| == |keys| < EMPTY
      && (forall i: nat :: i < |rows| ==> RowOk(i))
      && (forall i :: i in overflow ==> i < |rows|)
    }

    function FoldedHash(key: Key): nat { hashing.fold(hashing.full(key)) }

    /** The table is well formed, below its load limit, and its entries name rows by hash. */
    ghost predicate IndexOk()
      reads `slots, `count, `keys
    {
      && MIN_SLOTS <= |slots| && TableOk(hashing.spread, slots)
      && count == Used(slots) && 10 * count < 7 * |slots|
      && (forall s :: 0 <= s < |slots| && Taken(slots[s]) ==>
            slots[s].idx < |keys| && slots[s].hash == FoldedHash(keys[slots[s].idx]))
    }

    ghost predicate Valid()
      reads this
    {
      RowsOk() && IndexOk()
    }

    /** Row `r` can be found through the table. */
    ghost predicate Indexed(r: nat)
      reads `slots
    {
      HasRow(slots, r)
    }

    ghost predicate AllIndexed()
      reads this
    {
      forall r: nat :: r < |keys| ==> Indexed(r)
    }

    constructor (nBits: nat, overflowMark: nat, hashing: Hashing, inlineWidth: nat)
      requires nBits <= overflowMark && MAX_INLINE_POSITIONS < overflowMark
      ensures Valid() && AllIndexed() && keys == []
      ensures this.nBits == nBits && this.hashing == hashing && this.overflowMark == overflowMark
      ensures this.inlineWidth
        == (if inlineWidth < 1 then 1 else if inlineWidth > MAX_INLINE_POSITIONS then MAX_INLINE_POSITIONS
          else inlineWidth)
    {
      this.nBits, this.overflowMark, this.hashing := nBits, overflowMark, hashing;
      this.inlineWidth := if inlineWidth < 1 then 1 else if inlineWidth > MAX_INLINE_POSITIONS
        then MAX_INLINE_POSITIONS else inlineWidth;
      rows, overflow, count, keys := [], map[], 0, [];
      slots := seq(MIN_SLOTS, i => FREE);
      new;
      UsedFree(MIN_SLOTS);
    }

    function Len(): nat
      reads this
    {
      |rows|
    }

    /** Writes `mono` into row `i`, inline when it fits. */
    method Set(i: nat, mono: Key)
      requires RowsOk() && i < |rows| && |mono| == nBits
      modifies this
      ensures RowsOk() && keys == old(keys)[i := mono]
      ensures slots == old(slots) && count == old(count)
    {
      var c := CountOf(mono);
      assert RowOk(i);
      var cells: seq<nat> := rows[i];
      if c > inlineWidth {
        cells := cells[0 := overflowMark];
        rows := rows[i := cells];
        overflow := overflow[i := mono];
        keys := keys[i := mono];
        forall j: nat | j < |rows| ensures RowOk(j) {
          assert j != i ==> old(RowOk(j));
        }
        return;
      }
      overflow := overflow - {i};
      cells := cells[0 := c];
      var positions := PositionsOf(mono);
      var slot := 0;
      while slot < |positions|
        invariant slot <= |positions| && |cells| == 1 + inlineWidth && cells[0] == c
        invariant forall s :: 0 <= s < slot ==> cells[1 + s] == Positions(mono)[s]
      {
        cells := cells[1 + slot := positions[slot]];
        slot := slot + 1;
      }
      rows := rows[i := cells];
      keys := keys[i := mono];
      forall j: nat | j < |rows| ensures RowOk(j) {
        assert j != i ==> old(RowOk(j));
      }
    }

    /** Appends a row; refuses at the ceiling, before anything has changed. */
    method Push(mono: Key) returns (r: Option<nat>)
      requires Valid() && |mono| == nBits
      modifies this
      ensures Valid()
      ensures r.None? <==> |old(keys)| + 1 >= EMPTY
      ensures r.None? ==> keys == old(keys) && rows == old(rows) && overflow == old(overflow) && slots == old(slots)
      ensures r.Some? ==> r.value == |old(keys)| && keys == old(keys) + [mono] && slots == old(slots)
    {
      var i := |rows|;
      if i + 1 >= EMPTY {
        return None;
      }
      rows := rows + [seq(1 + inlineWidth, s => 0)];
      keys := keys + [Zero(nBits)];
      CountZeroFrom(nBits, 0);
      forall k: nat | k < |rows| ensures RowOk(k) {
        assert k < i ==> old(RowOk(k));
      }
      Set(i, mono);
      r := Some(i);
    }

    /** The number of set bits of a key. */
    static method CountOf(mono: Key) returns (c: nat)
      ensures c == Count(mono)
    {
      c := 0;
      var j: int := |mono|;
      while j > 0
        invariant 0 <= j <= |mono| && c == CountFrom(mono, j)
      {
        j := j - 1;
        if mono[j] {
          c := c + 1;
        }
      }
    }

    static method PositionsOf(mono: Key) returns (ps: seq<nat>)
      ensures ps == Positions(mono)
    {
      ps := [];
      var j: int := |mono|;
      while j > 0
        invariant 0 <= j <= |mono| && ps == PositionsFrom(mono, j)
      {
        j := j - 1;
        if mono[j] {
          ps := [j] + ps;
        }
      }
    }

    /** Reconstructs row `i`. Inline or overflowed, the caller sees the same key. */
    method Row(i: nat) returns (mono: Key)
      requires RowsOk() && i < |keys|
      ensures mono == keys[i]
    {
      assert RowOk(i);
      if rows[i][0] == overflowMark {
        return overflow[i];
      }
      var c := rows[i][0];
      mono := Zero(nBits);
      PositionsFromAre(keys[i], 0);
      var slot := 0;
      while slot < c
        invariant slot <= c && |mono| == nBits
        invariant forall p :: 0 <= p < nBits ==> (mono[p] <==> p in Positions(keys[i])[..slot])
      {
        assert rows[i][1 + slot] == Positions(keys[i])[slot];
        assert Positions(keys[i])[..slot + 1] == Positions(keys[i])[..slot] + [Positions(keys[i])[slot]];
        mono := mono[rows[i][1 + slot] := true];
        slot := slot + 1;
      }
      assert Positions(keys[i])[..c] == Positions(keys[i]);
    }

    /** The positions of row `i`, ascending. */
    method RowPositions(i: nat) returns (ps: seq<nat>)
      requires RowsOk() && i < |keys|
      ensures ps == Positions(keys[i])
    {
      assert RowOk(i);
      if rows[i][0] == overflowMark {
        ps := PositionsOf(overflow[i]);
        return;
      }
      ps := rows[i][1..1 + rows[i][0]];
    }

    /** Compares row `i` with `key` without reconstructing it. */
    method RowEq(i: nat, key: Key) returns (b: bool)
      requires RowsOk() && i < |keys| && |key| == nBits
      ensures b <==> keys[i] == key
    {
      assert RowOk(i);
      if rows[i][0] == overflowMark {
        return overflow[i] == key;
      }
      var c := rows[i][0];
      var n := CountOf(key);
      if n != c {
        return false;
      }
      PositionsFromAre(keys[i], 0);
      var slot := 0;
      while slot < c
        invariant slot <= c
        invariant forall s :: 0 <= s < slot ==> key[Positions(keys[i])[s]]
      {
        assert rows[i][1 + slot] == Positions(keys[i])[slot];
        if !key[rows[i][1 + slot]] {
          return false;
        }
        slot := slot + 1;
      }
      forall p | 0 <= p < nBits && keys[i][p] ensures key[p] {
        var t :| 0 <= t < |Positions(keys[i])| && Positions(keys[i])[t] == p;
      }
      SubsetOfSameCount(keys[i], key, 0);
      assert keys[i][0..] == keys[i] && key[0..] == key;
      b := true;
    }

    lemma NothingIndexed()
      requires Valid() && count == 0
      ensures forall i: nat :: i < |keys| ==> !Indexed(i)
    {
      UsedNone(slots);
    }

    /** The row holding `key`, among the rows the table knows. */
    method Find(key: Key) returns (r: Option<nat>)
      requires Valid() && |key| == nBits
      ensures r.Some? ==> r.value < |keys| && keys[r.value] == key && Indexed(r.value)
      ensures r.None? ==> forall i: nat :: i < |keys| && Indexed(i) ==> keys[i] != key
    {
      hide At, Dist, Home, RowsOk, Chained, DistinctRows, HasRow;
      if count == 0 {
        NothingIndexed();
        return None;
      }
      var h := FoldedHash(key);
      var n := |slots|;
      var home := Home(hashing.spread, h, n);
      var s := home;
      ghost var k := 0;
      FirstAt(home, n);
      ghost var free := FreeSlot(slots);
      ghost var d := Dist(home, free, n);
      while true
        invariant s < n && k <= d && s == At(home, k, n)
        invariant forall j: nat :: j < k ==> Taken(slots[At(home, j, n)]) && keys[slots[At(home, j, n)].idx] != key
        decreases d - k
      {
        var slot := slots[s];
        if slot.idx == EMPTY {
          AbsentAfterFree(key, k);
          return None;
        }
        if slot.hash == h {
          var same := RowEq(slot.idx, key);
          if same {
            HasItsRow(slots, s);
            return Some(slot.idx);
          }
        }
        NextAt(home, k, n);
        s := if s + 1 == n then 0 else s + 1;
        k := k + 1;
      }
    }

    /** Meeting a free slot on the probe path means the key is not in the table. */
    lemma AbsentAfterFree(key: Key, k: nat)
      requires Valid() && |key| == nBits && k < |slots|
      requires var home := Home(hashing.spread, FoldedHash(key), |slots|);
        && !Taken(slots[At(home, k, |slots|)])
        && forall j: nat :: j < k ==> Taken(slots[At(home, j, |slots|)]) && keys[slots[At(home, j, |slots|)].idx] != key
      ensures forall i: nat :: i < |keys| && Indexed(i) ==> keys[i] != key
    {
      var n, h := |slots|, FoldedHash(key);
      var home := Home(hashing.spread, h, n);
      forall s | 0 <= s < n && Taken(slots[s]) && slots[s].hash == h ensures keys[slots[s].idx] != key {
        var j, met := Dist(home, s, n), At(home, k, n);
        assert !Taken(slots[met]);
        assert j < k;
      }
      forall i: nat | i < |keys| && Indexed(i) ensures keys[i] != key {
        var s :| 0 <= s < n && slots[s].idx == i;
        assert slots[s].hash == FoldedHash(keys[i]);
      }
    }

    /** Indexes a row whose key the table does not hold, with the key's hash already known. */
    method InsertAbsent(row: nat, full: nat)
      requires Valid() && row < |keys| && !Indexed(row) && full == hashing.full(keys[row])
      modifies this`slots, this`count
      ensures Valid() && count == old(count) + 1
      ensures forall r: nat :: r < |keys| ==> (Indexed(r) <==> old(Indexed(r)) || r == row)
    {
      var e := Slot(row, hashing.fold(full));
      RehashIfNeeded();
      ghost var before := slots;
      SameEntries(old(slots), before);
      NoRow(before, row);
      slots := Place(hashing.spread, slots, e);
      count := count + 1;
      EntriesStay(before, slots, e);
      SameRows(before, slots, e);
    }

    /** Where the probe for `key` ends: at the entry that holds it, or at the free slot that shows it absent. */
    method ProbeFor(key: Key) returns (found: bool, s: nat, ghost k: nat)
      requires Valid() && |key| == nBits
      ensures s < |slots| && k == Dist(Home(hashing.spread, FoldedHash(key), |slots|), s, |slots|)
      ensures found ==> Taken(slots[s]) && keys[slots[s].idx] == key
      ensures !found ==> !Taken(slots[s]) && forall i: nat :: i < |keys| && Indexed(i) ==> keys[i] != key
      ensures !found ==>
        forall j: nat :: j < k ==> Taken(slots[At(Home(hashing.spread, FoldedHash(key), |slots|), j, |slots|)])
    {
      hide At, Dist, Home, RowsOk, Chained, DistinctRows, HasRow;
      var h := FoldedHash(key);
      var n := |slots|;
      var home := Home(hashing.spread, h, n);
      s, k := home, 0;
      FirstAt(home, n);
      ghost var free := FreeSlot(slots);
      ghost var d := Dist(home, free, n);
      while slots[s].idx != EMPTY
        invariant s < n && k <= d && s == At(home, k, n)
        invariant forall j: nat :: j < k ==> Taken(slots[At(home, j, n)]) && keys[slots[At(home, j, n)].idx] != key
        decreases d - k
      {
        if slots[s].hash == h {
          var same := RowEq(slots[s].idx, key);
          if same {
            DistAt(home, k, n);
            return true, s, k;
          }
        }
        NextAt(home, k, n);
        s := if s + 1 == n then 0 else s + 1;
        k := k + 1;
      }
      AbsentAfterFree(key, k);
      DistAt(home, k, n);
      found := false;
    }

    /** Indexes a row unless its key is indexed already. */
    method Insert(key: Key, row: nat)
      requires Valid() && row < |keys| && keys[row] == key
      modifies this`slots, this`count
      ensures Valid()
      ensures forall r: nat :: r < |keys| ==>
        (Indexed(r) <==>
          old(Indexed(r)) || (r == row && forall i: nat :: i < |keys| && old(Indexed(i)) ==> keys[i] != key))
    {
      hide TableOk, Used, RowsOk, HasRow;
      RowWidth(row);
      RehashIfNeeded();
      SameEntries(old(slots), slots);
      ghost var before := slots;
      var found, s;
      ghost var k;
      found, s, k := ProbeFor(key);
      if found {
        HasItsRow(before, s);
      } else {
        var e := Slot(row, FoldedHash(key));
        NoRow(before, row);
        Filled(hashing.spread, slots, s, e, k);
        slots := slots[s := e];
        count := count + 1;
        EntriesStay(before, slots, e);
        SameRows(before, slots, e);
      }
    }

    lemma RowWidth(i: nat)
      requires Valid() && i < |keys|
      ensures |keys[i]| == nBits && |keys| < EMPTY
    {
      assert RowOk(i);
    }

    /** What holds of every entry of a table holds after adding one more such entry. */
    lemma EntriesStay(before: seq<Slot>, after: seq<Slot>, e: Slot)
      requires forall x: Slot :: Taken(x) ==> (x in after <==> x in before || x == e)
      requires e.idx < |keys| && e.hash == FoldedHash(keys[e.idx])
      requires forall s :: 0 <= s < |before| && Taken(before[s]) ==>
        before[s].idx < |keys| && before[s].hash == FoldedHash(keys[before[s].idx])
      ensures forall s :: 0 <= s < |after| && Taken(after[s]) ==>
        after[s].idx < |keys| && after[s].hash == FoldedHash(keys[after[s].idx])
    {
      forall s | 0 <= s < |after| && Taken(after[s])
        ensures after[s].idx < |keys| && after[s].hash == FoldedHash(keys[after[s].idx])
      {
        var x := after[s];
        assert x in after;
        if x != e {
          var t :| 0 <= t < |before| && before[t] == x;
        }
      }
    }

    /** Grows the table before an insert would reach the load limit. */
    method RehashIfNeeded()
      requires Valid()
      modifies this`slots
      ensures Valid() && 10 * (count + 1) < 7 * |slots|
      ensures forall x: Slot :: Taken(x) ==> (x in slots <==> x in old(slots))
    {
      if 10 * (count + 1) >= 7 * |slots| {
        RehashTo(2 * |slots|);
      }
    }

    /** Moves every entry to a table of `cap` slots, rounded up; shrinks only an empty table. */
    method RehashTo(cap: nat)
      requires Valid()
      modifies this`slots
      ensures Valid() && (count > 0 ==> |slots| >= |old(slots)|) && (count > 0 || |slots| >= MIN_SLOTS)
      ensures |slots| >= cap || (count > 0 && |old(slots)| >= cap)
      ensures forall x: Slot :: Taken(x) ==> (x in slots <==> x in old(slots))
    {
      var newCap := NextPowerOfTwo(1, if cap < MIN_SLOTS then MIN_SLOTS else cap);
      if newCap <= |slots| && count > 0 {
        return;
      }
      ghost var before := slots;
      slots := Rebuild(hashing.spread, slots, newCap);
      MovedEntries(before, slots);
    }

    lemma MovedEntries(before: seq<Slot>, after: seq<Slot>)
      requires forall x: Slot :: Taken(x) ==> (x in after <==> x in before)
      requires forall s :: 0 <= s < |before| && Taken(before[s]) ==>
        before[s].idx < |keys| && before[s].hash == FoldedHash(keys[before[s].idx])
      ensures forall s :: 0 <= s < |after| && Taken(after[s]) ==>
        after[s].idx < |keys| && after[s].hash == FoldedHash(keys[after[s].idx])
    {
      forall s | 0 <= s < |after| && Taken(after[s])
        ensures after[s].idx < |keys| && after[s].hash == FoldedHash(keys[after[s].idx])
      {
        assert after[s] in after;
        var t :| 0 <= t < |before| && before[t] == after[s];
      }
    }

    /** Reserves index room for `n` rows; nothing that can be observed changes. */
    method Reserve(n: nat)
      requires Valid()
      modifies this`slots
      ensures Valid()
      ensures forall r: nat :: r < |keys| ==> (Indexed(r) <==> old(Indexed(r)))
    {
      RehashTo(NextPowerOfTwo(1, if (n + 1) * 10 / 7 + 1 < MIN_SLOTS then MIN_SLOTS else (n + 1) * 10 / 7 + 1));
      SameEntries(old(slots), slots);
    }
  }

  lemma HasItsRow(slots: seq<Slot>, s: nat)
    requires s < |slots|
    ensures HasRow(slots, slots[s].idx)
  {
  }

  lemma NoRow(slots: seq<Slot>, r: nat)
    requires !HasRow(slots, r)
    ensures forall s :: 0 <= s < |slots| ==> slots[s].idx != r
  {
  }

  /** Adding one entry adds its row and no other. */
  lemma SameRows(before: seq<Slot>, after: seq<Slot>, e: Slot)
    requires forall x: Slot :: Taken(x) ==> (x in after <==> x in before || x == e)
    requires Taken(e)
    ensures forall r: nat :: r < EMPTY ==> (HasRow(after, r) <==> HasRow(before, r) || r == e.idx)
  {
    forall r: nat | r < EMPTY ensures HasRow(after, r) <==> HasRow(before, r) || r == e.idx {
      if HasRow(after, r) {
        var s :| 0 <= s < |after| && after[s].idx == r;
        assert after[s] in after;
        if after[s] != e {
          var t :| 0 <= t < |before| && before[t] == after[s];
        }
      }
      if HasRow(before, r) {
        var s :| 0 <= s < |before| && before[s].idx == r;
        assert before[s] in before;
        var t :| 0 <= t < |after| && after[t] == before[s];
      }
      if r == e.idx {
        assert e in after;
        var t :| 0 <= t < |after| && after[t] == e;
      }
    }
  }

  lemma SameEntries(before: seq<Slot>, after: seq<Slot>)
    requires forall x: Slot :: Taken(x) ==> (x in after <==> x in before)
    ensures forall r: nat :: r < EMPTY ==> (HasRow(after, r) <==> HasRow(before, r))
  {
    forall r: nat | r < EMPTY ensures HasRow(after, r) <==> HasRow(before, r) {
      if HasRow(after, r) {
        var s :| 0 <= s < |after| && after[s].idx == r;
        assert after[s] in after;
        var t :| 0 <= t < |before| && before[t] == after[s];
      }
      if HasRow(before, r) {
        var s :| 0 <= s < |before| && before[s].idx == r;
        assert before[s] in before;
        var t :| 0 <= t < |after| && after[t] == before[s];
      }
    }
  }
}
