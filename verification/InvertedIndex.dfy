/**
 The transposed key storage behind the scan: one column a bit position, sparse until enough
 rows touch it and a full-height bitmap from then on. XOR-ing the columns of a generator
 gives, for every row at once, whether it anticommutes with that generator.
 */
module InvertedIndexes {
  import opened BasisStrings
  import opened BasisAlgebra
  import opened BitPositions
  import opened OperatorIndexes

  /** A column is promoted once at least one row in this many touches it. */
  const PROMOTE_DENSITY_INV := 64

  datatype Column = Dense(bits: seq<bool>) | Sparse(rows: seq<nat>)

  /** Bits of a full-height bitmap: whole words of 64. */
  function Height(rows: nat): (h: nat)
    ensures rows <= h
  {
    64 * ((rows + 63) / 64)
  }

  lemma HeightGrows(a: nat, b: nat)
    requires a <= b
    ensures Height(a) <= Height(b)
  {
  }

  predicate Ascending(rows: seq<nat>)
  {
    forall i, j :: 0 <= i < j < |rows| ==> rows[i] < rows[j]
  }

  /** Row `r` is below `upto` and its key has bit `c`. */
  predicate Touches(keys: seq<Key>, upto: nat, c: nat, r: nat)
    requires upto <= |keys|
  {
    r < upto && c < |keys[r]| && keys[r][c]
  }

  /** The column says exactly which of the first `upto` rows have bit `c`, and nothing past them. */
  ghost predicate ColumnOk(col: Column, keys: seq<Key>, upto: nat, c: nat, height: nat)
    requires upto <= |keys|
  {
    match col
    case Dense(bits) => |bits| == height && forall r: nat :: r < height ==> bits[r] == Touches(keys, upto, c, r)
    case Sparse(rows) =>
      && Ascending(rows)
      && (forall r: nat :: r in rows ==> Touches(keys, upto, c, r))
      && (forall r: nat :: Touches(keys, upto, c, r) ==> r in rows)
  }

  ghost predicate ParityOk(parity: seq<bool>, keys: seq<Key>, upto: nat, height: nat)
    requires upto <= |keys|
  {
    |parity| == height && forall r: nat :: r < height ==> parity[r] == (r < upto && Odd(Count(keys[r])))
  }

  /** Parity of the selected positions set in `key`, among the first `i` selected. */
  function Selected(ps: seq<nat>, i: nat, key: Key): bool
    requires i <= |ps|
  {
    if i == 0 then false else Selected(ps, i - 1, key) != (ps[i - 1] < |key| && key[ps[i - 1]])
  }

  lemma {:induction false} SelectedTail(ps: seq<nat>, i: nat, key: Key)
    requires 0 < i <= |ps|
    ensures Selected(ps, i, key) == ((ps[0] < |key| && key[ps[0]]) != Selected(ps[1..], i - 1, key))
  {
    if i > 1 {
      SelectedTail(ps, i - 1, key);
    }
  }

  lemma {:induction false} SelectedPositions(g: Key, key: Key, j: nat)
    requires |g| == |key| && j <= |g|
    ensures Selected(PositionsFrom(g, j), |PositionsFrom(g, j)|, key) == Odd(CountAndFrom(key, g, j))
    decreases |g| - j
  {
    if j < |g| {
      SelectedPositions(g, key, j + 1);
      if g[j] {
        var ps := PositionsFrom(g, j);
        SelectedTail(ps, |ps|, key);
        assert ps[1..] == PositionsFrom(g, j + 1);
      }
    }
  }

  /** The set bits of a bitmap below `n`, ascending. */
  function SetRows(bitmap: seq<bool>, n: nat): seq<nat>
    requires n <= |bitmap|
  {
    if n == 0 then [] else if bitmap[n - 1] then SetRows(bitmap, n - 1) + [n - 1] else SetRows(bitmap, n - 1)
  }

  method ForEachSetBit(bitmap: seq<bool>) returns (rows: seq<nat>)
    ensures rows == SetRows(bitmap, |bitmap|)
  {
    rows := [];
    var r := 0;
    while r < |bitmap|
      invariant r <= |bitmap| && rows == SetRows(bitmap, r)
    {
      if bitmap[r] {
        rows := rows + [r];
      }
      r := r + 1;
    }
  }

  /** The string whose columns a generator XORs. */
  function FoldGenerator(kind: BasisKind, g: Key): (r: Key)
    requires |g| % 2 == 0
    ensures |r| == |g|
  {
    match kind
    case Pauli => PairSwap(g)
    case Majorana => g
  }

  predicate NeedsRowParity(kind: BasisKind, g: Key)
  {
    kind == Majorana && Odd(Count(g))
  }

  /** The folded columns, with the row parity of an odd Majorana generator, decide anticommutation. */
  lemma FoldIsAnticommutation(kind: BasisKind, g: Key, key: Key)
    requires |g| == |key| && |g| % 2 == 0
    ensures Anticommutes(kind, g, key)
         == (Odd(CountAnd(key, FoldGenerator(kind, g))) != (NeedsRowParity(kind, g) && Odd(Count(key))))
  {
    OddSum(if Odd(Count(g)) then Count(key) else 0, CountAnd(key, g));
  }

  // ---- one column ---------------------------------------------------------------

  function Resized(col: Column, height: nat): Column
  {
    match col
    case Dense(bits) => if |bits| <= height then Dense(bits + seq(height - |bits|, i => false)) else col
    case Sparse(_) => col
  }

  function AddRow(col: Column, r: nat): Column
  {
    match col
    case Dense(bits) => if r < |bits| then Dense(bits[r := true]) else col
    case Sparse(rows) => Sparse(rows + [r])
  }

  lemma ResizedOk(col: Column, keys: seq<Key>, upto: nat, c: nat, height: nat, taller: nat)
    requires upto <= |keys| && upto <= height <= taller && ColumnOk(col, keys, upto, c, height)
    ensures ColumnOk(Resized(col, taller), keys, upto, c, taller)
  {
  }

  lemma AddRowOk(col: Column, keys: seq<Key>, r: nat, c: nat, height: nat)
    requires r < |keys| && r < height && ColumnOk(col, keys, r, c, height) && c < |keys[r]| && keys[r][c]
    ensures ColumnOk(AddRow(col, r), keys, r + 1, c, height)
  {
    if col.Sparse? {
      var rows := col.rows + [r];
      assert forall x: nat :: x in rows <==> x in col.rows || x == r;
      forall x: nat ensures Touches(keys, r + 1, c, x) <==> Touches(keys, r, c, x) || x == r {
      }
      forall i, j | 0 <= i < j < |rows| ensures rows[i] < rows[j] {
        assert rows[i] in col.rows;
      }
    }
  }

  lemma SkipRowOk(col: Column, keys: seq<Key>, r: nat, c: nat, height: nat)
    requires r < |keys| && ColumnOk(col, keys, r, c, height) && !(c < |keys[r]| && keys[r][c])
    ensures ColumnOk(col, keys, r + 1, c, height)
  {
    assert forall x: nat :: Touches(keys, r + 1, c, x) <==> Touches(keys, r, c, x);
  }

  /** Rewrites a sparse column as a full-height bitmap. */
  method Promote(col: Column, ghost keys: seq<Key>, ghost upto: nat, ghost c: nat, height: nat) returns (r: Column)
    requires upto <= |keys| && upto <= height && ColumnOk(col, keys, upto, c, height)
    ensures ColumnOk(r, keys, upto, c, height)
    ensures r.Dense?
  {
    match col
    case Dense(_) => r := col;
    case Sparse(rows) =>
      var bits := seq(height, i => false);
      var i := 0;
      while i < |rows|
        invariant i <= |rows| && |bits| == height
        invariant forall x: nat :: x < height ==> bits[x] == (x in rows[..i])
      {
        assert rows[i] in rows;
        assert rows[..i + 1] == rows[..i] + [rows[i]];
        bits := bits[rows[i] := true];
        i := i + 1;
      }
      assert rows[..i] == rows;
      r := Dense(bits);
  }

  class InvertedIndex {
    var columns: seq<Column>
    var rowCount: nat
    var rowParity: seq<bool>

    /** The first `rowCount` keys are indexed, column by column and in the row parity. */
    ghost predicate Indexes(keys: seq<Key>)
      reads this
    {
      rowCount <= |keys| && ColumnsOk(columns, keys, rowCount, Height(rowCount))
        && ParityOk(rowParity, keys, rowCount, Height(rowCount))
    }

    constructor (nColumns: nat)
      ensures rowCount == 0 && |columns| == nColumns
      ensures forall keys: seq<Key> :: Indexes(keys)
    {
      columns := seq(nColumns, c => Sparse([]));
      rowCount, rowParity := 0, [];
    }

    /** Drops every indexed row, keeping the column set. */
    method Reset()
      modifies this
      ensures rowCount == 0 && |columns| == |old(columns)|
      ensures forall keys: seq<Key> :: Indexes(keys)
    {
      columns := seq(|columns|, c => Sparse([]));
      rowCount, rowParity := 0, [];
    }

    /** Brings the index up to date with an append-only store. */
    method SyncTo(store: OperatorIndex)
      requires store.Valid() && Indexes(store.keys) && |columns| == store.nBits
      modifies this
      ensures Indexes(store.keys) && rowCount == |store.keys| && |columns| == |old(columns)|
    {
      var total := store.Len();
      if total <= rowCount {
        return;
      }
      var base := rowCount;
      var height := Height(total);
      ghost var keys := store.keys;
      HeightGrows(base, total);
      ResizeColumns(keys, height);
      rowParity := rowParity + seq(height - |rowParity|, i => false);
      rowCount := total;
      var r := base;
      while r < total
        invariant base <= r <= total && |columns| == store.nBits && rowCount == total
        invariant ColumnsOk(columns, keys, r, height) && ParityOk(rowParity, keys, r, height)
      {
        assert store.RowOk(r);
        var positions := store.RowPositions(r);
        IndexRow(keys, r, positions, height);
        if |positions| % 2 == 1 {
          rowParity := rowParity[r := true];
        }
        r := r + 1;
      }
      PromoteColumns(keys, height);
    }

    method ResizeColumns(ghost keys: seq<Key>, height: nat)
      requires Indexes(keys) && Height(rowCount) <= height
      modifies `columns
      ensures |columns| == |old(columns)| && ColumnsOk(columns, keys, rowCount, height)
    {
      var c := 0;
      while c < |columns|
        invariant c <= |columns| == |old(columns)|
        invariant forall i: nat :: i < c ==> ColumnOk(columns[i], keys, rowCount, i, height)
        invariant forall i: nat :: c <= i < |columns| ==> ColumnOk(columns[i], keys, rowCount, i, Height(rowCount))
      {
        ResizedOk(columns[c], keys, rowCount, c, Height(rowCount), height);
        columns := columns[c := Resized(columns[c], height)];
        c := c + 1;
      }
    }

    /** Enters row `r` in the column of each of its positions. */
    method IndexRow(ghost keys: seq<Key>, r: nat, positions: seq<nat>, height: nat)
      requires r < |keys| && r < height && ColumnsOk(columns, keys, r, height)
      requires positions == Positions(keys[r]) && |keys[r]| == |columns|
      modifies `columns
      ensures |columns| == |old(columns)| && ColumnsOk(columns, keys, r + 1, height)
    {
      PositionsFromAre(keys[r], 0);
      PositionsAscend(keys[r], 0);
      var i := 0;
      while i < |positions|
        invariant i <= |positions| && |columns| == |old(columns)|
        invariant forall c: nat :: c < |columns| ==>
          ColumnOk(columns[c], keys, if c in positions[..i] then r + 1 else r, c, height)
      {
        var pos := positions[i];
        assert positions[..i + 1] == positions[..i] + [pos];
        assert pos !in positions[..i];
        AddRowOk(columns[pos], keys, r, pos, height);
        columns := columns[pos := AddRow(columns[pos], r)];
        i := i + 1;
      }
      assert positions[..i] == positions;
      forall c: nat | c < |columns| ensures ColumnOk(columns[c], keys, r + 1, c, height) {
        if c !in positions {
          SkipRowOk(columns[c], keys, r, c, height);
        }
      }
    }

    /** Promotes every sparse column that enough rows touch. */
    method PromoteColumns(ghost keys: seq<Key>, height: nat)
      requires rowCount <= |keys| && rowCount <= height && ColumnsOk(columns, keys, rowCount, height)
      modifies `columns
      ensures |columns| == |old(columns)| && ColumnsOk(columns, keys, rowCount, height)
    {
      var c := 0;
      while c < |columns|
        invariant c <= |columns| == |old(columns)| && ColumnsOk(columns, keys, rowCount, height)
      {
        if columns[c].Sparse? && |columns[c].rows| * PROMOTE_DENSITY_INV >= rowCount {
          var dense := Promote(columns[c], keys, rowCount, c, height);
          columns := columns[c := dense];
        }
        c := c + 1;
      }
    }

    /** XORs the named columns: one parity bit a row, and none past the last row. */
    method Combine(ps: seq<nat>, ghost keys: seq<Key>) returns (out: seq<bool>)
      requires Indexes(keys) && forall i :: 0 <= i < |ps| ==> ps[i] < |columns|
      requires forall r :: 0 <= r < rowCount ==> |keys[r]| == |columns|
      ensures |out| == Height(rowCount)
      ensures forall r: nat :: r < |out| ==> out[r] == (r < rowCount && Selected(ps, |ps|, keys[r]))
    {
      var height := Height(rowCount);
      out := seq(height, i => false);
      var i := 0;
      while i < |ps|
        invariant i <= |ps| && |out| == height
        invariant forall r: nat :: r < height ==> out[r] == (r < rowCount && Selected(ps, i, keys[r]))
      {
        ghost var before := out;
        assert ColumnOk(columns[ps[i]], keys, rowCount, ps[i], height);
        out := XorColumn(out, columns[ps[i]], keys, rowCount, ps[i]);
        i := i + 1;
      }
    }

    /** XORs the row parity in, for a generator of odd length. */
    method ApplyRowParity(bitmap: seq<bool>, ghost keys: seq<Key>) returns (out: seq<bool>)
      requires Indexes(keys) && |bitmap| == Height(rowCount)
      ensures |out| == |bitmap|
      ensures forall r: nat :: r < |out| ==> out[r] == (bitmap[r] != (r < rowCount && Odd(Count(keys[r]))))
    {
      out := bitmap;
      var r := 0;
      while r < |out|
        invariant r <= |out| == |bitmap|
        invariant forall x: nat :: x < |out| ==>
          out[x] == if x < r then bitmap[x] != (x < rowCount && Odd(Count(keys[x]))) else bitmap[x]
      {
        out := out[r := out[r] != rowParity[r]];
        r := r + 1;
      }
    }
  }

  ghost predicate ColumnsOk(columns: seq<Column>, keys: seq<Key>, upto: nat, height: nat)
    requires upto <= |keys|
  {
    forall c: nat :: c < |columns| ==> ColumnOk(columns[c], keys, upto, c, height)
  }

  /** Appending rows to the store leaves what is indexed right. */
  lemma ColumnsOkMore(columns: seq<Column>, parity: seq<bool>, keys: seq<Key>, more: seq<Key>, upto: nat, height: nat)
    requires upto <= |keys| && keys <= more
    requires ColumnsOk(columns, keys, upto, height) && ParityOk(parity, keys, upto, height)
    ensures ColumnsOk(columns, more, upto, height) && ParityOk(parity, more, upto, height)
  {
    assert forall c: nat, r: nat :: Touches(more, upto, c, r) == Touches(keys, upto, c, r);
    forall c: nat | c < |columns| ensures ColumnOk(columns[c], more, upto, c, height) {
      assert ColumnOk(columns[c], keys, upto, c, height);
    }
  }

  method XorColumn(bitmap: seq<bool>, col: Column, ghost keys: seq<Key>, ghost upto: nat, ghost c: nat)
      returns (out: seq<bool>)
    requires upto <= |keys| && upto <= |bitmap| && ColumnOk(col, keys, upto, c, |bitmap|)
    ensures |out| == |bitmap|
    ensures forall r: nat :: r < |out| ==> out[r] == (bitmap[r] != Touches(keys, upto, c, r))
  {
    out := bitmap;
    match col
    case Dense(bits) =>
      var r := 0;
      while r < |out|
        invariant r <= |out| == |bitmap|
        invariant forall x: nat :: x < |out| ==> out[x] == if x < r then bitmap[x] != bits[x] else bitmap[x]
      {
        out := out[r := out[r] != bits[r]];
        r := r + 1;
      }
    case Sparse(rows) =>
      var i := 0;
      while i < |rows|
        invariant i <= |rows| && |out| == |bitmap|
        invariant forall x: nat :: x < |out| ==> out[x] == (bitmap[x] != (x in rows[..i]))
      {
        assert rows[i] in rows;
        assert rows[..i + 1] == rows[..i] + [rows[i]];
        assert rows[i] !in rows[..i];
        out := out[rows[i] := !out[rows[i]]];
        i := i + 1;
      }
      assert rows[..i] == rows;
  }
}
