/**
 Compiled models as bytes: the tape in shards, the terms in shards, and the file around them.
 Everything is little-endian. Compression is any packing that can be undone, and a float is
 stored as its 64 bits.
 */
module ModelFiles {
  import opened Wrappers
  import opened CompiledTapes
  import SurrogateModels

  type Byte = x: nat | x < 256

  type Bytes = seq<Byte>

  const U32_END: nat := 0x1_0000_0000
  const U64_END: nat := 0x1_0000_0000_0000_0000

  /** The bits a float is stored as. */
  datatype Floats = Floats(bits: real -> nat, value: nat -> real)

  predicate FloatOk(f: Floats, c: real) { f.bits(c) < U64_END && f.value(f.bits(c)) == c }

  // ---- numbers ------------------------------------------------------------------

  function LeBytes(v: nat, n: nat): (r: Bytes)
    ensures |r| == n
  {
    if n == 0 then [] else [v % 256] + LeBytes(v / 256, n - 1)
  }

  function FromLe(b: Bytes): nat { if b == [] then 0 else b[0] + 256 * FromLe(b[1..]) }

  function Pow256(n: nat): nat { if n == 0 then 1 else 256 * Pow256(n - 1) }

  lemma {:induction false} LeRoundTrip(v: nat, n: nat)
    requires v < Pow256(n)
    ensures FromLe(LeBytes(v, n)) == v
  {
    if n != 0 {
      LeRoundTrip(v / 256, n - 1);
      assert LeBytes(v, n)[1..] == LeBytes(v / 256, n - 1);
    }
  }

  function U64(v: nat): (r: Bytes) ensures |r| == 8 { LeBytes(v, 8) }

  function U32(v: nat): (r: Bytes) ensures |r| == 4 { LeBytes(v, 4) }

  lemma Words(v: nat)
    ensures v < U64_END ==> FromLe(U64(v)) == v
    ensures v < U32_END ==> FromLe(U32(v)) == v
  {
    assert Pow256(4) == U32_END by {
      assert Pow256(2) == 0x1_0000;
    }
    assert Pow256(8) == U64_END by {
      assert Pow256(6) == 0x1_0000_0000_0000;
    }
    if v < U64_END {
      LeRoundTrip(v, 8);
    }
    if v < U32_END {
      LeRoundTrip(v, 4);
    }
  }

  // ---- reading ------------------------------------------------------------------

  /** What was read and where reading stopped, or bytes that cannot be read. */
  datatype Read<T> = Got(value: T, pos: nat) | Unreadable

  /** The bytes stand at `pos`. */
  predicate At(b: Bytes, pos: nat, s: Bytes) { pos + |s| <= |b| && b[pos..pos + |s|] == s }

  lemma AtSplit(b: Bytes, pos: nat, s: Bytes, t: Bytes)
    requires At(b, pos, s + t)
    ensures At(b, pos, s) && At(b, pos + |s|, t)
  {
    assert b[pos..pos + |s|] == b[pos..pos + |s + t|][..|s|];
    assert b[pos + |s|..pos + |s| + |t|] == b[pos..pos + |s + t|][|s|..];
  }

  function ReadU64(b: Bytes, pos: nat): Read<nat>
  {
    if pos + 8 <= |b| then Got(FromLe(b[pos..pos + 8]), pos + 8) else Unreadable
  }

  function ReadU32(b: Bytes, pos: nat): Read<nat>
  {
    if pos + 4 <= |b| then Got(FromLe(b[pos..pos + 4]), pos + 4) else Unreadable
  }

  function ReadF64(f: Floats, b: Bytes, pos: nat): Read<real>
  {
    var r := ReadU64(b, pos);
    if r.Got? then Got(f.value(r.value), r.pos) else Unreadable
  }

  lemma WordsRead(b: Bytes, pos: nat, v: nat)
    ensures v < U64_END && At(b, pos, U64(v)) ==> ReadU64(b, pos) == Got(v, pos + 8)
    ensures v < U32_END && At(b, pos, U32(v)) ==> ReadU32(b, pos) == Got(v, pos + 4)
  {
    hide U64, U32, FromLe;
    Words(v);
  }

  // ---- a tape -------------------------------------------------------------------

  function OpBytes(f: Floats, op: Op): Bytes
  {
    match op
    case OpScalar(c) => [0] + U64(f.bits(c))
    case OpAdd(a, b) => [1] + (U64(a) + U64(b))
    case OpScale(k, a) => [2] + (U64(f.bits(k)) + U64(a))
    case OpCos(p, a) => [3] + (U32(p) + U64(a))
    case OpSin(p, a) => [4] + (U32(p) + U64(a))
  }

  function OpsBytes(f: Floats, ops: Tape): Bytes
  {
    if ops == [] then [] else OpsBytes(f, ops[..|ops| - 1]) + OpBytes(f, ops[|ops| - 1])
  }

  function TapeBytes(f: Floats, ops: Tape): Bytes { U64(|ops|) + OpsBytes(f, ops) }

  /** The operation's indices, parameters and constants fit the widths they are stored in. */
  predicate Storable(f: Floats, op: Op)
  {
    match op
    case OpScalar(c) => FloatOk(f, c)
    case OpAdd(a, b) => a < U64_END && b < U64_END
    case OpScale(k, a) => FloatOk(f, k) && a < U64_END
    case OpCos(p, a) => p < U32_END && a < U64_END
    case OpSin(p, a) => p < U32_END && a < U64_END
  }

  predicate AllStorable(f: Floats, ops: Tape) { |ops| < U64_END && forall i :: 0 <= i < |ops| ==> Storable(f, ops[i]) }

  lemma PushedOne(buf: Bytes, tag: Bytes, x: Bytes)
    ensures buf + tag + x == buf + (tag + x)
  {
  }

  lemma PushedTwo(buf: Bytes, tag: Bytes, x: Bytes, y: Bytes)
    ensures buf + tag + x + y == buf + (tag + (x + y))
  {
  }

  /** Appends one operation: its tag, then its operands. */
  method SerializeOp(f: Floats, op: Op, buf: Bytes) returns (buf': Bytes)
    ensures buf' == buf + OpBytes(f, op)
  {
    hide U64, U32;
    match op {
      case OpScalar(c) =>
        buf' := buf + [0];
        buf' := buf' + U64(f.bits(c));
        PushedOne(buf, [0], U64(f.bits(c)));
      case OpAdd(a, b) =>
        buf' := buf + [1];
        buf' := buf' + U64(a);
        buf' := buf' + U64(b);
        PushedTwo(buf, [1], U64(a), U64(b));
      case OpScale(k, a) =>
        buf' := buf + [2];
        buf' := buf' + U64(f.bits(k));
        buf' := buf' + U64(a);
        PushedTwo(buf, [2], U64(f.bits(k)), U64(a));
      case OpCos(p, a) =>
        buf' := buf + [3];
        buf' := buf' + U32(p);
        buf' := buf' + U64(a);
        PushedTwo(buf, [3], U32(p), U64(a));
      case OpSin(p, a) =>
        buf' := buf + [4];
        buf' := buf' + U32(p);
        buf' := buf' + U64(a);
        PushedTwo(buf, [4], U32(p), U64(a));
    }
  }

  /** Appends the tape to the buffer. */
  method SerializeOps(f: Floats, ops: Tape, buf: Bytes) returns (buf': Bytes)
    ensures buf' == buf + TapeBytes(f, ops)
  {
    hide U64, OpBytes;
    ghost var head := buf + U64(|ops|);
    buf' := buf + U64(|ops|);
    for i := 0 to |ops|
      invariant buf' == head + OpsBytes(f, ops[..i])
    {
      assert ops[..i + 1][..i] == ops[..i];
      buf' := SerializeOp(f, ops[i], buf');
    }
    assert ops[..|ops|] == ops;
  }

  function ReadOp(f: Floats, b: Bytes, pos: nat): Read<Op>
  {
    if pos >= |b| then Unreadable
    else if b[pos] == 0 then
      var c := ReadF64(f, b, pos + 1);
      if c.Got? then Got(OpScalar(c.value), c.pos) else Unreadable
    else if b[pos] == 1 then
      var x := ReadU64(b, pos + 1);
      if x.Unreadable? then Unreadable
      else
        var y := ReadU64(b, x.pos);
        if y.Got? then Got(OpAdd(x.value, y.value), y.pos) else Unreadable
    else if b[pos] == 2 then
      var k := ReadF64(f, b, pos + 1);
      if k.Unreadable? then Unreadable
      else
        var x := ReadU64(b, k.pos);
        if x.Got? then Got(OpScale(k.value, x.value), x.pos) else Unreadable
    else if b[pos] == 3 || b[pos] == 4 then
      var p := ReadU32(b, pos + 1);
      if p.Unreadable? then Unreadable
      else
        var x := ReadU64(b, p.pos);
        if x.Unreadable? then Unreadable
        else Got(if b[pos] == 3 then OpCos(p.value, x.value) else OpSin(p.value, x.value), x.pos)
    else Unreadable
  }

  /** Reads `n` operations. */
  function ReadOps(f: Floats, b: Bytes, pos: nat, n: nat): Read<Tape>
  {
    if n == 0 then Got([], pos)
    else
      var front := ReadOps(f, b, pos, n - 1);
      if front.Unreadable? then Unreadable
      else
        var op := ReadOp(f, b, front.pos);
        if op.Unreadable? then Unreadable else Got(front.value + [op.value], op.pos)
  }

  function ReadTape(f: Floats, b: Bytes, pos: nat): Read<Tape>
  {
    var n := ReadU64(b, pos);
    if n.Unreadable? then Unreadable else ReadOps(f, b, n.pos, n.value)
  }

  /** Reading that fails on some operation fails. */
  lemma {:induction false} ReadOpsFails(f: Floats, b: Bytes, pos: nat, i: nat, n: nat)
    requires i <= n && ReadOps(f, b, pos, i).Unreadable?
    ensures ReadOps(f, b, pos, n).Unreadable?
    decreases n
  {
    if i < n {
      ReadOpsFails(f, b, pos, i, n - 1);
    }
  }

  /** Reads a tape, giving up at the first operation that cannot be read. */
  method DeserializeOps(f: Floats, b: Bytes, pos: nat) returns (r: Read<Tape>)
    ensures r == ReadTape(f, b, pos)
  {
    hide ReadOp;
    var n := ReadU64(b, pos);
    if n.Unreadable? {
      return Unreadable;
    }
    var ops, at := [], n.pos;
    for i := 0 to n.value
      invariant ReadOps(f, b, n.pos, i) == Got(ops, at)
    {
      var op := ReadOp(f, b, at);
      if op.Unreadable? {
        ReadOpsFails(f, b, n.pos, i + 1, n.value);
        return Unreadable;
      }
      ops, at := ops + [op.value], op.pos;
    }
    r := Got(ops, at);
  }

  lemma OpReadBack(f: Floats, op: Op, b: Bytes, pos: nat)
    requires Storable(f, op) && At(b, pos, OpBytes(f, op))
    ensures ReadOp(f, b, pos) == Got(op, pos + |OpBytes(f, op)|)
  {
    hide U64, U32, FromLe, At, ReadU64, ReadU32;
    var s := OpBytes(f, op);
    var tag, body := s[..1], s[1..];
    assert s == tag + body;
    AtSplit(b, pos, tag, body);
    TagRead(b, pos, tag);
    match op
    case OpScalar(c) => WordsRead(b, pos + 1, f.bits(c));
    case OpAdd(x, y) => TwoRead(b, pos + 1, x, y);
    case OpScale(k, x) => TwoRead(b, pos + 1, f.bits(k), x);
    case OpCos(p, x) => ShortAndLongRead(b, pos + 1, p, x);
    case OpSin(p, x) => ShortAndLongRead(b, pos + 1, p, x);
  }

  lemma TagRead(b: Bytes, pos: nat, tag: Bytes)
    requires |tag| == 1 && At(b, pos, tag)
    ensures pos < |b| && b[pos] == tag[0]
  {
    assert b[pos] == b[pos..pos + 1][0];
  }

  lemma TwoRead(b: Bytes, pos: nat, x: nat, y: nat)
    requires x < U64_END && y < U64_END && At(b, pos, U64(x) + U64(y))
    ensures ReadU64(b, pos) == Got(x, pos + 8) && ReadU64(b, pos + 8) == Got(y, pos + 16)
  {
    hide U64, U32, FromLe, At, ReadU64, ReadU32;
    AtSplit(b, pos, U64(x), U64(y));
    WordsRead(b, pos, x);
    WordsRead(b, pos + 8, y);
  }

  lemma ShortAndLongRead(b: Bytes, pos: nat, p: nat, x: nat)
    requires p < U32_END && x < U64_END && At(b, pos, U32(p) + U64(x))
    ensures ReadU32(b, pos) == Got(p, pos + 4) && ReadU64(b, pos + 4) == Got(x, pos + 12)
  {
    hide U64, U32, FromLe, At, ReadU64, ReadU32;
    AtSplit(b, pos, U32(p), U64(x));
    WordsRead(b, pos, p);
    WordsRead(b, pos + 4, x);
  }

  lemma {:induction false} OpsReadBack(f: Floats, ops: Tape, b: Bytes, pos: nat)
    requires (forall i :: 0 <= i < |ops| ==> Storable(f, ops[i])) && At(b, pos, OpsBytes(f, ops))
    ensures ReadOps(f, b, pos, |ops|) == Got(ops, pos + |OpsBytes(f, ops)|)
    decreases |ops|
  {
    hide ReadOp, OpBytes, Storable, At;
    if ops != [] {
      var last := |ops| - 1;
      AtSplit(b, pos, OpsBytes(f, ops[..last]), OpBytes(f, ops[last]));
      OpsReadBack(f, ops[..last], b, pos);
      OpReadBack(f, ops[last], b, pos + |OpsBytes(f, ops[..last])|);
      assert ops[..last] + [ops[last]] == ops;
    }
  }

  /** Wherever a stored tape stands, reading there gives the tape back and stops right behind it. */
  lemma TapeReadBack(f: Floats, ops: Tape, b: Bytes, pos: nat)
    requires AllStorable(f, ops) && At(b, pos, TapeBytes(f, ops))
    ensures ReadTape(f, b, pos) == Got(ops, pos + |TapeBytes(f, ops)|)
  {
    hide ReadOps, OpsBytes, U64, FromLe;
    AtSplit(b, pos, U64(|ops|), OpsBytes(f, ops));
    WordsRead(b, pos, |ops|);
    OpsReadBack(f, ops, b, pos + 8);
  }

  // ---- shards -------------------------------------------------------------------

  function Chunks<T>(s: seq<T>, size: nat): (r: seq<seq<T>>)
    requires size > 0
    decreases |s|
  {
    if s == [] then [] else if |s| <= size then [s] else [s[..size]] + Chunks(s[size..], size)
  }

  lemma {:induction false} FirstChunk<T>(s: seq<T>, size: nat)
    requires size > 0 && s != []
    ensures var cut := if |s| < size then |s| else size; Chunks(s, size) == [s[..cut]] + Chunks(s[cut..], size)
  {
    if |s| <= size {
      assert s[..|s|] == s && s[|s|..] == [];
    }
  }

  lemma {:induction false} NoChunks<T>(s: seq<T>, size: nat)
    requires size > 0 && s == []
    ensures Chunks(s, size) == []
  {
  }

  function Joined<T>(parts: seq<seq<T>>): seq<T>
  {
    if parts == [] then [] else Joined(parts[..|parts| - 1]) + parts[|parts| - 1]
  }

  lemma {:induction false} JoinedFront<T>(first: seq<T>, rest: seq<seq<T>>)
    ensures Joined([first] + rest) == first + Joined(rest)
    decreases |rest|
  {
    hide Joined;
    if rest == [] {
      JoinedOne(first);
      assert [first] + rest == [first];
    } else {
      var front, last := rest[..|rest| - 1], rest[|rest| - 1];
      JoinedFront(first, front);
      assert [first] + rest == ([first] + front) + [last] && rest == front + [last];
      JoinedLast([first] + front, last);
      JoinedLast(front, last);
      assert (first + Joined(front)) + last == first + (Joined(front) + last);
    }
  }

  lemma {:induction false} JoinedOne<T>(part: seq<T>)
    ensures Joined([part]) == part && Joined<T>([]) == []
  {
    assert Joined([part]) == Joined<T>([]) + part;
  }

  lemma {:induction false} JoinedLast<T>(parts: seq<seq<T>>, last: seq<T>)
    ensures Joined(parts + [last]) == Joined(parts) + last
  {
    assert (parts + [last])[..|parts|] == parts;
  }

  /** Cutting into chunks loses nothing, and every element of a chunk is one of the whole. */
  lemma {:induction false} ChunksJoin<T>(s: seq<T>, size: nat)
    requires size > 0
    ensures Joined(Chunks(s, size)) == s && |Chunks(s, size)| <= |s|
    ensures forall k :: 0 <= k < |Chunks(s, size)| ==> |Chunks(s, size)[k]| <= |s|
    ensures forall k, i :: 0 <= k < |Chunks(s, size)| && 0 <= i < |Chunks(s, size)[k]| ==> Chunks(s, size)[k][i] in s
    decreases |s|
  {
    if s == [] {
    } else if |s| <= size {
      JoinedFront(s, []);
    } else {
      ChunksJoin(s[size..], size);
      JoinedFront(s[..size], Chunks(s[size..], size));
      assert s[..size] + s[size..] == s;
      forall k, i | 0 <= k < |Chunks(s, size)| && 0 <= i < |Chunks(s, size)[k]| ensures Chunks(s, size)[k][i] in s {
        if k > 0 {
          assert Chunks(s[size..], size)[k - 1][i] in s[size..];
        }
      }
    }
  }

  /** The shard size for a target number of shards. */
  function ShardSize(len: nat, shards: nat): (r: nat)
    ensures r > 0
  {
    var n := if shards == 0 then 1 else shards;
    var size := (len + n - 1) / n;
    if size == 0 then 1 else size
  }

  /** Any compression that can be undone. */
  datatype Gzip = Gzip(pack: Bytes -> Bytes, unpack: Bytes -> Option<Bytes>)

  ghost predicate GzipOk(g: Gzip)
  {
    forall x {:trigger g.pack(x)} :: g.unpack(g.pack(x)) == Some(x)
  }

  function TapeBlob(f: Floats, g: Gzip, ops: Tape): Bytes { g.pack(TapeBytes(f, ops)) }

  lemma TapeBlobIs(f: Floats, g: Gzip, ops: Tape)
    ensures g.pack(TapeBytes(f, ops)) == TapeBlob(f, g, ops)
  {
  }

  lemma StorableLength(f: Floats, ops: Tape)
    requires AllStorable(f, ops)
    ensures |ops| < U64_END
  {
  }

  function TapeBlobs(f: Floats, g: Gzip, shards: seq<Tape>): (r: seq<Bytes>)
    ensures |r| == |shards| && forall k :: 0 <= k < |shards| ==> r[k] == TapeBlob(f, g, shards[k])
  {
    seq(|shards|, k requires 0 <= k < |shards| => TapeBlob(f, g, shards[k]))
  }

  /** Stores the tape in shards of equal size but the last. */
  method SerializeShards(f: Floats, g: Gzip, ops: Tape, shards: nat) returns (blobs: seq<Bytes>)
    ensures blobs == TapeBlobs(f, g, Chunks(ops, ShardSize(|ops|, shards)))
  {
    hide ShardSize, TapeBytes, TapeBlob, Chunks;
    var size := ShardSize(|ops|, shards);
    ghost var chunks, done := Chunks(ops, size), [];
    assert [] + chunks == chunks;
    blobs := [];
    var rest := ops;
    while rest != []
      invariant chunks == done + Chunks(rest, size) && blobs == TapeBlobs(f, g, done)
      decreases |rest|
    {
      var cut := if |rest| < size then |rest| else size;
      FirstChunk(rest, size);
      var raw := SerializeOps(f, rest[..cut], []);
      assert [] + TapeBytes(f, rest[..cut]) == TapeBytes(f, rest[..cut]);
      TapeBlobIs(f, g, rest[..cut]);
      assert TapeBlobs(f, g, done + [rest[..cut]]) == TapeBlobs(f, g, done) + [TapeBlob(f, g, rest[..cut])];
      blobs := blobs + [g.pack(raw)];
      done := done + [rest[..cut]];
      rest := rest[cut..];
    }
    NoChunks(rest, size);
    assert done == chunks;
  }

  function UnpackTape(f: Floats, g: Gzip, blob: Bytes): Option<Tape>
  {
    var raw := g.unpack(blob);
    if raw.None? then None
    else
      var ops := ReadTape(f, raw.value, 0);
      if ops.Unreadable? then None else Some(ops.value)
  }

  /** What all blobs hold, one behind the other, if each can be read. */
  function Gathered<T>(unpack: Bytes -> Option<seq<T>>, blobs: seq<Bytes>): Option<seq<T>>
  {
    if blobs == [] then Some([])
    else
      var last := |blobs| - 1;
      var front, x := Gathered(unpack, blobs[..last]), unpack(blobs[last]);
      if front.None? || x.None? then None else Some(front.value + x.value)
  }

  lemma {:induction false} GatheredFails<T>(unpack: Bytes -> Option<seq<T>>, blobs: seq<Bytes>, i: nat)
    requires i <= |blobs| && Gathered(unpack, blobs[..i]).None?
    ensures Gathered(unpack, blobs).None?
    decreases |blobs|
  {
    if i < |blobs| {
      assert blobs[..|blobs| - 1][..i] == blobs[..i];
      GatheredFails(unpack, blobs[..|blobs| - 1], i);
    } else {
      assert blobs[..i] == blobs;
    }
  }

  lemma {:induction false} GatheredParts<T>(unpack: Bytes -> Option<seq<T>>, blobs: seq<Bytes>, parts: seq<seq<T>>)
    requires |parts| == |blobs| && forall k :: 0 <= k < |blobs| ==> unpack(blobs[k]) == Some(parts[k])
    ensures Gathered(unpack, blobs) == Some(Joined(parts))
    decreases |blobs|
  {
    if blobs != [] {
      GatheredParts(unpack, blobs[..|blobs| - 1], parts[..|blobs| - 1]);
    }
  }

  function TapeUnpacker(f: Floats, g: Gzip): Bytes -> Option<Tape> { b => UnpackTape(f, g, b) }

  /** Reads the shards back and puts them behind each other. */
  method LoadShards(f: Floats, g: Gzip, blobs: seq<Bytes>) returns (tape: Option<Tape>)
    ensures tape == Gathered(TapeUnpacker(f, g), blobs)
  {
    hide ReadTape;
    var ops := [];
    for i := 0 to |blobs|
      invariant Gathered(TapeUnpacker(f, g), blobs[..i]) == Some(ops)
    {
      assert blobs[..i + 1][..i] == blobs[..i];
      var raw := g.unpack(blobs[i]);
      if raw.None? {
        GatheredFails(TapeUnpacker(f, g), blobs, i + 1);
        return None;
      }
      var shard := DeserializeOps(f, raw.value, 0);
      if shard.Unreadable? {
        GatheredFails(TapeUnpacker(f, g), blobs, i + 1);
        return None;
      }
      ops := ops + shard.value;
    }
    assert blobs[..|blobs|] == blobs;
    tape := Some(ops);
  }

  /** A tape stored in any number of shards is read back whole. */
  lemma {:induction false} ShardsReadBack(f: Floats, g: Gzip, ops: Tape, shards: nat)
    requires AllStorable(f, ops) && GzipOk(g)
    ensures Gathered(TapeUnpacker(f, g), TapeBlobs(f, g, Chunks(ops, ShardSize(|ops|, shards)))) == Some(ops)
  {
    hide ShardSize, Chunks, TapeBytes, ReadTape, Storable;
    var size := ShardSize(|ops|, shards);
    var chunks := Chunks(ops, size);
    var blobs := TapeBlobs(f, g, chunks);
    ChunksJoin(ops, size);
    forall k | 0 <= k < |chunks| ensures TapeUnpacker(f, g)(blobs[k]) == Some(chunks[k]) {
      forall i | 0 <= i < |chunks[k]| ensures Storable(f, chunks[k][i]) {
        assert chunks[k][i] in ops;
      }
      var raw := TapeBytes(f, chunks[k]);
      assert blobs[k] == g.pack(raw);
      assert raw[0..0 + |raw|] == raw;
      TapeReadBack(f, chunks[k], raw, 0);
    }
    GatheredParts(TapeUnpacker(f, g), blobs, chunks);
  }

  // ---- terms --------------------------------------------------------------------

  type Term = SurrogateModels.SurrogateTerm

  /** The stored root: a term without a coefficient has the largest index. */
  function RootCode(root: Option<nat>): nat { if root.Some? then root.value else U64_END - 1 }

  function RootOf(code: nat): Option<nat> { if code == U64_END - 1 then None else Some(code) }

  predicate TermStorable(f: Floats, t: Term)
  {
    FloatOk(f, t.overlap) && (t.root.Some? ==> t.root.value < U64_END - 1)
  }

  function TermBytes(f: Floats, t: Term): Bytes { U64(f.bits(t.overlap)) + U64(RootCode(t.root)) }

  function TermsBytes(f: Floats, ts: seq<Term>): Bytes
  {
    if ts == [] then [] else TermBytes(f, ts[0]) + TermsBytes(f, ts[1..])
  }

  lemma {:induction false} TermsBytesBack(f: Floats, ts: seq<Term>, t: Term)
    ensures TermsBytes(f, ts + [t]) == TermsBytes(f, ts) + TermBytes(f, t)
  {
    hide TermBytes;
    var all := ts + [t];
    if ts == [] {
      assert all[0] == t && all[1..] == [];
    } else {
      assert all[0] == ts[0] && all[1..] == ts[1..] + [t];
      TermsBytesBack(f, ts[1..], t);
    }
  }

  lemma {:induction false} NoTerms(f: Floats, ts: seq<Term>)
    requires ts == []
    ensures TermsBytes(f, ts) == []
  {
  }

  /** The raw bytes of one shard of terms. */
  method SerializeTerms(f: Floats, ts: seq<Term>) returns (raw: Bytes)
    ensures raw == TermsBytes(f, ts)
  {
    hide U64, TermsBytes;
    NoTerms(f, ts[..0]);
    raw := [];
    for i := 0 to |ts|
      invariant raw == TermsBytes(f, ts[..i])
    {
      assert ts[..i + 1] == ts[..i] + [ts[i]];
      TermsBytesBack(f, ts[..i], ts[i]);
      raw := raw + (U64(f.bits(ts[i].overlap)) + U64(RootCode(ts[i].root)));
    }
    assert ts[..|ts|] == ts;
  }

  /** Reads terms until the bytes run out. */
  function ReadTerms(f: Floats, b: Bytes, pos: nat): Option<seq<Term>>
    decreases |b| - pos
  {
    if pos >= |b| then Some([])
    else
      var overlap, root := ReadF64(f, b, pos), ReadU64(b, pos + 8);
      if overlap.Unreadable? || root.Unreadable? then None
      else
        var rest := ReadTerms(f, b, pos + 16);
        if rest.None? then None
          else Some([SurrogateModels.SurrogateTerm(overlap.value, RootOf(root.value))] + rest.value)
  }

  function Prefixed<T>(front: seq<T>, rest: Option<seq<T>>): Option<seq<T>>
  {
    if rest.None? then None else Some(front + rest.value)
  }

  lemma PrefixedTwice<T>(a: seq<T>, b: seq<T>, rest: Option<seq<T>>)
    ensures Prefixed(a, Prefixed(b, rest)) == Prefixed(a + b, rest)
  {
    if rest.Some? {
      assert a + (b + rest.value) == a + b + rest.value;
    }
  }

  method ParseShard(f: Floats, raw: Bytes) returns (r: Option<seq<Term>>)
    ensures r == ReadTerms(f, raw, 0)
  {
    hide FromLe;
    var terms, pos: nat := [], 0;
    ghost var whole := ReadTerms(f, raw, 0);
    assert whole.Some? ==> [] + whole.value == whole.value;
    while pos < |raw|
      invariant ReadTerms(f, raw, 0) == Prefixed(terms, ReadTerms(f, raw, pos))
      decreases |raw| - pos
    {
      var overlap, root := ReadF64(f, raw, pos), ReadU64(raw, pos + 8);
      if overlap.Unreadable? || root.Unreadable? {
        return None;
      }
      var t := SurrogateModels.SurrogateTerm(overlap.value, RootOf(root.value));
      assert ReadTerms(f, raw, pos) == Prefixed([t], ReadTerms(f, raw, pos + 16));
      PrefixedTwice(terms, [t], ReadTerms(f, raw, pos + 16));
      terms, pos := terms + [t], pos + 16;
    }
    assert terms + [] == terms;
    r := Some(terms);
  }

  lemma {:induction false} TermsReadBack(f: Floats, ts: seq<Term>, b: Bytes, pos: nat)
    requires (forall i :: 0 <= i < |ts| ==> TermStorable(f, ts[i])) && pos <= |b| && b[pos..] == TermsBytes(f, ts)
    ensures ReadTerms(f, b, pos) == Some(ts)
    decreases |ts|
  {
    hide U64, FromLe;
    if ts != [] {
      var x, y := U64(f.bits(ts[0].overlap)), U64(RootCode(ts[0].root));
      var tail := TermsBytes(f, ts[1..]);
      assert b[pos..pos + |x + y + tail|] == x + y + tail;
      AtSplit(b, pos, x + y, tail);
      AtSplit(b, pos, x, y);
      WordsRead(b, pos, f.bits(ts[0].overlap));
      WordsRead(b, pos + 8, RootCode(ts[0].root));
      assert b[pos + 16..] == tail;
      TermsReadBack(f, ts[1..], b, pos + 16);
      assert [ts[0]] + ts[1..] == ts;
    }
  }

  function TermBlob(f: Floats, g: Gzip, ts: seq<Term>): Bytes { g.pack(TermsBytes(f, ts)) }

  lemma {:induction false} TermBlobIs(f: Floats, g: Gzip, ts: seq<Term>)
    ensures g.pack(TermsBytes(f, ts)) == TermBlob(f, g, ts)
  {
  }

  function TermBlobs(f: Floats, g: Gzip, shards: seq<seq<Term>>): (r: seq<Bytes>)
    ensures |r| == |shards| && forall k :: 0 <= k < |shards| ==> r[k] == TermBlob(f, g, shards[k])
  {
    seq(|shards|, k requires 0 <= k < |shards| => TermBlob(f, g, shards[k]))
  }

  lemma OneMoreBlob(f: Floats, g: Gzip, done: seq<seq<Term>>, chunk: seq<Term>)
    ensures TermBlobs(f, g, done + [chunk]) == TermBlobs(f, g, done) + [TermBlob(f, g, chunk)]
  {
    hide TermBlob;
  }

  method SerializeTermShards(f: Floats, g: Gzip, terms: seq<Term>, shards: nat) returns (blobs: seq<Bytes>)
    ensures blobs == TermBlobs(f, g, Chunks(terms, ShardSize(|terms|, shards)))
  {
    hide ShardSize, TermsBytes, TermBlob, TermBlobs, Chunks;
    var size := ShardSize(|terms|, shards);
    assert TermBlobs(f, g, []) == [];
    ghost var chunks, done := Chunks(terms, size), [];
    assert [] + chunks == chunks;
    blobs := [];
    var rest := terms;
    while rest != []
      invariant chunks == done + Chunks(rest, size) && blobs == TermBlobs(f, g, done)
      decreases |rest|
    {
      var cut := if |rest| < size then |rest| else size;
      FirstChunk(rest, size);
      var raw := SerializeTerms(f, rest[..cut]);
      TermBlobIs(f, g, rest[..cut]);
      OneMoreBlob(f, g, done, rest[..cut]);
      blobs := blobs + [g.pack(raw)];
      done := done + [rest[..cut]];
      rest := rest[cut..];
    }
    NoChunks(rest, size);
    assert done == chunks;
  }

  function UnpackTerms(f: Floats, g: Gzip, blob: Bytes): Option<seq<Term>>
  {
    var raw := g.unpack(blob);
    if raw.None? then None else ReadTerms(f, raw.value, 0)
  }

  function TermUnpacker(f: Floats, g: Gzip): Bytes -> Option<seq<Term>> { b => UnpackTerms(f, g, b) }

  method LoadTermShards(f: Floats, g: Gzip, blobs: seq<Bytes>) returns (terms: Option<seq<Term>>)
    ensures terms == Gathered(TermUnpacker(f, g), blobs)
  {
    hide ReadTerms;
    var all := [];
    for i := 0 to |blobs|
      invariant Gathered(TermUnpacker(f, g), blobs[..i]) == Some(all)
    {
      assert blobs[..i + 1][..i] == blobs[..i];
      var raw := g.unpack(blobs[i]);
      if raw.None? {
        GatheredFails(TermUnpacker(f, g), blobs, i + 1);
        return None;
      }
      var shard := ParseShard(f, raw.value);
      if shard.None? {
        GatheredFails(TermUnpacker(f, g), blobs, i + 1);
        return None;
      }
      all := all + shard.value;
    }
    assert blobs[..|blobs|] == blobs;
    terms := Some(all);
  }

  lemma {:induction false} TermShardsReadBack(f: Floats, g: Gzip, terms: seq<Term>, shards: nat)
    requires (forall i :: 0 <= i < |terms| ==> TermStorable(f, terms[i])) && GzipOk(g)
    ensures Gathered(TermUnpacker(f, g), TermBlobs(f, g, Chunks(terms, ShardSize(|terms|, shards)))) == Some(terms)
  {
    hide ShardSize, Chunks, TermsBytes, ReadTerms, TermStorable;
    var size := ShardSize(|terms|, shards);
    var chunks := Chunks(terms, size);
    var blobs := TermBlobs(f, g, chunks);
    ChunksJoin(terms, size);
    forall k | 0 <= k < |chunks| ensures TermUnpacker(f, g)(blobs[k]) == Some(chunks[k]) {
      forall i | 0 <= i < |chunks[k]| ensures TermStorable(f, chunks[k][i]) {
        assert chunks[k][i] in terms;
      }
      var raw := TermsBytes(f, chunks[k]);
      assert blobs[k] == g.pack(raw);
      assert raw[0..] == raw;
      TermsReadBack(f, chunks[k], raw, 0);
    }
    GatheredParts(TermUnpacker(f, g), blobs, chunks);
  }

  // ---- the file -----------------------------------------------------------------

  /** A compiled model and the number of parameters it takes. */
  datatype Saved = Saved(model: SurrogateModels.Model, nParams: nat)

  datatype Loading = Loaded(saved: Saved) | Foreign | Damaged

  /** The bytes of "PQSM", and the version of the format. */
  const MAGIC: nat := 0x4D53_5150
  const FORMAT_VERSION: nat := 9

  function Lengths(blobs: seq<Bytes>): Bytes
  {
    if blobs == [] then [] else Lengths(blobs[..|blobs| - 1]) + U64(|blobs[|blobs| - 1]|)
  }

  /** How many blobs, how long each is, and the blobs. */
  function Section(blobs: seq<Bytes>): Bytes { U64(|blobs|) + (Lengths(blobs) + Joined(blobs)) }

  function Header(nParams: nat): Bytes { U32(MAGIC) + (U32(FORMAT_VERSION) + U64(nParams)) }

  function FileBytes(f: Floats, g: Gzip, m: Saved, shards: nat): Bytes
  {
    Header(m.nParams)
    + (Section(TapeBlobs(f, g, Chunks(m.model.tape, ShardSize(|m.model.tape|, shards))))
       + Section(TermBlobs(f, g, Chunks(m.model.terms, ShardSize(|m.model.terms|, shards)))))
  }

  method WriteSection(blobs: seq<Bytes>, file: Bytes) returns (file': Bytes)
    ensures file' == file + Section(blobs)
  {
    hide U64;
    ghost var head := file + U64(|blobs|);
    file' := file + U64(|blobs|);
    for i := 0 to |blobs|
      invariant file' == head + Lengths(blobs[..i])
    {
      assert blobs[..i + 1][..i] == blobs[..i];
      file' := file' + U64(|blobs[i]|);
    }
    assert blobs[..|blobs|] == blobs;
    ghost var middle := head + Lengths(blobs);
    for i := 0 to |blobs|
      invariant file' == middle + Joined(blobs[..i])
    {
      assert blobs[..i + 1][..i] == blobs[..i];
      file' := file' + blobs[i];
    }
  }

  /** Writes the model, its tape and its terms in about `shards` pieces each. */
  method Save(f: Floats, g: Gzip, m: Saved, shards: nat) returns (file: Bytes)
    ensures file == FileBytes(f, g, m, shards)
  {
    hide U64, U32, Section, Chunks, ShardSize, TapeBlobs, TermBlobs;
    var tapeBlobs := SerializeShards(f, g, m.model.tape, shards);
    var termBlobs := SerializeTermShards(f, g, m.model.terms, shards);
    file := U32(MAGIC);
    file := file + U32(FORMAT_VERSION);
    file := file + U64(m.nParams);
    assert file == Header(m.nParams);
    file := WriteSection(tapeBlobs, file);
    file := WriteSection(termBlobs, file);
  }

  function ReadLengths(b: Bytes, pos: nat, n: nat): Read<seq<nat>>
  {
    if n == 0 then Got([], pos)
    else
      var front := ReadLengths(b, pos, n - 1);
      if front.Unreadable? then Unreadable
      else
        var len := ReadU64(b, front.pos);
        if len.Unreadable? then Unreadable else Got(front.value + [len.value], len.pos)
  }

  function ReadBlobs(b: Bytes, pos: nat, lens: seq<nat>): Read<seq<Bytes>>
  {
    if lens == [] then Got([], pos)
    else
      var last := |lens| - 1;
      var front := ReadBlobs(b, pos, lens[..last]);
      if front.Unreadable? || front.pos + lens[last] > |b| then Unreadable
      else Got(front.value + [b[front.pos..front.pos + lens[last]]], front.pos + lens[last])
  }

  function ReadSection(b: Bytes, pos: nat): Read<seq<Bytes>>
  {
    var n := ReadU64(b, pos);
    if n.Unreadable? then Unreadable
    else
      var lens := ReadLengths(b, n.pos, n.value);
      if lens.Unreadable? then Unreadable else ReadBlobs(b, lens.pos, lens.value)
  }

  function Sizes(blobs: seq<Bytes>): (r: seq<nat>)
    ensures |r| == |blobs| && forall i :: 0 <= i < |blobs| ==> r[i] == |blobs[i]|
  {
    seq(|blobs|, i requires 0 <= i < |blobs| => |blobs[i]|)
  }

  lemma {:induction false} LengthsReadBack(blobs: seq<Bytes>, b: Bytes, pos: nat)
    requires (forall k :: 0 <= k < |blobs| ==> |blobs[k]| < U64_END) && At(b, pos, Lengths(blobs))
    ensures ReadLengths(b, pos, |blobs|) == Got(Sizes(blobs), pos + |Lengths(blobs)|)
    decreases |blobs|
  {
    hide U64, FromLe, At;
    if blobs != [] {
      var last := |blobs| - 1;
      AtSplit(b, pos, Lengths(blobs[..last]), U64(|blobs[last]|));
      LengthsReadBack(blobs[..last], b, pos);
      WordsRead(b, pos + |Lengths(blobs[..last])|, |blobs[last]|);
      assert Sizes(blobs[..last]) + [|blobs[last]|] == Sizes(blobs);
    }
  }

  lemma {:induction false} BlobsReadBack(blobs: seq<Bytes>, b: Bytes, pos: nat)
    requires At(b, pos, Joined(blobs))
    ensures ReadBlobs(b, pos, Sizes(blobs)) == Got(blobs, pos + |Joined(blobs)|)
    decreases |blobs|
  {
    hide At, Joined, ReadBlobs, Sizes;
    if blobs == [] {
      NoBlobs(b, pos);
    } else {
      var front, last := blobs[..|blobs| - 1], blobs[|blobs| - 1];
      assert blobs == front + [last];
      JoinedLast(front, last);
      AtSplit(b, pos, Joined(front), last);
      BlobsReadBack(front, b, pos);
      LastBlob(front, last, b, pos, pos + |Joined(front)|);
    }
  }

  lemma {:induction false} NoBlobs(b: Bytes, pos: nat)
    ensures ReadBlobs(b, pos, Sizes([])) == Got([], pos) && Joined<Byte>([]) == []
  {
  }

  lemma {:induction false} LastBlob(front: seq<Bytes>, last: Bytes, b: Bytes, pos: nat, end: nat)
    requires ReadBlobs(b, pos, Sizes(front)) == Got(front, end) && At(b, end, last)
    ensures ReadBlobs(b, pos, Sizes(front + [last])) == Got(front + [last], end + |last|)
  {
    var lens := Sizes(front + [last]);
    assert lens[..|front|] == Sizes(front);
  }

  lemma SectionReadBack(blobs: seq<Bytes>, b: Bytes, pos: nat)
    requires |blobs| < U64_END && (forall k :: 0 <= k < |blobs| ==> |blobs[k]| < U64_END) && At(b, pos, Section(blobs))
    ensures ReadSection(b, pos) == Got(blobs, pos + |Section(blobs)|)
  {
    hide U64, FromLe, At, Lengths, Joined, ReadLengths, ReadBlobs;
    AtSplit(b, pos, U64(|blobs|), Lengths(blobs) + Joined(blobs));
    WordsRead(b, pos, |blobs|);
    AtSplit(b, pos + 8, Lengths(blobs), Joined(blobs));
    LengthsReadBack(blobs, b, pos + 8);
    BlobsReadBack(blobs, b, pos + 8 + |Lengths(blobs)|);
  }

  /** Reads a number of blobs: their lengths first. */
  method LoadSection(b: Bytes, pos: nat) returns (r: Read<seq<Bytes>>)
    ensures r == ReadSection(b, pos)
  {
    hide FromLe;
    var n := ReadU64(b, pos);
    if n.Unreadable? {
      return Unreadable;
    }
    var lens: seq<nat>, at: nat := [], n.pos;
    for i := 0 to n.value
      invariant ReadLengths(b, n.pos, i) == Got(lens, at)
    {
      var len := ReadU64(b, at);
      if len.Unreadable? {
        LengthsFail(b, n.pos, i + 1, n.value);
        return Unreadable;
      }
      lens, at := lens + [len.value], len.pos;
    }
    var blobs: seq<Bytes>, here: nat := [], at;
    for i := 0 to |lens|
      invariant ReadBlobs(b, at, lens[..i]) == Got(blobs, here)
    {
      assert lens[..i + 1][..i] == lens[..i];
      if here + lens[i] > |b| {
        BlobsFail(b, at, lens, i + 1);
        return Unreadable;
      }
      blobs, here := blobs + [b[here..here + lens[i]]], here + lens[i];
    }
    assert lens[..|lens|] == lens;
    r := Got(blobs, here);
  }

  lemma {:induction false} LengthsFail(b: Bytes, pos: nat, i: nat, n: nat)
    requires i <= n && ReadLengths(b, pos, i).Unreadable?
    ensures ReadLengths(b, pos, n).Unreadable?
    decreases n
  {
    if i < n {
      LengthsFail(b, pos, i, n - 1);
    }
  }

  lemma {:induction false} BlobsFail(b: Bytes, pos: nat, lens: seq<nat>, i: nat)
    requires i <= |lens| && ReadBlobs(b, pos, lens[..i]).Unreadable?
    ensures ReadBlobs(b, pos, lens).Unreadable?
    decreases |lens|
  {
    if i < |lens| {
      assert lens[..|lens| - 1][..i] == lens[..i];
      BlobsFail(b, pos, lens[..|lens| - 1], i);
    } else {
      assert lens[..i] == lens;
    }
  }

  /** What the bytes of a file hold. */
  function FileContents(f: Floats, g: Gzip, b: Bytes): Loading
  {
    var magic, version := ReadU32(b, 0), ReadU32(b, 4);
    if magic.Unreadable? || version.Unreadable? then Damaged
    else if magic.value != MAGIC || version.value != FORMAT_VERSION then Foreign
    else
      var n := ReadU64(b, 8);
      if n.Unreadable? then Damaged
      else
        var tapes := ReadSection(b, n.pos);
        if tapes.Unreadable? then Damaged
        else
          var tape := Gathered(TapeUnpacker(f, g), tapes.value);
          var rest := ReadSection(b, tapes.pos);
          if tape.None? || rest.Unreadable? then Damaged
          else
            var terms := Gathered(TermUnpacker(f, g), rest.value);
            if terms.None? then Damaged else Loaded(Saved(SurrogateModels.Model(tape.value, terms.value), n.value))
  }

  /** Loads a model: files of another kind or version are told apart from damaged ones. */
  method Load(f: Floats, g: Gzip, b: Bytes) returns (r: Loading)
    ensures r == FileContents(f, g, b)
  {
    hide ReadSection, Gathered, FromLe;
    var magic, version := ReadU32(b, 0), ReadU32(b, 4);
    if magic.Unreadable? || version.Unreadable? {
      return Damaged;
    }
    if magic.value != MAGIC || version.value != FORMAT_VERSION {
      return Foreign;
    }
    var n := ReadU64(b, 8);
    if n.Unreadable? {
      return Damaged;
    }
    var tapes := LoadSection(b, n.pos);
    if tapes.Unreadable? {
      return Damaged;
    }
    var tape := LoadShards(f, g, tapes.value);
    if tape.None? {
      return Damaged;
    }
    var rest := LoadSection(b, tapes.pos);
    if rest.Unreadable? {
      return Damaged;
    }
    var terms := LoadTermShards(f, g, rest.value);
    if terms.None? {
      return Damaged;
    }
    r := Loaded(Saved(SurrogateModels.Model(tape.value, terms.value), n.value));
  }

  predicate ModelStorable(f: Floats, m: Saved)
  {
    && AllStorable(f, m.model.tape) && m.nParams < U64_END && |m.model.terms| < U64_END
    && forall i :: 0 <= i < |m.model.terms| ==> TermStorable(f, m.model.terms[i])
  }

  /** Every blob that is stored has a length that fits its word. */
  predicate BlobsFit(blobs: seq<Bytes>) { forall k :: 0 <= k < |blobs| ==> |blobs[k]| < U64_END }

  function ModelTapeBlobs(f: Floats, g: Gzip, m: Saved, shards: nat): seq<Bytes>
  {
    TapeBlobs(f, g, Chunks(m.model.tape, ShardSize(|m.model.tape|, shards)))
  }

  function ModelTermBlobs(f: Floats, g: Gzip, m: Saved, shards: nat): seq<Bytes>
  {
    TermBlobs(f, g, Chunks(m.model.terms, ShardSize(|m.model.terms|, shards)))
  }

  /** Loading what was saved gives the same model, however many shards it was saved in. */
  lemma SaveLoadRoundTrip(f: Floats, g: Gzip, m: Saved, shards: nat)
    requires ModelStorable(f, m) && GzipOk(g)
    requires BlobsFit(ModelTapeBlobs(f, g, m, shards)) && BlobsFit(ModelTermBlobs(f, g, m, shards))
    ensures FileContents(f, g, FileBytes(f, g, m, shards)) == Loaded(m)
  {
    hide U64, U32, FromLe, Section, ReadSection, Gathered, Chunks, ShardSize, TapeBytes, TermsBytes, AllStorable,
      TermStorable;
    var x, y, b := ModelTapeBlobs(f, g, m, shards), ModelTermBlobs(f, g, m, shards), FileBytes(f, g, m, shards);
    HeaderReadBack(b, m.nParams, Section(x) + Section(y));
    AtSplit(b, 16, Section(x), Section(y));
    StorableLength(f, m.model.tape);
    ChunksJoin(m.model.tape, ShardSize(|m.model.tape|, shards));
    ChunksJoin(m.model.terms, ShardSize(|m.model.terms|, shards));
    SectionReadBack(x, b, 16);
    SectionReadBack(y, b, 16 + |Section(x)|);
    ShardsReadBack(f, g, m.model.tape, shards);
    TermShardsReadBack(f, g, m.model.terms, shards);
  }

  /** The first bytes of a file: the letters of the format and its version, low bytes first. */
  lemma HeaderBytes()
    ensures U32(MAGIC) + U32(FORMAT_VERSION) == ['P' as nat, 'Q' as nat, 'S' as nat, 'M' as nat, 9, 0, 0, 0]
  {
    FourBytes(MAGIC, 0x50, 0x51, 0x53, 0x4D);
    FourBytes(FORMAT_VERSION, 9, 0, 0, 0);
  }

  lemma FourBytes(v: nat, a: nat, b: nat, c: nat, d: nat)
    requires a < 256 && b < 256 && c < 256 && d < 256
    requires v == a + 256 * (b + 256 * (c + 256 * d))
    ensures U32(v) == [a, b, c, d]
  {
    var x := c + 256 * d;
    var y := b + 256 * x;
    assert v / 256 == y && y / 256 == x && x / 256 == d;
    assert LeBytes(d, 1) == [d] + LeBytes(d / 256, 0);
    assert LeBytes(x, 2) == [c] + LeBytes(d, 1);
    assert LeBytes(y, 3) == [b] + LeBytes(x, 2);
    assert LeBytes(v, 4) == [a] + LeBytes(y, 3);
  }

  /** Packing that packs nothing. */
  function Plain(): Gzip { Gzip((x: Bytes) => x, (x: Bytes) => Some(x)) }

  /** Floats with two values only, enough for a model of one constant. */
  function Halves(): Floats { Floats((c: real) => if c == 0.5 then 1 else 0, (b: nat) => if b == 1 then 0.5 else 0.0) }

  /** One constant, one term that points at it and one that points nowhere. */
  function SmallModel(): Saved
  {
    Saved(SurrogateModels.Model([OpScalar(0.5)],
      [SurrogateModels.SurrogateTerm(0.5, Some(0)), SurrogateModels.SurrogateTerm(0.0, None)]), 3)
  }

  /** A small number in eight bytes, low bytes first. */
  function Low(v: Byte): Bytes { [v, 0, 0, 0, 0, 0, 0, 0] }

  lemma {:induction false} SmallWord(v: Byte)
    ensures U64(v) == Low(v) && U32(v) == [v, 0, 0, 0]
  {
    FourBytes(v, v, 0, 0, 0);
    assert LeBytes(0, 5) == [0] + LeBytes(0, 4) && LeBytes(0, 6) == [0] + LeBytes(0, 5);
    FourBytes(0, 0, 0, 0, 0);
    assert LeBytes(0, 7) == [0] + LeBytes(0, 6);
    assert LeBytes(v, 8) == [v] + LeBytes(v / 256, 7);
  }

  /** The bytes of every kind of operation and of the terms with and without a root, on small numbers. */
  lemma KnownBytes(x: Byte, y: Byte, p: Byte)
    ensures var f := Halves();
      && OpBytes(f, OpScalar(0.5)) == [0] + Low(1)
      && OpBytes(f, OpAdd(x, y)) == [1] + (Low(x) + Low(y))
      && OpBytes(f, OpScale(0.5, x)) == [2] + (Low(1) + Low(x))
      && OpBytes(f, OpCos(p, x)) == [3] + ([p, 0, 0, 0] + Low(x))
      && OpBytes(f, OpSin(p, x)) == [4] + ([p, 0, 0, 0] + Low(x))
      && TermBytes(f, SurrogateModels.SurrogateTerm(0.5, Some(x))) == Low(1) + Low(x)
      && TermBytes(f, SurrogateModels.SurrogateTerm(0.5, None)) == Low(1) + [255, 255, 255, 255, 255, 255, 255, 255]
  {
    hide U64, U32;
    SmallWord(1);
    SmallWord(x);
    SmallWord(y);
    SmallWord(p);
    LastWord();
  }

  lemma LastWord()
    ensures U64(0xFFFF_FFFF_FFFF_FFFF) == [255, 255, 255, 255, 255, 255, 255, 255]
  {
    FourBytes(0xFFFF_FFFF, 255, 255, 255, 255);
    var (v5, v6, v7) := (0xFF_FFFF_FFFF, 0xFFFF_FFFF_FFFF, 0xFF_FFFF_FFFF_FFFF);
    assert LeBytes(v5, 5) == [255] + LeBytes(0xFFFF_FFFF, 4);
    assert LeBytes(v6, 6) == [255] + LeBytes(v5, 5);
    assert LeBytes(v7, 7) == [255] + LeBytes(v6, 6);
    assert LeBytes(0xFFFF_FFFF_FFFF_FFFF, 8) == [255] + LeBytes(v7, 7);
  }

  /** What saving and loading asks for can be met: here it is, in any number of shards. */
  lemma RoundTripApplies(shards: nat)
    ensures GzipOk(Plain()) && ModelStorable(Halves(), SmallModel())
    ensures BlobsFit(ModelTapeBlobs(Halves(), Plain(), SmallModel(), shards))
    ensures BlobsFit(ModelTermBlobs(Halves(), Plain(), SmallModel(), shards))
    ensures FileContents(Halves(), Plain(), FileBytes(Halves(), Plain(), SmallModel(), shards)) == Loaded(SmallModel())
  {
    hide FileContents, FileBytes, U64;
    var f, g, m := Halves(), Plain(), SmallModel();
    var tapes, terms := Chunks(m.model.tape, ShardSize(1, shards)), Chunks(m.model.terms, ShardSize(2, shards));
    SmallChunks(m.model.tape, ShardSize(1, shards));
    SmallChunks(m.model.terms, ShardSize(2, shards));
    forall k | 0 <= k < |tapes| ensures |TapeBlob(f, g, tapes[k])| < U64_END {
      SmallTape(f, tapes[k]);
    }
    forall k | 0 <= k < |terms| ensures |TermBlob(f, g, terms[k])| < U64_END {
      SmallTerms(f, terms[k]);
    }
    SaveLoadRoundTrip(f, g, m, shards);
  }

  lemma {:induction false} SmallChunks<T>(s: seq<T>, size: nat)
    requires size > 0
    ensures forall k :: 0 <= k < |Chunks(s, size)| ==> |Chunks(s, size)[k]| <= |s|
  {
    ChunksJoin(s, size);
  }

  lemma SmallTape(f: Floats, ops: Tape)
    requires |ops| <= 1
    ensures |TapeBytes(f, ops)| < U64_END
  {
    if ops != [] {
      assert ops[..0] == [] && OpsBytes(f, ops) == OpsBytes(f, []) + OpBytes(f, ops[0]);
      assert |OpBytes(f, ops[0])| <= 17;
    }
  }

  lemma {:induction false} SmallTerms(f: Floats, ts: seq<Term>)
    ensures |TermsBytes(f, ts)| == 16 * |ts|
    decreases |ts|
  {
    if ts != [] {
      SmallTerms(f, ts[1..]);
    }
  }

  lemma HeaderReadBack(b: Bytes, nParams: nat, body: Bytes)
    requires b == Header(nParams) + body && nParams < U64_END
    ensures ReadU32(b, 0) == Got(MAGIC, 4) && ReadU32(b, 4) == Got(FORMAT_VERSION, 8)
    ensures ReadU64(b, 8) == Got(nParams, 16) && At(b, 16, body)
  {
    hide U64, U32, FromLe;
    assert b[0..0 + |Header(nParams) + body|] == Header(nParams) + body;
    AtSplit(b, 0, Header(nParams), body);
    AtSplit(b, 0, U32(MAGIC), U32(FORMAT_VERSION) + U64(nParams));
    AtSplit(b, 4, U32(FORMAT_VERSION), U64(nParams));
    WordsRead(b, 0, MAGIC);
    WordsRead(b, 4, FORMAT_VERSION);
    WordsRead(b, 8, nParams);
  }

  /** A file is refused as foreign exactly if its first eight bytes are there and are not the header's. */
  lemma ForeignIff(f: Floats, g: Gzip, b: Bytes)
    ensures FileContents(f, g, b) == Foreign <==> |b| >= 8 && b[..8] != U32(MAGIC) + U32(FORMAT_VERSION)
  {
    hide U32, U64, ReadSection, Gathered, FromLe;
    if |b| >= 8 {
      Words(MAGIC);
      Words(FORMAT_VERSION);
      assert b[..8] == b[0..4] + b[4..8];
      assert (U32(MAGIC) + U32(FORMAT_VERSION))[..4] == U32(MAGIC)
        && (U32(MAGIC) + U32(FORMAT_VERSION))[4..] == U32(FORMAT_VERSION);
      assert b[..8][..4] == b[0..4] && b[..8][4..] == b[4..8];
      SameWord(b[0..4], U32(MAGIC));
      SameWord(b[4..8], U32(FORMAT_VERSION));
    }
  }

  /** Bytes of one length that spell the same number are the same. */
  lemma {:induction false} SameWord(a: Bytes, b: Bytes)
    requires |a| == |b|
    ensures FromLe(a) == FromLe(b) <==> a == b
    decreases |a|
  {
    if a != [] {
      SameWord(a[1..], b[1..]);
      assert a == [a[0]] + a[1..] && b == [b[0]] + b[1..];
      LowByte(a[0], FromLe(a[1..]), b[0], FromLe(b[1..]));
    }
  }

  lemma LowByte(x: Byte, high: nat, y: Byte, high': nat)
    ensures x + 256 * high == y + 256 * high' <==> x == y && high == high'
  {
  }
}
