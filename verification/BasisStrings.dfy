/**
 Basis strings: one bit per position, two positions per unit (a qubit or a fermionic site).

 A key is the bit sequence of a basis string. Every counting function runs over the
 positions from a given one upward, which is the direction of the sums that the two
 algebras need (a mode is compared with the modes above it).
 */
module BasisStrings {

  type Key = seq<bool>

  predicate Odd(n: int) { n % 2 == 1 }

  /** The identity operator: no bit set. */
  function Zero(n: nat): (r: Key)
    ensures |r| == n && forall i :: 0 <= i < n ==> !r[i]
  {
    seq(n, i => false)
  }

  /** The string with exactly bit `p` set. */
  function Unit(n: nat, p: nat): (r: Key)
    requires p < n
    ensures |r| == n && forall i :: 0 <= i < n ==> r[i] == (i == p)
  {
    seq(n, i => i == p)
  }

  function Xor(a: Key, b: Key): (r: Key)
    requires |a| == |b|
    ensures |r| == |a| && forall i :: 0 <= i < |a| ==> r[i] == (a[i] != b[i])
  {
    seq(|a|, i requires 0 <= i < |a| && |a| == |b| => a[i] != b[i])
  }

  lemma XorAssoc(a: Key, b: Key, c: Key)
    requires |a| == |b| == |c|
    ensures Xor(Xor(a, b), c) == Xor(a, Xor(b, c))
  {
  }

  lemma XorComm(a: Key, b: Key)
    requires |a| == |b|
    ensures Xor(a, b) == Xor(b, a)
  {
  }

  lemma XorSelf(a: Key)
    ensures Xor(a, a) == Zero(|a|)
  {
  }

  lemma XorZero(a: Key)
    ensures Xor(a, Zero(|a|)) == a && Xor(Zero(|a|), a) == a
  {
  }

  /** Multiplying twice by the same string returns to the start. */
  lemma XorCancel(a: Key, b: Key)
    requires |a| == |b|
    ensures Xor(a, Xor(a, b)) == b
    ensures Xor(Xor(b, a), a) == b
  {
  }

  // ---- counting -----------------------------------------------------------------

  function Bit(b: bool): nat { if b then 1 else 0 }

  /** Set bits at or above position `j`. */
  function CountFrom(a: Key, j: nat): nat
    requires j <= |a|
    decreases |a| - j
  {
    if j == |a| then 0 else CountFrom(a, j + 1) + Bit(a[j])
  }

  function Count(a: Key): nat { CountFrom(a, 0) }

  /** Positions at or above `j` set in both strings. */
  function CountAndFrom(a: Key, b: Key, j: nat): nat
    requires |a| == |b| && j <= |a|
    decreases |a| - j
  {
    if j == |a| then 0 else CountAndFrom(a, b, j + 1) + Bit(a[j] && b[j])
  }

  function CountAnd(a: Key, b: Key): nat
    requires |a| == |b|
  {
    CountAndFrom(a, b, 0)
  }

  predicate ParityAnd(a: Key, b: Key)
    requires |a| == |b|
  {
    Odd(CountAnd(a, b))
  }

  /** Units at or above `q` with at least one of their two bits set. */
  function SupportFrom(a: Key, q: nat): nat
    requires |a| % 2 == 0 && 2 * q <= |a|
    decreases |a| - 2 * q
  {
    if 2 * q == |a| then 0 else SupportFrom(a, q + 1) + Bit(a[2 * q] || a[2 * q + 1])
  }

  function Support(a: Key): nat
    requires |a| % 2 == 0
  {
    SupportFrom(a, 0)
  }

  /** Units at or above `q` that carry something. */
  function UnitsFrom(a: Key, q: nat): set<nat>
    requires |a| % 2 == 0
  {
    set u: nat | q <= u < |a| / 2 && (a[2 * u] || a[2 * u + 1])
  }

  /** The support is the number of units that carry something. */
  lemma {:induction false} SupportIsSize(a: Key, q: nat)
    requires |a| % 2 == 0 && 2 * q <= |a|
    ensures SupportFrom(a, q) == |UnitsFrom(a, q)|
    decreases |a| - 2 * q
  {
    if 2 * q == |a| {
      assert UnitsFrom(a, q) == {};
    } else {
      SupportIsSize(a, q + 1);
      assert UnitsFrom(a, q) == UnitsFrom(a, q + 1) + if a[2 * q] || a[2 * q + 1] then {q} else {};
    }
  }

  /** Swaps the two bits of every unit. */
  function PairSwap(a: Key): (r: Key)
    requires |a| % 2 == 0
    ensures |r| == |a|
    ensures forall q :: 0 <= 2 * q < |a| ==> r[2 * q] == a[2 * q + 1] && r[2 * q + 1] == a[2 * q]
  {
    seq(|a|, i requires 0 <= i < |a| && |a| % 2 == 0 => if i % 2 == 0 then a[i + 1] else a[i - 1])
  }

  // ---- parity is linear ---------------------------------------------------------

  lemma {:induction false} CountFromXor(a: Key, b: Key, j: nat)
    requires |a| == |b| && j <= |a|
    ensures CountFrom(Xor(a, b), j) + 2 * CountAndFrom(a, b, j) == CountFrom(a, j) + CountFrom(b, j)
    decreases |a| - j
  {
    if j < |a| {
      CountFromXor(a, b, j + 1);
    }
  }

  lemma {:induction false} CountAndFromXor(a: Key, b: Key, c: Key, j: nat)
    requires |a| == |b| == |c| && j <= |a|
    ensures Odd(CountAndFrom(Xor(a, b), c, j)) == (Odd(CountAndFrom(a, c, j)) != Odd(CountAndFrom(b, c, j)))
    decreases |a| - j
  {
    if j < |a| {
      CountAndFromXor(a, b, c, j + 1);
    }
  }

  lemma {:induction false} CountZeroFrom(n: nat, j: nat)
    requires j <= n
    ensures CountFrom(Zero(n), j) == 0
    decreases n - j
  {
    if j < n {
      CountZeroFrom(n, j + 1);
    }
  }

  lemma {:induction false} CountAndBound(a: Key, b: Key, j: nat)
    requires |a| == |b| && j <= |a|
    ensures CountAndFrom(a, b, j) <= CountFrom(a, j)
    ensures CountAndFrom(a, b, j) <= CountFrom(b, j)
    decreases |a| - j
  {
    if j < |a| {
      CountAndBound(a, b, j + 1);
    }
  }
}
