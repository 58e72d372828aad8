/** Helpers of src/util.h: bit masks and zero-filling memory. */
module Util {
  /** One byte of host memory. */
  newtype Byte = b: int | 0 <= b < 256

  /** The mask after `n` rounds of `mask |= 1 << i` (i = 0 .. n-1), defined step by step. */
  function Mask(n: bv32): (r: bv32)
    requires n <= 32
  {
    if n == 0 then 0 else Mask(n - 1) | (1 << (n - 1))
  }

  /** Bit `k` of `x` is 1. */
  predicate BitSet(x: bv32, k: bv32)
    requires k < 32
  {
    (x >> k) & 1 == 1
  }

  /**
   * `create_mask(bits)`: OR the bits 0 .. bits-1 into an empty mask, one per loop round.
   * The result has exactly the low `bits` bits set, i.e. it is 2^bits - 1 in 32-bit arithmetic.
   */
  method CreateMask(bits: bv32) returns (mask: bv32)
    requires bits <= 32
    ensures mask == Mask(bits)
    ensures forall k: bv32 :: k < 32 ==> (BitSet(mask, k) <==> k < bits)
    ensures mask == ((1 as bv32) << bits) - 1
  {
    mask := 0;
    var i: bv32 := 0;
    while i < bits
      invariant i <= bits
      invariant mask == Mask(i)
    {
      MaskUnfold(i);
      mask := mask | (1 << i);
      i := i + 1;
    }
    MaskBitsAll(bits);
    MaskValue(bits);
  }

  /** One round more of the loop ORs in the next bit. */
  lemma MaskUnfold(i: bv32)
    requires i < 32
    ensures Mask(i + 1) == Mask(i) | (1 << i)
  {
  }

  /** Exactly the low `n` bits of `Mask(n)` are set, for every bit position. */
  lemma MaskBitsAll(n: bv32)
    requires n <= 32
    ensures forall k: bv32 :: k < 32 ==> (BitSet(Mask(n), k) <==> k < n)
  {
    forall k: bv32 | k < 32 ensures BitSet(Mask(n), k) <==> k < n {
      MaskBits(n, k);
    }
  }

  /** Exactly the low `n` bits of `Mask(n)` are set. */
  lemma {:induction false} MaskBits(n: bv32, k: bv32)
    requires n <= 32 && k < 32
    ensures BitSet(Mask(n), k) <==> k < n
  {
    if n > 0 {
      MaskBits(n - 1, k);
      OrBit(Mask(n - 1), n - 1, k);
    }
  }

  /** OR-ing in `1 << j` sets bit `j` and leaves every other bit as it was. */
  lemma OrBit(m: bv32, j: bv32, k: bv32)
    requires j < 32 && k < 32
    ensures BitSet(m | (1 << j), k) <==> BitSet(m, k) || k == j
  {
  }

  /** `Mask(n)` is 2^n - 1 in 32-bit arithmetic (0 for n = 0, all ones for n = 32). */
  lemma {:induction false} MaskValue(n: bv32)
    requires n <= 32
    ensures Mask(n) == ((1 as bv32) << n) - 1
  {
    if n > 0 {
      MaskValue(n - 1);
      MaskStep(n - 1);
    }
  }

  lemma MaskStep(j: bv32)
    requires j < 32
    ensures (((1 as bv32) << j) - 1) | ((1 as bv32) << j) == ((1 as bv32) << (j + 1)) - 1
  {
  }

  /** Masks grow monotonically: every bit of `Mask(m)` is a bit of `Mask(n)` when m <= n. */
  lemma MaskMonotone(m: bv32, n: bv32)
    requires m <= n <= 32
    ensures Mask(m) & Mask(n) == Mask(m)
  {
    MaskValue(m);
    MaskValue(n);
    LowBitsMonotone(m, n);
  }

  /** 2^m - 1 has no bit outside 2^n - 1 when m <= n. */
  lemma LowBitsMonotone(m: bv32, n: bv32)
    requires m <= n <= 32
    ensures (((1 as bv32) << m) - 1) & (((1 as bv32) << n) - 1) == ((1 as bv32) << m) - 1
  {
  }

  /** `zero(address, size)`: the `size` bytes from `start` become 0 and no other byte changes. */
  method Zero(memory: array<Byte>, start: nat, size: nat)
    requires start + size <= memory.Length
    modifies memory
    ensures forall i :: start <= i < start + size ==> memory[i] == 0
    ensures forall i :: 0 <= i < memory.Length && !(start <= i < start + size) ==> memory[i] == old(memory[i])
  {
    forall i | start <= i < start + size {
      memory[i] := 0;
    }
  }

  /** An element of a non-empty set (a witness for picking one in a loop). */
  lemma Element<T>(s: set<T>) returns (x: T)
    requires s != {}
    ensures x in s
  {
    assert |s| > 0;
    x :| x in s;
  }

  // ---------------------------------------------------------------- sequences

  /** A non-empty sequence is its prefix followed by its last element. */
  lemma LastSplit<T>(xs: seq<T>)
    requires xs != []
    ensures xs == xs[..|xs| - 1] + [xs[|xs| - 1]]
  {
  }

  /** One more element of a prefix. */
  lemma PrefixStep<T>(s: seq<T>, i: nat)
    requires i < |s|
    ensures s[..i + 1] == s[..i] + [s[i]]
  {
  }

  /** Concatenation is associative (stated over plain variables, so callers need not unfold their operands). */
  lemma AppendAssoc<T>(a: seq<T>, b: seq<T>, c: seq<T>)
    ensures a + b + c == a + (b + c)
  {
  }

  /** Two appends in a row append the concatenation of what was appended. */
  lemma AppendTwice<T>(start: seq<T>, middle: seq<T>, end: seq<T>, first: seq<T>, second: seq<T>)
    requires middle == start + first && end == middle + second
    ensures end == start + (first + second)
  {
  }

  /** The empty sequence is a right unit of concatenation. */
  lemma AppendEmpty<T>(a: seq<T>)
    ensures a + [] == a
  {
  }
}
