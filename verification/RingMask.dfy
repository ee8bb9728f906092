/**
 The index mask of `BlkRingQueue`: the or-and-shift loop of its constructor (blkringqueue.h) and
 the cyclic indexing by free-running counters that the mask makes possible.
 */
module RingMask {
  import opened Bits

  /** The number of significant bits: the least n with x < 2^n. */
  function BitLength(x: nat): (n: nat)
    ensures x < Pow2(n)
    ensures x > 0 ==> n > 0 && Pow2(n - 1) <= x
  {
    if x == 0 then 0 else 1 + BitLength(x / 2)
  }

  /** `x |= x >> shift` */
  function Smear(x: nat, shift: nat): nat {
    Bitwise(Or, x, Shr(x, shift))
  }

  /** The upper t of x's n bits are ones. */
  ghost predicate TopBitsSet(x: nat, n: nat, t: nat) {
    x < Pow2(n) && if t >= n then x == Ones(n) else Shr(x, n - t) == Ones(t)
  }

  lemma {:induction false} TopBitIsSet(x: nat)
    ensures TopBitsSet(x, BitLength(x), 1)
  {
    if x > 0 {
      TopBitIsSet(x / 2);
    }
  }

  /** Or-ing x with itself shifted by t doubles a run of t leading ones. */
  lemma SmearDoublesRun(x: nat, n: nat, t: nat)
    requires TopBitsSet(x, n, t)
    ensures TopBitsSet(Smear(x, t), n, 2 * t)
  {
    var s := Shr(x, t);
    if t >= n {
      ShrZero(x, n, t);
      BitwiseZero(Or, x);
    } else if 2 * t >= n {
      ShrShr(x, n - t, 2 * t - n);
      ShrOnes(t, 2 * t - n);
      OrFillsOnes(x, n - t, t);
    } else {
      ShrShr(x, n - 2 * t, t);
      ShrShr(x, t, n - 2 * t);
      OrFillsOnes(Shr(x, n - 2 * t), t, t);
      ShrBitwise(Or, x, s, n - 2 * t);
      SmearBound(x, t, n);
    }
  }

  lemma SmearBound(x: nat, t: nat, n: nat)
    requires x < Pow2(n) && t <= n
    ensures Smear(x, t) < Pow2(n)
  {
    ShrBound(x, t, n - t);
    Pow2Monotonic(n - t, n);
    BitwiseBound(Or, x, Shr(x, t), n);
  }

  lemma {:induction false} ShrOnes(n: nat, k: nat)
    requires k <= n
    ensures Shr(Ones(n), k) == Ones(n - k)
  {
    if k > 0 {
      ShrOnes(n - 1, k - 1);
    }
  }

  lemma {:induction false} OrFillsOnes(x: nat, k: nat, t: nat)
    requires Shr(x, k) == Ones(t)
    ensures Bitwise(Or, x, Ones(k)) == Ones(k + t)
  {
    if k == 0 {
      BitwiseZero(Or, x);
    } else {
      OrFillsOnes(x / 2, k - 1, t);
      BitwiseHalves(Or, x, Ones(k));
    }
  }

  /** The capacities a counting semaphore can hold: those of `ptrdiff_t`. */
  const MAX_CAPACITY: nat := WORD_SIZE / 2 - 1

  /** The mask the constructor promises: one less than the least power of two that reaches the capacity. */
  ghost predicate IsMask(mask: nat, capacity: nat) {
    && (exists n: nat :: mask + 1 == Pow2(n))
    && mask + 1 >= capacity
    && forall j: nat :: Pow2(j) >= capacity ==> Pow2(j) >= mask + 1
  }

  /** The constructor's mask computation; a capacity of 0 wraps around to a mask of all ones. */
  method ComputeMask(capacity: nat) returns (mask: Word)
    requires capacity <= MAX_CAPACITY
    ensures capacity == 0 ==> mask == WORD_SIZE - 1
    ensures capacity > 0 ==> IsMask(mask, capacity) && mask < WORD_SIZE / 2
  {
    var cap: nat := Wrap(capacity - 1);
    WrapPredecessor(capacity);
    ghost var x: Word := cap;
    ghost var n := BitLength(x);
    cap := SmearByte(cap);
    var i := 1;
    while i < 8
      invariant i >= 1 && TopBitsSet(cap, n, 8 * i)
    {
      SmearDoublesRun(cap, n, 8 * i);
      cap := Smear(cap, 8 * i);
      i := i * 2;
    }
    OnesAreTheMask(capacity, x, cap, 8 * i);
    mask := cap;
  }

  /** The shifts by less than a byte. */
  method SmearByte(x: nat) returns (cap: nat)
    ensures TopBitsSet(cap, BitLength(x), 8)
  {
    TopBitIsSet(x);
    SmearDoublesRun(x, BitLength(x), 1);
    cap := Smear(x, 1);
    SmearDoublesRun(cap, BitLength(x), 2);
    cap := Smear(cap, 2);
    SmearDoublesRun(cap, BitLength(x), 4);
    cap := Smear(cap, 4);
  }

  lemma OnesAreTheMask(capacity: nat, x: Word, ones: nat, t: nat)
    requires capacity <= MAX_CAPACITY
    requires x == if capacity == 0 then WORD_SIZE - 1 else capacity - 1
    requires t >= 64 && TopBitsSet(ones, BitLength(x), t)
    ensures ones < WORD_SIZE
    ensures capacity == 0 ==> ones == WORD_SIZE - 1
    ensures capacity > 0 ==> IsMask(ones, capacity) && ones < WORD_SIZE / 2
  {
    LengthFits(x);
    if capacity > 0 {
      LeastPowerReached(x);
    }
  }

  lemma LengthFits(x: Word)
    ensures BitLength(x) <= 64
    ensures x == WORD_SIZE - 1 ==> Pow2(BitLength(x)) == WORD_SIZE
    ensures Pow2(BitLength(x)) <= if x < WORD_SIZE / 2 then WORD_SIZE / 2 else WORD_SIZE
  {
    Pow2Of64();
    var n := BitLength(x);
    if n > 64 {
      Pow2Monotonic(64, n - 1);
    } else if n < 64 {
      Pow2Monotonic(n, 63);
    }
  }

  lemma LeastPowerReached(x: nat)
    ensures IsMask(Ones(BitLength(x)), x + 1)
  {
    var n := BitLength(x);
    forall j: nat | Pow2(j) >= x + 1
      ensures Pow2(j) >= Pow2(n)
    {
      if j < n {
        Pow2Monotonic(j, n - 1);
      } else {
        Pow2Monotonic(n, j);
      }
    }
  }

  /** `counter & mask` of a wrapped counter is the unwrapped count modulo the number of cells. */
  lemma MaskedCounterIsCyclic(count: nat, mask: nat, n: nat)
    requires mask + 1 == Pow2(n) && n <= 64
    ensures Bitwise(And, Wrap(count), mask) == count % (mask + 1)
  {
    AndOnes(Wrap(count), n);
    LowIsModulo(Wrap(count), n);
    Pow2Of64();
    Pow2Sum(n, 64 - n);
    ModuloOfModulo(count, Pow2(n), Pow2(64 - n));
  }
}
