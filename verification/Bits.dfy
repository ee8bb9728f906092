/**
 Machine words as natural numbers below 2^64, and shifts and bitwise operators on them.
 */
module Bits {

  const WORD_SIZE: nat := 0x1_0000_0000_0000_0000

  /** A `std::size_t` or `std::uint64_t`. */
  type Word = w: nat | w < WORD_SIZE

  /** Reduction to a word: unsigned arithmetic wraps around. */
  function Wrap(n: int): (w: Word) {
    n % WORD_SIZE
  }

  lemma WrapPredecessor(n: nat)
    requires n <= WORD_SIZE
    ensures Wrap(n - 1) == if n == 0 then WORD_SIZE - 1 else n - 1
  {
  }

  lemma WrapShift(n: int, d: int)
    ensures Wrap(Wrap(n) + d) == Wrap(n + d)
  {
  }

  function Pow2(k: nat): (p: nat)
    ensures p > 0
  {
    if k == 0 then 1 else 2 * Pow2(k - 1)
  }

  /** k one bits. */
  function Ones(k: nat): (p: nat)
    ensures p == Pow2(k) - 1
  {
    if k == 0 then 0 else 1 + 2 * Ones(k - 1)
  }

  /** `x >> k` */
  function Shr(x: nat, k: nat): nat {
    if k == 0 then x else Shr(x / 2, k - 1)
  }

  /** The low k bits of x. */
  function Low(x: nat, k: nat): nat {
    if k == 0 then 0 else x % 2 + 2 * Low(x / 2, k - 1)
  }

  datatype Op = And | Or | Xor {
    function OnBits(x: nat, y: nat): nat {
      match this
      case And => if x == 1 && y == 1 then 1 else 0
      case Or => if x == 1 || y == 1 then 1 else 0
      case Xor => if x != y then 1 else 0
    }
  }

  /** The bitwise operators, from the low bit upwards. */
  function Bitwise(op: Op, a: nat, b: nat): nat
    decreases a + b
  {
    if a == 0 && b == 0 then 0
    else op.OnBits(a % 2, b % 2) + 2 * Bitwise(op, a / 2, b / 2)
  }

  lemma {:induction false} Pow2Monotonic(j: nat, k: nat)
    requires j <= k
    ensures Pow2(j) <= Pow2(k)
  {
    if j < k {
      Pow2Monotonic(j, k - 1);
    }
  }

  lemma {:induction false} Pow2Sum(j: nat, k: nat)
    ensures Pow2(j + k) == Pow2(j) * Pow2(k)
  {
    if j > 0 {
      Pow2Sum(j - 1, k);
      DoubleProduct(Pow2(j - 1), Pow2(k));
    }
  }

  lemma DoubleProduct(a: int, b: int)
    ensures (2 * a) * b == 2 * (a * b) == a * (2 * b)
  {
  }

  lemma Pow2Of64()
    ensures Pow2(31) == 0x8000_0000 && Pow2(33) == 0x2_0000_0000
    ensures Pow2(63) == WORD_SIZE / 2 && Pow2(64) == WORD_SIZE
  {
    assert Pow2(15) == 0x8000 && Pow2(16) == 0x1_0000;
    Pow2Sum(16, 15);
    Pow2Sum(16, 16);
    Pow2Sum(32, 31);
    Pow2Sum(32, 32);
  }

  lemma {:induction false} ShrBound(x: nat, j: nat, k: nat)
    requires x < Pow2(j + k)
    ensures Shr(x, j) < Pow2(k)
  {
    if j > 0 {
      ShrBound(x / 2, j - 1, k);
    }
  }

  lemma ShrZero(x: nat, j: nat, k: nat)
    requires x < Pow2(j) && j <= k
    ensures Shr(x, k) == 0
  {
    Pow2Monotonic(j, k);
    ShrBound(x, k, 0);
  }

  lemma {:induction false} ShrShr(x: nat, j: nat, k: nat)
    ensures Shr(Shr(x, j), k) == Shr(x, j + k)
  {
    if j > 0 {
      ShrShr(x / 2, j - 1, k);
    }
  }

  lemma {:induction false} BitwiseBound(op: Op, a: nat, b: nat, k: nat)
    requires a < Pow2(k) && b < Pow2(k)
    ensures Bitwise(op, a, b) < Pow2(k)
  {
    if k > 0 {
      BitwiseBound(op, a / 2, b / 2, k - 1);
    }
  }

  lemma {:induction false} BitwiseZero(op: Op, a: nat)
    ensures Bitwise(op, a, 0) == if op == And then 0 else a
  {
    if a > 0 {
      BitwiseZero(op, a / 2);
    }
  }

  lemma {:induction false} BitwiseHalves(op: Op, a: nat, b: nat)
    ensures Bitwise(op, a, b) / 2 == Bitwise(op, a / 2, b / 2)
    ensures Bitwise(op, a, b) % 2 == op.OnBits(a % 2, b % 2)
  {
  }

  lemma {:induction false} ShrBitwise(op: Op, a: nat, b: nat, k: nat)
    ensures Shr(Bitwise(op, a, b), k) == Bitwise(op, Shr(a, k), Shr(b, k))
  {
    if k > 0 {
      BitwiseHalves(op, a, b);
      ShrBitwise(op, a / 2, b / 2, k - 1);
    }
  }

  lemma {:induction false} XorCancels(a: nat, b: nat)
    ensures Bitwise(Xor, Bitwise(Xor, a, b), b) == a
    decreases a + b
  {
    if a + b > 0 {
      BitwiseHalves(Xor, a, b);
      BitwiseHalves(Xor, Bitwise(Xor, a, b), b);
      XorCancels(a / 2, b / 2);
    }
  }

  lemma {:induction false} AndOnes(a: nat, k: nat)
    ensures Bitwise(And, a, Ones(k)) == Low(a, k)
  {
    if k == 0 {
      BitwiseZero(And, a);
    } else {
      AndOnes(a / 2, k - 1);
      BitwiseHalves(And, a, Ones(k));
    }
  }

  lemma {:induction false} ShrAndLow(x: nat, k: nat)
    ensures x == Shr(x, k) * Pow2(k) + Low(x, k)
    ensures Low(x, k) < Pow2(k)
  {
    if k > 0 {
      ShrAndLow(x / 2, k - 1);
      DoubleProduct(Shr(x, k), Pow2(k - 1));
    }
  }

  lemma LowIsModulo(x: nat, k: nat)
    ensures Low(x, k) == x % Pow2(k)
  {
    ShrAndLow(x, k);
    ModuloUnique(x, Pow2(k), Shr(x, k), Low(x, k));
  }

  lemma ModuloUnique(a: int, n: nat, q: int, r: int)
    requires 0 <= r < n && a == q * n + r
    ensures a % n == r && a / n == q
  {
    var d := a / n - q;
    assert d * n == r - a % n;
    MultipleIsZeroOrLarge(d, n);
  }

  lemma MultipleIsZeroOrLarge(d: int, n: nat)
    ensures d == 0 || d * n >= n || d * n <= -(n as int)
  {
    if d > 0 {
      assert (d - 1) * n >= 0;
    } else if d < 0 {
      assert (-d - 1) * n >= 0;
    }
  }

  /** Reducing first modulo n * m does not disturb the residue modulo n. */
  lemma ModuloOfModulo(a: int, n: nat, m: nat)
    requires n > 0 && m > 0
    ensures n * m > 0 && (a % (n * m)) % n == a % n
  {
    var q := a / (n * m);
    var r := a % (n * m);
    assert a == q * (n * m) + r;
    assert q * (n * m) == (q * m) * n;
    assert r == (r / n) * n + r % n;
    assert (q * m) * n + (r / n) * n == (q * m + r / n) * n;
    ModuloUnique(a, n, q * m + r / n, r % n);
  }
}
