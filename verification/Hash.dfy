/**
 The pointer hash under every key of the server: `toHash` of src/core/global.h, the 64-bit
 finalizer of MurmurHash3. The server relies on it being free of collisions; it is in fact a
 permutation of the 64-bit words, with an explicit inverse.
 */
module Hash {
  import opened Bits

  const MULTIPLIER_1: Word := 0xff51afd7ed558ccd
  const MULTIPLIER_2: Word := 0xc4ceb9fe1a85ec53

  // The inverses of the two multipliers modulo 2^64.
  const INVERSE_1: Word := 0x4f74430c22a54005
  const INVERSE_2: Word := 0x9cb4b2f8129337db

  /** `h ^ (h >> 33)` */
  function XorShift33(h: Word): Word {
    XorShiftFits(h);
    Bitwise(Xor, h, Shr(h, 33))
  }

  function Multiply(h: Word, factor: Word): Word {
    Wrap(h * factor)
  }

  function ToHash(ptr: Word): Word {
    var h := XorShift33(ptr);
    var h := Multiply(h, MULTIPLIER_1);
    var h := XorShift33(h);
    var h := Multiply(h, MULTIPLIER_2);
    XorShift33(h)
  }

  lemma XorShiftByDivision(h: Word)
    ensures XorShift33(h) == Bitwise(Xor, h, h / 0x2_0000_0000)
  {
    Pow2Of64();
    ShrAndLow(h, 33);
    ModuloUnique(h, Pow2(33), Shr(h, 33), Low(h, 33));
  }

  /** The five stages in terms of division, product and remainder, with the constants of the finalizer. */
  lemma ToHashByArithmetic(ptr: Word)
    ensures var a: nat := Bitwise(Xor, ptr, ptr / 0x2_0000_0000);
            var b: nat := (a * 0xff51afd7ed558ccd) % 0x1_0000_0000_0000_0000;
            var c: nat := Bitwise(Xor, b, b / 0x2_0000_0000);
            var d: nat := (c * 0xc4ceb9fe1a85ec53) % 0x1_0000_0000_0000_0000;
            ToHash(ptr) == Bitwise(Xor, d, d / 0x2_0000_0000)
  {
    var b := Multiply(XorShift33(ptr), MULTIPLIER_1);
    XorShiftByDivision(ptr);
    XorShiftByDivision(b);
    XorShiftByDivision(Multiply(XorShift33(b), MULTIPLIER_2));
  }

  /** The five stages of ToHash, undone last to first. */
  function FromHash(hash: Word): Word {
    var h := XorShift33(hash);
    var h := Multiply(h, INVERSE_2);
    var h := XorShift33(h);
    var h := Multiply(h, INVERSE_1);
    XorShift33(h)
  }

  lemma XorShiftFits(h: Word)
    ensures Shr(h, 33) < Pow2(31) && Bitwise(Xor, h, Shr(h, 33)) < WORD_SIZE
  {
    Pow2Of64();
    ShrBound(h, 33, 31);
    BitwiseBound(Xor, h, Shr(h, 33), 64);
  }

  /** The shift exceeds half the word, so the bits shifted in are bits the stage left alone. */
  lemma XorShiftIsInvolution(h: Word)
    ensures XorShift33(XorShift33(h)) == h
  {
    var s := Shr(h, 33);
    XorShiftFits(h);
    ShrZero(s, 31, 33);
    ShrBitwise(Xor, h, s, 33);
    BitwiseZero(Xor, s);
    assert Shr(XorShift33(h), 33) == s;
    XorCancels(h, s);
  }

  lemma MultiplyIsInvertible(h: Word, factor: Word, inverse: Word)
    requires Wrap(factor * inverse) == 1
    ensures Multiply(Multiply(h, factor), inverse) == h
  {
    var q := h * factor / WORD_SIZE;
    var k := factor * inverse / WORD_SIZE;
    var m := Multiply(h, factor);
    assert h * factor == q * WORD_SIZE + m;
    assert factor * inverse == k * WORD_SIZE + 1;
    calc {
      m * inverse;
      (h * factor - q * WORD_SIZE) * inverse;
      h * factor * inverse - q * WORD_SIZE * inverse;
      { assert h * factor * inverse == h * (factor * inverse); }
      h * (k * WORD_SIZE + 1) - q * WORD_SIZE * inverse;
      (h * k - q * inverse) * WORD_SIZE + h;
    }
    ModuloUnique(m * inverse, WORD_SIZE, h * k - q * inverse, h);
  }

  lemma FromHashUndoesToHash(ptr: Word)
    ensures FromHash(ToHash(ptr)) == ptr
  {
    var a := XorShift33(ptr);
    var b := Multiply(a, MULTIPLIER_1);
    var c := XorShift33(b);
    XorShiftIsInvolution(Multiply(c, MULTIPLIER_2));
    MultiplyIsInvertible(c, MULTIPLIER_2, INVERSE_2);
    XorShiftIsInvolution(b);
    MultiplyIsInvertible(a, MULTIPLIER_1, INVERSE_1);
    XorShiftIsInvolution(ptr);
  }

  lemma ToHashUndoesFromHash(hash: Word)
    ensures ToHash(FromHash(hash)) == hash
  {
    var a := XorShift33(hash);
    var b := Multiply(a, INVERSE_2);
    var c := XorShift33(b);
    XorShiftIsInvolution(Multiply(c, INVERSE_1));
    MultiplyIsInvertible(c, INVERSE_1, MULTIPLIER_1);
    XorShiftIsInvolution(b);
    MultiplyIsInvertible(a, INVERSE_2, MULTIPLIER_2);
    XorShiftIsInvolution(hash);
  }

  /** Distinct pointers have distinct hashes, and every word is the hash of exactly one pointer. */
  lemma ToHashIsBijective()
    ensures forall p: Word, q: Word :: ToHash(p) == ToHash(q) ==> p == q
    ensures forall hash: Word :: ToHash(FromHash(hash)) == hash
  {
    forall p: Word, q: Word | ToHash(p) == ToHash(q)
      ensures p == q
    {
      FromHashUndoesToHash(p);
      FromHashUndoesToHash(q);
    }
    forall hash: Word
      ensures ToHash(FromHash(hash)) == hash
    {
      ToHashUndoesFromHash(hash);
    }
  }

  lemma MultiplyZero(factor: Word)
    ensures Multiply(0, factor) == 0
  {
  }

  /** Only null hashes to 0, the value `removePlugin` and `disconnectClient` read as "no hash". */
  lemma ToHashZeroOnlyForNull(ptr: Word)
    ensures ToHash(ptr) == 0 <==> ptr == 0
  {
    ShrBound(0, 33, 0);
    assert XorShift33(0) == 0;
    MultiplyZero(MULTIPLIER_1);
    MultiplyZero(MULTIPLIER_2);
    assert ToHash(0) == 0;
    FromHashUndoesToHash(0);
    FromHashUndoesToHash(ptr);
  }
}
