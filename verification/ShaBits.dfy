/** The logical functions and the starting value of SHA-512, told bit by bit and by arithmetic. */
module ShaBits {
  import opened Fips180

  /** Bit i of x; places are counted in six bits, so that i + n is the place n above i, around the end. */
  predicate Bit(x: Word64, i: bv6) {
    (x >> (i as bv7)) & 1 == 1
  }

  // The operators under names of their own.

  function And(x: Word64, y: Word64): Word64 {
    x & y
  }

  function Not(x: Word64): Word64 {
    !x
  }

  lemma RawXorBits(x: Word64, y: Word64, i: bv6)
    ensures Bit(x ^ y, i) == (Bit(x, i) != Bit(y, i))
  {
  }

  lemma XorBits(x: Word64, y: Word64, i: bv6)
    ensures Bit(XorWord(x, y), i) == (Bit(x, i) != Bit(y, i))
  {
    hide Bit;
    RawXorBits(x, y, i);
  }

  lemma AndBits(x: Word64, y: Word64, i: bv6)
    ensures Bit(And(x, y), i) == (Bit(x, i) && Bit(y, i))
  {
  }

  lemma NotBits(x: Word64, i: bv6)
    ensures Bit(Not(x), i) == !Bit(x, i)
  {
  }

  /** An odd number of the three. */
  predicate Odd(a: bool, b: bool, c: bool) {
    a != (b != c)
  }

  lemma Xor3Bits(x: Word64, y: Word64, z: Word64, i: bv6)
    ensures Bit(XorWord(XorWord(x, y), z), i) == Odd(Bit(x, i), Bit(y, i), Bit(z, i))
  {
    hide Bit, XorWord;
    XorBits(x, y, i);
    XorBits(XorWord(x, y), z, i);
  }

  // A rotation takes bit i from the bit so many places above it, around the end; a shift has no bit there.

  lemma Rotated1(x: Word64, i: bv6)
    ensures Bit(Rotr(x, 1), i) == Bit(x, i + 1)
  {
  }

  lemma Rotated8(x: Word64, i: bv6)
    ensures Bit(Rotr(x, 8), i) == Bit(x, i + 8)
  {
  }

  lemma Rotated14(x: Word64, i: bv6)
    ensures Bit(Rotr(x, 14), i) == Bit(x, i + 14)
  {
  }

  lemma Rotated18(x: Word64, i: bv6)
    ensures Bit(Rotr(x, 18), i) == Bit(x, i + 18)
  {
  }

  lemma Rotated19(x: Word64, i: bv6)
    ensures Bit(Rotr(x, 19), i) == Bit(x, i + 19)
  {
  }

  lemma Rotated28(x: Word64, i: bv6)
    ensures Bit(Rotr(x, 28), i) == Bit(x, i + 28)
  {
  }

  lemma Rotated34(x: Word64, i: bv6)
    ensures Bit(Rotr(x, 34), i) == Bit(x, i + 34)
  {
  }

  lemma Rotated39(x: Word64, i: bv6)
    ensures Bit(Rotr(x, 39), i) == Bit(x, i + 39)
  {
  }

  lemma Rotated41(x: Word64, i: bv6)
    ensures Bit(Rotr(x, 41), i) == Bit(x, i + 41)
  {
  }

  lemma Rotated61(x: Word64, i: bv6)
    ensures Bit(Rotr(x, 61), i) == Bit(x, i + 61)
  {
  }

  lemma Shifted6(x: Word64, i: bv6)
    ensures Bit(Shr(x, 6), i) == (i < 58 && Bit(x, i + 6))
  {
  }

  lemma Shifted7(x: Word64, i: bv6)
    ensures Bit(Shr(x, 7), i) == (i < 57 && Bit(x, i + 7))
  {
  }

  lemma ChForm(x: Word64, y: Word64, z: Word64)
    ensures Ch(x, y, z) == XorWord(And(x, y), And(Not(x), z))
  {
  }

  lemma Xor3Form(x: Word64, y: Word64, z: Word64)
    ensures XorWord(XorWord(x, y), z) == x ^ y ^ z
  {
  }

  lemma MajForm(x: Word64, y: Word64, z: Word64)
    ensures Maj(x, y, z) == XorWord(XorWord(And(x, y), And(x, z)), And(y, z))
  {
    hide XorWord;
    Xor3Form(x & y, x & z, y & z);
  }

  /** Section 4.1.3: every bit of the four sigmas. */
  lemma BigSigma0Bits(x: Word64, i: bv6)
    ensures Bit(BigSigma0(x), i) == Odd(Bit(x, i + 28), Bit(x, i + 34), Bit(x, i + 39))
  {
    hide Bit, Rotr, XorWord, Shr;
    Rotated28(x, i);
    Rotated34(x, i);
    Rotated39(x, i);
    Xor3Bits(Rotr(x, 28), Rotr(x, 34), Rotr(x, 39), i);
  }

  lemma BigSigma1Bits(x: Word64, i: bv6)
    ensures Bit(BigSigma1(x), i) == Odd(Bit(x, i + 14), Bit(x, i + 18), Bit(x, i + 41))
  {
    hide Bit, Rotr, XorWord, Shr;
    Rotated14(x, i);
    Rotated18(x, i);
    Rotated41(x, i);
    Xor3Bits(Rotr(x, 14), Rotr(x, 18), Rotr(x, 41), i);
  }

  lemma SmallSigma0Bits(x: Word64, i: bv6)
    ensures Bit(SmallSigma0(x), i) == Odd(Bit(x, i + 1), Bit(x, i + 8), i < 57 && Bit(x, i + 7))
  {
    hide Bit, Rotr, XorWord, Shr;
    Rotated1(x, i);
    Rotated8(x, i);
    Shifted7(x, i);
    Xor3Bits(Rotr(x, 1), Rotr(x, 8), Shr(x, 7), i);
  }

  lemma SmallSigma1Bits(x: Word64, i: bv6)
    ensures Bit(SmallSigma1(x), i) == Odd(Bit(x, i + 19), Bit(x, i + 61), i < 58 && Bit(x, i + 6))
  {
    hide Bit, Rotr, XorWord, Shr;
    Rotated19(x, i);
    Rotated61(x, i);
    Shifted6(x, i);
    Xor3Bits(Rotr(x, 19), Rotr(x, 61), Shr(x, 6), i);
  }

  /** Bit i of x chooses between the bits of y and z. */
  lemma ChooseBits(x: Word64, y: Word64, z: Word64, i: bv6)
    ensures Bit(Ch(x, y, z), i) == if Bit(x, i) then Bit(y, i) else Bit(z, i)
  {
    hide Bit, XorWord, And, Not, Ch;
    ChForm(x, y, z);
    AndBits(x, y, i);
    NotBits(x, i);
    AndBits(Not(x), z, i);
    XorBits(And(x, y), And(Not(x), z), i);
  }

  /** The bit that at least two of the three have. */
  lemma MajorityBits(x: Word64, y: Word64, z: Word64, i: bv6)
    ensures Bit(Maj(x, y, z), i) == if Bit(x, i) == Bit(y, i) then Bit(x, i) else Bit(z, i)
  {
    hide Bit, XorWord, And, Maj;
    MajForm(x, y, z);
    AndBits(x, y, i);
    AndBits(x, z, i);
    AndBits(y, z, i);
    Xor3Bits(And(x, y), And(x, z), And(y, z), i);
  }

  /** The whole part of the root of p is w, and h is the first 64 bits behind the point. */
  predicate RootOf(p: nat, w: nat, h: nat) {
    var r := w * 0x1_0000_0000_0000_0000 + h;
    r * r <= p * 0x1_0000_0000_0000_0000_0000_0000_0000_0000 < (r + 1) * (r + 1)
  }

  /** Section 5.3.5: the starting value is made of the square roots of the first eight primes. */
  lemma StartIsRoots()
    ensures RootOf(2, 1, H0[0] as nat) && RootOf(3, 1, H0[1] as nat)
    ensures RootOf(5, 2, H0[2] as nat) && RootOf(7, 2, H0[3] as nat)
    ensures RootOf(11, 3, H0[4] as nat) && RootOf(13, 3, H0[5] as nat)
    ensures RootOf(17, 4, H0[6] as nat) && RootOf(19, 4, H0[7] as nat)
  {
  }

  lemma LengthWord()
    ensures ToWord(0x1_0000_0000_0000_0018) == ToWord(24)
  {
    assert 0x1_0000_0000_0000_0018 % TWO64 == 24;
  }

  lemma SmallWords()
    ensures ToWord(1) == 1 && ToWord(24) == 24
  {
  }

  lemma WordsInBytes()
    ensures WordBytes(1) == [0, 0, 0, 0, 0, 0, 0, 1] && WordBytes(24) == [0, 0, 0, 0, 0, 0, 0, 24]
    ensures WordBytes(0x0102_0304_0506_0708) == [1, 2, 3, 4, 5, 6, 7, 8]
  {
  }

  /** The length of a message stands in bits, in both words, most significant byte first. */
  lemma LengthField()
    ensures LengthBytes(0x2000_0000_0000_0003)[..8] == [0, 0, 0, 0, 0, 0, 0, 1]
    ensures LengthBytes(0x2000_0000_0000_0003)[8..] == [0, 0, 0, 0, 0, 0, 0, 24]
  {
    hide WordBytes, ToWord;
    LengthWord();
    SmallWords();
    WordsInBytes();
  }
}
