/**
 * What the operations of the twister do to their words, by laws that do not repeat how they are
 * computed: together they leave each of them only one possible value.
 */
module MersenneLaws {
  import opened MersenneSpec
  import opened Words

  /** Folding adds the two top bits to the two lowest. */
  lemma FoldedByParts(top: Word, low: Word)
    requires top < 4 && low < 0x4000_0000
    ensures Folded(top * 0x4000_0000 + low) == top * 0x4000_0000 + (low ^ top)
  {
  }

  lemma FoldedTwice(w: Word)
    ensures Folded(Folded(w)) == w
  {
  }

  // Sums of words.

  lemma PlusUp(x: Word, n: Word)
    ensures Plus(x, Up(n)) == Up(Plus(x, n))
  {
    assert Plus(x, n + 1) == Up(x + n);
  }

  lemma UpPlus(x: Word, n: Word)
    ensures Plus(Up(x), n) == Up(Plus(x, n))
  {
    assert Plus(x + 1, n) == Up(x + n);
  }

  function Down(x: Word): Word {
    x - 1
  }

  lemma MinusUp(x: Word, n: Word)
    ensures Minus(x, Up(n)) == Down(Minus(x, n))
  {
    assert Minus(x, n + 1) == Down(x - n);
  }

  lemma PlusMinus(x: Word, n: Word)
    ensures Minus(Plus(x, n), n) == x
  {
    assert Minus(x + n, n) == x;
  }

  lemma MinusPlus(x: Word, n: Word)
    ensures Plus(Minus(x, n), n) == x
  {
    assert Plus(x - n, n) == x;
  }

  lemma XorBack(x: Word, c: Word)
    ensures XorWord(XorWord(x, c), c) == x
  {
    assert XorWord(x ^ c, c) == x;
  }

  lemma XorFront(x: Word, c: Word)
    ensures XorWord(XorWord(x, c), x) == c
  {
    assert XorWord(x ^ c, x) == c;
  }

  // The inverses of the three factors modulo 2^32.

  function Unscaled(x: Word): Word {
    x * 0x9638_806D
  }

  function KeyUnspread(x: Word): Word {
    x * 0xFEE0_58C5
  }

  function IndexUnspread(x: Word): Word {
    x * 0x6A76_AE6D
  }

  lemma ScaledBack(f: Word)
    ensures Unscaled(Scaled(f)) == f
  {
    assert Unscaled(f * 0x6C07_8965) == f;
  }

  lemma KeySpreadBack(f: Word)
    ensures KeyUnspread(KeySpread(f)) == f
  {
    assert KeyUnspread(f * 1664525) == f;
  }

  lemma IndexSpreadBack(f: Word)
    ensures IndexUnspread(IndexSpread(f)) == f
  {
    assert IndexUnspread(f * 1566083941) == f;
  }

  /** Scaling counts with the index, and the word that was scaled can be told. */
  lemma ScaleLaws(p: Word, i: nat)
    requires i < 624
    ensures i + 1 < 624 ==> Scale(p, i + 1) == Up(Scale(p, i))
    ensures Folded(Unscaled(Minus(Scale(p, i), Number(i)))) == p
  {
    hide Folded, Plus, Minus, Up, Scaled, Unscaled;
    var y := Scaled(Folded(p));
    PlusUp(y, Number(i));
    PlusMinus(y, Number(i));
    ScaledBack(Folded(p));
    FoldedTwice(p);
  }

  lemma NothingToAdd(c: Word)
    ensures AddKey(0, c, 0, 0) == c && TakeIndex(0, c, 0) == c
  {
  }

  /** Adding the key counts with the index and the key word; both words it came from can be told. */
  lemma AddKeyLaws(p: Word, c: Word, w: Word, j: nat)
    requires j < 4
    ensures j + 1 < 4 ==> AddKey(p, c, w, j + 1) == Up(AddKey(p, c, w, j))
    ensures AddKey(p, c, Up(w), j) == Up(AddKey(p, c, w, j))
    ensures var y := Minus(AddKey(p, c, w, j), Plus(w, Number(j)));
            Folded(KeyUnspread(XorWord(y, c))) == p && XorWord(y, KeySpread(Folded(p))) == c
  {
    hide Folded, Plus, Minus, Up, KeySpread, KeyUnspread, XorWord;
    var x, n := KeySpread(Folded(p)), Number(j);
    var y := XorWord(x, c);
    PlusUp(w, n);
    UpPlus(w, n);
    PlusUp(y, Plus(w, n));
    PlusMinus(y, Plus(w, n));
    XorBack(x, c);
    XorFront(x, c);
    KeySpreadBack(Folded(p));
    FoldedTwice(p);
  }

  /** Taking the index away counts down with it. */
  lemma TakeIndexLaws(p: Word, c: Word, i: nat)
    requires i < 624
    ensures i + 1 < 624 ==> TakeIndex(p, c, i + 1) == Down(TakeIndex(p, c, i))
    ensures var y := Plus(TakeIndex(p, c, i), Number(i));
            Folded(IndexUnspread(XorWord(y, c))) == p && XorWord(y, IndexSpread(Folded(p))) == c
  {
    hide Folded, Plus, Minus, Up, Down, IndexSpread, IndexUnspread, XorWord;
    var x, n := IndexSpread(Folded(p)), Number(i);
    var y := XorWord(x, c);
    MinusUp(y, n);
    MinusPlus(y, n);
    XorBack(x, c);
    XorFront(x, c);
    IndexSpreadBack(Folded(p));
    FoldedTwice(p);
  }

  const EXAMPLE := Key(0x123, 0x234, 0x345, 0x456)

  lemma SeedWords()
    ensures FromOne(19650218, 0) == 0x012B_D6AA && FromOne(19650218, 1) == 0x82D2_AB13
    ensures FromOne(19650218, 2) == 0x3420_96B7 && FromOne(19650218, 3) == 0x5484_6536
    ensures FromOne(19650218, 4) == 0x2AE7_5DB7 && FromOne(19650218, 5) == 0x826F_E838
  {
    assert FromOne(19650218, 1) == 0x82D2_AB13;
    assert FromOne(19650218, 2) == 0x3420_96B7;
    assert FromOne(19650218, 3) == 0x5484_6536;
    assert FromOne(19650218, 4) == 0x2AE7_5DB7;
  }

  lemma AddSteps()
    ensures AddKey(0x012B_D6AA, 0x82D2_AB13, 0x123, 0) == 0xFF89_0AD4
    ensures AddKey(0xFF89_0AD4, 0x3420_96B7, 0x234, 1) == 0x9766_A291
    ensures AddKey(0x9766_A291, 0x5484_6536, 0x345, 2) == 0x21D3_B988
    ensures AddKey(0x21D3_B988, 0x2AE7_5DB7, 0x456, 3) == 0x1B13_CAB8
    ensures AddKey(0x1B13_CAB8, 0x826F_E838, 0x123, 0) == 0x8CD1_7483
  {
  }

  /** The first words that seeding with this key writes. */
  lemma KeyWords()
    ensures Mixed(19650218, EXAMPLE, 624) == 0xFF89_0AD4 && Mixed(19650218, EXAMPLE, 625) == 0x9766_A291
    ensures Mixed(19650218, EXAMPLE, 626) == 0x21D3_B988 && Mixed(19650218, EXAMPLE, 627) == 0x1B13_CAB8
    ensures Mixed(19650218, EXAMPLE, 628) == 0x8CD1_7483
  {
    hide AddKey, FromOne;
    SeedWords();
    AddSteps();
    assert Mixed(19650218, EXAMPLE, 624) == 0xFF89_0AD4;
    assert Mixed(19650218, EXAMPLE, 625) == 0x9766_A291;
    assert Mixed(19650218, EXAMPLE, 626) == 0x21D3_B988;
    assert Mixed(19650218, EXAMPLE, 627) == 0x1B13_CAB8;
  }

  /** The word that either loop writes last at an index is the one that the table keeps. */
  lemma LastWritten(seed: Word, key: Key, t: nat)
    requires t < 1247 <= t + 623
    ensures FromKey(seed, key)[1 + t % 623] == Mixed(seed, key, 624 + t)
  {
    hide Mixed;
  }

  // The output.

  lemma Temper1Xor(x: Word, y: Word)
    ensures Temper1(XorWord(x, y)) == XorWord(Temper1(x), Temper1(y))
  {
    assert Temper1(x ^ y) == XorWord(x ^ (x >> 11), y ^ (y >> 11));
  }

  lemma Temper2Xor(x: Word, y: Word)
    ensures Temper2(XorWord(x, y)) == XorWord(Temper2(x), Temper2(y))
  {
    assert Temper2(x ^ y) == XorWord(x ^ ((x << 7) & 0x9D2C_5680), y ^ ((y << 7) & 0x9D2C_5680));
  }

  lemma Temper3Xor(x: Word, y: Word)
    ensures Temper3(XorWord(x, y)) == XorWord(Temper3(x), Temper3(y))
  {
    assert Temper3(x ^ y) == XorWord(x ^ ((x << 15) & 0xEFC6_0000), y ^ ((y << 15) & 0xEFC6_0000));
  }

  lemma Temper4Xor(x: Word, y: Word)
    ensures Temper4(XorWord(x, y)) == XorWord(Temper4(x), Temper4(y))
  {
    assert Temper4(x ^ y) == XorWord(x ^ (x >> 18), y ^ (y >> 18));
  }

  /** Tempering treats every bit by itself. */
  lemma TemperXor(x: Word, y: Word)
    ensures Temper(XorWord(x, y)) == XorWord(Temper(x), Temper(y))
  {
    hide XorWord, Temper1, Temper2, Temper3, Temper4;
    Temper1Xor(x, y);
    Temper2Xor(Temper1(x), Temper1(y));
    Temper3Xor(Temper2(Temper1(x)), Temper2(Temper1(y)));
    Temper4Xor(Temper3(Temper2(Temper1(x))), Temper3(Temper2(Temper1(y))));
  }

  /** The images of the single bits. */
  lemma TemperBits()
    ensures Temper(0x0000_0001) == 0x0040_0091 && Temper(0x0000_0002) == 0x0000_0002
    ensures Temper(0x0000_0004) == 0x0102_0244 && Temper(0x0000_0008) == 0x0204_0489
    ensures Temper(0x0000_0010) == 0x0000_0010 && Temper(0x0000_0020) == 0x0800_1220
    ensures Temper(0x0000_0040) == 0x0000_0040 && Temper(0x0000_0080) == 0x2040_4890
    ensures Temper(0x0000_0100) == 0x0080_0120 && Temper(0x0000_0200) == 0x0100_0240
    ensures Temper(0x0000_0400) == 0x0200_0480 && Temper(0x0000_0800) == 0x0444_0990
    ensures Temper(0x0000_1000) == 0x0808_1200 && Temper(0x0000_2000) == 0x0102_2244
    ensures Temper(0x0000_4000) == 0x2224_4C81 && Temper(0x0000_8000) == 0x4000_9010
    ensures Temper(0x0001_0000) == 0x8801_3220 && Temper(0x0002_0000) == 0x0102_0000
    ensures Temper(0x0004_0000) == 0x2044_4891 && Temper(0x0008_0000) == 0x0488_0022
    ensures Temper(0x0010_0000) == 0x0910_0044 && Temper(0x0020_0000) == 0x1220_0088
    ensures Temper(0x0040_0000) == 0x0444_0911 && Temper(0x0080_0000) == 0x0888_1222
    ensures Temper(0x0100_0000) == 0x8100_0040 && Temper(0x0200_0000) == 0x2220_4888
    ensures Temper(0x0400_0000) == 0x4400_9100 && Temper(0x0800_0000) == 0x8801_2200
    ensures Temper(0x1000_0000) == 0x1102_0440 && Temper(0x2000_0000) == 0x2004_0801
    ensures Temper(0x4000_0000) == 0x4408_1102 && Temper(0x8000_0000) == 0x8810_2204
  {
  }

  // The transition.

  /** The top bit of the one word and the rest of the other move down one place. */
  lemma NextOfEven(top: Word, x: Word, y: Word, u: Word, middle: Word)
    requires top < 2 && x < 0x8000_0000 && y < 2 && u < 0x4000_0000
    ensures Next(top * 0x8000_0000 + x, y * 0x8000_0000 + 2 * u, middle) == middle ^ (top * 0x4000_0000 + u)
  {
  }

  /** A bit that falls out adds a constant. */
  lemma NextOfOdd(top: Word, x: Word, y: Word, u: Word, middle: Word)
    requires top < 2 && x < 0x8000_0000 && y < 2 && u < 0x4000_0000
    ensures Next(top * 0x8000_0000 + x, y * 0x8000_0000 + 2 * u + 1, middle)
         == middle ^ (top * 0x4000_0000 + u) ^ 0x9908_B0DF
  {
  }

  /** A word of the sequence from the three it depends on. */
  lemma XForward(table: Table, n: nat)
    ensures X(table, n + 624) == Next(X(table, n), X(table, n + 1), X(table, n + 397))
  {
    hide Next;
  }
}
