/**
 * The generator inside the flattened `v4323`: each block of its dispatcher that touches the table
 * of 624 words, with the jumps between them written as loops.
 */
module Mersenne {
  import opened MersenneSpec
  import opened Words

  /** The two words that block v3833 stores for the twist to choose from. */
  function Magic(low: Word): Word {
    if low & 1 == 0 then 0 else 0x9908_B0DF
  }

  /** A twist as the three loops write it: the low bit is masked away before the shift. */
  function Twisted(first: Word, second: Word, middle: Word): Word {
    middle ^ (((first & 0x8000_0000) | (second & 0x7FFF_FFFE)) >> 1) ^ Magic(second)
  }

  lemma LowBitIsShiftedOut(first: Word, second: Word)
    ensures ((first & 0x8000_0000) | (second & 0x7FFF_FFFE)) >> 1
         == ((first & 0x8000_0000) | (second & 0x7FFF_FFFF)) >> 1
  {
  }

  lemma LowBitIsOfSecond(first: Word, second: Word)
    ensures ((first & 0x8000_0000) | (second & 0x7FFF_FFFF)) & 1 == second & 1
  {
  }

  lemma TwistedIsNext(first: Word, second: Word, middle: Word)
    ensures Twisted(first, second, middle) == Next(first, second, middle)
  {
    LowBitIsShiftedOut(first, second);
    LowBitIsOfSecond(first, second);
    var low := second & 1;
    assert low == 0 || low == 1;
  }

  // The steps at the end of v5825, which mask before they shift left.

  function Masked1(y: Word): Word {
    y ^ (y >> 11)
  }

  function Masked2(y: Word): Word {
    y ^ ((y & 0xFF3A_58AD) << 7)
  }

  function Masked3(y: Word): Word {
    y ^ ((y & 0xFFFF_DF8C) << 15)
  }

  function Masked4(y: Word): Word {
    (y >> 18) ^ y
  }

  function Masked(word: Word): Word {
    Masked4(Masked3(Masked2(Masked1(word))))
  }

  lemma MaskBeforeShift(y: Word)
    ensures Masked1(y) == Temper1(y) && Masked2(y) == Temper2(y)
    ensures Masked3(y) == Temper3(y) && Masked4(y) == Temper4(y)
  {
  }

  lemma MaskedIsTemper(word: Word)
    ensures Masked(word) == Temper(word)
  {
    hide Masked1, Masked2, Masked3, Masked4, Temper1, Temper2, Temper3, Temper4;
    MaskBeforeShift(word);
    MaskBeforeShift(Temper1(word));
    MaskBeforeShift(Temper2(Temper1(word)));
    MaskBeforeShift(Temper3(Temper2(Temper1(word))));
  }

  lemma Transition(table: Table, n: nat)
    requires n >= 624
    ensures X(table, n) == Twisted(X(table, n - 624), X(table, n - 623), X(table, n - 227))
  {
    hide Next, Twisted;
    TwistedIsNext(X(table, n - 624), X(table, n - 623), X(table, n - 227));
  }

  /** Blocks v3371 and v4878. */
  method SeedFromOne(mt: array<Word>, seed: Word)
    requires mt.Length == 624
    modifies mt
    ensures forall i :: 0 <= i < 624 ==> mt[i] == FromOne(seed, i)
  {
    hide Scale;
    mt[0] := seed;
    var i := 0;
    while i != 0x26F
      invariant 0 <= i <= 623
      invariant forall p :: 0 <= p <= i ==> mt[p] == FromOne(seed, p)
    {
      mt[i + 1] := Scale(mt[i], i + 1);
      i := i + 1;
    }
  }

  /**
   * What the table holds after t steps of seeding from a key, the next of which is at index i
   * of the lap that began with step 623 * lap.
   */
  ghost predicate MixedTo(mt: array<Word>, seed: Word, key: Key, t: nat, lap: nat, i: nat)
    reads mt
  {
    && mt.Length == 624
    && 1 <= i <= 623
    && t == 623 * lap + (i - 1)
    && mt[i - 1] == Mixed(seed, key, if t == 0 then 0 else 623 + t)
    && (forall p :: 1 <= p < i ==> mt[p] == Mixed(seed, key, p + 623 * lap + 623))
    && (forall p :: i <= p < 624 ==> mt[p] == Mixed(seed, key, p + 623 * lap))
  }

  /** The end of v2074 or v5698: past the last index, v4445 or v4631 moves it to the front. */
  method NextIndex(mt: array<Word>, i: nat, ghost seed: Word, ghost key: Key, ghost t: nat, ghost lap: nat)
      returns (next: nat, ghost lap': nat)
    requires mt.Length == 624 && 1 <= i <= 623
    requires t == 623 * lap + (i - 1)
    requires mt[i] == Mixed(seed, key, 624 + t)
    requires forall p :: 1 <= p < i ==> mt[p] == Mixed(seed, key, p + 623 * lap + 623)
    requires forall p :: i < p < 624 ==> mt[p] == Mixed(seed, key, p + 623 * lap)
    modifies mt
    ensures MixedTo(mt, seed, key, t + 1, lap', next)
  {
    hide Mixed;
    if i + 1 < 0x270 {
      next, lap' := i + 1, lap;
    } else {
      mt[0] := mt[0x26F];
      next, lap' := 1, lap + 1;
    }
  }

  /**
   * Blocks v6506, v2074 with v4445, and v2357: the first loop runs 624 times, and every index it
   * uses lies in 1..623.
   */
  method AddKeys(mt: array<Word>, key: Key, ghost seed: Word) returns (i: nat, ghost lap: nat)
    requires mt.Length == 624
    requires forall i :: 0 <= i < 624 ==> mt[i] == FromOne(seed, i)
    modifies mt
    ensures MixedTo(mt, seed, key, 624, lap, i)
  {
    hide AddKey, TakeIndex, KeyAt, FromOne, Mixed, Turn;
    forall p | 0 <= p < 624
      ensures mt[p] == Mixed(seed, key, p)
    {
      StartsFromOne(seed, key, p);
    }
    TurnStarts();
    var j: nat, k: nat := 0, 0;
    i, lap := 1, 0;
    while k != 0x270
      invariant 0 <= k <= 624 && j == Turn(k)
      invariant MixedTo(mt, seed, key, k, lap, i)
    {
      MixStep(seed, key, k, lap, i);
      mt[i] := AddKey(mt[i - 1], mt[i], KeyAt(key, j), j);
      i, lap := NextIndex(mt, i, seed, key, k, lap);
      TurnMoves(k);
      k := k + 1;
      j := if j + 1 <= 3 then j + 1 else 0;
    }
  }

  /** Blocks v5698 with v4631, v3735 and v4546: the second loop runs 623 times from where the first stopped. */
  method TakeIndices(mt: array<Word>, first: nat, ghost before: nat, ghost key: Key, ghost seed: Word)
    requires MixedTo(mt, seed, key, 624, before, first)
    modifies mt
    ensures mt[..] == FromKey(seed, key)
  {
    hide AddKey, TakeIndex, KeyAt, Mixed, Turn;
    var i, k: nat := first, 0;
    ghost var lap := before;
    while k != 0x26F
      invariant 0 <= k <= 623
      invariant MixedTo(mt, seed, key, 624 + k, lap, i)
    {
      MixStep(seed, key, 624 + k, lap, i);
      mt[i] := TakeIndex(mt[i - 1], mt[i], i);
      i, lap := NextIndex(mt, i, seed, key, 624 + k, lap);
      k := k + 1;
    }
    assert lap == 2 && i == 2;
    mt[0] := 0x8000_0000;
  }

  lemma TurnStarts()
    ensures Turn(0) == 0
  {
  }

  lemma TurnMoves(k: nat)
    ensures Turn(k + 1) == if Turn(k) + 1 <= 3 then Turn(k) + 1 else 0
  {
  }

  lemma StartsFromOne(seed: Word, key: Key, n: nat)
    requires n < 624
    ensures Mixed(seed, key, n) == FromOne(seed, n)
  {
  }

  /** Step t of the seeding, in terms of the index that the loops keep. */
  lemma MixStep(seed: Word, key: Key, t: nat, lap: nat, i: nat)
    requires 1 <= i <= 623 && t == 623 * lap + (i - 1)
    ensures var previous := Mixed(seed, key, if t == 0 then 0 else 623 + t);
            var current := Mixed(seed, key, i + 623 * lap);
            var next := if t < 624 then AddKey(previous, current, KeyAt(key, Turn(t)), Turn(t))
                        else TakeIndex(previous, current, i);
            Mixed(seed, key, 624 + t) == next
  {
    hide AddKey, TakeIndex, KeyAt, FromOne, Turn;
    assert t % 623 == i - 1;
  }

  /** Blocks v3371 to v4546: the drawn words reach the key in the order of the four slots. */
  method Seed(mt: array<Word>, seed: Word, drawn: Key)
    requires mt.Length == 624
    modifies mt
    ensures mt[..] == FromKey(seed, Key(drawn.k3, drawn.k1, drawn.k2, drawn.k0))
  {
    SeedFromOne(mt, seed);
    var key := Key(drawn.k3, drawn.k1, drawn.k2, drawn.k0);
    ghost var lap;
    var i;
    i, lap := AddKeys(mt, key, seed);
    TakeIndices(mt, i, lap, key, seed);
  }

  ghost predicate TwistedTo(mt: array<Word>, was: Table, count: nat)
    reads mt
  {
    && mt.Length == 624
    && (forall p :: 0 <= p < count && p < 624 ==> mt[p] == X(was, 624 + p))
    && (forall p :: count <= p < 624 ==> mt[p] == X(was, p))
  }

  /** Block v6893. */
  method TwistFront(mt: array<Word>, ghost was: Table)
    requires TwistedTo(mt, was, 0)
    modifies mt
    ensures TwistedTo(mt, was, 227)
  {
    hide Twisted, Next, X;
    var kk := 0;
    while kk != 0xE3
      invariant 0 <= kk <= 227
      invariant TwistedTo(mt, was, kk)
    {
      Transition(was, 624 + kk);
      mt[kk] := Twisted(mt[kk], mt[kk + 1], mt[kk + 397]);
      kk := kk + 1;
    }
  }

  /** Block v3868, which counts from the word that the front of the table already replaced. */
  method TwistBack(mt: array<Word>, ghost was: Table)
    requires TwistedTo(mt, was, 227)
    modifies mt
    ensures TwistedTo(mt, was, 623)
  {
    hide Twisted, Next, X;
    var i := 0;
    while i != 0x18C
      invariant 0 <= i <= 396
      invariant TwistedTo(mt, was, 227 + i)
    {
      ghost var p := 227 + i;
      Transition(was, 624 + p);
      assert mt[p] == X(was, p) && mt[p + 1] == X(was, p + 1) && mt[i] == X(was, 624 + i);
      mt[i + 227] := Twisted(mt[i + 227], mt[i + 228], mt[i]);
      i := i + 1;
    }
  }

  /** The twist in place; its last word, at the head of v5825, already uses the new word 0. */
  method Twist(mt: array<Word>)
    requires mt.Length == 624
    modifies mt
    ensures mt[..] == Advance(old(mt[..]))
  {
    hide Twisted, Next, X, Advance;
    ghost var was: Table := mt[..];
    StartsFromTable(was);
    TwistFront(mt, was);
    TwistBack(mt, was);
    Transition(was, 1247);
    mt[0x26F] := Twisted(mt[0x26F], mt[0], mt[396]);
    AdvanceIs(was, mt[..]);
  }

  lemma StartsFromTable(table: Table)
    ensures forall p :: 0 <= p < 624 ==> X(table, p) == table[p]
  {
  }

  lemma AdvanceIs(table: Table, words: seq<Word>)
    requires |words| == 624 && forall p :: 0 <= p < 624 ==> words[p] == X(table, 624 + p)
    ensures words == Advance(table)
  {
    hide X;
  }

  /** The words of one seeding, in the order in which they are drawn. */
  datatype Draw = Draw(seed: Word, drawn: Key)

  function TableOf(draw: Draw): Table {
    FromKey(draw.seed, Key(draw.drawn.k3, draw.drawn.k1, draw.drawn.k2, draw.drawn.k0))
  }

  /** How many words come from one seeding: the count runs through 0..0x1400. */
  const PERIOD: nat := 5121

  class Generator {
    const mt: array<Word>
    var mti: nat
    /** How many words the current seeding has given; zero asks for the next seeding. */
    var count: nat

    ghost predicate Valid()
      reads this
    {
      mt.Length == 624 && mti <= 624 && count <= 0x1400
    }

    /** Seeded from this table, of which r words have been given. */
    ghost predicate Given(table: Table, r: nat)
      reads this, mt
    {
      Valid() && mt[..] == AdvanceBy(table, r) && mti > 0 && mti % 624 == r % 624
    }

    /** The static storage before the first seeding. */
    constructor ()
      ensures Valid() && fresh(mt) && count == 0
    {
      mt := new Word[624];
      mti, count := 0, 0;
    }

    /** Blocks v3371 to v4546, which v3833 takes when the count is zero: the index is left past the end. */
    method Reseed(draw: Draw)
      requires Valid()
      modifies this`mti, mt
      ensures Valid() && mti == 0x270 && mt[..] == TableOf(draw)
    {
      Seed(mt, draw.seed, draw.drawn);
      mti := 0x270;
    }

    /**
     * Blocks v2450 to v5825 and, for the count, v4293 and v5786: the whole table is twisted for every
     * word that is drawn.
     */
    method NextWord() returns (word: Word)
      requires Valid()
      modifies this, mt
      ensures Valid()
      ensures mt[..] == Advance(old(mt[..]))
      ensures var index := if old(mti) < 624 then old(mti) else 0;
              mti == index + 1 && word == Temper(X(old(mt[..]), 624 + index))
      ensures count == if old(count) < 0x1400 then old(count) + 1 else 0
    {
      hide Temper, Masked, Next;
      Twist(mt);
      var index := if mti < 0x270 then mti else 0;
      word := Masked(mt[index]);
      MaskedIsTemper(mt[index]);
      mti := index + 1;
      count := if count < 0x1400 then count + 1 else 0;
    }

    /** Word r of a seeding. */
    method NextOf(ghost table: Table, ghost r: nat) returns (word: Word)
      requires Given(table, r)
      modifies this, mt
      ensures Given(table, r + 1) && word == Temper(X(table, Position(r)))
      ensures count == if old(count) < 0x1400 then old(count) + 1 else 0
    {
      hide Temper, Next, X, Advance;
      ghost var index := if mti < 624 then mti else 0;
      AdvanceByShifts(table, r, 624 + index);
      word := NextWord();
    }
  }

  /** Where word j of one seeding stands in the sequence of its table. */
  function Position(j: nat): (n: nat)
    ensures n >= 624 + j
    ensures n == 624 + j <==> j == 0
  {
    624 * (j + 1) + j % 624
  }

  /** Word n of the program's stream, when these are the words of its seedings. */
  function WordAt(draws: nat -> Draw, n: nat): Word {
    Temper(X(TableOf(draws(n / PERIOD)), Position(n % PERIOD)))
  }

  lemma SplitIndex(e: nat, r: nat, n: nat)
    requires r < PERIOD && n == 5121 * e + r
    ensures n / PERIOD == e && n % PERIOD == r
  {
  }

  /**
   * Every run, through all its seedings: the words of one seeding are tempered words of one recurrence,
   * one from each table in turn, and only the first of them is where the engine of the standard has it.
   */
  method Run(draws: nat -> Draw, n: nat) returns (words: seq<Word>)
    ensures |words| == n
    ensures forall i :: 0 <= i < n ==> words[i] == WordAt(draws, i)
  {
    hide Temper, Next, X, FromKey, Advance;
    var generator := new Generator();
    var seedings: nat := 0;
    ghost var e: nat := 0;
    words := [];
    while |words| < n
      invariant generator.Valid() && |words| <= n
      invariant fresh(generator) && fresh(generator.mt)
      invariant |words| == 5121 * e + generator.count
      invariant seedings == if generator.count == 0 then e else e + 1
      invariant generator.count > 0 ==> generator.Given(TableOf(draws(e)), generator.count)
      invariant forall i :: 0 <= i < |words| ==> words[i] == WordAt(draws, i)
    {
      if generator.count == 0 {
        generator.Reseed(draws(seedings));
        seedings := seedings + 1;
      }
      SplitIndex(e, generator.count, |words|);
      ghost var r := generator.count;
      var word := generator.NextOf(TableOf(draws(e)), r);
      words := words + [word];
      if generator.count == 0 {
        e := e + 1;
      }
    }
  }
}
