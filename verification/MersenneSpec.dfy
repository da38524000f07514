/**
 * The 32-bit Mersenne twister of section 26.5.3.2 of ISO C++11 as a recurrence over an
 * unbounded sequence, and its seeding from one word and a four-word key.
 */
module MersenneSpec {
  import opened Words

  type Table = s: seq<Word> | |s| == 624 witness seq(624, _ => 0)

  /** The transition of the engine: `first` and `second` are its two oldest words. */
  function Next(first: Word, second: Word, middle: Word): Word {
    var y := (first & 0x8000_0000) | (second & 0x7FFF_FFFF);
    middle ^ (y >> 1) ^ (if y & 1 == 1 then 0x9908_B0DF else 0)
  }

  /** The sequence that a table of 624 words starts. */
  function X(table: Table, n: nat): Word {
    if n < 624 then table[n] else Next(X(table, n - 624), X(table, n - 623), X(table, n - 227))
  }

  // The four steps of tempering.

  function Temper1(z: Word): Word {
    z ^ (z >> 11)
  }

  function Temper2(z: Word): Word {
    z ^ ((z << 7) & 0x9D2C_5680)
  }

  function Temper3(z: Word): Word {
    z ^ ((z << 15) & 0xEFC6_0000)
  }

  function Temper4(z: Word): Word {
    z ^ (z >> 18)
  }

  /** The tempering of the engine's output. */
  function Temper(z: Word): Word {
    Temper4(Temper3(Temper2(Temper1(z))))
  }

  // The arithmetic of machine words.

  function Plus(x: Word, y: Word): Word {
    x + y
  }

  function Minus(x: Word, y: Word): Word {
    x - y
  }

  function Up(x: Word): Word {
    x + 1
  }

  function XorWord(x: Word, y: Word): Word {
    x ^ y
  }

  /** What seeding does to a word before it multiplies it. */
  function Folded(w: Word): Word {
    w ^ (w >> 30)
  }

  // The factors of the three kinds of step.

  function Scaled(f: Word): Word {
    f * 0x6C07_8965
  }

  function KeySpread(f: Word): Word {
    f * 1664525
  }

  function IndexSpread(f: Word): Word {
    f * 1566083941
  }

  /** An index in a machine word. */
  function Number(i: nat): Word {
    if i == 0 then 0 else Up(Number(i - 1))
  }

  function Scale(previous: Word, i: nat): Word
    requires i < 624
  {
    Plus(Scaled(Folded(previous)), Number(i))
  }

  /** Seeding from one word. */
  function FromOne(seed: Word, i: nat): Word
    requires i < 624
  {
    if i == 0 then seed else Scale(FromOne(seed, i - 1), i)
  }

  datatype Key = Key(k0: Word, k1: Word, k2: Word, k3: Word)

  function KeyAt(key: Key, j: nat): Word
    requires j < 4
  {
    if j == 0 then key.k0 else if j == 1 then key.k1 else if j == 2 then key.k2 else key.k3
  }

  /** The key word of step t: the key is used over and over. */
  function Turn(t: nat): (j: nat)
    ensures j < 4
  {
    t % 4
  }

  function AddKey(previous: Word, current: Word, word: Word, j: nat): Word
    requires j < 4
  {
    Plus(XorWord(KeySpread(Folded(previous)), current), Plus(word, Number(j)))
  }

  function TakeIndex(previous: Word, current: Word, i: nat): Word
    requires i < 624
  {
    Minus(XorWord(IndexSpread(Folded(previous)), current), Number(i))
  }

  /**
   * Every word that seeding from a key ever writes, in the order of writing, after the 624 words
   * of FromOne. Step t writes number 624 + t at index 1 + t % 623, from the word written just
   * before it and the word that it replaces; the first 624 steps add the key, the others take
   * the index away.
   */
  function Mixed(seed: Word, key: Key, n: nat): Word {
    if n < 624 then
      FromOne(seed, n)
    else
      var t := n - 624;
      var previous := Mixed(seed, key, if t == 0 then 0 else n - 1);
      var current := Mixed(seed, key, n - 623);
      if t < 624 then
        AddKey(previous, current, KeyAt(key, Turn(t)), Turn(t))
      else
        TakeIndex(previous, current, 1 + t % 623)
  }

  /** The table when 624 steps of the first kind and 623 of the second are done. */
  function FromKey(seed: Word, key: Key): Table {
    seq(624, i requires 0 <= i < 624 =>
      if i == 0 then 0x8000_0000 else if i == 1 then Mixed(seed, key, 1870)
      else Mixed(seed, key, 1246 + i))
  }

  /** The next 624 words of the sequence. */
  function Advance(table: Table): Table {
    seq(624, i requires 0 <= i < 624 => X(table, 624 + i))
  }

  function AdvanceBy(table: Table, times: nat): Table {
    if times == 0 then table else Advance(AdvanceBy(table, times - 1))
  }

  lemma {:induction false} AdvanceShifts(table: Table, n: nat)
    ensures X(Advance(table), n) == X(table, 624 + n)
  {
    if n >= 624 {
      AdvanceShifts(table, n - 624);
      AdvanceShifts(table, n - 623);
      AdvanceShifts(table, n - 227);
    }
  }

  lemma {:induction false} AdvanceByShifts(table: Table, times: nat, n: nat)
    ensures X(AdvanceBy(table, times), n) == X(table, 624 * times + n)
  {
    if times > 0 {
      AdvanceShifts(AdvanceBy(table, times - 1), n);
      AdvanceByShifts(table, times - 1, 624 + n);
    }
  }

  /** The state that the recurrence can never leave: no bit of the 19937 that matter is set. */
  ghost predicate Dead(table: Table, n: nat) {
    && X(table, n) & 0x8000_0000 == 0
    && forall k :: n < k < n + 624 ==> X(table, k) == 0
  }

  lemma OnlyZeroGoesToZero(first: Word, second: Word)
    requires Next(first, second, 0) == 0
    ensures first & 0x8000_0000 == 0
    ensures second & 0x8000_0000 == 0 ==> second == 0
  {
  }

  lemma DeadBefore(table: Table, n: nat)
    requires Dead(table, n + 1)
    ensures Dead(table, n)
  {
    hide Next;
    assert X(table, n + 397) == 0 && X(table, n + 624) == 0;
    OnlyZeroGoesToZero(X(table, n), X(table, n + 1));
  }

  /** The word that seeding from a key puts last keeps every later state alive. */
  lemma {:induction false} NeverDies(seed: Word, key: Key, n: nat)
    ensures !Dead(FromKey(seed, key), n)
    ensures exists k :: n <= k < n + 624 && X(FromKey(seed, key), k) != 0
  {
    hide Next, Mixed;
    var table := FromKey(seed, key);
    if n == 0 {
      assert X(table, 0) == 0x8000_0000;
    } else {
      NeverDies(seed, key, n - 1);
      if Dead(table, n) {
        DeadBefore(table, n - 1);
      }
    }
  }
}
