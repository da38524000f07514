/**
 * The generator of words in `v2935`: a table of 256 bytes, two byte indices and a signed count of
 * the bytes that are left before it has to be stirred.
 */
module Arc4Random {
  import opened Words
  import opened Rc4

  class Generator {
    const table: array<Byte>
    var i: Byte
    var j: Byte
    var count: int
    /** How often the generator has been stirred, and what the platform gives it each time. */
    var stirs: nat
    const entropy: nat -> Seed

    ghost predicate Valid()
      reads this
    {
      table.Length == 256
    }

    ghost function State(): Cipher
      reads this, table
      requires Valid()
    {
      Cipher(table[..], i, j)
    }

    ghost function View(): Source
      reads this, table
      requires Valid()
    {
      Source(State(), count, stirs)
    }

    /** The static storage of the program starts as zeros. */
    constructor (entropy: nat -> Seed)
      ensures Valid() && fresh(table) && this.entropy == entropy
      ensures View() == Source(Cipher(seq(256, _ => 0), 0, 0), 0, 0)
    {
      table := new Byte[256](_ => 0);
      i, j, count, stirs := 0, 0, 0, 0;
      this.entropy := entropy;
      new;
      assert table[..] == seq(256, _ => 0);
    }

    /** The exchange in the middle of every step; si is the byte at i. */
    method Exchange(si: Byte) returns (sj: Byte)
      requires Valid() && si == At(table[..], i)
      modifies table
      ensures table[..] == Swap(old(table[..]), i, j) && sj == At(old(table[..]), j)
    {
      sj := table[j as int];
      table[i as int] := sj;
      table[j as int] := si;
    }

    method KeyTurn(byte: Byte)
      requires Valid()
      modifies this`i, this`j, table
      ensures State() == KeyStep(old(State()), byte)
    {
      hide Swap;
      i := Plus(i, 1);
      var si := table[i as int];
      j := Plus(j, Plus(si, byte));
      var sj := Exchange(si);
    }

    /** Case 1: 256 turns, four of them in a round of the loop. */
    method AddRandom(data: seq<Byte>)
      requires Valid()
      modifies this`i, this`j, table
      ensures State() == AddKey(old(State()), data)
    {
      hide KeyStep;
      if |data| == 0 {
        return;
      }
      i := Plus(i, 255);
      ghost var start := State();
      var n := 0;
      while n < 0x100
        invariant 0 <= n <= 256 && n % 4 == 0
        invariant State() == KeySteps(start, data, n)
      {
        ghost var before := n;
        KeyTurn(data[n % |data|]);
        n := Turned(start, data, n);
        KeyTurn(data[n % |data|]);
        n := Turned(start, data, n);
        KeyTurn(data[n % |data|]);
        n := Turned(start, data, n);
        KeyTurn(data[n % |data|]);
        n := Turned(start, data, n);
        assert n == before + 4;
      }
      j := i;
    }

    /** A generator byte, from one of the four copies of these lines in case 2. */
    method NextByte() returns (byte: Byte)
      requires Valid()
      modifies this`i, this`j, table
      ensures State() == Step(old(State())) && byte == Output(State())
    {
      hide Swap;
      i := Plus(i, 1);
      var si := table[i as int];
      j := Plus(j, si);
      var sj := Exchange(si);
      ExchangedBytes(old(table[..]), i, j);
      byte := table[Plus(sj, si) as int];
    }

    /** Case 2. */
    method GetWord() returns (word: Word)
      requires Valid()
      modifies this`i, this`j, this`count, this`stirs, table
      ensures View() == Drawn(old(View()), entropy)
      ensures word == WordFrom(old(View()), entropy)
      decreases count <= 0, 1
    {
      hide Step, Output, Join, WordSteps;
      if count <= 0 {
        Stir();
      }
      assert View() == Ready(old(View()), entropy);
      var b3 := NextByte();
      var b2 := NextByte();
      var b1 := NextByte();
      var b0 := NextByte();
      word := Assembled(b3, b2, b1, b0);
      count := count - 4;
    }

    /** Case 0: its 64 calls of case 2 find a full count, so they never come back here. */
    method Stir()
      requires Valid()
      modifies this`i, this`j, this`count, this`stirs, table
      ensures View() == Stirred(old(View()), entropy)
      decreases true, 0
    {
      hide AddKey, WordStep, WordFrom;
      AddRandom(entropy(stirs));
      stirs := stirs + 1;
      count := 0x186A40;
      ghost var start := State();
      var n := 0x40;
      while n != 0
        invariant 0 <= n <= 64
        invariant count == 0x186A40 - 4 * (64 - n) && stirs == old(stirs) + 1
        invariant State() == WordSteps(start, 64 - n)
      {
        var word := GetWord();
        n := n - 1;
      }
    }

    /**
     * Case 3: the buffer is filled from its end. Its first word goes to the last one to four
     * bytes. Every byte below n is written once, in falling order: `writes` lists the stores.
     */
    method Fill(buffer: array<Byte>, n: nat) returns (ghost writes: seq<nat>)
      requires Valid() && n <= buffer.Length && buffer != table
      modifies this`i, this`j, this`count, this`stirs, table, buffer
      ensures View() == DrawnBy(old(View()), entropy, (n + 3) / 4)
      ensures forall p :: 0 <= p < n ==>
        buffer[p] == ByteOf(WordFrom(DrawnBy(old(View()), entropy, (n + 3) / 4 - 1 - p / 4), entropy), p % 4)
      ensures forall p :: n <= p < buffer.Length ==> buffer[p] == old(buffer[p])
      ensures writes == Falling(n, 0)
    {
      hide Drawn, WordFrom, ByteOf;
      ghost var start := View();
      ghost var k := 0;
      ghost var m := (n + 3) / 4;
      var end := n;
      writes := [];
      while end > 0
        invariant 0 <= end <= n && 0 <= k <= m
        invariant if k == 0 then end == n else end == 4 * (m - k)
        invariant View() == DrawnBy(start, entropy, k)
        invariant writes == Falling(n, end)
        invariant forall p :: end <= p < n ==>
          buffer[p] == ByteOf(WordFrom(DrawnBy(start, entropy, m - 1 - p / 4), entropy), p % 4)
        invariant forall p :: n <= p < buffer.Length ==> buffer[p] == old(buffer[p])
      {
        var word := GetWord();
        ghost var stores;
        end, stores := Store(buffer, end, word);
        writes := writes + stores;
        k := k + 1;
      }
    }
  }

  /** The loop counter of AddRandom after a turn. */
  method Turned(ghost start: Cipher, data: seq<Byte>, n: nat) returns (next: nat)
    requires data != []
    ensures next == n + 1
    ensures KeySteps(start, data, n + 1) == KeyStep(KeySteps(start, data, n), data[n % |data|])
  {
    hide KeyStep;
    next := n + 1;
  }

  lemma ExchangedBytes(s: Box, a: Byte, b: Byte)
    ensures At(Swap(s, a, b), a) == At(s, b) && At(Swap(s, a, b), b) == At(s, a)
  {
  }

  /** The shifts and ors that case 2 puts between its four bytes. */
  method Assembled(b3: Byte, b2: Byte, b1: Byte, b0: Byte) returns (word: Word)
    ensures word == Join(b3, b2, b1, b0)
  {
    word := b3 as Word;
    word := (b2 as Word) | (word << 8);
    word := (b1 as Word) | (word << 8);
    word := (b0 as Word) | (word << 8);
  }

  /** Byte k of a word, counted from its low end. */
  function ByteOf(word: Word, k: nat): Byte
    requires k < 4
  {
    Low(if k == 0 then word else if k == 1 then word >> 8 else if k == 2 then word >> 16 else word >> 24)
  }

  /** The positions below `end`, down to `start`. */
  ghost function Falling(end: nat, start: nat): seq<nat>
    requires start <= end
  {
    seq(end - start, i requires 0 <= i < end - start => end - 1 - i)
  }

  /** The inner switch of case 3, whose cases fall through. */
  method Store(buffer: array<Byte>, end: nat, word: Word) returns (start: nat, ghost writes: seq<nat>)
    requires 0 < end <= buffer.Length
    modifies buffer
    ensures start % 4 == 0 && start < end <= start + 4
    ensures forall p :: start <= p < end ==> buffer[p] == ByteOf(word, p - start)
    ensures forall p :: 0 <= p < buffer.Length && !(start <= p < end) ==> buffer[p] == old(buffer[p])
    ensures writes == Falling(end, start)
  {
    hide ByteOf;
    var b3, b2, b1, b0 := Shifted(word);
    start, writes := end, [];
    var low := end % 4;
    if low == 0 {
      start := start - 1;
      buffer[start] := b3;
      writes := writes + [start];
    }
    if low == 0 || low == 3 {
      start := start - 1;
      buffer[start] := b2;
      writes := writes + [start];
    }
    if low != 1 {
      start := start - 1;
      buffer[start] := b1;
      writes := writes + [start];
    }
    start := start - 1;
    buffer[start] := b0;
    writes := writes + [start];
  }

  method Shifted(word: Word) returns (b3: Byte, b2: Byte, b1: Byte, b0: Byte)
    ensures b3 == ByteOf(word, 3) && b2 == ByteOf(word, 2) && b1 == ByteOf(word, 1) && b0 == ByteOf(word, 0)
  {
    hide Low;
    b3 := Low(word >> 24);
    b2 := Low(word >> 16);
    b1 := Low(word >> 8);
    b0 := Low(word);
  }

  /** A run of the generator from the start of the program. */
  method Run(entropy: nat -> Seed, n: nat) returns (words: seq<Word>)
    ensures |words| == n
    ensures var zeros := Cipher(seq(256, _ => 0), 0, 0);
            forall k :: 0 <= k < n ==> words[k] == WordAt(zeros, entropy, k)
    ensures forall k :: 0 <= k < n ==> words[k] == 0
  {
    hide WordAt, WordFrom, After, Drawn;
    ghost var zeros := Cipher(seq(256, _ => 0), 0, 0);
    var generator := new Generator(entropy);
    words := [];
    while |words| < n
      invariant generator.Valid() && |words| <= n
      invariant fresh(generator) && fresh(generator.table) && generator.entropy == entropy
      invariant generator.View() == DrawnBy(Source(zeros, 0, 0), entropy, |words|)
      invariant forall k :: 0 <= k < |words| ==> words[k] == WordAt(zeros, entropy, k)
      invariant forall k :: 0 <= k < |words| ==> words[k] == 0
    {
      WholeRun(zeros, entropy, |words|);
      BlankRun(zeros, entropy, |words|);
      var word := generator.GetWord();
      words := words + [word];
    }
  }
}
