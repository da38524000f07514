/** The looped big-endian block encryptor over four lookup tables. */
module TableCipher {
  import opened Words
  import opened Fips197

  /** The tables the cipher reads, from the S-box as the comment above them says. */
  function Te0(s: SBox, x: Byte): Word {
    Join(Xtime(s(x)), s(x), s(x), Xtime(s(x)) ^ s(x))
  }

  function Te1(s: SBox, x: Byte): Word {
    Join(Xtime(s(x)) ^ s(x), Xtime(s(x)), s(x), s(x))
  }

  function Te2(s: SBox, x: Byte): Word {
    Join(s(x), Xtime(s(x)) ^ s(x), Xtime(s(x)), s(x))
  }

  function Te3(s: SBox, x: Byte): Word {
    Join(s(x), s(x), Xtime(s(x)) ^ s(x), Xtime(s(x)))
  }

  lemma MaskJoin(b3: Byte, b2: Byte, b1: Byte, b0: Byte)
    ensures var w := Join(b3, b2, b1, b0);
            w & 0xff000000 == Join(b3, 0, 0, 0) && w & 0x00ff0000 == Join(0, b2, 0, 0)
            && w & 0x0000ff00 == Join(0, 0, b1, 0) && w & 0x000000ff == Join(0, 0, 0, b0)
  {
  }

  lemma JoinXors(b3: Byte, b2: Byte, b1: Byte, b0: Byte, x: Word)
    ensures BigEndian(Join(b3, 0, 0, 0) ^ Join(0, b2, 0, 0) ^ Join(0, 0, b1, 0) ^ Join(0, 0, 0, b0) ^ x)
         == Xor(Column(b3, b2, b1, b0), BigEndian(x))
  {
  }

  lemma KeptTop(s: SBox, x: Byte)
    ensures Te2(s, x) & 0xff000000 == Join(s(x), 0, 0, 0)
  {
    MaskJoin(s(x), Xtime(s(x)) ^ s(x), Xtime(s(x)), s(x));
  }

  lemma KeptUpper(s: SBox, x: Byte)
    ensures Te3(s, x) & 0x00ff0000 == Join(0, s(x), 0, 0)
  {
    MaskJoin(s(x), s(x), Xtime(s(x)) ^ s(x), Xtime(s(x)));
  }

  lemma KeptLower(s: SBox, x: Byte)
    ensures Te0(s, x) & 0x0000ff00 == Join(0, 0, s(x), 0)
  {
    MaskJoin(Xtime(s(x)), s(x), s(x), Xtime(s(x)) ^ s(x));
  }

  lemma KeptBottom(s: SBox, x: Byte)
    ensures Te1(s, x) & 0x000000ff == Join(0, 0, 0, s(x))
  {
    MaskJoin(Xtime(s(x)) ^ s(x), Xtime(s(x)), s(x), s(x));
  }

  /** One substituted word without mixing, from four table entries with one byte kept of each. */
  method Keep(s: SBox, x3: Byte, x2: Byte, x1: Byte, x0: Byte, k: Word) returns (w: Word)
    ensures BigEndian(w) == Xor(Column(s(x3), s(x2), s(x1), s(x0)), BigEndian(k))
  {
    hide Te0, Te1, Te2, Te3, Join, Xor, BigEndian;
    w := (Te2(s, x3) & 0xff000000) ^ (Te3(s, x2) & 0x00ff0000)
       ^ (Te0(s, x1) & 0x0000ff00) ^ (Te1(s, x0) & 0x000000ff) ^ k;
    KeptTop(s, x3);
    KeptUpper(s, x2);
    KeptLower(s, x1);
    KeptBottom(s, x0);
    JoinXors(s(x3), s(x2), s(x1), s(x0), k);
  }

  /** The four table words of a mixed column and a key word, XORed. */
  function Sum(a: Byte, b: Byte, c: Byte, d: Byte, a2: Byte, b2: Byte, c2: Byte, d2: Byte, k: Word): Word {
    Join(a2, a, a, a2 ^ a) ^ Join(b2 ^ b, b2, b, b) ^ Join(c, c2 ^ c, c2, c) ^ Join(d, d, d2 ^ d, d2) ^ k
  }

  lemma SumRow0(a: Byte, b: Byte, c: Byte, d: Byte, a2: Byte, b2: Byte, c2: Byte, d2: Byte, k: Word)
    ensures Low(Sum(a, b, c, d, a2, b2, c2, d2, k) >> 24) == XorByte(a2 ^ (b2 ^ b) ^ c ^ d, Low(k >> 24))
  {
  }

  lemma SumRow1(a: Byte, b: Byte, c: Byte, d: Byte, a2: Byte, b2: Byte, c2: Byte, d2: Byte, k: Word)
    ensures Low(Sum(a, b, c, d, a2, b2, c2, d2, k) >> 16) == XorByte(b2 ^ (c2 ^ c) ^ d ^ a, Low(k >> 16))
  {
  }

  lemma SumRow2(a: Byte, b: Byte, c: Byte, d: Byte, a2: Byte, b2: Byte, c2: Byte, d2: Byte, k: Word)
    ensures Low(Sum(a, b, c, d, a2, b2, c2, d2, k) >> 8) == XorByte(c2 ^ (d2 ^ d) ^ a ^ b, Low(k >> 8))
  {
  }

  lemma SumRow3(a: Byte, b: Byte, c: Byte, d: Byte, a2: Byte, b2: Byte, c2: Byte, d2: Byte, k: Word)
    ensures Low(Sum(a, b, c, d, a2, b2, c2, d2, k)) == XorByte(d2 ^ (a2 ^ a) ^ b ^ c, Low(k))
  {
  }

  lemma RowIs(a: Byte, b: Byte, c: Byte, d: Byte)
    ensures MixRow(a, b, c, d) == Xtime(a) ^ (Xtime(b) ^ b) ^ c ^ d
  {
  }

  lemma SumMix0(a: Byte, b: Byte, c: Byte, d: Byte, k: Word)
    ensures Low(Sum(a, b, c, d, Xtime(a), Xtime(b), Xtime(c), Xtime(d), k) >> 24) 
         == Xor(MixColumn(Column(a, b, c, d)), BigEndian(k)).r0
  {
    SumRow0(a, b, c, d, Xtime(a), Xtime(b), Xtime(c), Xtime(d), k);
    RowIs(a, b, c, d);
    hide Sum, MixRow, Xtime, Low, XorByte;
  }

  lemma SumMix1(a: Byte, b: Byte, c: Byte, d: Byte, k: Word)
    ensures Low(Sum(a, b, c, d, Xtime(a), Xtime(b), Xtime(c), Xtime(d), k) >> 16) 
         == Xor(MixColumn(Column(a, b, c, d)), BigEndian(k)).r1
  {
    SumRow1(a, b, c, d, Xtime(a), Xtime(b), Xtime(c), Xtime(d), k);
    RowIs(b, c, d, a);
    hide Sum, MixRow, Xtime, Low, XorByte;
  }

  lemma SumMix2(a: Byte, b: Byte, c: Byte, d: Byte, k: Word)
    ensures Low(Sum(a, b, c, d, Xtime(a), Xtime(b), Xtime(c), Xtime(d), k) >> 8) 
         == Xor(MixColumn(Column(a, b, c, d)), BigEndian(k)).r2
  {
    SumRow2(a, b, c, d, Xtime(a), Xtime(b), Xtime(c), Xtime(d), k);
    RowIs(c, d, a, b);
    hide Sum, MixRow, Xtime, Low, XorByte;
  }

  lemma SumMix3(a: Byte, b: Byte, c: Byte, d: Byte, k: Word)
    ensures Low(Sum(a, b, c, d, Xtime(a), Xtime(b), Xtime(c), Xtime(d), k)) 
         == Xor(MixColumn(Column(a, b, c, d)), BigEndian(k)).r3
  {
    SumRow3(a, b, c, d, Xtime(a), Xtime(b), Xtime(c), Xtime(d), k);
    RowIs(d, a, b, c);
    hide Sum, MixRow, Xtime, Low, XorByte;
  }

  lemma SumMixes(a: Byte, b: Byte, c: Byte, d: Byte, k: Word)
    ensures BigEndian(Sum(a, b, c, d, Xtime(a), Xtime(b), Xtime(c), Xtime(d), k))
         == Xor(MixColumn(Column(a, b, c, d)), BigEndian(k))
  {
    hide Sum, MixColumn, Xor, Low, Xtime;
    SumMix0(a, b, c, d, k);
    SumMix1(a, b, c, d, k);
    SumMix2(a, b, c, d, k);
    SumMix3(a, b, c, d, k);
  }

  lemma TableSum(s: SBox, x3: Byte, x2: Byte, x1: Byte, x0: Byte, k: Word)
    ensures Te0(s, x3) ^ Te1(s, x2) ^ Te2(s, x1) ^ Te3(s, x0) ^ k
         == Sum(s(x3), s(x2), s(x1), s(x0), Xtime(s(x3)), Xtime(s(x2)), Xtime(s(x1)), Xtime(s(x0)), k)
  {
    hide Join, Xtime;
  }

  /** One word of a full round, from one byte of each state word. */
  method RoundWord(s: SBox, x3: Byte, x2: Byte, x1: Byte, x0: Byte, k: Word) returns (t: Word)
    ensures BigEndian(t) == Xor(MixColumn(Column(s(x3), s(x2), s(x1), s(x0))), BigEndian(k))
  {
    hide Te0, Te1, Te2, Te3, Sum, Xtime, MixColumn, Xor, BigEndian;
    t := Te0(s, x3) ^ Te1(s, x2) ^ Te2(s, x1) ^ Te3(s, x0) ^ k;
    TableSum(s, x3, x2, x1, x0, k);
    SumMixes(s(x3), s(x2), s(x1), s(x0), k);
  }

  /** The four state words hold the columns of a state, first byte on top. */
  ghost predicate Holds(st: State, s0: Word, s1: Word, s2: Word, s3: Word) {
    BigEndian(s0) == st.c0 && BigEndian(s1) == st.c1 && BigEndian(s2) == st.c2 && BigEndian(s3) == st.c3
  }

  method Round(s: SBox, ghost st: State, ghost k: State, s0: Word, s1: Word, s2: Word, s3: Word,
               k0: Word, k1: Word, k2: Word, k3: Word)
    returns (t0: Word, t1: Word, t2: Word, t3: Word)
    requires Holds(st, s0, s1, s2, s3) && Holds(k, k0, k1, k2, k3)
    ensures Holds(FullRound(s, st, k), t0, t1, t2, t3)
  {
    hide Low, MixColumn, Xor;
    t0 := RoundWord(s, Low(s0 >> 24), Low(s1 >> 16), Low(s2 >> 8), Low(s3), k0);
    t1 := RoundWord(s, Low(s1 >> 24), Low(s2 >> 16), Low(s3 >> 8), Low(s0), k1);
    t2 := RoundWord(s, Low(s2 >> 24), Low(s3 >> 16), Low(s0 >> 8), Low(s1), k2);
    t3 := RoundWord(s, Low(s3 >> 24), Low(s0 >> 16), Low(s1 >> 8), Low(s2), k3);
  }

  method FinalRound(s: SBox, ghost st: State, ghost k: State, t0: Word, t1: Word, t2: Word, t3: Word,
                    k0: Word, k1: Word, k2: Word, k3: Word)
    returns (s0: Word, s1: Word, s2: Word, s3: Word)
    requires Holds(st, t0, t1, t2, t3) && Holds(k, k0, k1, k2, k3)
    ensures Holds(LastRound(s, st, k), s0, s1, s2, s3)
  {
    hide Low, Xor;
    s0 := Keep(s, Low(t0 >> 24), Low(t1 >> 16), Low(t2 >> 8), Low(t3), k0);
    s1 := Keep(s, Low(t1 >> 24), Low(t2 >> 16), Low(t3 >> 8), Low(t0), k1);
    s2 := Keep(s, Low(t2 >> 24), Low(t3 >> 16), Low(t0 >> 8), Low(t1), k2);
    s3 := Keep(s, Low(t3 >> 24), Low(t0 >> 16), Low(t1 >> 8), Low(t2), k3);
  }

  lemma BigEndianOfXors(b3: Byte, b2: Byte, b1: Byte, b0: Byte)
    ensures BigEndian(((b3 as Word) << 24) ^ ((b2 as Word) << 16) ^ ((b1 as Word) << 8) ^ (b0 as Word))
         == Column(b3, b2, b1, b0)
  {
  }

  /** The GETU32 macro. */
  function GetU32(b: array<Byte>, p: nat): (w: Word)
    requires p + 4 <= b.Length
    reads b
    ensures BigEndian(w) == Column(b[p], b[p + 1], b[p + 2], b[p + 3])
  {
    BigEndianOfXors(b[p], b[p + 1], b[p + 2], b[p + 3]);
    ((b[p] as Word) << 24) ^ ((b[p + 1] as Word) << 16) ^ ((b[p + 2] as Word) << 8) ^ (b[p + 3] as Word)
  }

  /** The PUTU32 macro. */
  method PutU32(b: array<Byte>, p: nat, w: Word)
    requires p + 4 <= b.Length
    modifies b
    ensures Column(b[p], b[p + 1], b[p + 2], b[p + 3]) == BigEndian(w)
    ensures forall i :: 0 <= i < b.Length && !(p <= i < p + 4) ==> b[i] == old(b[i])
  {
    b[p] := Low(w >> 24);
    b[p + 1] := Low(w >> 16);
    b[p + 2] := Low(w >> 8);
    b[p + 3] := Low(w);
  }

  function WordColumns(words: seq<Word>): (c: seq<Column>)
    ensures |c| == |words|
  {
    seq(|words|, i requires 0 <= i < |words| => BigEndian(words[i]))
  }

  /** aes_key_t: room for the longest schedule, and the number of rounds in use. */
  class AesKey {
    const rd_key: array<Word>
    var rounds: nat

    constructor ()
      ensures rd_key.Length == 60 && fresh(rd_key)
    {
      rd_key := new Word[60];
      rounds := 0;
    }

    ghost predicate Ready()
      reads this
    {
      rd_key.Length == 60 && rounds in {10, 12, 14}
    }
  }

  method LoadWord(input: array<Byte>, p: nat, k: Word) returns (w: Word)
    requires p + 4 <= input.Length
    ensures BigEndian(w) == Xor(Column(input[p], input[p + 1], input[p + 2], input[p + 3]), BigEndian(k))
  {
    w := GetU32(input, p);
    BigEndianXor(w, k);
    w := w ^ k;
  }

  method LoadBlock(input: array<Byte>, rd: array<Word>) returns (s0: Word, s1: Word, s2: Word, s3: Word)
    requires input.Length >= 16 && rd.Length == 60
    ensures Holds(AddRoundKey(StateOf(input[..16]), RoundKey(WordColumns(rd[..]), 0)), s0, s1, s2, s3)
  {
    hide Xor, BigEndian;
    s0 := LoadWord(input, 0, rd[0]);
    s1 := LoadWord(input, 4, rd[1]);
    s2 := LoadWord(input, 8, rd[2]);
    s3 := LoadWord(input, 12, rd[3]);
  }

  method StoreBlock(ghost st: State, output: array<Byte>, s0: Word, s1: Word, s2: Word, s3: Word)
    requires output.Length >= 16 && Holds(st, s0, s1, s2, s3)
    modifies output
    ensures output[..16] == BytesOf(st)
    ensures output[16..] == old(output[16..])
  {
    hide BigEndian;
    PutU32(output, 0, s0);
    PutU32(output, 4, s1);
    PutU32(output, 8, s2);
    PutU32(output, 12, s3);
    BytesAt(output[..], 0, st);
  }

  /** Four schedule words from position rk on. */
  method LoadKey(ghost w: seq<Column>, ghost round: nat, rd: array<Word>, rk: nat)
    returns (k0: Word, k1: Word, k2: Word, k3: Word)
    requires rd.Length == 60 && w == WordColumns(rd[..]) && rk == 4 * round && round <= 14
    ensures Holds(RoundKey(w, round), k0, k1, k2, k3)
  {
    hide BigEndian;
    k0, k1, k2, k3 := rd[rk], rd[rk + 1], rd[rk + 2], rd[rk + 3];
  }

  /** The loop of AES_Encrypt: two rounds to a turn, left in the middle of the last one. */
  method MiddleRounds(s: SBox, ghost st: State, ghost w: seq<Column>, rd: array<Word>, rounds: nat,
                      w0: Word, w1: Word, w2: Word, w3: Word)
    returns (t0: Word, t1: Word, t2: Word, t3: Word, rk: nat)
    requires rd.Length == 60 && rounds in {10, 12, 14} && w == WordColumns(rd[..])
    requires Holds(AfterRounds(s, st, w, 0), w0, w1, w2, w3)
    ensures Holds(AfterRounds(s, st, w, rounds - 1), t0, t1, t2, t3)
    ensures rk == 4 * rounds
  {
    hide Holds, FullRound, RoundKey;
    var s0, s1, s2, s3 := w0, w1, w2, w3;
    var r := rounds / 2;
    rk := 0;
    while true
      invariant 1 <= r <= rounds / 2 && rk == 8 * (rounds / 2 - r)
      invariant Holds(AfterRounds(s, st, w, rk / 4), s0, s1, s2, s3)
      decreases r
    {
      ghost var n := rk / 4;
      var k0, k1, k2, k3 := LoadKey(w, n + 1, rd, rk + 4);
      t0, t1, t2, t3 := Round(s, AfterRounds(s, st, w, n), RoundKey(w, n + 1), s0, s1, s2, s3, k0, k1, k2, k3);
      rk := rk + 8;
      r := r - 1;
      if r == 0 {
        break;
      }
      k0, k1, k2, k3 := LoadKey(w, n + 2, rd, rk);
      s0, s1, s2, s3 := Round(s, AfterRounds(s, st, w, n + 1), RoundKey(w, n + 2), t0, t1, t2, t3, k0, k1, k2, k3);
    }
  }

  /** AES_Encrypt; the input and output buffers may be the same. */
  method EncryptBlock(s: SBox, input: array<Byte>, output: array<Byte>, key: AesKey)
    requires key.Ready() && input.Length >= 16 && output.Length >= 16
    modifies output
    ensures output[..16] == CipherBytes(s, key.rounds, old(input[..16]), old(WordColumns(key.rd_key[..])))
    ensures output[16..] == old(output[16..])
  {
    hide Holds, LastRound, AddRoundKey, RoundKey, StateOf, BytesOf, WordColumns;
    ghost var st, w := StateOf(input[..16]), WordColumns(key.rd_key[..]);
    var rd := key.rd_key;
    var s0, s1, s2, s3 := LoadBlock(input, rd);
    var t0, t1, t2, t3, rk := MiddleRounds(s, st, w, rd, key.rounds, s0, s1, s2, s3);
    var k0, k1, k2, k3 := LoadKey(w, key.rounds, rd, rk);
    s0, s1, s2, s3 := FinalRound(s, AfterRounds(s, st, w, key.rounds - 1), RoundKey(w, key.rounds),
      t0, t1, t2, t3, k0, k1, k2, k3);
    StoreBlock(Cipher(s, key.rounds, st, w), output, s0, s1, s2, s3);
  }
}
