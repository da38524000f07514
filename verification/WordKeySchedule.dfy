/** AES_SetEncryptKey: the key schedule of all three key sizes, word by word. */
module WordKeySchedule {
  import opened Words
  import opened Fips197
  import opened TableCipher

  lemma BigEndianTop(b: Byte)
    ensures BigEndian((b as Word) << 24) == Column(b, 0, 0, 0)
  {
  }

  /** The first word of a turn: rotated, substituted and masked with the round constant. */
  method TurnWord(s: SBox, base: Word, temp: Word, i: nat) returns (w: Word)
    requires i < 10
    ensures BigEndian(w) == Xor(BigEndian(base), Xor(SubWord(s, RotateUp(BigEndian(temp))), Rcon(i + 1)))
  {
    var sub := Keep(s, Low(temp >> 16), Low(temp >> 8), Low(temp), Low(temp >> 24), base);
    var rcon := (RCON[i] as Word) << 24;
    RconPowers(i);
    BigEndianTop(RCON[i]);
    hide Low, Xor;
    BigEndianXor(sub, rcon);
    XorSwap(SubWord(s, RotateUp(BigEndian(temp))), BigEndian(base));
    XorRegroup(BigEndian(base), SubWord(s, RotateUp(BigEndian(temp))), Rcon(i + 1));
    w := sub ^ rcon;
  }

  /** The substituted word in the middle of a 256-bit turn. */
  method MiddleWord(s: SBox, base: Word, temp: Word) returns (w: Word)
    ensures BigEndian(w) == Xor(BigEndian(base), SubWord(s, BigEndian(temp)))
  {
    hide Low, Xor;
    w := Keep(s, Low(temp >> 24), Low(temp >> 16), Low(temp >> 8), Low(temp), base);
    XorSwap(SubWord(s, BigEndian(temp)), BigEndian(base));
  }

  /** The first n words of the schedule are in place. */
  ghost predicate Grown(s: SBox, k: seq<Column>, rd: array<Word>, n: nat)
    requires |k| in {4, 6, 8} && n <= rd.Length
    reads rd
  {
    forall j :: 0 <= j < n ==> BigEndian(rd[j]) == ScheduleWord(s, k, j)
  }

  /** A plain word: the one |k| places back added to the last one. */
  method Chain(s: SBox, ghost k: seq<Column>, nk: nat, rd: array<Word>, q: nat)
    requires |k| == nk && nk in {4, 6, 8} && nk <= q < rd.Length && q % nk != 0 && !(nk == 8 && q % 8 == 4)
    requires Grown(s, k, rd, q)
    modifies rd
    ensures Grown(s, k, rd, q + 1)
    ensures forall j :: 0 <= j < rd.Length && j != q ==> rd[j] == old(rd[j])
  {
    hide Xor, BigEndian, ScheduleWord;
    PlainWord(s, k, q);
    BigEndianXor(rd[q - nk], rd[q - 1]);
    rd[q] := rd[q - nk] ^ rd[q - 1];
  }

  /** The word that opens turn i. */
  method OpenTurn(s: SBox, ghost k: seq<Column>, nk: nat, rd: array<Word>, q: nat, i: nat)
    requires |k| == nk && nk in {4, 6, 8} && i < 10 && q == nk * (i + 1) < rd.Length
    requires Grown(s, k, rd, q)
    modifies rd
    ensures Grown(s, k, rd, q + 1)
    ensures forall j :: 0 <= j < rd.Length && j != q ==> rd[j] == old(rd[j])
  {
    hide Xor, BigEndian, ScheduleWord, SubWord, RotateUp, Rcon;
    RotatedWord(s, k, q);
    rd[q] := TurnWord(s, rd[q - nk], rd[q - 1], i);
  }

  /** The substituted word of a 256-bit turn. */
  method MiddleTurn(s: SBox, ghost k: seq<Column>, rd: array<Word>, q: nat)
    requires |k| == 8 && 8 <= q < rd.Length && q % 8 == 4
    requires Grown(s, k, rd, q)
    modifies rd
    ensures Grown(s, k, rd, q + 1)
    ensures forall j :: 0 <= j < rd.Length && j != q ==> rd[j] == old(rd[j])
  {
    hide Xor, BigEndian, ScheduleWord, SubWord;
    SubbedWord(s, k, q);
    rd[q] := MiddleWord(s, rd[q - 8], rd[q - 1]);
  }

  method Expand128(s: SBox, ghost k: seq<Column>, rd: array<Word>)
    requires |k| == 4 && rd.Length == 60 && Grown(s, k, rd, 4)
    modifies rd
    ensures Grown(s, k, rd, 44)
    ensures forall j :: 44 <= j < 60 ==> rd[j] == old(rd[j])
  {
    hide Grown;
    var i, rk := 0, 0;
    while true
      invariant 0 <= i < 10 && rk == 4 * i && Grown(s, k, rd, 4 * i + 4)
      invariant forall j :: 44 <= j < 60 ==> rd[j] == old(rd[j])
      decreases 10 - i
    {
      OpenTurn(s, k, 4, rd, rk + 4, i);
      Chain(s, k, 4, rd, rk + 5);
      Chain(s, k, 4, rd, rk + 6);
      Chain(s, k, 4, rd, rk + 7);
      i := i + 1;
      if i == 10 {
        return;
      }
      rk := rk + 4;
    }
  }

  method Expand192(s: SBox, ghost k: seq<Column>, rd: array<Word>)
    requires |k| == 6 && rd.Length == 60 && Grown(s, k, rd, 6)
    modifies rd
    ensures Grown(s, k, rd, 52)
    ensures forall j :: 52 <= j < 60 ==> rd[j] == old(rd[j])
  {
    hide Grown;
    var i, rk := 0, 0;
    while true
      invariant 0 <= i < 8 && rk == 6 * i && Grown(s, k, rd, 6 * i + 6)
      invariant forall j :: 52 <= j < 60 ==> rd[j] == old(rd[j])
      decreases 8 - i
    {
      OpenTurn(s, k, 6, rd, rk + 6, i);
      Chain(s, k, 6, rd, rk + 7);
      Chain(s, k, 6, rd, rk + 8);
      Chain(s, k, 6, rd, rk + 9);
      i := i + 1;
      if i == 8 {
        return;
      }
      Chain(s, k, 6, rd, rk + 10);
      Chain(s, k, 6, rd, rk + 11);
      rk := rk + 6;
    }
  }

  method Expand256(s: SBox, ghost k: seq<Column>, rd: array<Word>)
    requires |k| == 8 && rd.Length == 60 && Grown(s, k, rd, 8)
    modifies rd
    ensures Grown(s, k, rd, 60)
  {
    hide Grown;
    var i, rk := 0, 0;
    while true
      invariant 0 <= i < 7 && rk == 8 * i && Grown(s, k, rd, 8 * i + 8)
      decreases 7 - i
    {
      OpenTurn(s, k, 8, rd, rk + 8, i);
      Chain(s, k, 8, rd, rk + 9);
      Chain(s, k, 8, rd, rk + 10);
      Chain(s, k, 8, rd, rk + 11);
      i := i + 1;
      if i == 7 {
        return;
      }
      MiddleTurn(s, k, rd, rk + 12);
      Chain(s, k, 8, rd, rk + 13);
      Chain(s, k, 8, rd, rk + 14);
      Chain(s, k, 8, rd, rk + 15);
      rk := rk + 8;
    }
  }

  /** The key words are loaded one GETU32 at a time. */
  method LoadKeyWords(s: SBox, ghost k: seq<Column>, userKey: array<Byte>, rd: array<Word>, from: nat, to: nat)
    requires |k| in {4, 6, 8} && from <= to <= |k| && rd.Length == 60 && userKey.Length >= 4 * |k|
    requires k == Columns(userKey[..4 * |k|])
    requires Grown(s, k, rd, from)
    modifies rd
    ensures Grown(s, k, rd, to)
    ensures forall j :: to <= j < 60 ==> rd[j] == old(rd[j])
  {
    hide BigEndian, ScheduleWord;
    for j := from to to
      invariant Grown(s, k, rd, j)
      invariant forall i :: to <= i < 60 ==> rd[i] == old(rd[i])
    {
      KeyWord(s, k, j);
      assert k[j] == ColumnAt(userKey[..4 * |k|], j);
      rd[j] := GetU32(userKey, 4 * j);
    }
  }

  lemma GrownIsExpansion(s: SBox, k: seq<Column>, rd: array<Word>)
    requires |k| in {4, 6, 8} && rd.Length == 60 && Grown(s, k, rd, 4 * (Rounds(|k|) + 1))
    ensures WordColumns(rd[..])[..4 * (Rounds(|k|) + 1)] == KeyExpansion(s, k)
  {
    hide ScheduleWord, BigEndian;
  }

  /** AES_SetEncryptKey. */
  method SetEncryptKey(s: SBox, userKey: array?<Byte>, bits: int, key: AesKey?) returns (r: int)
    requires key != null ==> key.rd_key.Length == 60
    requires userKey != null && bits in {128, 192, 256} ==> 8 * userKey.Length >= bits
    modifies if key == null then {} else {key as object, key.rd_key as object}
    ensures r == (if userKey == null || key == null then -1 else if bits !in {128, 192, 256} then -2 else 0)
    ensures r != 0 && key != null ==> key.rounds == old(key.rounds) && key.rd_key[..] == old(key.rd_key[..])
    ensures r == 0 ==>
      && key.Ready() && key.rounds == Rounds(bits / 32)
      && WordColumns(key.rd_key[..])[..4 * (key.rounds + 1)] == KeyExpansion(s, Columns(userKey[..bits / 8]))
      && key.rd_key[4 * (key.rounds + 1)..] == old(key.rd_key[4 * (Rounds(bits / 32) + 1)..])
  {
    hide ScheduleWord, BigEndian, Grown;
    if userKey == null || key == null {
      return -1;
    }
    if bits != 128 && bits != 192 && bits != 256 {
      return -2;
    }
    var rd := key.rd_key;
    ghost var k := Columns(userKey[..bits / 8]);
    if bits == 128 {
      key.rounds := 10;
    } else if bits == 192 {
      key.rounds := 12;
    } else {
      key.rounds := 14;
    }
    NothingGrown(s, k, rd);
    LoadKeyWords(s, k, userKey, rd, 0, 4);
    if bits == 128 {
      Expand128(s, k, rd);
      GrownIsExpansion(s, k, rd);
      return 0;
    }
    LoadKeyWords(s, k, userKey, rd, 4, 6);
    if bits == 192 {
      Expand192(s, k, rd);
      GrownIsExpansion(s, k, rd);
      return 0;
    }
    LoadKeyWords(s, k, userKey, rd, 6, 8);
    Expand256(s, k, rd);
    GrownIsExpansion(s, k, rd);
    return 0;
  }

  lemma NothingGrown(s: SBox, k: seq<Column>, rd: array<Word>)
    requires |k| in {4, 6, 8}
    ensures Grown(s, k, rd, 0)
  {
  }
}
