/** The AES cipher and key expansion as FIPS 197 writes them, over an arbitrary S-box. */
module Fips197 {
  import opened Words

  type SBox = Byte -> Byte

  /** Section 3.4: the 4x4 state, kept as its four columns. */
  datatype State = State(c0: Column, c1: Column, c2: Column, c3: Column)

  /** Section 4.2.1. */
  function Xtime(b: Byte): Byte {
    (b << 1) ^ (if b & 0x80 != 0 then 0x1b else 0)
  }

  /** Sections 5.1.1 and 5.2: the S-box on each byte. */
  function SubWord(s: SBox, c: Column): Column {
    Column(s(c.r0), s(c.r1), s(c.r2), s(c.r3))
  }

  /** Section 5.1.1. */
  function SubBytes(s: SBox, st: State): State {
    State(SubWord(s, st.c0), SubWord(s, st.c1), SubWord(s, st.c2), SubWord(s, st.c3))
  }

  /** Section 5.1.2: row r moves left by r places. */
  function ShiftRows(st: State): State {
    State(
      Column(st.c0.r0, st.c1.r1, st.c2.r2, st.c3.r3),
      Column(st.c1.r0, st.c2.r1, st.c3.r2, st.c0.r3),
      Column(st.c2.r0, st.c3.r1, st.c0.r2, st.c1.r3),
      Column(st.c3.r0, st.c0.r1, st.c1.r2, st.c2.r3))
  }

  /** Section 5.1.3: one row of the product with the circulant matrix of {02} {03} {01} {01}, with {03}b = {02}b ^ b. */
  function MixRow(a: Byte, b: Byte, c: Byte, d: Byte): Byte {
    Xtime(a) ^ (Xtime(b) ^ b) ^ c ^ d
  }

  /** Section 5.1.3: multiplication by {03}x^3 + {01}x^2 + {01}x + {02}. */
  function MixColumn(c: Column): Column {
    Column(
      MixRow(c.r0, c.r1, c.r2, c.r3),
      MixRow(c.r1, c.r2, c.r3, c.r0),
      MixRow(c.r2, c.r3, c.r0, c.r1),
      MixRow(c.r3, c.r0, c.r1, c.r2))
  }

  function MixColumns(st: State): State {
    State(MixColumn(st.c0), MixColumn(st.c1), MixColumn(st.c2), MixColumn(st.c3))
  }

  /** Section 5.1.4 with the four schedule words of one round. */
  function AddRoundKey(st: State, k: State): State {
    State(Xor(st.c0, k.c0), Xor(st.c1, k.c1), Xor(st.c2, k.c2), Xor(st.c3, k.c3))
  }

  function RoundKey(w: seq<Column>, round: nat): State
    requires 4 * round + 4 <= |w|
  {
    State(w[4 * round], w[4 * round + 1], w[4 * round + 2], w[4 * round + 3])
  }

  function FullRound(s: SBox, st: State, k: State): State {
    AddRoundKey(MixColumns(ShiftRows(SubBytes(s, st))), k)
  }

  function LastRound(s: SBox, st: State, k: State): State {
    AddRoundKey(ShiftRows(SubBytes(s, st)), k)
  }

  /** The state after the initial key addition and the given number of full rounds. */
  function AfterRounds(s: SBox, st: State, w: seq<Column>, round: nat): State
    requires 4 * round + 4 <= |w|
  {
    if round == 0 then AddRoundKey(st, RoundKey(w, 0))
    else FullRound(s, AfterRounds(s, st, w, round - 1), RoundKey(w, round))
  }

  /** Section 5.1. */
  function Cipher(s: SBox, nr: nat, st: State, w: seq<Column>): State
    requires 1 <= nr && 4 * nr + 4 <= |w|
  {
    LastRound(s, AfterRounds(s, st, w, nr - 1), RoundKey(w, nr))
  }

  /** Section 5.2: the powers x^(j-1). */
  function RconByte(j: nat): Byte {
    if j <= 1 then 1 else Xtime(RconByte(j - 1))
  }

  function Rcon(j: nat): Column {
    Column(RconByte(j), 0, 0, 0)
  }

  /** Section 5.2: word i of the schedule grown from the nk words of the key. */
  function ScheduleWord(s: SBox, key: seq<Column>, i: nat): Column
    requires |key| in {4, 6, 8}
  {
    var nk := |key|;
    if i < nk then key[i]
    else
      var temp := ScheduleWord(s, key, i - 1);
      var mixed :=
        if i % nk == 0 then Xor(SubWord(s, RotateUp(temp)), Rcon(i / nk))
        else if nk > 6 && i % nk == 4 then SubWord(s, temp)
        else temp;
      Xor(ScheduleWord(s, key, i - nk), mixed)
  }

  function Rounds(nk: nat): nat {
    nk + 6
  }

  function KeyExpansion(s: SBox, key: seq<Column>): seq<Column>
    requires |key| in {4, 6, 8}
  {
    seq(4 * (Rounds(|key|) + 1), i requires 0 <= i => ScheduleWord(s, key, i))
  }

  /** Bytes to columns, in the order of section 3.4. */
  function ColumnAt(b: seq<Byte>, i: nat): Column
    requires 4 * i + 4 <= |b|
  {
    Column(b[4 * i], b[4 * i + 1], b[4 * i + 2], b[4 * i + 3])
  }

  function Columns(b: seq<Byte>): (c: seq<Column>)
    ensures |c| == |b| / 4
  {
    seq(|b| / 4, i requires 0 <= i < |b| / 4 => ColumnAt(b, i))
  }

  function StateOf(b: seq<Byte>): State
    requires |b| == 16
  {
    State(ColumnAt(b, 0), ColumnAt(b, 1), ColumnAt(b, 2), ColumnAt(b, 3))
  }

  function BytesOf(st: State): (b: seq<Byte>)
    ensures |b| == 16
  {
    [st.c0.r0, st.c0.r1, st.c0.r2, st.c0.r3, st.c1.r0, st.c1.r1, st.c1.r2, st.c1.r3,
     st.c2.r0, st.c2.r1, st.c2.r2, st.c2.r3, st.c3.r0, st.c3.r1, st.c3.r2, st.c3.r3]
  }

  lemma BytesAt(m: seq<Byte>, out: nat, st: State)
    requires out + 16 <= |m|
    requires Column(m[out], m[out + 1], m[out + 2], m[out + 3]) == st.c0
    requires Column(m[out + 4], m[out + 5], m[out + 6], m[out + 7]) == st.c1
    requires Column(m[out + 8], m[out + 9], m[out + 10], m[out + 11]) == st.c2
    requires Column(m[out + 12], m[out + 13], m[out + 14], m[out + 15]) == st.c3
    ensures m[out..out + 16] == BytesOf(st)
  {
  }

  /** One block under a ready schedule. */
  function CipherBytes(s: SBox, nr: nat, block: seq<Byte>, w: seq<Column>): (out: seq<Byte>)
    requires 1 <= nr && 4 * nr + 4 <= |w|
    requires |block| == 16
    ensures |out| == 16
  {
    BytesOf(Cipher(s, nr, StateOf(block), w))
  }

  lemma XorRegroup(a: Column, b: Column, c: Column)
    ensures Xor(Xor(a, b), c) == Xor(a, Xor(b, c))
  {
  }

  lemma XorSwap(a: Column, b: Column)
    ensures Xor(a, b) == Xor(b, a)
  {
  }

  lemma KeyWord(s: SBox, key: seq<Column>, i: nat)
    requires |key| in {4, 6, 8} && i < |key|
    ensures ScheduleWord(s, key, i) == key[i]
  {
  }

  lemma PlainWord(s: SBox, key: seq<Column>, i: nat)
    requires |key| in {4, 6, 8} && i >= |key| && i % |key| != 0 && !(|key| == 8 && i % 8 == 4)
    ensures ScheduleWord(s, key, i) == Xor(ScheduleWord(s, key, i - |key|), ScheduleWord(s, key, i - 1))
    ensures ScheduleWord(s, key, i) == Xor(ScheduleWord(s, key, i - 1), ScheduleWord(s, key, i - |key|))
  {
    XorSwap(ScheduleWord(s, key, i - |key|), ScheduleWord(s, key, i - 1));
  }

  lemma RotatedWord(s: SBox, key: seq<Column>, i: nat)
    requires |key| in {4, 6, 8} && i >= |key| && i % |key| == 0
    ensures ScheduleWord(s, key, i)
         == Xor(ScheduleWord(s, key, i - |key|),
                Xor(SubWord(s, RotateUp(ScheduleWord(s, key, i - 1))), Rcon(i / |key|)))
  {
  }

  lemma SubbedWord(s: SBox, key: seq<Column>, i: nat)
    requires |key| == 8 && i >= 8 && i % 8 == 4
    ensures ScheduleWord(s, key, i)
         == Xor(ScheduleWord(s, key, i - 8), SubWord(s, ScheduleWord(s, key, i - 1)))
  {
  }

  /** The ten round-constant bytes that both schedules table. */
  const RCON: seq<Byte> := [0x01, 0x02, 0x04, 0x08, 0x10, 0x20, 0x40, 0x80, 0x1B, 0x36]

  lemma RconPowers(i: nat)
    requires i < 10
    ensures RCON[i] == RconByte(i + 1)
  {
    assert RconByte(3) == 0x04 && RconByte(4) == 0x08;
    assert RconByte(5) == 0x10 && RconByte(6) == 0x20;
    assert RconByte(7) == 0x40 && RconByte(8) == 0x80;
    assert RconByte(9) == 0x1b && RconByte(10) == 0x36;
  }
}
