/**
 * The cipher and its schedules told byte by byte, by positions in the block and arithmetic in GF(2^8):
 * a second description, independent of the state and column operations.
 */
module AesBytes {
  import opened Words
  import opened Fips197

  function Row(c: Column, j: nat): Byte {
    if j == 0 then c.r0 else if j == 1 then c.r1 else if j == 2 then c.r2 else c.r3
  }

  function Col(st: State, c: nat): Column {
    if c == 0 then st.c0 else if c == 1 then st.c1 else if c == 2 then st.c2 else st.c3
  }

  /** Section 3.4: byte i of a block is in row i % 4 and column i / 4. */
  function Cell(st: State, i: nat): Byte {
    Row(Col(st, i / 4), i % 4)
  }

  lemma SixteenBytes(st: State)
    ensures var b := BytesOf(st);
            && b[0] == st.c0.r0 && b[1] == st.c0.r1 && b[2] == st.c0.r2 && b[3] == st.c0.r3
            && b[4] == st.c1.r0 && b[5] == st.c1.r1 && b[6] == st.c1.r2 && b[7] == st.c1.r3
            && b[8] == st.c2.r0 && b[9] == st.c2.r1 && b[10] == st.c2.r2 && b[11] == st.c2.r3
            && b[12] == st.c3.r0 && b[13] == st.c3.r1 && b[14] == st.c3.r2 && b[15] == st.c3.r3
  {
  }

  lemma BytesAreCells(st: State, i: nat)
    requires i < 16
    ensures BytesOf(st)[i] == Cell(st, i)
  {
    hide BytesOf;
    SixteenBytes(st);
    var r := i % 4;
    if i < 4 {
      assert i == r;
    } else if i < 8 {
      assert i == 4 + r;
    } else if i < 12 {
      assert i == 8 + r;
    } else {
      assert i == 12 + r;
    }
  }

  lemma AddedCell(st: State, k: State, i: nat)
    requires i < 16
    ensures Cell(AddRoundKey(st, k), i) == XorByte(Cell(st, i), Cell(k, i))
  {
    hide XorByte;
    assert Col(AddRoundKey(st, k), i / 4) == Xor(Col(st, i / 4), Col(k, i / 4));
  }

  lemma AddedBytes(st: State, k: State, i: nat)
    requires i < 16
    ensures BytesOf(AddRoundKey(st, k))[i] == XorByte(BytesOf(st)[i], BytesOf(k)[i])
  {
    hide XorByte, BytesOf, Cell, AddRoundKey;
    BytesAreCells(AddRoundKey(st, k), i);
    BytesAreCells(st, i);
    BytesAreCells(k, i);
    AddedCell(st, k, i);
  }

  lemma BytesOfState(b: seq<Byte>, i: nat)
    requires |b| == 16 && i < 16
    ensures BytesOf(StateOf(b))[i] == Cell(StateOf(b), i) == b[i]
  {
    hide BytesOf;
    BytesAreCells(StateOf(b), i);
  }

  lemma KeyCell(keys: seq<Byte>, round: nat, i: nat)
    requires |keys| >= 16 * round + 16 && i < 16
    ensures Cell(RoundKey(Columns(keys), round), i) == keys[16 * round + i]
  {
    var c := Columns(keys);
    assert c[4 * round] == ColumnAt(keys, 4 * round) && c[4 * round + 1] == ColumnAt(keys, 4 * round + 1);
    assert c[4 * round + 2] == ColumnAt(keys, 4 * round + 2) && c[4 * round + 3] == ColumnAt(keys, 4 * round + 3);
  }

  /** Where the byte comes from that moving the rows puts at place i: row i % 4 moves left by i % 4. */
  function Source(i: nat): (j: nat)
    ensures j < 16
  {
    (i + 4 * (i % 4)) % 16
  }

  lemma SourcePlace(i: nat)
    requires i < 16
    ensures Source(i) / 4 == (i / 4 + i % 4) % 4 && Source(i) % 4 == i % 4
  {
    var c, r := i / 4, i % 4;
    assert i + 4 * r == 4 * (c + r) + r;
    if c + r < 4 {
      assert Source(i) == 4 * (c + r) + r;
    } else {
      assert Source(i) == 4 * (c + r - 4) + r;
    }
  }

  lemma ShiftedCell(st: State, i: nat)
    requires i < 16
    ensures Cell(ShiftRows(st), i) == Cell(st, Source(i))
  {
    hide Source, ShiftRows, Row, Col;
    SourcePlace(i);
    RowMoved(st, i / 4, i % 4);
  }

  lemma RowMoved(st: State, c: nat, r: nat)
    requires c < 4 && r < 4
    ensures Row(Col(ShiftRows(st), c), r) == Row(Col(st, (c + r) % 4), r)
  {
  }

  /** Section 5.1.2 by places. */
  lemma RowsMoveLeft(b: seq<Byte>, i: nat)
    requires |b| == 16 && i < 16
    ensures BytesOf(ShiftRows(StateOf(b)))[i] == b[(i + 4 * (i % 4)) % 16]
  {
    hide BytesOf, ShiftRows, StateOf;
    BytesAreCells(ShiftRows(StateOf(b)), i);
    ShiftedCell(StateOf(b), i);
    BytesOfState(b, Source(i));
  }

  /** Section 4.2: the product with x, reduced by x^8 + x^4 + x^3 + x + 1. */
  function TimesX(b: Byte): Byte {
    var p := (b as bv16) << 1;
    ((if p & 0x100 != 0 then p ^ 0x11b else p) & 0xff) as Byte
  }

  lemma ReducedFits(b: Byte)
    ensures var p := (b as bv16) << 1;
            (if p & 0x100 != 0 then p ^ 0x11b else p) < 0x100
  {
  }

  lemma XtimeIsProduct(b: Byte)
    ensures Xtime(b) == TimesX(b)
  {
  }

  function TimesX1(b: Byte): Byte {
    TimesX(b) ^ b
  }

  lemma MixedRow(a: Byte, b: Byte, c: Byte, d: Byte)
    ensures MixRow(a, b, c, d) == XorByte(XorByte(XorByte(TimesX(a), TimesX1(b)), c), d)
  {
    hide Xtime, TimesX;
    XtimeIsProduct(a);
    XtimeIsProduct(b);
  }

  lemma MixedCell(st: State, i: nat)
    requires i < 16
    ensures var c := 4 * (i / 4);
            Cell(MixColumns(st), i)
            == MixRow(Cell(st, i), Cell(st, c + (i + 1) % 4), Cell(st, c + (i + 2) % 4), Cell(st, c + (i + 3) % 4))
  {
    hide MixRow, Row, Col, MixColumns, MixColumn;
    ColumnMixed(st, i / 4);
    RowMixed(Col(st, i / 4), i % 4);
    SamePlace(i, 1);
    SamePlace(i, 2);
    SamePlace(i, 3);
  }

  lemma SamePlace(i: nat, n: nat)
    requires i < 16 && n < 4
    ensures var j := 4 * (i / 4) + (i + n) % 4;
            j / 4 == i / 4 && j % 4 == (i % 4 + n) % 4
  {
    assert i == 4 * (i / 4) + i % 4;
  }

  lemma ColumnMixed(st: State, c: nat)
    requires c < 4
    ensures Col(MixColumns(st), c) == MixColumn(Col(st, c))
  {
    hide MixColumn;
  }

  lemma RowMixed(c: Column, r: nat)
    requires r < 4
    ensures Row(MixColumn(c), r) == MixRow(Row(c, r), Row(c, (r + 1) % 4), Row(c, (r + 2) % 4), Row(c, (r + 3) % 4))
  {
    hide MixRow;
  }

  lemma SubbedCell(s: SBox, st: State, i: nat)
    requires i < 16
    ensures Cell(SubBytes(s, st), i) == s(Cell(st, i))
  {
    hide Row;
    assert Col(SubBytes(s, st), i / 4) == SubWord(s, Col(st, i / 4));
    RowSubbed(s, Col(st, i / 4), i % 4);
  }

  lemma RowSubbed(s: SBox, c: Column, r: nat)
    requires r < 4
    ensures Row(SubWord(s, c), r) == s(Row(c, r))
  {
  }

  /** Byte i after a full round on the bytes b of a block with the sixteen bytes k of its key. */
  function RoundByte(s: SBox, b: seq<Byte>, k: seq<Byte>, i: nat): Byte
    requires |b| == 16 && |k| == 16 && i < 16
  {
    var c := 4 * (i / 4);
    var b0, b1 := s(b[Source(i)]), s(b[Source(c + (i + 1) % 4)]);
    var b2, b3 := s(b[Source(c + (i + 2) % 4)]), s(b[Source(c + (i + 3) % 4)]);
    XorByte(XorByte(XorByte(XorByte(TimesX(b0), TimesX1(b1)), b2), b3), k[i])
  }

  function RoundBytes(s: SBox, b: seq<Byte>, k: seq<Byte>): (r: seq<Byte>)
    requires |b| == 16 && |k| == 16
    ensures |r| == 16
  {
    seq(16, i requires 0 <= i < 16 => RoundByte(s, b, k, i))
  }

  /** The block after the key addition and some full rounds. */
  function BytesAfter(s: SBox, block: seq<Byte>, keys: seq<Byte>, round: nat): (r: seq<Byte>)
    requires |block| == 16 && |keys| >= 16 * round + 16
    ensures |r| == 16
  {
    if round == 0 then seq(16, i requires 0 <= i < 16 => XorByte(block[i], keys[i]))
    else RoundBytes(s, BytesAfter(s, block, keys, round - 1), keys[16 * round..16 * round + 16])
  }

  /** The whole cipher in bytes. */
  function CipherByBytes(s: SBox, nr: nat, block: seq<Byte>, keys: seq<Byte>): (r: seq<Byte>)
    requires |block| == 16 && 1 <= nr && |keys| >= 16 * nr + 16
    ensures |r| == 16
  {
    var b := BytesAfter(s, block, keys, nr - 1);
    seq(16, i requires 0 <= i < 16 => XorByte(s(b[(i + 4 * (i % 4)) % 16]), keys[16 * nr + i]))
  }

  lemma RoundCell(s: SBox, st: State, b: seq<Byte>, k: State, key: seq<Byte>, i: nat)
    requires |b| == |key| == 16 && i < 16
    requires forall j :: 0 <= j < 16 ==> b[j] == Cell(st, j) && key[j] == Cell(k, j)
    ensures Cell(FullRound(s, st, k), i) == RoundByte(s, b, key, i)
  {
    hide Cell, MixRow, TimesX, TimesX1, XorByte, Source, SubBytes, ShiftRows, MixColumns, AddRoundKey;
    var moved, c := ShiftRows(SubBytes(s, st)), 4 * (i / 4);
    var i1, i2, i3 := c + (i + 1) % 4, c + (i + 2) % 4, c + (i + 3) % 4;
    assert i1 < 16 && i2 < 16 && i3 < 16;
    AddedCell(MixColumns(moved), k, i);
    MixedCell(moved, i);
    MixedRow(Cell(moved, i), Cell(moved, i1), Cell(moved, i2), Cell(moved, i3));
    assert Cell(moved, i) == s(b[Source(i)]) by { MovedCell(s, st, i); }
    assert Cell(moved, i1) == s(b[Source(i1)]) by { MovedCell(s, st, i1); }
    assert Cell(moved, i2) == s(b[Source(i2)]) by { MovedCell(s, st, i2); }
    assert Cell(moved, i3) == s(b[Source(i3)]) by { MovedCell(s, st, i3); }
  }

  lemma MovedCell(s: SBox, st: State, i: nat)
    requires i < 16
    ensures Cell(ShiftRows(SubBytes(s, st)), i) == s(Cell(st, Source(i)))
  {
    hide Cell, SubBytes, ShiftRows;
    ShiftedCell(SubBytes(s, st), i);
    SubbedCell(s, st, Source(i));
  }

  lemma {:induction false} RoundsByBytes(s: SBox, block: seq<Byte>, keys: seq<Byte>, round: nat, i: nat)
    requires |block| == 16 && |keys| >= 16 * round + 16 && i < 16
    ensures Cell(AfterRounds(s, StateOf(block), Columns(keys), round), i) == BytesAfter(s, block, keys, round)[i]
    decreases round
  {
    hide Cell, RoundKey, FullRound, AddRoundKey, StateOf, Columns, RoundByte, BytesOf;
    if round == 0 {
      AddedCell(StateOf(block), RoundKey(Columns(keys), 0), i);
      BytesOfState(block, i);
      KeyCell(keys, 0, i);
    } else {
      var before, b := AfterRounds(s, StateOf(block), Columns(keys), round - 1), BytesAfter(s, block, keys, round - 1);
      var k, key := RoundKey(Columns(keys), round), keys[16 * round..16 * round + 16];
      forall j | 0 <= j < 16
        ensures b[j] == Cell(before, j) && key[j] == Cell(k, j)
      {
        RoundsByBytes(s, block, keys, round - 1, j);
        KeyCell(keys, round, j);
      }
      RoundCell(s, before, b, k, key, i);
    }
  }

  /** The two descriptions of the cipher agree for every S-box, block, schedule and number of rounds. */
  lemma CipherIsByBytes(s: SBox, nr: nat, block: seq<Byte>, keys: seq<Byte>)
    requires |block| == 16 && 1 <= nr && |keys| >= 16 * nr + 16
    ensures CipherBytes(s, nr, block, Columns(keys)) == CipherByBytes(s, nr, block, keys)
  {
    hide Cell, AfterRounds, RoundKey, AddRoundKey, SubBytes, ShiftRows, StateOf, Columns, BytesOf, BytesAfter;
    var before, k := AfterRounds(s, StateOf(block), Columns(keys), nr - 1), RoundKey(Columns(keys), nr);
    var out := CipherByBytes(s, nr, block, keys);
    forall i | 0 <= i < 16
      ensures CipherBytes(s, nr, block, Columns(keys))[i] == out[i]
    {
      BytesAreCells(LastRound(s, before, k), i);
      AddedCell(ShiftRows(SubBytes(s, before)), k, i);
      MovedCell(s, before, i);
      RoundsByBytes(s, block, keys, nr - 1, Source(i));
      KeyCell(keys, nr, i);
    }
  }

  /** Section 5.2: x^(t-1) for the turns that the tables have a constant for. */
  function Power(t: nat): Byte
    requires 1 <= t <= 10
  {
    if t == 1 then 0x01 else if t == 2 then 0x02 else if t == 3 then 0x04 else if t == 4 then 0x08
    else if t == 5 then 0x10 else if t == 6 then 0x20 else if t == 7 then 0x40 else if t == 8 then 0x80
    else if t == 9 then 0x1b else 0x36
  }

  lemma ConstantIsPower(t: nat)
    requires 1 <= t <= 10
    ensures Rcon(t) == Column(Power(t), 0, 0, 0)
    ensures t > 1 ==> Power(t) == TimesX(Power(t - 1))
  {
    RconPowers(t - 1);
  }

  /** The word that opens a turn, byte by byte, for all three key sizes. */
  lemma OpeningBytes(s: SBox, key: seq<Column>, i: nat)
    requires |key| in {4, 6, 8} && i % |key| == 0 && 1 <= i / |key| <= 10
    ensures var a, b, w := ScheduleWord(s, key, i - |key|), ScheduleWord(s, key, i - 1), ScheduleWord(s, key, i);
            && w.r0 == XorByte(a.r0, XorByte(s(b.r1), Power(i / |key|))) && w.r1 == XorByte(a.r1, s(b.r2))
            && w.r2 == XorByte(a.r2, s(b.r3)) && w.r3 == XorByte(a.r3, s(b.r0))
  {
    hide ScheduleWord, Power, Rcon, XorByte;
    RotatedWord(s, key, i);
    ConstantIsPower(i / |key|);
    var b := ScheduleWord(s, key, i - 1);
    XorZero(s(b.r2));
    XorZero(s(b.r3));
    XorZero(s(b.r0));
  }

  lemma XorZero(x: Byte)
    ensures XorByte(x, 0) == x
  {
  }

  /** The first new word of every key, with nothing but the S-box in it. */
  lemma FirstNewWord(s: SBox, key: seq<Column>)
    requires |key| == 4
    ensures ScheduleWord(s, key, 4).r0 == XorByte(key[0].r0, XorByte(s(key[3].r1), 0x01))
    ensures ScheduleWord(s, key, 4).r1 == XorByte(key[0].r1, s(key[3].r2))
    ensures ScheduleWord(s, key, 4).r2 == XorByte(key[0].r2, s(key[3].r3))
    ensures ScheduleWord(s, key, 4).r3 == XorByte(key[0].r3, s(key[3].r0))
  {
    hide ScheduleWord, XorByte;
    OpeningBytes(s, key, 4);
    KeyWord(s, key, 0);
    KeyWord(s, key, 3);
  }

  /** Every byte of a 176-byte schedule behind the key, from bytes in front of it. */
  lemma ScheduleByte(s: SBox, schedule: seq<Byte>, key: seq<Column>, i: nat)
    requires |schedule| == 176 && |key| == 4 && Columns(schedule) == KeyExpansion(s, key) && 16 <= i < 176
    ensures var t, j := i / 16, i % 16;
            schedule[i]
            == XorByte(schedule[i - 16],
                       if j >= 4 then schedule[i - 4]
                       else if j == 0 then XorByte(s(schedule[16 * t - 3]), Power(t))
                       else s(schedule[16 * t - 4 + (j + 1) % 4]))
  {
    hide ScheduleWord, Power, XorByte, Rcon;
    var q, r := i / 4, i % 4;
    WordBytes(s, schedule, key, q, r);
    WordBytes(s, schedule, key, q - 4, r);
    if i % 16 < 4 {
      assert q == 4 * (i / 16) && r == i % 16;
      OpeningBytes(s, key, q);
      WordBytes(s, schedule, key, q - 1, (r + 1) % 4);
    } else {
      PlainWord(s, key, q);
      WordBytes(s, schedule, key, q - 1, r);
    }
  }

  lemma WordBytes(s: SBox, schedule: seq<Byte>, key: seq<Column>, q: nat, r: nat)
    requires |schedule| == 176 && |key| == 4 && Columns(schedule) == KeyExpansion(s, key) && q < 44 && r < 4
    ensures Row(ScheduleWord(s, key, q), r) == schedule[4 * q + r]
  {
    hide ScheduleWord;
    assert Columns(schedule)[q] == ColumnAt(schedule, q);
  }
}
