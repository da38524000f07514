/** How far the buffering driver is counter mode: up to the counter's wrap-around and a little further. */
module CtrRange {
  import opened Words
  import opened Fips197
  import opened Counter
  import opened Ctr
  import opened AesBytes

  lemma {:induction false} SameRounds(s: SBox, st: State, v: seq<Column>, w: seq<Column>, round: nat)
    requires 4 * round + 4 <= |v| && 4 * round + 4 <= |w|
    requires v[..4 * round + 4] == w[..4 * round + 4]
    ensures AfterRounds(s, st, v, round) == AfterRounds(s, st, w, round)
  {
    hide FullRound, AddRoundKey;
    forall i | 0 <= i < 4 * round + 4 ensures v[i] == w[i] {
      assert v[..4 * round + 4][i] == w[..4 * round + 4][i];
    }
    if round > 0 {
      SameRounds(s, st, v, w, round - 1);
    }
  }

  lemma ColumnsOf(a: seq<Byte>, b: seq<Byte>, i: nat)
    requires |a| == 176 && |b| == 176 && i <= 44 && a[..4 * i] == b[..4 * i]
    ensures Columns(a)[..i] == Columns(b)[..i]
  {
    forall j | 0 <= j < 4 * i ensures a[j] == b[j] {
      assert a[..4 * i][j] == b[..4 * i][j];
    }
  }

  lemma LastByteSteps(b: seq<Byte>)
    requires b != []
    ensures Increment(b)[|b| - 1] != b[|b| - 1]
  {
  }

  lemma XorCancels(x: Byte, k: Byte, l: Byte)
    ensures XorByte(x, k) == XorByte(x, l) <==> k == l
  {
  }

  /** The place of the byte at which a carry stops, or 0 where it stops nowhere. */
  function CarryStop(b: seq<Byte>): (d: nat)
    ensures b != [] ==> d < |b|
  {
    if b == [] then 0 else if b[|b| - 1] == 0xff then CarryStop(b[..|b| - 1]) else |b| - 1
  }

  /** Incrementing keeps the bytes in front of that place and changes the byte there. */
  lemma {:induction false} CarryChanges(b: seq<Byte>)
    requires b != []
    ensures Increment(b)[..CarryStop(b)] == b[..CarryStop(b)] && Increment(b)[CarryStop(b)] != b[CarryStop(b)]
  {
    var last := |b| - 1;
    if b[last] == 0xff && last > 0 {
      CarryChanges(b[..last]);
    }
  }

  /** The bytes of the state that the last round key is added to. */
  function LastState(s: SBox, block: seq<Byte>, w: seq<Column>): (b: seq<Byte>)
    requires |block| == 16 && |w| == 44
    ensures |b| == 16
  {
    BytesOf(ShiftRows(SubBytes(s, AfterRounds(s, StateOf(block), w, 9))))
  }

  lemma LastAddition(s: SBox, block: seq<Byte>, w: seq<Column>, i: nat)
    requires |block| == 16 && |w| == 44 && i < 16
    ensures CipherBytes(s, 10, block, w)[i] == XorByte(LastState(s, block, w)[i], BytesOf(RoundKey(w, 10))[i])
  {
    hide AfterRounds, XorByte, SubBytes, ShiftRows, AddRoundKey, BytesOf, RoundKey;
    AddedBytes(ShiftRows(SubBytes(s, AfterRounds(s, StateOf(block), w, 9))), RoundKey(w, 10), i);
  }

  lemma LastKeyBytes(b: seq<Byte>)
    requires |b| == 176
    ensures BytesOf(RoundKey(Columns(b), 10)) == b[160..]
  {
    var c := Columns(b);
    assert c[40] == ColumnAt(b, 40) && c[41] == ColumnAt(b, 41) && c[42] == ColumnAt(b, 42) && c[43] == ColumnAt(b, 43);
  }

  /** A last round key of 0xff bytes leaves a zero in front of it, which stops the carry. */
  lemma ZeroInFront(s: SBox, schedule: seq<Byte>, key: seq<Column>)
    requires |schedule| == 176 && |key| == 4 && Columns(schedule) == KeyExpansion(s, key)
    requires AllOnes(schedule[160..])
    ensures schedule[159] == 0
  {
    hide ScheduleWord, XorByte;
    var c, low := Columns(schedule), schedule[160..];
    PlainWord(s, key, 43);
    assert c[39] == ColumnAt(schedule, 39) && c[42] == ColumnAt(schedule, 42) && c[43] == ColumnAt(schedule, 43);
    assert schedule[171] == low[11] == 0xff && schedule[175] == low[15] == 0xff;
    OnlyZeroKeeps(schedule[159]);
  }

  lemma OnlyZeroKeeps(x: Byte)
    ensures XorByte(x, 0xff) == 0xff ==> x == 0
  {
  }

  /** The first column of the state after nine rounds does not depend on the last word of round key 9. */
  lemma FirstColumn(s: SBox, st: State, v: seq<Column>, w: seq<Column>)
    requires |v| == 44 && |w| == 44 && v[..39] == w[..39]
    ensures AfterRounds(s, st, v, 9).c0 == AfterRounds(s, st, w, 9).c0
  {
    hide AfterRounds, SubBytes, ShiftRows, MixColumns, Xor;
    assert v[..36] == v[..39][..36] == w[..36];
    assert v[36] == v[..39][36] == w[36];
    SameRounds(s, st, v, w, 8);
    NinthRound(s, st, v);
    NinthRound(s, st, w);
  }

  lemma NinthRound(s: SBox, st: State, w: seq<Column>)
    requires |w| == 44
    ensures AfterRounds(s, st, w, 9).c0
         == Xor(MixColumns(ShiftRows(SubBytes(s, AfterRounds(s, st, w, 8)))).c0, w[36])
  {
    hide SubBytes, ShiftRows, MixColumns, Xor;
  }

  lemma FirstByte(s: SBox, block: seq<Byte>, w: seq<Column>)
    requires |block| == 16 && |w| == 44
    ensures LastState(s, block, w)[0] == s(AfterRounds(s, StateOf(block), w, 9).c0.r0)
  {
    hide AfterRounds;
  }

  /** What the carry makes of the schedule, and how far the state in front of the last addition stays the same. */
  lemma CarriedSchedule(s: SBox, schedule: seq<Byte>, key: seq<Column>, iv: seq<Byte>)
    requires |schedule| == 176 && |key| == 4 && Columns(schedule) == KeyExpansion(s, key)
    requires |iv| == 16 && AllOnes(iv)
    ensures var carried := Increment(schedule);
            var d := CarryStop(schedule[160..]);
            var u, v := LastState(s, Increment(iv), Columns(carried)), LastState(s, Increment(iv), Columns(schedule));
            && Increment(schedule + iv) == carried + Increment(iv)
            && carried[160..] == Increment(schedule[160..])
            && u[..d + 1] == v[..d + 1]
  {
    hide LastState, Columns, CarryStop, AfterRounds;
    var front, low, block := schedule[..160], schedule[160..], Increment(iv);
    var carried := Increment(schedule);
    IncrementSplit(schedule, iv);
    assert schedule == front + low;
    IncrementSplit(front, low);
    if AllOnes(low) {
      ZeroInFront(s, schedule, key);
      assert front[159] == 0 && Increment(front) == front[..159] + [1];
      assert carried[..156] == schedule[..156];
      ColumnsOf(carried, schedule, 39);
      FirstByteKept(s, block, Columns(carried), Columns(schedule));
      StopsAtFront(low);
    } else {
      assert carried[..160] == schedule[..160];
      ColumnsOf(carried, schedule, 40);
      SameLastState(s, block, Columns(carried), Columns(schedule));
    }
  }

  lemma FirstByteKept(s: SBox, block: seq<Byte>, v: seq<Column>, w: seq<Column>)
    requires |block| == 16 && |v| == |w| == 44 && v[..39] == w[..39]
    ensures LastState(s, block, v)[..1] == LastState(s, block, w)[..1]
  {
    hide LastState, AfterRounds;
    FirstColumn(s, StateOf(block), v, w);
    FirstByte(s, block, v);
    FirstByte(s, block, w);
  }

  lemma SameLastState(s: SBox, block: seq<Byte>, v: seq<Column>, w: seq<Column>)
    requires |block| == 16 && |v| == |w| == 44
    requires v[..40] == w[..40]
    ensures LastState(s, block, v) == LastState(s, block, w)
  {
    hide AfterRounds;
    SameRounds(s, StateOf(block), v, w, 9);
  }

  lemma {:induction false} StopsAtFront(b: seq<Byte>)
    requires AllOnes(b)
    ensures CarryStop(b) == 0
  {
    if b != [] {
      StopsAtFront(b[..|b| - 1]);
    }
  }

  /**
   * For every key, the block made after the counter stood at all ones is not the counter-mode block: it
   * differs first at the byte of the last round key at which the carry stops.
   */
  lemma WrapChangesBlock(s: SBox, schedule: seq<Byte>, key: seq<Column>, iv: seq<Byte>)
    requires |schedule| == 176 && |key| == 4 && Columns(schedule) == KeyExpansion(s, key)
    requires |iv| == 16 && AllOnes(iv)
    ensures var made := NextBlock(s, Increment(schedule + iv));
            var meant := CipherBytes(s, 10, Increment(iv), Columns(schedule));
            var d := CarryStop(schedule[160..]);
            made[..d] == meant[..d] && made[d] != meant[d]
  {
    hide LastState, Columns, Increment, CarryStop, CipherBytes, XorByte, RoundKey, BytesOf;
    var carried, low := Increment(schedule), schedule[160..];
    var d := CarryStop(low);
    CarriedSchedule(s, schedule, key, iv);
    assert (carried + Increment(iv))[..176] == carried && (carried + Increment(iv))[176..] == Increment(iv);
    CarryChanges(low);
    LastKeyBytes(carried);
    LastKeyBytes(schedule);
    var u, v := LastState(s, Increment(iv), Columns(carried)), LastState(s, Increment(iv), Columns(schedule));
    var made := CipherBytes(s, 10, Increment(iv), Columns(carried));
    var meant := CipherBytes(s, 10, Increment(iv), Columns(schedule));
    forall i | 0 <= i <= d
      ensures made[i] == meant[i] <==> Increment(low)[i] == low[i]
    {
      assert u[i] == u[..d + 1][i] == v[..d + 1][i] == v[i];
      LastAddition(s, Increment(iv), Columns(carried), i);
      LastAddition(s, Increment(iv), Columns(schedule), i);
      XorCancels(u[i], Increment(low)[i], low[i]);
    }
    forall i | 0 <= i < d
      ensures made[i] == meant[i]
    {
      assert Increment(low)[i] == Increment(low)[..d][i] == low[..d][i] == low[i];
    }
  }

  /** The bytes of a fresh stream up to which it is counter mode. */
  function Range(schedule: seq<Byte>, iv: seq<Byte>): nat
    requires |schedule| == 176 && |iv| == 16
  {
    ValueBound(iv);
    16 * (Power256(16) - Value(iv)) + CarryStop(schedule[160..])
  }

  lemma Parts(a: seq<Byte>, x: seq<Byte>, y: seq<Byte>)
    ensures a + x == a + y <==> x == y
  {
    assert (a + x)[|a|..] == x && (a + y)[|a|..] == y;
  }

  lemma PeelStream(s: SBox, schedule: seq<Byte>, iv: seq<Byte>, n: nat)
    requires |schedule| == 176 && |iv| == 16 && n > 16
    ensures var made := Keystream(s, schedule + iv, [], n);
            var meant := CtrBlocks(s, 10, Columns(schedule), iv, (n + 15) / 16)[..n];
            var rest := Keystream(s, Increment(schedule + iv), [], n - 16);
            var spec := CtrBlocks(s, 10, Columns(schedule), Increment(iv), (n - 1) / 16)[..n - 16];
            made == meant <==> rest == spec
  {
    hide CipherBytes, Columns, Increment, Keystream;
    var m := (n + 15) / 16;
    var block := CipherBytes(s, 10, iv, Columns(schedule));
    var rest := Keystream(s, Increment(schedule + iv), [], n - 16);
    var more := CtrBlocks(s, 10, Columns(schedule), Increment(iv), m - 1);
    PeelBlock(s, schedule + iv, n - 16);
    assert (schedule + iv)[..176] == schedule && (schedule + iv)[176..] == iv;
    assert m - 1 == (n - 1) / 16;
    assert (block + more)[..n] == block + more[..n - 16];
    Parts(block, rest, more[..n - 16]);
  }

  /** Behind the wrap-around: the bytes in front of the place where the carry stops, and no more. */
  lemma AfterWrap(s: SBox, schedule: seq<Byte>, key: seq<Column>, iv: seq<Byte>, n: nat)
    requires |schedule| == 176 && |key| == 4 && Columns(schedule) == KeyExpansion(s, key)
    requires |iv| == 16 && AllOnes(iv) && n > 0
    ensures Keystream(s, Increment(schedule + iv), [], n)
         == CtrBlocks(s, 10, Columns(schedule), Increment(iv), (n + 15) / 16)[..n]
       <==> n <= CarryStop(schedule[160..])
  {
    hide CipherBytes, Columns, Increment, Keystream, NextBlock, CarryStop, KeyExpansion;
    var regs, d, m := Increment(schedule + iv), CarryStop(schedule[160..]), (n + 15) / 16;
    var made, meant := NextBlock(s, regs), CipherBytes(s, 10, Increment(iv), Columns(schedule));
    WrapChangesBlock(s, schedule, key, iv);
    PeelBlock(s, regs, 16 * (m - 1));
    StreamPrefix(s, regs, [], n, 16 * m);
    var x, y := Keystream(s, regs, [], 16 * m), CtrBlocks(s, 10, Columns(schedule), Increment(iv), m);
    assert x[..16] == made && y[..16] == meant;
    if n <= d {
      assert x[..n] == made[..d][..n] == meant[..d][..n] == y[..n];
    } else {
      assert x[..n][d] == made[d] && y[..n][d] == meant[d];
    }
  }

  /**
   * For every key and any number of bytes: a fresh stream is counter mode exactly up to the last block of
   * the counter's range and those bytes of the next one that the carry into the last round key spares.
   */
  lemma {:induction false} StreamIffCtr(s: SBox, schedule: seq<Byte>, key: seq<Column>, iv: seq<Byte>, n: nat)
    requires |schedule| == 176 && |key| == 4 && Columns(schedule) == KeyExpansion(s, key) && |iv| == 16
    ensures Keystream(s, schedule + iv, [], n) == CtrBlocks(s, 10, Columns(schedule), iv, (n + 15) / 16)[..n]
       <==> n <= Range(schedule, iv)
    decreases n
  {
    hide CipherBytes, Columns, Increment, Keystream, CtrBlocks, Power256, Value, CarryStop, KeyExpansion, AllOnes;
    ValueBound(iv);
    if Value(iv) + (n + 15) / 16 <= Power256(16) {
      FreshBytesAreCtr(s, schedule, iv, n);
    } else {
      PeelStream(s, schedule, iv, n);
      if AllOnes(iv) {
        AfterWrap(s, schedule, key, iv, n - 16);
      } else {
        IncrementValue(iv);
        IncrementSplit(schedule, iv);
        StreamIffCtr(s, schedule, key, Increment(iv), n - 16);
      }
    }
  }

  /** For every key, whole blocks of a fresh stream are counter mode exactly until the counter has stood at all ones. */
  lemma FreshStreamIffCtr(s: SBox, schedule: seq<Byte>, key: seq<Column>, iv: seq<Byte>, m: nat)
    requires |schedule| == 176 && |key| == 4 && Columns(schedule) == KeyExpansion(s, key) && |iv| == 16
    ensures Keystream(s, schedule + iv, [], 16 * m) == CtrBlocks(s, 10, Columns(schedule), iv, m)
       <==> Value(iv) + m <= Power256(16)
  {
    hide Columns, Keystream, CtrBlocks, Power256, Value, CarryStop, KeyExpansion;
    StreamIffCtr(s, schedule, key, iv, 16 * m);
    ValueBound(iv);
    var blocks := CtrBlocks(s, 10, Columns(schedule), iv, m);
    assert blocks[..16 * m] == blocks;
  }
}
