/** The unrolled little-endian block encryptor and its byte-wise key schedule. */
module SwarCipher {
  import opened Words
  import opened Fips197

  /** The four state words hold the columns of a state in memory order. */
  ghost predicate Holds(st: State, v1: Word, v2: Word, v3: Word, v4: Word) {
    Lanes(v1) == st.c0 && Lanes(v2) == st.c1 && Lanes(v3) == st.c2 && Lanes(v4) == st.c3
  }

  lemma LanesOfXors(b0: Byte, b1: Byte, b2: Byte, b3: Byte)
    ensures Lanes((b0 as Word) ^ ((b1 as Word) << 8) ^ ((b2 as Word) << 0x10) ^ ((b3 as Word) << 0x18))
         == Column(b0, b1, b2, b3)
  {
  }

  lemma HalfShift(v: Word)
    ensures Low((v >> 0x10) >> 8) == Low(v >> 0x18)
  {
  }

  /** The lookups that make one output word. */
  method Gather(s: SBox, v1: Word, v2: Word, v3: Word, v4: Word) returns (vvv1: Word)
    ensures Lanes(vvv1) == Column(s(Lanes(v1).r0), s(Lanes(v2).r1), s(Lanes(v3).r2), s(Lanes(v4).r3))
  {
    vvv1 := s(Low(v1)) as Word;
    vvv1 := vvv1 ^ ((s(Low(v2 >> 8)) as Word) << 0x08);
    vvv1 := vvv1 ^ ((s(Low(v3 >> 0x10)) as Word) << 0x10);
    vvv1 := vvv1 ^ ((s(Low(v4 >> 0x18)) as Word) << 0x18);
    LanesOfXors(s(Low(v1)), s(Low(v2 >> 8)), s(Low(v3 >> 0x10)), s(Low(v4 >> 0x18)));
  }

  /** The third and fourth output words, where the second state word is already shifted down by 16. */
  method GatherThird(s: SBox, v3: Word, v4: Word, v1: Word, half2: Word) returns (vv5: Word)
    ensures Lanes(vv5) == Column(s(Lanes(v3).r0), s(Lanes(v4).r1), s(Lanes(v1).r2), s(Low(half2 >> 8)))
  {
    vv5 := s(Low(v3)) as Word;
    vv5 := vv5 ^ ((s(Low(v4 >> 8)) as Word) << 8);
    vv5 := vv5 ^ ((s(Low(v1 >> 0x10)) as Word) << 0x10);
    vv5 := vv5 ^ ((s(Low(half2 >> 8)) as Word) << 0x18);
    LanesOfXors(s(Low(v3)), s(Low(v4 >> 8)), s(Low(v1 >> 0x10)), s(Low(half2 >> 8)));
  }

  method GatherFourth(s: SBox, v4: Word, v1: Word, half2: Word, v3: Word) returns (vv4: Word)
    ensures Lanes(vv4) == Column(s(Lanes(v4).r0), s(Lanes(v1).r1), s(Low(half2)), s(Lanes(v3).r3))
  {
    vv4 := s(Low(v4)) as Word;
    vv4 := vv4 ^ ((s(Low(v1 >> 8)) as Word) << 8);
    vv4 := vv4 ^ ((s(Low(half2)) as Word) << 0x10);
    vv4 := vv4 ^ ((s(Low(v3 >> 0x18)) as Word) << 0x18);
    LanesOfXors(s(Low(v4)), s(Low(v1 >> 8)), s(Low(half2)), s(Low(v3 >> 0x18)));
  }

  /** The S-box lookups of one round. */
  method SubShift(s: SBox, ghost st: State, v1: Word, v2: Word, v3: Word, v4: Word)
    returns (vv1: Word, vv2: Word, vv3: Word, vv4: Word)
    requires Holds(st, v1, v2, v3, v4)
    ensures Holds(ShiftRows(SubBytes(s, st)), vv1, vv2, vv3, vv4)
  {
    var vvv1 := Gather(s, v1, v2, v3, v4);
    var vvv2 := Gather(s, v2, v3, v4, v1);
    vv2 := v2 >> 0x10;
    HalfShift(v2);
    var vv5 := GatherThird(s, v3, v4, v1, vv2);
    vv4 := GatherFourth(s, v4, v1, vv2, v3);
    vv1 := vvv1;
    vv2 := vvv2;
    vv3 := vv5;
  }

  function XtimeColumn(c: Column): Column {
    Column(Xtime(c.r0), Xtime(c.r1), Xtime(c.r2), Xtime(c.r3))
  }

  /** Doubling in all four lanes at once. */
  function Doubled(v: Word): Word {
    (((v & 0x80808080) - ((v & 0x80808080) >> 7)) & 0x1b1b1b1b) ^ ((v << 1) & 0xfefefefe)
  }

  lemma DoubledLanes(v: Word)
    ensures Lanes(Doubled(v)) == XtimeColumn(Lanes(v))
  {
  }

  /** The values a word goes through while it is mixed with its doubled lanes x. */
  ghost predicate MixTrace(v: Word, x: Word, t0: Word, t1: Word, t2: Word, far: Word, t3: Word, farther: Word,
                           t4: Word) {
    && t0 == v ^ x
    && t1 == (t0 << 0x18) | (t0 >> 0x08)
    && t2 == t1 ^ x
    && far == (v << 0x10) | (v >> 0x10)
    && t3 == t2 ^ far
    && farther == (far << 0x18) | (far >> 0x08)
    && t4 == t3 ^ farther
  }

  lemma MixSum0(v: Word, x: Word, t0: Word, t1: Word, t2: Word, far: Word, t3: Word, farther: Word, t4: Word)
    requires MixTrace(v, x, t0, t1, t2, far, t3, farther, t4)
    ensures Low(t4) == Low(x) ^ (Low(x >> 8) ^ Low(v >> 8)) ^ Low(v >> 16) ^ Low(v >> 24)
  {
  }

  lemma MixSum1(v: Word, x: Word, t0: Word, t1: Word, t2: Word, far: Word, t3: Word, farther: Word, t4: Word)
    requires MixTrace(v, x, t0, t1, t2, far, t3, farther, t4)
    ensures Low(t4 >> 8) == Low(x >> 8) ^ (Low(x >> 16) ^ Low(v >> 16)) ^ Low(v >> 24) ^ Low(v)
  {
  }

  lemma MixSum2(v: Word, x: Word, t0: Word, t1: Word, t2: Word, far: Word, t3: Word, farther: Word, t4: Word)
    requires MixTrace(v, x, t0, t1, t2, far, t3, farther, t4)
    ensures Low(t4 >> 16) == Low(x >> 16) ^ (Low(x >> 24) ^ Low(v >> 24)) ^ Low(v) ^ Low(v >> 8)
  {
  }

  lemma MixSum3(v: Word, x: Word, t0: Word, t1: Word, t2: Word, far: Word, t3: Word, farther: Word, t4: Word)
    requires MixTrace(v, x, t0, t1, t2, far, t3, farther, t4)
    ensures Low(t4 >> 24) == Low(x >> 24) ^ (Low(x) ^ Low(v)) ^ Low(v >> 8) ^ Low(v >> 16)
  {
  }

  lemma RowFromSum(m: Byte, xa: Byte, xb: Byte, a: Byte, b: Byte, c: Byte, d: Byte)
    requires m == xa ^ (xb ^ b) ^ c ^ d
    requires xa == Xtime(a) && xb == Xtime(b)
    ensures m == MixRow(a, b, c, d)
  {
  }

  lemma MixLane0(v: Word, x: Word, m: Word)
    requires Low(x) == Xtime(Low(v)) && Low(x >> 8) == Xtime(Low(v >> 8))
    requires Low(m) == Low(x) ^ (Low(x >> 8) ^ Low(v >> 8)) ^ Low(v >> 16) ^ Low(v >> 24)
    ensures Low(m) == MixRow(Low(v), Low(v >> 8), Low(v >> 16), Low(v >> 24))
  {
    RowFromSum(Low(m), Low(x), Low(x >> 8), Low(v), Low(v >> 8), Low(v >> 16), Low(v >> 24));
  }

  lemma MixLane1(v: Word, x: Word, m: Word)
    requires Low(x >> 8) == Xtime(Low(v >> 8)) && Low(x >> 16) == Xtime(Low(v >> 16))
    requires Low(m >> 8) == Low(x >> 8) ^ (Low(x >> 16) ^ Low(v >> 16)) ^ Low(v >> 24) ^ Low(v)
    ensures Low(m >> 8) == MixRow(Low(v >> 8), Low(v >> 16), Low(v >> 24), Low(v))
  {
    RowFromSum(Low(m >> 8), Low(x >> 8), Low(x >> 16), Low(v >> 8), Low(v >> 16), Low(v >> 24), Low(v));
  }

  lemma MixLane2(v: Word, x: Word, m: Word)
    requires Low(x >> 16) == Xtime(Low(v >> 16)) && Low(x >> 24) == Xtime(Low(v >> 24))
    requires Low(m >> 16) == Low(x >> 16) ^ (Low(x >> 24) ^ Low(v >> 24)) ^ Low(v) ^ Low(v >> 8)
    ensures Low(m >> 16) == MixRow(Low(v >> 16), Low(v >> 24), Low(v), Low(v >> 8))
  {
    RowFromSum(Low(m >> 16), Low(x >> 16), Low(x >> 24), Low(v >> 16), Low(v >> 24), Low(v), Low(v >> 8));
  }

  lemma MixLane3(v: Word, x: Word, m: Word)
    requires Low(x >> 24) == Xtime(Low(v >> 24)) && Low(x) == Xtime(Low(v))
    requires Low(m >> 24) == Low(x >> 24) ^ (Low(x) ^ Low(v)) ^ Low(v >> 8) ^ Low(v >> 16)
    ensures Low(m >> 24) == MixRow(Low(v >> 24), Low(v), Low(v >> 8), Low(v >> 16))
  {
    RowFromSum(Low(m >> 24), Low(x >> 24), Low(x), Low(v >> 24), Low(v), Low(v >> 8), Low(v >> 16));
  }

  lemma MixLanes(v: Word, x: Word, m: Word)
    requires Lanes(x) == XtimeColumn(Lanes(v))
    requires Low(m) == Low(x) ^ (Low(x >> 8) ^ Low(v >> 8)) ^ Low(v >> 16) ^ Low(v >> 24)
    requires Low(m >> 8) == Low(x >> 8) ^ (Low(x >> 16) ^ Low(v >> 16)) ^ Low(v >> 24) ^ Low(v)
    requires Low(m >> 16) == Low(x >> 16) ^ (Low(x >> 24) ^ Low(v >> 24)) ^ Low(v) ^ Low(v >> 8)
    requires Low(m >> 24) == Low(x >> 24) ^ (Low(x) ^ Low(v)) ^ Low(v >> 8) ^ Low(v >> 16)
    ensures Lanes(m) == MixColumn(Lanes(v))
  {
    MixLane0(v, x, m);
    MixLane1(v, x, m);
    MixLane2(v, x, m);
    MixLane3(v, x, m);
  }

  method DoubleLanes(v: Word) returns (vv5: Word)
    ensures Lanes(vv5) == XtimeColumn(Lanes(v))
  {
    vv5 := v & 0x80808080;
    vv5 := vv5 - (vv5 >> 7);
    var vv6 := (v << 1) & 0xfefefefe;
    vv5 := vv5 & 0x1b1b1b1b;
    vv5 := vv5 ^ vv6;
    DoubledLanes(v);
  }

  /** MixColumns on the four lanes of one word. */
  method MixWord(v: Word) returns (vv3: Word)
    ensures Lanes(vv3) == MixColumn(Lanes(v))
  {
    var vv5 := DoubleLanes(v);
    var vv7 := v;
    vv3 := v ^ vv5;
    ghost var t0 := vv3;
    vv3 := (vv3 << 0x18) | (vv3 >> 0x08);
    ghost var t1 := vv3;
    vv3 := vv3 ^ vv5;
    ghost var t2 := vv3;
    vv7 := (vv7 << 0x10) | (vv7 >> 0x10);
    ghost var far := vv7;
    vv3 := vv3 ^ vv7;
    ghost var t3 := vv3;
    vv7 := (vv7 << 0x18) | (vv7 >> 0x08);
    vv3 := vv3 ^ vv7;
    MixSum0(v, vv5, t0, t1, t2, far, t3, vv7, vv3);
    MixSum1(v, vv5, t0, t1, t2, far, t3, vv7, vv3);
    MixSum2(v, vv5, t0, t1, t2, far, t3, vv7, vv3);
    MixSum3(v, vv5, t0, t1, t2, far, t3, vv7, vv3);
    MixLanes(v, vv5, vv3);
  }

  method AddKey(ghost st: State, ghost k: State, v1: Word, v2: Word, v3: Word, v4: Word,
                k1: Word, k2: Word, k3: Word, k4: Word)
    returns (vv1: Word, vv2: Word, vv3: Word, vv4: Word)
    requires Holds(st, v1, v2, v3, v4) && Holds(k, k1, k2, k3, k4)
    ensures Holds(AddRoundKey(st, k), vv1, vv2, vv3, vv4)
  {
    LanesXor(v1, k1);
    LanesXor(v2, k2);
    LanesXor(v3, k3);
    LanesXor(v4, k4);
    vv1, vv2, vv3, vv4 := v1 ^ k1, v2 ^ k2, v3 ^ k3, v4 ^ k4;
  }

  method Round(s: SBox, ghost st: State, ghost k: State, v1: Word, v2: Word, v3: Word, v4: Word,
               k1: Word, k2: Word, k3: Word, k4: Word)
    returns (vv1: Word, vv2: Word, vv3: Word, vv4: Word)
    requires Holds(st, v1, v2, v3, v4) && Holds(k, k1, k2, k3, k4)
    ensures Holds(FullRound(s, st, k), vv1, vv2, vv3, vv4)
  {
    vv1, vv2, vv3, vv4 := SubShift(s, st, v1, v2, v3, v4);
    vv3 := MixWord(vv3);
    vv4 := MixWord(vv4);
    vv1 := MixWord(vv1);
    vv2 := MixWord(vv2);
    vv1, vv2, vv3, vv4 := AddKey(MixColumns(ShiftRows(SubBytes(s, st))), k, vv1, vv2, vv3, vv4, k1, k2, k3, k4);
  }

  /** A native four-byte load. */
  function Load(mem: array<Byte>, p: nat): (w: Word)
    requires p + 4 <= mem.Length
    reads mem
    ensures Lanes(w) == Column(mem[p], mem[p + 1], mem[p + 2], mem[p + 3])
  {
    LanesJoin(mem[p + 3], mem[p + 2], mem[p + 1], mem[p]);
    Join(mem[p + 3], mem[p + 2], mem[p + 1], mem[p])
  }

  /** A native four-byte store. */
  method Store(mem: array<Byte>, p: nat, w: Word)
    requires p + 4 <= mem.Length
    modifies mem
    ensures Column(mem[p], mem[p + 1], mem[p + 2], mem[p + 3]) == Lanes(w)
    ensures forall i :: 0 <= i < mem.Length && !(p <= i < p + 4) ==> mem[i] == old(mem[i])
  {
    mem[p] := Low(w);
    mem[p + 1] := Low(w >> 8);
    mem[p + 2] := Low(w >> 16);
    mem[p + 3] := Low(w >> 24);
  }

  /** The schedule that 176 key bytes hold. */
  function Schedule(bytes: seq<Byte>, key: nat): (w: seq<Column>)
    requires key + 176 <= |bytes|
    ensures |w| == 44
  {
    Columns(bytes[key..key + 176])
  }

  lemma ScheduleAt(bytes: seq<Byte>, key: nat, i: nat)
    requires key + 176 <= |bytes| && i < 44
    ensures Schedule(bytes, key)[i]
         == Column(bytes[key + 4 * i], bytes[key + 4 * i + 1], bytes[key + 4 * i + 2], bytes[key + 4 * i + 3])
  {
  }

  method LoadKeyWord(ghost w: seq<Column>, i: nat, mem: array<Byte>, key: nat) returns (k: Word)
    requires i < 44 && key + 176 <= mem.Length && w == Schedule(mem[..], key)
    ensures Lanes(k) == w[i]
  {
    ScheduleAt(mem[..], key, i);
    k := Load(mem, key + 4 * i);
  }

  /** The four key words at byte 16 * round of the schedule. */
  method LoadKey(ghost w: seq<Column>, round: nat, mem: array<Byte>, key: nat)
    returns (k1: Word, k2: Word, k3: Word, k4: Word)
    requires round <= 10 && key + 176 <= mem.Length && w == Schedule(mem[..], key)
    ensures Holds(RoundKey(w, round), k1, k2, k3, k4)
  {
    k1 := LoadKeyWord(w, 4 * round, mem, key);
    k2 := LoadKeyWord(w, 4 * round + 1, mem, key);
    k3 := LoadKeyWord(w, 4 * round + 2, mem, key);
    k4 := LoadKeyWord(w, 4 * round + 3, mem, key);
  }

  /** One full round with the four key words at byte 16 * round of the schedule. */
  method RoundAt(s: SBox, ghost st: State, ghost w: seq<Column>, round: nat, mem: array<Byte>, key: nat,
                 v1: Word, v2: Word, v3: Word, v4: Word)
    returns (vv1: Word, vv2: Word, vv3: Word, vv4: Word)
    requires round <= 10 && key + 176 <= mem.Length && w == Schedule(mem[..], key)
    requires Holds(st, v1, v2, v3, v4)
    ensures Holds(FullRound(s, st, RoundKey(w, round)), vv1, vv2, vv3, vv4)
  {
    var k1, k2, k3, k4 := LoadKey(w, round, mem, key);
    vv1, vv2, vv3, vv4 := Round(s, st, RoundKey(w, round), v1, v2, v3, v4, k1, k2, k3, k4);
  }

  /** The initial key addition and the nine full rounds, which the code writes out one after the other. */
  method MiddleRounds(s: SBox, ghost st: State, ghost w: seq<Column>, mem: array<Byte>, key: nat,
                      v1: Word, v2: Word, v3: Word, v4: Word)
    returns (vv1: Word, vv2: Word, vv3: Word, vv4: Word)
    requires key + 176 <= mem.Length && w == Schedule(mem[..], key)
    requires Holds(AfterRounds(s, st, w, 0), v1, v2, v3, v4)
    ensures Holds(AfterRounds(s, st, w, 9), vv1, vv2, vv3, vv4)
  {
    vv1, vv2, vv3, vv4 := RoundAt(s, AfterRounds(s, st, w, 0), w, 1, mem, key, v1, v2, v3, v4);
    vv1, vv2, vv3, vv4 := RoundAt(s, AfterRounds(s, st, w, 1), w, 2, mem, key, vv1, vv2, vv3, vv4);
    vv1, vv2, vv3, vv4 := RoundAt(s, AfterRounds(s, st, w, 2), w, 3, mem, key, vv1, vv2, vv3, vv4);
    vv1, vv2, vv3, vv4 := RoundAt(s, AfterRounds(s, st, w, 3), w, 4, mem, key, vv1, vv2, vv3, vv4);
    vv1, vv2, vv3, vv4 := RoundAt(s, AfterRounds(s, st, w, 4), w, 5, mem, key, vv1, vv2, vv3, vv4);
    vv1, vv2, vv3, vv4 := RoundAt(s, AfterRounds(s, st, w, 5), w, 6, mem, key, vv1, vv2, vv3, vv4);
    vv1, vv2, vv3, vv4 := RoundAt(s, AfterRounds(s, st, w, 6), w, 7, mem, key, vv1, vv2, vv3, vv4);
    vv1, vv2, vv3, vv4 := RoundAt(s, AfterRounds(s, st, w, 7), w, 8, mem, key, vv1, vv2, vv3, vv4);
    vv1, vv2, vv3, vv4 := RoundAt(s, AfterRounds(s, st, w, 8), w, 9, mem, key, vv1, vv2, vv3, vv4);
  }

  /** Key addition with the round key at byte 16 * round of the schedule. */
  method AddKeyAt(ghost st: State, ghost w: seq<Column>, round: nat, mem: array<Byte>, key: nat,
                  v1: Word, v2: Word, v3: Word, v4: Word)
    returns (vv1: Word, vv2: Word, vv3: Word, vv4: Word)
    requires round <= 10 && key + 176 <= mem.Length && w == Schedule(mem[..], key)
    requires Holds(st, v1, v2, v3, v4)
    ensures Holds(AddRoundKey(st, RoundKey(w, round)), vv1, vv2, vv3, vv4)
  {
    var k1, k2, k3, k4 := LoadKey(w, round, mem, key);
    vv1, vv2, vv3, vv4 := AddKey(st, RoundKey(w, round), v1, v2, v3, v4, k1, k2, k3, k4);
  }

  /** The block at a position as the four state words, with the first round key added. */
  method LoadBlock(ghost w: seq<Column>, mem: array<Byte>, iv: nat, key: nat)
    returns (vv1: Word, vv2: Word, vv3: Word, vv4: Word)
    requires iv + 16 <= mem.Length && key + 176 <= mem.Length && w == Schedule(mem[..], key)
    ensures Holds(AddRoundKey(StateOf(mem[iv..iv + 16]), RoundKey(w, 0)), vv1, vv2, vv3, vv4)
  {
    vv1, vv2, vv3, vv4 := Load(mem, iv), Load(mem, iv + 4), Load(mem, iv + 8), Load(mem, iv + 12);
    vv1, vv2, vv3, vv4 := AddKeyAt(StateOf(mem[iv..iv + 16]), w, 0, mem, key, vv1, vv2, vv3, vv4);
  }

  method StoreBlock(ghost st: State, mem: array<Byte>, out: nat, v1: Word, v2: Word, v3: Word, v4: Word)
    requires out + 16 <= mem.Length
    requires Holds(st, v1, v2, v3, v4)
    modifies mem
    ensures mem[out..out + 16] == BytesOf(st)
    ensures forall i :: 0 <= i < mem.Length && !(out <= i < out + 16) ==> mem[i] == old(mem[i])
  {
    Store(mem, out, v1);
    Store(mem, out + 4, v2);
    Store(mem, out + 8, v3);
    Store(mem, out + 12, v4);
    BytesAt(mem[..], out, st);
  }

  /** ezAesDecrypt: encrypts the block at iv into the block at out, with the schedule at key. */
  method EncryptBlock(s: SBox, mem: array<Byte>, iv: nat, out: nat, key: nat)
    requires iv + 16 <= mem.Length && out + 16 <= mem.Length && key + 176 <= mem.Length
    requires out + 16 <= key || key + 176 <= out
    modifies mem
    ensures mem[out..out + 16] == CipherBytes(s, 10, old(mem[iv..iv + 16]), Schedule(old(mem[..]), key))
    ensures forall i :: 0 <= i < mem.Length && !(out <= i < out + 16) ==> mem[i] == old(mem[i])
  {
    ghost var st, w := StateOf(mem[iv..iv + 16]), Schedule(mem[..], key);
    var vv1, vv2, vv3, vv4 := LoadBlock(w, mem, iv, key);
    vv1, vv2, vv3, vv4 := MiddleRounds(s, st, w, mem, key, vv1, vv2, vv3, vv4);
    ghost var st9 := AfterRounds(s, st, w, 9);
    vv1, vv2, vv3, vv4 := SubShift(s, st9, vv1, vv2, vv3, vv4);
    vv1, vv2, vv3, vv4 := AddKeyAt(ShiftRows(SubBytes(s, st9)), w, 10, mem, key, vv1, vv2, vv3, vv4);
    StoreBlock(Cipher(s, 10, st, w), mem, out, vv1, vv2, vv3, vv4);
  }
}
