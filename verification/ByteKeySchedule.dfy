/** aesExtendKey: the 128-bit key schedule grown in place, byte by byte. */
module ByteKeySchedule {
  import opened Words
  import opened Fips197
  import opened SwarCipher

  function ColumnIn(mem: array<Byte>, p: nat): Column
    requires p + 4 <= mem.Length
    reads mem
  {
    Column(mem[p], mem[p + 1], mem[p + 2], mem[p + 3])
  }

  /** The rotated, substituted and constant-masked first word of a round. */
  method FirstWord(s: SBox, mem: array<Byte>, p: nat, i: nat) returns (s1: Word)
    requires p + 16 <= mem.Length && i < 10
    ensures Lanes(s1) == Xor(ColumnIn(mem, p), Xor(SubWord(s, RotateUp(ColumnIn(mem, p + 12))), Rcon(i + 1)))
  {
    var s0, sb1, sb2, s3 := mem[p], mem[p + 1], mem[p + 2], mem[p + 3];
    s3 := s3 ^ s(mem[p + 12]);
    s0 := s0 ^ s(mem[p + 13]);
    sb1 := sb1 ^ s(mem[p + 14]);
    sb2 := sb2 ^ s(mem[p + 15]);
    s1 := Join(s3, sb2, sb1, s0);
    LanesJoin(s3, sb2, sb1, s0);
    var r := Join(0, 0, 0, RCON[i]);
    LanesJoin(0, 0, 0, RCON[i]);
    RconPowers(i);
    LanesXor(s1, r);
    XorRegroup(ColumnIn(mem, p), SubWord(s, RotateUp(ColumnIn(mem, p + 12))), Rcon(i + 1));
    s1 := s1 ^ r;
  }

  /** Adds the word at p to the running word and stores the sum at q. */
  method ChainWord(mem: array<Byte>, p: nat, q: nat, w: Word) returns (s1: Word)
    requires p + 4 <= mem.Length && q + 4 <= mem.Length
    modifies mem
    ensures Lanes(s1) == Xor(Lanes(w), old(ColumnIn(mem, p)))
    ensures ColumnIn(mem, q) == Lanes(s1)
    ensures forall j :: 0 <= j < mem.Length && !(q <= j < q + 4) ==> mem[j] == old(mem[j])
  {
    var x := Load(mem, p);
    LanesXor(w, x);
    s1 := w ^ x;
    Store(mem, q, s1);
  }

  /** One turn of the loop: from the last four words the next four. */
  method ExtendRound(s: SBox, mem: array<Byte>, p: nat, i: nat,
                     ghost c0: Column, ghost c1: Column, ghost c2: Column, ghost c3: Column)
    returns (ghost d0: Column)
    requires i < 10 && p + 32 <= mem.Length
    requires ColumnIn(mem, p) == c0 && ColumnIn(mem, p + 4) == c1
    requires ColumnIn(mem, p + 8) == c2 && ColumnIn(mem, p + 12) == c3
    modifies mem
    ensures d0 == Xor(c0, Xor(SubWord(s, RotateUp(c3)), Rcon(i + 1)))
    ensures ColumnIn(mem, p + 16) == d0
    ensures ColumnIn(mem, p + 20) == Xor(d0, c1)
    ensures ColumnIn(mem, p + 24) == Xor(Xor(d0, c1), c2)
    ensures ColumnIn(mem, p + 28) == Xor(Xor(Xor(d0, c1), c2), c3)
    ensures forall j :: 0 <= j < mem.Length && !(p + 16 <= j < p + 32) ==> mem[j] == old(mem[j])
  {
    var s1 := FirstWord(s, mem, p, i);
    d0 := Lanes(s1);
    Store(mem, p + 0x10, s1);
    s1 := ChainWord(mem, p + 0x04, p + 0x14, s1);
    s1 := ChainWord(mem, p + 0x08, p + 0x18, s1);
    s1 := ChainWord(mem, p + 0x0c, p + 0x1c, s1);
  }

  lemma NextFour(s: SBox, k: seq<Column>, i: nat, d0: Column)
    requires |k| == 4
    requires d0 == Xor(ScheduleWord(s, k, 4 * i), Xor(SubWord(s, RotateUp(ScheduleWord(s, k, 4 * i + 3))), Rcon(i + 1)))
    ensures var c1, c2 := ScheduleWord(s, k, 4 * i + 1), ScheduleWord(s, k, 4 * i + 2);
            var c3 := ScheduleWord(s, k, 4 * i + 3);
            ScheduleWord(s, k, 4 * i + 4) == d0
            && ScheduleWord(s, k, 4 * i + 5) == Xor(d0, c1)
            && ScheduleWord(s, k, 4 * i + 6) == Xor(Xor(d0, c1), c2)
            && ScheduleWord(s, k, 4 * i + 7) == Xor(Xor(Xor(d0, c1), c2), c3)
  {
    hide Xor, SubWord, Rcon, RotateUp, ScheduleWord;
    RotatedWord(s, k, 4 * i + 4);
    PlainWord(s, k, 4 * i + 5);
    PlainWord(s, k, 4 * i + 6);
    PlainWord(s, k, 4 * i + 7);
  }

  /** The first n words of the schedule stand at key. */
  ghost predicate Grown(s: SBox, k: seq<Column>, mem: array<Byte>, key: nat, n: nat)
    requires |k| == 4 && key + 4 * n <= mem.Length
    reads mem
  {
    forall j :: 0 <= j < n ==> ColumnIn(mem, key + 4 * j) == ScheduleWord(s, k, j)
  }

  method ExtendStep(s: SBox, ghost k: seq<Column>, mem: array<Byte>, key: nat, i: nat)
    requires |k| == 4 && i < 10 && key + 176 <= mem.Length
    requires Grown(s, k, mem, key, 4 * i + 4)
    modifies mem
    ensures Grown(s, k, mem, key, 4 * i + 8)
    ensures forall j :: 0 <= j < mem.Length && !(key + 16 * i + 16 <= j < key + 16 * i + 32) ==> mem[j] == old(mem[j])
  {
    hide Xor, SubWord, Rcon, RotateUp, ScheduleWord;
    ghost var c0, c1 := ScheduleWord(s, k, 4 * i), ScheduleWord(s, k, 4 * i + 1);
    ghost var c2, c3 := ScheduleWord(s, k, 4 * i + 2), ScheduleWord(s, k, 4 * i + 3);
    ghost var d0 := ExtendRound(s, mem, key + 16 * i, i, c0, c1, c2, c3);
    NextFour(s, k, i, d0);
    forall j | 0 <= j < 4 * i + 8 ensures ColumnIn(mem, key + 4 * j) == ScheduleWord(s, k, j) {
      if j < 4 * i + 4 {
        assert ColumnIn(mem, key + 4 * j) == old(ColumnIn(mem, key + 4 * j));
      } else {
        assert j == 4 * i + 4 || j == 4 * i + 5 || j == 4 * i + 6 || j == 4 * i + 7;
      }
    }
  }

  /** aesExtendKey: sixteen key bytes grown to the whole schedule. */
  method ExtendKey(s: SBox, mem: array<Byte>, key: nat)
    requires key + 176 <= mem.Length
    modifies mem
    ensures Schedule(mem[..], key) == KeyExpansion(s, Columns(old(mem[key..key + 16])))
    ensures forall j :: 0 <= j < mem.Length && !(key + 16 <= j < key + 176) ==> mem[j] == old(mem[j])
  {
    hide ScheduleWord;
    ghost var k := Columns(mem[key..key + 16]);
    forall j | 0 <= j < 4 ensures ColumnIn(mem, key + 4 * j) == ScheduleWord(s, k, j) {
      KeyWord(s, k, j);
    }
    for i := 0 to 10
      invariant Grown(s, k, mem, key, 4 * i + 4)
      invariant forall j :: 0 <= j < mem.Length && !(key + 16 <= j < key + 176) ==> mem[j] == old(mem[j])
    {
      ExtendStep(s, k, mem, key, i);
    }
    forall j | 0 <= j < 44 ensures Schedule(mem[..], key)[j] == ScheduleWord(s, k, j) {
      ScheduleAt(mem[..], key, j);
      assert ColumnIn(mem, key + 4 * j) == ScheduleWord(s, k, j);
    }
  }
}
