/** The streaming SHA-512 of crypto_hash_sha512_*. */
module Sha512 {
  import opened Words
  import opened Fips180
  import opened Chunks

  function Sum64(b0: Byte, b1: Byte, b2: Byte, b3: Byte, b4: Byte, b5: Byte, b6: Byte, b7: Byte): Word64 {
    (b7 as Word64) + ((b6 as Word64) << 8)
    + ((b5 as Word64) << 16) + ((b4 as Word64) << 24)
    + ((b3 as Word64) << 32) + ((b2 as Word64) << 40)
    + ((b1 as Word64) << 48) + ((b0 as Word64) << 56)
  }

  lemma SumIsJoin(b0: Byte, b1: Byte, b2: Byte, b3: Byte, b4: Byte, b5: Byte, b6: Byte, b7: Byte)
    ensures Sum64(b0, b1, b2, b3, b4, b5, b6, b7) == Join64(b0, b1, b2, b3, b4, b5, b6, b7)
  {
  }

  /** The be64dec function: eight shifted bytes, added. */
  method Be64Dec(b: array<Byte>, p: nat) returns (w: Word64)
    requires p + 8 <= b.Length
    ensures w == ParseWord(b[..], p)
  {
    hide Sum64, Join64;
    w := Sum64(b[p], b[p + 1], b[p + 2], b[p + 3], b[p + 4], b[p + 5], b[p + 6], b[p + 7]);
    SumIsJoin(b[p], b[p + 1], b[p + 2], b[p + 3], b[p + 4], b[p + 5], b[p + 6], b[p + 7]);
  }

  /** The rewritten Ch and Maj of the code. */
  function ChFast(x: Word64, y: Word64, z: Word64): Word64 {
    (x & (y ^ z)) ^ z
  }

  function MajFast(x: Word64, y: Word64, z: Word64): Word64 {
    (x & (y | z)) | (y & z)
  }

  lemma ChForms(x: Word64, y: Word64, z: Word64)
    ensures ChFast(x, y, z) == Ch(x, y, z)
  {
    assert (x & (y ^ z)) ^ z == (x & y) ^ (!x & z);
  }

  lemma MajForms(x: Word64, y: Word64, z: Word64)
    ensures MajFast(x, y, z) == Maj(x, y, z)
  {
    assert (x & (y | z)) | (y & z) == (x & y) ^ (x & z) ^ (y & z);
  }

  /** The logical working variables before round i, behind the rotating names. */
  function View(s: seq<Word64>, i: nat): Vars
    requires |s| == 8 && i <= 80
  {
    Vars(s[Slot(i, 0)], s[Slot(i, 1)], s[Slot(i, 2)], s[Slot(i, 3)],
         s[Slot(i, 4)], s[Slot(i, 5)], s[Slot(i, 6)], s[Slot(i, 7)])
  }

  lemma SumRegroup(x: Word64, w: Word64, k: Word64)
    ensures Plus(x, w + k) == Plus(x + k, w)
  {
  }

  lemma PlusOf(x: Word64, y: Word64)
    ensures Plus(x, y) == x + y
  {
  }

  lemma PlusRegroup(x: Word64, w: Word64, k: Word64)
    ensures Plus(x, Plus(w, k)) == Plus(Plus(x, k), w)
  {
    hide Plus;
    PlusOf(w, k);
    PlusOf(x, k);
    SumRegroup(x, w, k);
  }

  /** The two sums of the RND macro. */
  method Sums(v: Vars, ghost k: Word64, ghost w: Word64, wk: Word64) returns (t0: Word64, t1: Word64)
    requires wk == Plus(w, k)
    ensures RoundStep(v, k, w) == Vars(Plus(t0, t1), v.a, v.b, v.c, Plus(v.d, t0), v.e, v.f, v.g)
  {
    hide Ch, Maj, ChFast, MajFast, BigSigma0, BigSigma1, Plus;
    t0 := Plus(Plus(Plus(v.h, BigSigma1(v.e)), ChFast(v.e, v.f, v.g)), wk);
    t1 := Plus(BigSigma0(v.a), MajFast(v.a, v.b, v.c));
    ChForms(v.e, v.f, v.g);
    MajForms(v.a, v.b, v.c);
    PlusRegroup(Plus(Plus(v.h, BigSigma1(v.e)), Ch(v.e, v.f, v.g)), w, k);
  }

  /** The slot of logical variable j in round i. */
  function Slot(i: nat, j: nat): (n: nat)
    requires i <= 80 && j < 8
    ensures n < 8
  {
    (80 + j - i) % 8
  }

  lemma SlotsMove(i: nat, j: nat)
    requires i < 80 && j < 8
    ensures Slot(i + 1, (j + 1) % 8) == Slot(i, j)
  {
  }

  lemma SlotsDiffer(i: nat, j: nat, l: nat)
    requires i < 80 && j < l < 8
    ensures Slot(i, j) != Slot(i, l)
  {
  }

  lemma Renamed(s: seq<Word64>, i: nat, d: Word64, h: Word64)
    requires |s| == 8 && i < 80
    ensures var v := View(s, i);
            View(s[Slot(i, 3) := d][Slot(i, 7) := h], i + 1) == Vars(h, v.a, v.b, v.c, d, v.e, v.f, v.g)
  {
    hide Slot;
    forall j | 0 <= j < 8 ensures Slot(i + 1, (j + 1) % 8) == Slot(i, j) {
      SlotsMove(i, j);
    }
    assert Slot(i + 1, 0) == Slot(i, 7) && Slot(i + 1, 1) == Slot(i, 0) && Slot(i + 1, 2) == Slot(i, 1);
    assert Slot(i + 1, 3) == Slot(i, 2) && Slot(i + 1, 4) == Slot(i, 3) && Slot(i + 1, 5) == Slot(i, 4);
    assert Slot(i + 1, 6) == Slot(i, 5) && Slot(i + 1, 7) == Slot(i, 6);
    forall j, l | 0 <= j < l < 8 ensures Slot(i, j) != Slot(i, l) {
      SlotsDiffer(i, j, l);
    }
  }

  /** The RNDr macro: the variables stay and their names move. */
  method RoundR(s: array<Word64>, w: array<Word64>, i: nat, k: Word64)
    requires s.Length == 8 && w.Length == 80 && i < 80 && s != w
    modifies s
    ensures View(s[..], i + 1) == RoundStep(View(old(s[..]), i), k, w[i])
  {
    hide RoundStep, Plus, Slot;
    ghost var was := s[..];
    var v := Vars(s[Slot(i, 0)], s[Slot(i, 1)], s[Slot(i, 2)], s[Slot(i, 3)],
                  s[Slot(i, 4)], s[Slot(i, 5)], s[Slot(i, 6)], s[Slot(i, 7)]);
    assert v == View(was, i);
    var t0, t1 := Sums(v, k, w[i], Plus(w[i], k));
    SlotsDiffer(i, 3, 7);
    Renamed(was, i, Plus(v.d, t0), Plus(t0, t1));
    s[Slot(i, 3)] := Plus(s[Slot(i, 3)], t0);
    s[Slot(i, 7)] := Plus(t0, t1);
    assert s[..] == was[Slot(i, 3) := Plus(v.d, t0)][Slot(i, 7) := Plus(t0, t1)];
  }

  /** The message schedule. */
  method Expand(block: array<Byte>, p: nat) returns (w: array<Word64>)
    requires p + 128 <= block.Length
    ensures fresh(w) && w.Length == 80
    ensures forall t :: 0 <= t < 80 ==> w[t] == ScheduleWord(block[p..p + 128], t)
  {
    hide ParseWord, Plus, SmallSigma0, SmallSigma1;
    ghost var m := block[p..p + 128];
    w := new Word64[80];
    for i := 0 to 16
      invariant forall t :: 0 <= t < i ==> w[t] == ScheduleWord(m, t)
    {
      var x := Be64Dec(block, p + i * 8);
      ParseSlice(block[..], p, i);
      w[i] := x;
    }
    for i := 16 to 80
      invariant forall t :: 0 <= t < i ==> w[t] == ScheduleWord(m, t)
    {
      w[i] := Plus(Plus(Plus(SmallSigma1(w[i - 2]), w[i - 7]), SmallSigma0(w[i - 15])), w[i - 16]);
    }
  }

  lemma ParseSlice(b: seq<Byte>, p: nat, i: nat)
    requires p + 128 <= |b| && i < 16
    ensures ParseWord(b, p + 8 * i) == ParseWord(b[p..p + 128], 8 * i)
  {
    hide Join64;
  }

  /** The 80 rounds on a copy of the chaining value. */
  method Rounds(k: seq<Word64>, state: array<Word64>, w: array<Word64>, ghost m: seq<Byte>) returns (s: array<Word64>)
    requires |k| == 80 && state.Length == 8 && w.Length == 80 && |m| == 128
    requires forall t :: 0 <= t < 80 ==> w[t] == ScheduleWord(m, t)
    ensures fresh(s) && s.Length == 8
    ensures VarsOf(s[..]) == AfterRounds(k, state[..], m, 80)
  {
    hide RoundStep, Plus, ScheduleWord, Slot, View;
    ghost var h := state[..];
    s := new Word64[8];
    for i := 0 to 8
      modifies s
      invariant s[..i] == h[..i]
    {
      s[i] := state[i];
    }
    StartView(h);
    assert s[..] == h;
    for i := 0 to 80
      modifies s
      invariant View(s[..], i) == AfterRounds(k, h, m, i)
    {
      RoundR(s, w, i, k[i]);
    }
    EndView(s[..]);
  }

  method AddBack(state: array<Word64>, s: array<Word64>)
    requires state.Length == 8 && s.Length == 8 && s != state
    modifies state
    ensures forall j :: 0 <= j < 8 ==> state[j] == Plus(old(state[j]), s[j])
  {
    hide Plus;
    for i := 0 to 8
      invariant forall j :: 0 <= j < i ==> state[j] == Plus(old(state[j]), s[j])
      invariant forall j :: i <= j < 8 ==> state[j] == old(state[j])
    {
      state[i] := Plus(state[i], s[i]);
    }
  }

  lemma AddedBack(k: seq<Word64>, h: seq<Word64>, m: seq<Byte>, s: seq<Word64>, after: seq<Word64>)
    requires |k| == 80 && |h| == |s| == |after| == 8 && |m| == 128
    requires VarsOf(s) == AfterRounds(k, h, m, 80)
    requires forall j :: 0 <= j < 8 ==> after[j] == Plus(h[j], s[j])
    ensures after == Compress(k, h, m)
  {
    hide Plus, AfterRounds;
  }

  /** SHA512_Transform_. */
  method Transform(k: seq<Word64>, state: array<Word64>, block: array<Byte>, p: nat)
    requires |k| == 80 && state.Length == 8 && p + 128 <= block.Length
    modifies state
    ensures state[..] == Compress(k, old(state[..]), block[p..p + 128])
  {
    hide Plus, ScheduleWord, AfterRounds, Compress;
    ghost var h, m := state[..], block[p..p + 128];
    var w := Expand(block, p);
    var s := Rounds(k, state, w, m);
    AddBack(state, s);
    AddedBack(k, h, m, s[..], state[..]);
  }

  lemma StartView(h: seq<Word64>)
    requires |h| == 8
    ensures View(h, 0) == VarsOf(h)
  {
  }

  lemma EndView(s: seq<Word64>)
    requires |s| == 8
    ensures View(s, 80) == VarsOf(s)
  {
  }

  /** memcpy into a buffer. */
  method Copy(dst: array<Byte>, d: nat, src: array<Byte>, p: nat, n: nat)
    requires d + n <= dst.Length && p + n <= src.Length && dst != src
    modifies dst
    ensures dst[..d + n] == old(dst[..d]) + src[p..p + n]
  {
    for i := 0 to n
      invariant dst[..d + i] == old(dst[..d]) + src[p..p + i]
    {
      dst[d + i] := src[p + i];
    }
  }

  /** One more complete block. */
  lemma AbsorbBlock(k: seq<Word64>, h: seq<Word64>, done: seq<Byte>, block: seq<Byte>)
    requires |k| == 80 && |h| == 8 && |done| % 128 == 0 && |block| == 128
    ensures Absorb(k, h, done + block) == Compress(k, Absorb(k, h, done), block)
  {
    hide Compress;
    AbsorbAdd(k, h, done, block);
    assert block[..128] == block && block[128..] == [];
  }

  /** A tail short of a block changes nothing. */
  lemma AbsorbTail(k: seq<Word64>, h: seq<Word64>, done: seq<Byte>, tail: seq<Byte>)
    requires |k| == 80 && |h| == 8 && |done| % 128 == 0 && |tail| < 128
    ensures Absorb(k, h, done + tail) == Absorb(k, h, done)
  {
    hide Compress;
    AbsorbAdd(k, h, done, tail);
  }

  lemma Remainder(n: nat, c1: nat)
    requires c1 == 8 * n % TWO64
    ensures c1 / 8 % 128 == n % 128
  {
    var q := 8 * n / TWO64;
    assert n == TWO64 / 8 * q + c1 / 8;
    assert TWO64 / 8 == 128 * (TWO64 / 1024);
    RemainderOf(c1 / 8, TWO64 / 1024 * q);
  }

  lemma RemainderOf(x: nat, y: nat)
    ensures (128 * y + x) % 128 == x % 128
  {
  }

  /** What the structure holds, as values. */
  ghost predicate Absorbed(k: seq<Word64>, state: seq<Word64>, buf: seq<Byte>, msg: seq<Byte>)
    requires |k| == 80 && |buf| == 128
  {
    state == Absorb(k, H0, msg) && buf[..|msg| % 128] == msg[|msg| - |msg| % 128..]
  }

  lemma ShortUpdate(k: seq<Word64>, state: seq<Word64>, was: seq<Byte>, buf: seq<Byte>, msg: seq<Byte>, data: seq<Byte>)
    requires |k| == 80 && |was| == |buf| == 128 && Absorbed(k, state, was, msg)
    requires |msg| % 128 + |data| < 128
    requires buf[..|msg| % 128 + |data|] == was[..|msg| % 128] + data
    ensures Absorbed(k, state, buf, msg + data)
  {
    hide Absorb;
    var r := |msg| % 128;
    var done := msg[..|msg| - r];
    assert msg == done + msg[|msg| - r..];
    AbsorbTail(k, H0, done, msg[|msg| - r..]);
    AbsorbTail(k, H0, done, msg[|msg| - r..] + data);
    assert msg + data == done + (msg[|msg| - r..] + data);
    assert |msg + data| % 128 == r + |data|;
  }

  lemma TailKept(k: seq<Word64>, state: seq<Word64>, buf: seq<Byte>, done: seq<Byte>, tail: seq<Byte>)
    requires |k| == 80 && |buf| == 128 && |done| % 128 == 0 && |tail| < 128
    requires state == Absorb(k, H0, done) && buf[..|tail|] == tail
    ensures Absorbed(k, state, buf, done + tail)
  {
    hide Absorb;
    AbsorbTail(k, H0, done, tail);
    assert |done + tail| % 128 == |tail|;
  }

  lemma FilledBlock(k: seq<Word64>, state: seq<Word64>, was: seq<Byte>, buf: seq<Byte>, msg: seq<Byte>, data: seq<Byte>)
    requires |k| == 80 && |was| == |buf| == 128 && Absorbed(k, state, was, msg)
    requires |msg| % 128 + |data| == 128
    requires buf == was[..|msg| % 128] + data
    ensures Compress(k, state, buf) == Absorb(k, H0, msg + data)
    ensures |msg + data| % 128 == 0
  {
    hide Absorb, Compress;
    var split := |msg| - |msg| % 128;
    var done, tail := msg[..split], msg[split..];
    assert msg == done + tail && buf == tail + data;
    AbsorbTail(k, H0, done, tail);
    assert msg + data == done + buf;
    AbsorbBlock(k, H0, done, buf);
  }

  /** crypto_hash_sha512_state: chaining value, 128-bit bit count in two halves, and the block being filled. */
  class State {
    const state: array<Word64>
    var count0: nat
    var count1: nat
    const buf: array<Byte>

    ghost predicate Valid()
      reads this
    {
      state.Length == 8 && buf.Length == 128 && count0 < TWO64 && count1 < TWO64
    }

    /** The structure has taken in this message and nothing else. */
    ghost predicate Holds(k: seq<Word64>, msg: seq<Byte>)
      requires |k| == 80
      reads this, state, buf
    {
      && Valid()
      && count0 == 8 * |msg| / TWO64 % TWO64 && count1 == 8 * |msg| % TWO64
      && Absorbed(k, state[..], buf[..], msg)
    }

    constructor ()
      ensures fresh(state) && fresh(buf) && state.Length == 8 && buf.Length == 128
    {
      state := new Word64[8];
      buf := new Byte[128];
    }

    /** crypto_hash_sha512_init_. */
    method Init(k: seq<Word64>)
      requires |k| == 80 && state.Length == 8 && buf.Length == 128
      modifies this, state
      ensures Holds(k, [])
    {
      count0, count1 := 0, 0;
      state[0] := 0x6a09e667f3bcc908;
      state[1] := 0xbb67ae8584caa73b;
      state[2] := 0x3c6ef372fe94f82b;
      state[3] := 0xa54ff53a5f1d36f1;
      state[4] := 0x510e527fade682d1;
      state[5] := 0x9b05688c2b3e6c1f;
      state[6] := 0x1f83d9abfb41bd6b;
      state[7] := 0x5be0cd19137e2179;
    }

    /** crypto_hash_sha512_update_. */
    method Update(k: seq<Word64>, input: array<Byte>, inlen: nat, ghost msg: seq<Byte>)
      requires |k| == 80 && Holds(k, msg) && inlen <= input.Length && inlen < TWO64 && input != buf
      modifies this`count0, this`count1, state, buf
      ensures Holds(k, msg + input[..inlen])
    {
      hide Absorbed, Absorb, Compress;
      ghost var data := input[..inlen];
      ghost var was := buf[..];
      var r := count1 / 8 % 128;
      Remainder(|msg|, count1);
      CountBits(inlen, |msg|);
      if inlen < 128 - r {
        Copy(buf, r, input, 0, inlen);
        ShortUpdate(k, state[..], was, buf[..], msg, data);
        return;
      }
      Copy(buf, r, input, 0, 128 - r);
      assert buf[..] == buf[..128] == was[..r] + data[..128 - r];
      FilledBlock(k, state[..], was, buf[..], msg, data[..128 - r]);
      Transform(k, state, buf, 0);
      assert buf[0..128] == buf[..];
      Blocks(k, input, 128 - r, inlen, msg + data[..128 - r]);
      assert msg + data == msg + data[..128 - r] + data[128 - r..];
      assert input[128 - r..inlen] == data[128 - r..];
    }

    /** The rest of an update, once the buffered block is gone: whole blocks, and a tail for the buffer. */
    method Blocks(k: seq<Word64>, input: array<Byte>, from: nat, inlen: nat, ghost done: seq<Byte>)
      requires |k| == 80 && state.Length == 8 && buf.Length == 128 && from <= inlen <= input.Length && input != buf
      requires |done| % 128 == 0 && state[..] == Absorb(k, H0, done)
      modifies state, buf
      ensures Absorbed(k, state[..], buf[..], done + input[from..inlen])
    {
      hide Absorbed, Absorb, Compress;
      var src: nat, left: nat := from, inlen - from;
      ghost var taken := done;
      while left >= 128
        modifies state
        invariant src + left == inlen && |taken| % 128 == 0
        invariant state[..] == Absorb(k, H0, taken)
        invariant taken + input[src..inlen] == done + input[from..inlen]
      {
        ghost var block := input[src..src + 128];
        AbsorbBlock(k, H0, taken, block);
        assert input[src..inlen] == block + input[src + 128..inlen];
        assert taken + (block + input[src + 128..inlen]) == taken + block + input[src + 128..inlen];
        Transform(k, state, input, src);
        taken := taken + block;
        src := src + 128;
        left := left - 128;
      }
      Copy(buf, 0, input, src, left);
      TailKept(k, state[..], buf[..], taken, input[src..inlen]);
    }

    /** The count at the head of an update. */
    method CountBits(inlen: nat, ghost n: nat)
      requires Valid() && inlen < TWO64
      requires count0 == 8 * n / TWO64 % TWO64 && count1 == 8 * n % TWO64
      modifies this`count0, this`count1
      ensures Valid()
      ensures count0 == 8 * (n + inlen) / TWO64 % TWO64 && count1 == 8 * (n + inlen) % TWO64
    {
      ghost var c0, c1 := count0, count1;
      var bitlen1 := 8 * inlen % TWO64;
      var bitlen0 := inlen / 0x2000_0000_0000_0000;
      count1 := (count1 + bitlen1) % TWO64;
      if count1 < bitlen1 {
        count0 := (count0 + 1) % TWO64;
      }
      CountAdds(n, inlen, c0, c1, bitlen1, bitlen0, count1, count0);
      count0 := (count0 + bitlen0) % TWO64;
    }

    /** SHA512_Pad_. */
    method PadMessage(k: seq<Word64>, ghost msg: seq<Byte>)
      requires |k| == 80 && Holds(k, msg)
      modifies this`count0, this`count1, state, buf
      ensures Holds(k, Pad(msg))
      ensures |Pad(msg)| % 128 == 0 && count1 / 8 % 128 == 0
    {
      hide Absorbed, ToWord, WordBytes, Zeros, PadZeros, LengthBytes;
      var len := new Byte[16];
      Be64EncVect(len, [ToWord(count0), ToWord(count1)]);
      LengthField(|msg|, count0, count1);
      var r := count1 / 8 % 128;
      Remainder(|msg|, count1);
      var plen := if r < 112 then 112 - r else 240 - r;
      var pad := NewPad();
      PadField(|msg|, plen);
      Update(k, pad, plen, msg);
      Update(k, len, 16, msg + pad[..plen]);
      assert len[..16] == len[..] == LengthBytes(|msg|);
      assert msg + pad[..plen] + len[..16] == Pad(msg);
      PaddedToBlocks(msg);
      Remainder(|Pad(msg)|, count1);
    }

    /** crypto_hash_sha512_final_: the digest, and the structure wiped. */
    method Final(k: seq<Word64>, out: array<Byte>, ghost msg: seq<Byte>)
      requires |k| == 80 && Holds(k, msg) && out.Length >= 64 && out != buf
      modifies this`count0, this`count1, state, buf, out
      ensures out[..64] == Sha512(k, msg) && out[64..] == old(out[64..])
      ensures state[..] == seq(8, _ => 0) && buf[..] == Zeros(128) && count0 == count1 == 0
    {
      hide WordsBytes, Pad, Absorb;
      PadMessage(k, msg);
      Be64EncVect(out, state[..]);
      for i := 0 to 8
        modifies state
        invariant forall j :: 0 <= j < i ==> state[j] == 0
      {
        state[i] := 0;
      }
      count0, count1 := 0, 0;
      for i := 0 to 128
        modifies buf
        invariant forall j :: 0 <= j < i ==> buf[j] == 0
      {
        buf[i] := 0;
      }
    }
  }

  /** The be64enc function. */
  method Be64Enc(p: array<Byte>, d: nat, x: Word64)
    requires d + 8 <= p.Length
    modifies p
    ensures p[d..d + 8] == WordBytes(x)
    ensures p[..d] == old(p[..d]) && p[d + 8..] == old(p[d + 8..])
  {
    hide ByteAt;
    p[d + 7] := ByteAt(x, 0);
    p[d + 6] := ByteAt(x, 8);
    p[d + 5] := ByteAt(x, 16);
    p[d + 4] := ByteAt(x, 24);
    p[d + 3] := ByteAt(x, 32);
    p[d + 2] := ByteAt(x, 40);
    p[d + 1] := ByteAt(x, 48);
    p[d] := ByteAt(x, 56);
  }

  /** The be64enc_vect function. */
  method Be64EncVect(dst: array<Byte>, src: seq<Word64>)
    requires 8 * |src| <= dst.Length
    modifies dst
    ensures dst[..8 * |src|] == WordsBytes(src)
    ensures dst[8 * |src|..] == old(dst[8 * |src|..])
  {
    hide WordBytes;
    for i := 0 to |src|
      invariant dst[..8 * i] == WordsBytes(src[..i])
      invariant dst[8 * |src|..] == old(dst[8 * |src|..])
    {
      ghost var tail := dst[8 * |src|..];
      Be64Enc(dst, i * 8, src[i]);
      assert src[..i + 1][..i] == src[..i];
      assert dst[..8 * i + 8] == dst[..8 * i] + dst[8 * i..8 * i + 8];
      assert dst[8 * |src|..] == dst[8 * i + 8..][8 * |src| - 8 * i - 8..] == tail;
    }
    assert src[..|src|] == src;
  }

  /** The PAD array. */
  method NewPad() returns (pad: array<Byte>)
    ensures fresh(pad) && pad[..] == [0x80] + Zeros(127)
  {
    pad := new Byte[128](i => if i == 0 then 0x80 else 0);
  }

  lemma LengthField(n: nat, c0: nat, c1: nat)
    requires c0 == 8 * n / TWO64 % TWO64 && c1 == 8 * n % TWO64
    ensures WordsBytes([ToWord(c0), ToWord(c1)]) == LengthBytes(n)
  {
    hide WordBytes;
    assert ToWord(c0) == ToWord(8 * n / TWO64) && ToWord(c1) == ToWord(8 * n);
    var w := [ToWord(c0), ToWord(c1)];
    assert w[..1] == [ToWord(c0)] && w[..1][..0] == [];
    assert WordsBytes(w[..1]) == [] + WordBytes(ToWord(c0));
  }

  /** Both branches of the padding length pad to 112 bytes into a block. */
  lemma PadField(n: nat, plen: nat)
    requires plen == if n % 128 < 112 then 112 - n % 128 else 240 - n % 128
    ensures plen <= 128 && ([0x80] + Zeros(127))[..plen] == [0x80] + Zeros(PadZeros(n))
  {
    assert plen == 1 + PadZeros(n);
  }

  lemma Quotient(x: nat, q: nat, r: nat)
    requires x == TWO64 * q + r && r < TWO64
    ensures x / TWO64 == q && x % TWO64 == r
  {
  }

  lemma ModAdds(q: nat, b: nat)
    ensures (q % TWO64 + b) % TWO64 == (q + b) % TWO64
  {
  }

  lemma CountStays(q: nat, b0: nat, c0: nat, c1: nat, b1: nat, total: nat)
    requires c0 == q % TWO64 && c1 + b1 < TWO64 && total == TWO64 * (q + b0) + (c1 + b1)
    ensures (c1 + b1) % TWO64 == total % TWO64 && (c0 + b0) % TWO64 == total / TWO64 % TWO64
  {
    Quotient(total, q + b0, c1 + b1);
    ModAdds(q, b0);
  }

  lemma CountCarries(q: nat, b0: nat, c0: nat, c1: nat, b1: nat, total: nat)
    requires c0 == q % TWO64 && c1 < TWO64 && b1 < TWO64 && c1 + b1 >= TWO64
    requires total == TWO64 * (q + b0) + (c1 + b1)
    ensures (c1 + b1) % TWO64 == c1 + b1 - TWO64 == total % TWO64
    ensures ((c0 + 1) % TWO64 + b0) % TWO64 == total / TWO64 % TWO64
  {
    Quotient(c1 + b1, 1, c1 + b1 - TWO64);
    Quotient(total, q + b0 + 1, c1 + b1 - TWO64);
    ModAdds(q, 1);
    ModAdds(q + 1, b0);
  }

  /** The two-word count after more bits, carry included, is the 128-bit sum. */
  lemma CountAdds(n: nat, m: nat, c0: nat, c1: nat, b1: nat, b0: nat, d1: nat, carried: nat)
    requires m < TWO64
    requires c0 == 8 * n / TWO64 % TWO64 && c1 == 8 * n % TWO64
    requires b1 == 8 * m % TWO64 && b0 == m / 0x2000_0000_0000_0000
    requires d1 == (c1 + b1) % TWO64
    requires carried == if d1 < b1 then (c0 + 1) % TWO64 else c0
    ensures d1 == 8 * (n + m) % TWO64
    ensures (carried + b0) % TWO64 == 8 * (n + m) / TWO64 % TWO64
  {
    var q := 8 * n / TWO64;
    var total := 8 * (n + m);
    assert total == TWO64 * (q + b0) + (c1 + b1);
    if c1 + b1 < TWO64 {
      CountStays(q, b0, c0, c1, b1, total);
    } else {
      CountCarries(q, b0, c0, c1, b1, total);
    }
  }

  /** Initialise, then one update for each piece of a message. */
  method UpdateAll(k: seq<Word64>, chunks: seq<seq<Byte>>) returns (hs: State)
    requires |k| == 80
    requires forall c :: c in chunks ==> |c| < TWO64
    ensures fresh(hs) && fresh(hs.state) && fresh(hs.buf) && hs.Holds(k, Concat(chunks))
  {
    hide Concat, Absorbed;
    hs := new State();
    hs.Init(k);
    NoChunks();
    for i := 0 to |chunks|
      modifies hs, hs.state, hs.buf
      invariant hs.Holds(k, Concat(chunks[..i]))
    {
      ConcatGrows(chunks, i);
      var input := ToArray(chunks[i]);
      assert input[..|chunks[i]|] == chunks[i];
      hs.Update(k, input, |chunks[i]|, Concat(chunks[..i]));
    }
    assert chunks[..|chunks|] == chunks;
  }

  /** Any sequence of updates hashes the concatenation. */
  method HashChunks(k: seq<Word64>, chunks: seq<seq<Byte>>) returns (digest: seq<Byte>)
    requires |k| == 80
    requires forall c :: c in chunks ==> |c| < TWO64
    ensures digest == Sha512(k, Concat(chunks))
  {
    hide Sha512, Concat, Absorbed;
    var hs := UpdateAll(k, chunks);
    var out := new Byte[64];
    hs.Final(k, out, Concat(chunks));
    digest := out[..64];
  }

  /** Two ways of cutting up one message leave everything that later calls read the same. */
  method TwoRuns(k: seq<Word64>, left: seq<seq<Byte>>, right: seq<seq<Byte>>) returns (a: State, b: State)
    requires |k| == 80
    requires (forall c :: c in left ==> |c| < TWO64) && (forall c :: c in right ==> |c| < TWO64)
    requires Concat(left) == Concat(right)
    ensures fresh(a) && fresh(b) && a.Valid() && b.Valid()
    ensures a.state[..] == b.state[..] && a.count0 == b.count0 && a.count1 == b.count1
    ensures a.buf[..a.count1 / 8 % 128] == b.buf[..b.count1 / 8 % 128]
  {
    hide Absorb, Concat;
    a := UpdateAll(k, left);
    b := UpdateAll(k, right);
    Remainder(|Concat(left)|, a.count1);
  }

  /** An array's contents once 64 bytes have been written to its front, if it is the array written to. */
  function Overwritten(was: seq<Byte>, digest: seq<Byte>, same: bool): seq<Byte>
    requires same ==> |was| >= |digest|
  {
    if same then digest + was[|digest|..] else was
  }

  /** AES_PairVerify1: two salted digests with the same last 32 bytes, the first written before the second is begun. */
  method PairVerify1(k: seq<Word64>, a1: array<Byte>, a2: array<Byte>, a2Len: nat, a3: array<Byte>, a3Len: nat,
                     a4: array<Byte>, a5: array<Byte>)
    requires |k| == 80 && a1.Length >= 32 && a2Len <= a2.Length && a3Len <= a3.Length
    requires a2Len < 0x1_0000_0000 && a3Len < 0x1_0000_0000 && a4.Length >= 64 && a5.Length >= 64
    modifies a4, a5
    ensures
      var first := Sha512(k, old(a2[..a2Len] + a1[..32]));
      var prefix := Overwritten(old(a3[..]), first, a3 == a4)[..a3Len];
      var second := Sha512(k, prefix + Overwritten(old(a1[..]), first, a1 == a4)[..32]);
      && a5[..] == second + old(a5[64..])
      && (a4 != a5 ==> a4[..] == first + old(a4[64..]))
  {
    hide Sha512;
    var hs := new State();
    hs.Init(k);
    hs.Update(k, a2, a2Len, []);
    hs.Update(k, a1, 32, [] + a2[..a2Len]);
    assert [] + a2[..a2Len] == a2[..a2Len];
    hs.Final(k, a4, a2[..a2Len] + a1[..32]);
    assert a4[..] == a4[..64] + a4[64..];
    hs.Init(k);
    hs.Update(k, a3, a3Len, []);
    hs.Update(k, a1, 32, [] + a3[..a3Len]);
    assert [] + a3[..a3Len] == a3[..a3Len];
    hs.Final(k, a5, a3[..a3Len] + a1[..32]);
    assert a5[..] == a5[..64] + a5[64..];
  }
}
