/** Counter mode as a stream of key bytes, whole blocks and left-over bytes. */
module Ctr {
  import opened Words
  import opened Fips197
  import opened Counter
  import opened Chunks

  /** The 176 schedule bytes with the 16 counter bytes behind them, and the key bytes made but not used. */
  datatype Stream = Stream(regs: seq<Byte>, pending: seq<Byte>) {
    predicate Valid() {
      |regs| == 192 && |pending| < 16
    }
  }

  function NextBlock(s: SBox, regs: seq<Byte>): (b: seq<Byte>)
    requires |regs| == 192
    ensures |b| == 16
  {
    CipherBytes(s, 10, regs[176..], Columns(regs[..176]))
  }

  /** The next n key bytes. */
  function Keystream(s: SBox, regs: seq<Byte>, pending: seq<Byte>, n: nat): (k: seq<Byte>)
    requires |regs| == 192
    ensures |k| == n
    decreases n - |pending|
  {
    if n <= |pending| then pending[..n]
    else pending + Keystream(s, Increment(regs), NextBlock(s, regs), n - |pending|)
  }

  /** The stream once those n bytes are taken. */
  function After(s: SBox, regs: seq<Byte>, pending: seq<Byte>, n: nat): (st: Stream)
    requires |regs| == 192
    ensures |st.regs| == 192
    decreases n - |pending|
  {
    if n <= |pending| then Stream(regs, pending[n..])
    else After(s, Increment(regs), NextBlock(s, regs), n - |pending|)
  }

  lemma {:induction false} AfterPending(s: SBox, regs: seq<Byte>, pending: seq<Byte>, n: nat)
    requires |regs| == 192 && |pending| <= 16 && (|pending| < 16 || n > 0)
    ensures |After(s, regs, pending, n).pending| < 16
    decreases n - |pending|
  {
    if n > |pending| {
      AfterPending(s, Increment(regs), NextBlock(s, regs), n - |pending|);
    }
  }

  /** How many blocks have to be made for n bytes when some key bytes are pending. */
  function BlocksFor(pending: nat, n: nat): nat {
    if n <= pending then 0 else (n - pending + 15) / 16
  }

  /** Every block made steps the counter once, and no byte of it is lost. */
  lemma {:induction false} CounterAfter(s: SBox, regs: seq<Byte>, pending: seq<Byte>, n: nat)
    requires |regs| == 192
    ensures var after, made := After(s, regs, pending, n), BlocksFor(|pending|, n);
            after.regs == Steps(regs, made) && |after.pending| == |pending| + 16 * made - n
    decreases n - |pending|
  {
    hide NextBlock, Increment;
    if n > |pending| {
      CounterAfter(s, Increment(regs), NextBlock(s, regs), n - |pending|);
      var rest := BlocksFor(16, n - |pending|);
      assert BlocksFor(|pending|, n) == 1 + rest;
      StepsAdd(regs, 1, rest);
      assert Steps(regs, 1) == Increment(Steps(regs, 0));
    }
  }

  lemma Slices(b: seq<Byte>, m: nat, n: nat)
    requires m + n <= |b|
    ensures b[..m + n] == b[..m] + b[m..][..n] && b[m + n..] == b[m..][n..]
    ensures b == b[..m] + b[m..]
  {
  }

  /** Taking m bytes and then n bytes is taking m + n bytes. */
  lemma {:induction false} TakeAdd(s: SBox, regs: seq<Byte>, pending: seq<Byte>, m: nat, n: nat)
    requires |regs| == 192
    ensures var mid := After(s, regs, pending, m);
            Keystream(s, regs, pending, m + n)
            == Keystream(s, regs, pending, m) + Keystream(s, mid.regs, mid.pending, n)
            && After(s, regs, pending, m + n) == After(s, mid.regs, mid.pending, n)
    decreases m - |pending|
  {
    hide NextBlock, Increment;
    if m > |pending| {
      var regs', block := Increment(regs), NextBlock(s, regs);
      TakeAdd(s, regs', block, m - |pending|, n);
      var mid := After(s, regs, pending, m);
      assert Keystream(s, regs, pending, m + n) == pending + Keystream(s, regs', block, m + n - |pending|);
      assert Keystream(s, regs, pending, m) == pending + Keystream(s, regs', block, m - |pending|);
    } else if m + n > |pending| {
      Slices(pending, m, |pending| - m);
    } else {
      Slices(pending, m, n);
    }
  }

  function XorBytes(a: seq<Byte>, b: seq<Byte>): (r: seq<Byte>)
    requires |a| == |b|
    ensures |r| == |a|
    ensures forall i :: 0 <= i < |a| ==> r[i] == XorByte(a[i], b[i])
  {
    seq(|a|, i requires 0 <= i < |a| => XorByte(a[i], b[i]))
  }

  /** What one call makes of its input. */
  function Feed(s: SBox, st: Stream, data: seq<Byte>): (out: seq<Byte>)
    requires st.Valid()
    ensures |out| == |data|
  {
    XorBytes(data, Keystream(s, st.regs, st.pending, |data|))
  }

  /** The state one call leaves. */
  function Fed(s: SBox, st: Stream, n: nat): (r: Stream)
    requires st.Valid()
    ensures r.Valid()
  {
    AfterPending(s, st.regs, st.pending, n);
    After(s, st.regs, st.pending, n)
  }

  /** The outputs of one call for each chunk, joined. */
  function FeedAll(s: SBox, st: Stream, chunks: seq<seq<Byte>>): seq<Byte>
    requires st.Valid()
    decreases |chunks|
  {
    if chunks == [] then [] else Feed(s, st, chunks[0]) + FeedAll(s, Fed(s, st, |chunks[0]|), chunks[1..])
  }

  function FedAll(s: SBox, st: Stream, chunks: seq<seq<Byte>>): (r: Stream)
    requires st.Valid()
    ensures r.Valid()
    decreases |chunks|
  {
    if chunks == [] then st else FedAll(s, Fed(s, st, |chunks[0]|), chunks[1..])
  }

  lemma XorConcat(a: seq<Byte>, b: seq<Byte>, k: seq<Byte>, l: seq<Byte>)
    requires |a| == |k| && |b| == |l|
    ensures XorBytes(a + b, k + l) == XorBytes(a, k) + XorBytes(b, l)
  {
  }

  lemma FeedTwo(s: SBox, st: Stream, a: seq<Byte>, b: seq<Byte>)
    requires st.Valid()
    ensures Feed(s, st, a + b) == Feed(s, st, a) + Feed(s, Fed(s, st, |a|), b)
    ensures Fed(s, st, |a + b|) == Fed(s, Fed(s, st, |a|), |b|)
  {
    hide Keystream, After;
    TakeAdd(s, st.regs, st.pending, |a|, |b|);
    var mid := Fed(s, st, |a|);
    XorConcat(a, b, Keystream(s, st.regs, st.pending, |a|), Keystream(s, mid.regs, mid.pending, |b|));
  }

  /** Any way of cutting the input into calls gives the bytes and the state of one call. */
  lemma {:induction false} SplitInvariance(s: SBox, st: Stream, chunks: seq<seq<Byte>>)
    requires st.Valid()
    ensures FeedAll(s, st, chunks) == Feed(s, st, Concat(chunks))
    ensures FedAll(s, st, chunks) == Fed(s, st, |Concat(chunks)|)
    decreases |chunks|
  {
    if chunks != [] {
      SplitInvariance(s, Fed(s, st, |chunks[0]|), chunks[1..]);
      FeedTwo(s, st, chunks[0], Concat(chunks[1..]));
    }
  }

  /** Running the output through the same start state gives the input back, however either run is cut up. */
  lemma Involution(s: SBox, st: Stream, there: seq<seq<Byte>>, back: seq<seq<Byte>>)
    requires st.Valid()
    requires Concat(back) == FeedAll(s, st, there)
    ensures FeedAll(s, st, back) == Concat(there)
  {
    SplitInvariance(s, st, there);
    SplitInvariance(s, st, back);
    var data := Concat(there);
    var key := Keystream(s, st.regs, st.pending, |data|);
    forall i | 0 <= i < |data| ensures XorByte(XorByte(data[i], key[i]), key[i]) == data[i] {
      XorTwice(data[i], key[i]);
    }
  }

  lemma XorTwice(a: Byte, b: Byte)
    ensures XorByte(XorByte(a, b), b) == a
  {
  }

  /** SP 800-38A section 6.5: the blocks of a counter that wraps modulo 2^128 under one schedule. */
  function CtrBlocks(s: SBox, nr: nat, w: seq<Column>, iv: seq<Byte>, m: nat): (k: seq<Byte>)
    requires |iv| == 16 && 1 <= nr && 4 * nr + 4 <= |w|
    ensures |k| == 16 * m
    decreases m
  {
    if m == 0 then [] else CipherBytes(s, nr, iv, w) + CtrBlocks(s, nr, w, Increment(iv), m - 1)
  }

  lemma PeelBlock(s: SBox, regs: seq<Byte>, n: nat)
    requires |regs| == 192
    ensures Keystream(s, regs, [], 16 + n) == NextBlock(s, regs) + Keystream(s, Increment(regs), [], n)
    ensures After(s, regs, [], 16 + n) == After(s, Increment(regs), [], n)
  {
    hide NextBlock, Increment;
    TakeAdd(s, regs, [], 16, n);
    var block := NextBlock(s, regs);
    assert Keystream(s, regs, [], 16) == [] + Keystream(s, Increment(regs), block, 16) == block;
    assert After(s, regs, [], 16) == After(s, Increment(regs), block, 16) == Stream(Increment(regs), []);
  }

  /** A fresh stream is counter mode for as long as the counter has not passed all ones. */
  lemma {:induction false} FreshStreamIsCtr(s: SBox, key: seq<Byte>, iv: seq<Byte>, m: nat)
    requires |key| == 176 && |iv| == 16
    requires Value(iv) + m <= Power256(16)
    ensures Keystream(s, key + iv, [], 16 * m) == CtrBlocks(s, 10, Columns(key), iv, m)
    decreases m
  {
    hide CipherBytes, Columns, Increment, Power256;
    if m > 0 {
      PeelBlock(s, key + iv, 16 * (m - 1));
      assert (key + iv)[176..] == iv && (key + iv)[..176] == key;
      if m > 1 {
        ValueBound(iv);
        IncrementValue(iv);
        IncrementSplit(key, iv);
        FreshStreamIsCtr(s, key, Increment(iv), m - 1);
      }
    }
  }

  /** A stream cut short is the start of the longer one. */
  lemma StreamPrefix(s: SBox, regs: seq<Byte>, pending: seq<Byte>, m: nat, n: nat)
    requires |regs| == 192 && m <= n
    ensures Keystream(s, regs, pending, m) == Keystream(s, regs, pending, n)[..m]
  {
    hide Keystream, After;
    TakeAdd(s, regs, pending, m, n - m);
  }

  /** A fresh stream of any length is the start of enough counter-mode blocks. */
  lemma FreshBytesAreCtr(s: SBox, key: seq<Byte>, iv: seq<Byte>, n: nat)
    requires |key| == 176 && |iv| == 16
    requires Value(iv) + (n + 15) / 16 <= Power256(16)
    ensures Keystream(s, key + iv, [], n) == CtrBlocks(s, 10, Columns(key), iv, (n + 15) / 16)[..n]
  {
    hide Keystream, CtrBlocks, Value, Power256, Columns;
    FreshStreamIsCtr(s, key, iv, (n + 15) / 16);
    StreamPrefix(s, key + iv, [], n, 16 * ((n + 15) / 16));
  }

  /** Whole blocks leave the counter stepped and nothing pending. */
  lemma {:induction false} WholeBlocks(s: SBox, regs: seq<Byte>, m: nat)
    requires |regs| == 192
    ensures After(s, regs, [], 16 * m) == Stream(Steps(regs, m), [])
    decreases m
  {
    hide NextBlock, Increment;
    if m > 0 {
      PeelBlock(s, regs, 16 * (m - 1));
      WholeBlocks(s, Increment(regs), m - 1);
    }
  }

  lemma OnesImpossible(x: Byte)
    ensures !(0xff ^ (x ^ 0x01) == 0xff && 0xff ^ (x ^ 0x00) == 0xff)
  {
  }

  lemma OnesExpand(s: SBox, w0: Column, w3: Column)
    ensures var ff := Column(0xff, 0xff, 0xff, 0xff);
            w0 == ff && w3 == ff ==> Xor(w0, Xor(SubWord(s, RotateUp(w3)), Rcon(1))) != ff
  {
    OnesImpossible(s(0xff));
  }

  /** No key expands to a schedule of 0xff bytes only, whatever the S-box. */
  lemma ScheduleNotAllOnes(s: SBox, bytes: seq<Byte>, key: seq<Column>)
    requires |bytes| == 176 && |key| == 4 && Columns(bytes) == KeyExpansion(s, key)
    ensures !AllOnes(bytes)
  {
    hide Xor, SubWord, RotateUp, Rcon;
    var w0, w3, w4 := Columns(bytes)[0], Columns(bytes)[3], Columns(bytes)[4];
    RotatedWord(s, key, 4);
    OnesExpand(s, w0, w3);
    assert w0 == ColumnAt(bytes, 0) && w3 == ColumnAt(bytes, 3) && w4 == ColumnAt(bytes, 4);
  }

  lemma Below(a: nat, p: nat, q: nat, b: nat)
    requires a + 2 <= q && b < p
    ensures a * p + b + p < q * p
  {
    assert (a + 2) * p <= q * p;
  }

  /** From a fresh schedule the carry loop stays inside the structure for 2^128 blocks. */
  lemma Headroom(s: SBox, bytes: seq<Byte>, key: seq<Column>, iv: seq<Byte>)
    requires |bytes| == 176 && |key| == 4 && |iv| == 16 && Columns(bytes) == KeyExpansion(s, key)
    ensures Value(bytes + iv) + Power256(16) < Power256(192)
  {
    hide Power256, Value, Columns, KeyExpansion, AllOnes;
    ScheduleNotAllOnes(s, bytes, key);
    ValueBound(bytes);
    ValueBound(iv);
    ValueConcat(bytes, iv);
    PowerSplit(176, 16);
    Below(Value(bytes), Power256(16), Power256(176), Value(iv));
  }

  lemma {:induction false} PowerSplit(m: nat, n: nat)
    ensures Power256(m + n) == Power256(m) * Power256(n)
  {
    if m > 0 {
      PowerSplit(m - 1, n);
      assert 256 * (Power256(m - 1) * Power256(n)) == (256 * Power256(m - 1)) * Power256(n);
    }
  }
}
