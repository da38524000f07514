/** A whole session with the decryptor: set up once, then called again and again. */
module Session {
  import opened Words
  import opened Fips197
  import opened Counter
  import opened Ctr
  import opened CtrRange
  import Agreement
  import opened Chunks
  import D = StreamCipher

  lemma BlocksJoin(m: nat, n: nat)
    ensures BlocksFor(0, m) + BlocksFor(16 * BlocksFor(0, m) - m, n) == BlocksFor(0, m + n)
  {
  }

  lemma Rounded(n: nat)
    ensures 16 * BlocksFor(0, n) >= n && BlocksFor(0, n) == (n + 15) / 16
  {
  }

  lemma BlocksMonotone(m: nat, n: nat)
    requires m <= n
    ensures BlocksFor(0, m) <= BlocksFor(0, n)
  {
  }

  /** The next call of a session still finds room for every block that it makes. */
  lemma RoomForNext(s: SBox, regs: seq<Byte>, before: nat, next: nat, total: nat)
    requires |regs| == 192 && before + next <= total
    requires Value(regs) + BlocksFor(0, total) < Power256(192)
    ensures var st := After(s, regs, [], before);
            Value(st.regs) + BlocksFor(|st.pending|, next) < Power256(192)
  {
    hide After, Value, Power256, BlocksFor;
    CounterAfter(s, regs, [], before);
    Rounded(before);
    BlocksJoin(before, next);
    BlocksMonotone(before + next, total);
    BlocksMonotone(before, total);
    StepsValue(regs, BlocksFor(0, before));
  }

  /**
   * ezAesDecrytInit and one call of ezAesDecryptBlock for each chunk: up to 2^128 blocks in all,
   * no call walks out of the structure, the outputs join to one stream, and that is counter mode exactly
   * as far as its range goes.
   */
  method Run(s: SBox, key: seq<Byte>, iv: seq<Byte>, chunks: seq<seq<Byte>>)
    returns (out: seq<Byte>, schedule: seq<Byte>)
    requires |key| == 16 && |iv| == 16 && (|Concat(chunks)| + 15) / 16 <= Power256(16)
    ensures |schedule| == 176 && Columns(schedule) == KeyExpansion(s, Columns(key))
    ensures out == Feed(s, Stream(schedule + iv, []), Concat(chunks))
    ensures var n := |Concat(chunks)|;
            var meant := CtrBlocks(s, 10, KeyExpansion(s, Columns(key)), iv, (n + 15) / 16)[..n];
            out == XorBytes(Concat(chunks), meant) <==> n <= Range(schedule, iv)
  {
    hide CipherBytes, KeyExpansion, Columns, Power256, Value, XorBytes, Keystream, After;
    hide BlocksFor, Concat, CtrBlocks, Range;
    var keyBytes := ToArray(key);
    var ivBytes := ToArray(iv);
    assert keyBytes[..16] == key && ivBytes[..16] == iv;
    var d := new D.Decryptor();
    d.Init(s, keyBytes, ivBytes);
    schedule := d.mem[..176];
    assert schedule == d.Contents().regs[..176];
    ghost var st := Stream(schedule + iv, []);
    assert d.Contents() == st;
    Headroom(s, schedule, Columns(key), iv);
    Rounded(|Concat(chunks)|);
    out := [];
    Nothing(s, st, chunks);
    for i := 0 to |chunks|
      invariant d.Valid() && fresh(d) && fresh(d.mem)
      invariant d.Contents() == Fed(s, st, |Concat(chunks[..i])|)
      invariant out == Feed(s, st, Concat(chunks[..i]))
    {
      var buffer := ToArray(chunks[i]);
      ghost var done := Concat(chunks[..i]);
      ConcatGrows(chunks, i);
      RoomForNext(s, st.regs, |done|, |chunks[i]|, |Concat(chunks)|);
      assert buffer[..buffer.Length] == chunks[i];
      d.DecryptBlock(s, buffer, buffer.Length, buffer);
      FeedTwo(s, st, done, chunks[i]);
      out := out + buffer[..buffer.Length];
    }
    assert chunks[..|chunks|] == chunks;
    StreamIffCtr(s, schedule, Columns(key), iv, |Concat(chunks)|);
    ghost var data, n := Concat(chunks), |Concat(chunks)|;
    ghost var meant := CtrBlocks(s, 10, KeyExpansion(s, Columns(key)), iv, (n + 15) / 16)[..n];
    if XorBytes(data, Keystream(s, schedule + iv, [], n)) == XorBytes(data, meant) {
      Agreement.MaskInjective(data, Keystream(s, schedule + iv, [], n), meant);
    }
  }

  lemma Nothing(s: SBox, st: Stream, chunks: seq<seq<Byte>>)
    requires st.Valid() && st.pending == []
    ensures Concat(chunks[..0]) == []
    ensures Feed(s, st, []) == [] && Fed(s, st, 0) == st
  {
  }
}
