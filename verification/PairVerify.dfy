/** AES_PairVerify3 over the table cipher, and its agreement with the buffering driver. */
module PairVerify {
  import opened Words
  import opened Fips197
  import opened Counter
  import opened Ctr
  import T = TableCipher
  import D = StreamCipher

  const AES_ENCRYPT: int := 1

  /** One turn: the counter encrypted, stepped, and XORed over sixteen bytes. */
  method Turn(s: SBox, input: array<Byte>, output: array<Byte>, p: nat, key: T.AesKey, ivec: array<Byte>,
              tmp: array<Byte>)
    requires key.Ready() && ivec.Length >= 16 && tmp.Length == 16
    requires p + 16 <= input.Length && p + 16 <= output.Length
    requires ivec != input && ivec != output && tmp != input && tmp != output && tmp != ivec
    modifies output, ivec, tmp
    ensures ivec[..16] == Increment(old(ivec[..16])) && ivec[16..] == old(ivec[16..])
    ensures output[p..p + 16]
         == XorBytes(old(input[p..p + 16]),
                     CipherBytes(s, key.rounds, old(ivec[..16]), old(T.WordColumns(key.rd_key[..]))))
    ensures D.Outside(old(output[..]), output[..], p, p + 16)
  {
    hide XorByte, CipherBytes, T.WordColumns, Increment;
    T.EncryptBlock(s, ivec, tmp, key);
    StepWrapping(ivec);
    for n := 0 to 16
      modifies output
      invariant forall b :: p <= b < p + n ==> output[b] == XorByte(old(input[b]), tmp[b - p])
      invariant forall b :: 0 <= b < output.Length && !(p <= b < p + n) ==> output[b] == old(output[b])
    {
      assert input[p + n] == old(input[p + n]);
      output[p + n] := XorByte(input[p + n], tmp[n]);
    }
    assert tmp[..16] == tmp[..];
  }

  lemma OneBlockMore(s: SBox, nr: nat, w: seq<Column>, iv: seq<Byte>, m: nat)
    requires |iv| == 16 && 1 <= nr && 4 * nr + 4 <= |w|
    ensures CtrBlocks(s, nr, w, iv, m + 1) == CtrBlocks(s, nr, w, iv, m) + CipherBytes(s, nr, Steps(iv, m), w)
    ensures Steps(iv, m + 1) == Increment(Steps(iv, m))
    decreases m
  {
    hide CipherBytes, Increment;
    if m > 0 {
      OneBlockMore(s, nr, w, Increment(iv), m - 1);
    }
  }

  /** AES_PairVerify3; the input and output buffers may be the same. */
  method PairVerify3(s: SBox, input: array<Byte>, output: array<Byte>, length: nat, key: T.AesKey,
                     ivec: array<Byte>, enc: int)
    requires key.Ready() && ivec.Length >= 16 && length <= input.Length && length <= output.Length
    requires ivec != input && ivec != output
    modifies output, ivec
    ensures enc != AES_ENCRYPT ==> output[..] == old(output[..]) && ivec[..] == old(ivec[..])
    ensures enc == AES_ENCRYPT ==>
      var m := length / 16;
      var w := old(T.WordColumns(key.rd_key[..]));
      && output[..16 * m] == XorBytes(old(input[..16 * m]), CtrBlocks(s, key.rounds, w, old(ivec[..16]), m))
      && output[16 * m..] == old(output[16 * m..])
      && ivec[..16] == Steps(old(ivec[..16]), m) && ivec[16..] == old(ivec[16..])
  {
    hide XorByte, XorBytes, CipherBytes, T.WordColumns, Increment, CtrBlocks, Steps;
    var tmp := new Byte[16];
    if enc == AES_ENCRYPT {
      ghost var w := T.WordColumns(key.rd_key[..]);
      ghost var iv0, input0, out0 := ivec[..16], input[..], output[..];
      ghost var nr := key.rounds;
      var len, p := length, 0;
      ghost var m := 0;
      Started(s, nr, w, iv0, input0, out0);
      while len >= 16
        modifies output, ivec, tmp
        invariant p == 16 * m && len == length - p
        invariant ivec[..16] == Steps(iv0, m) && ivec[16..] == old(ivec[16..])
        invariant Made(s, nr, w, iv0, input0, output[..], m)
        invariant output[p..] == out0[p..] && input[p..] == input0[p..]
      {
        ghost var was := output[..];
        D.SliceOf(input[..], input0, p, 16);
        Turn(s, input, output, p, key, ivec, tmp);
        MadeOneMore(s, nr, w, iv0, input0, was, output[..], m);
        KeptAbove(was, output[..], out0, p);
        D.SameTail(was, output[..], input0, input == output, input[..], p);
        len := len - 16;
        p := p + 16;
        m := m + 1;
      }
    }
  }

  /** The first m blocks of output are counter mode. */
  ghost predicate Made(s: SBox, nr: nat, w: seq<Column>, iv: seq<Byte>, input: seq<Byte>, out: seq<Byte>, m: nat)
    requires |iv| == 16 && 1 <= nr && 4 * nr + 4 <= |w| && 16 * m <= |input| && 16 * m <= |out|
  {
    out[..16 * m] == XorBytes(input[..16 * m], CtrBlocks(s, nr, w, iv, m))
  }

  lemma Started(s: SBox, nr: nat, w: seq<Column>, iv: seq<Byte>, input: seq<Byte>, out: seq<Byte>)
    requires |iv| == 16 && 1 <= nr && 4 * nr + 4 <= |w|
    ensures Made(s, nr, w, iv, input, out, 0) && Steps(iv, 0) == iv
  {
    hide CipherBytes;
    D.NoBytes();
  }

  lemma MadeOneMore(s: SBox, nr: nat, w: seq<Column>, iv: seq<Byte>, input: seq<Byte>, was: seq<Byte>,
                    out: seq<Byte>, m: nat)
    requires |iv| == 16 && 1 <= nr && 4 * nr + 4 <= |w| && 16 * m + 16 <= |input| && 16 * m + 16 <= |out| == |was|
    requires Made(s, nr, w, iv, input, was, m)
    requires D.Outside(was, out, 16 * m, 16 * m + 16)
    requires out[16 * m..16 * m + 16] == XorBytes(input[16 * m..16 * m + 16], CipherBytes(s, nr, Steps(iv, m), w))
    ensures Made(s, nr, w, iv, input, out, m + 1)
    ensures Steps(iv, m + 1) == Increment(Steps(iv, m))
  {
    hide CipherBytes, CtrBlocks, Steps, XorBytes, Increment;
    var p := 16 * m;
    OneBlockMore(s, nr, w, iv, m);
    assert out[..p + 16] == out[..p] + out[p..p + 16] && input[..p + 16] == input[..p] + input[p..p + 16];
    XorConcat(input[..p], input[p..p + 16], CtrBlocks(s, nr, w, iv, m), CipherBytes(s, nr, Steps(iv, m), w));
  }

  lemma KeptAbove(was: seq<Byte>, out: seq<Byte>, out0: seq<Byte>, p: nat)
    requires |was| == |out| == |out0| && p + 16 <= |out|
    requires was[p..] == out0[p..] && D.Outside(was, out, p, p + 16)
    ensures out[p + 16..] == out0[p + 16..]
  {
    assert was[p + 16..] == was[p..][16..] && out0[p + 16..] == out0[p..][16..];
  }
}
