/** The buffering counter-mode driver over the unrolled encryptor. */
module StreamCipher {
  import opened Words
  import opened Fips197
  import opened Counter
  import opened Ctr
  import opened SwarCipher
  import opened ByteKeySchedule

  const IV: nat := 176
  const LAST: nat := 192

  method XorWord(data: array<Byte>, out: array<Byte>, j: nat, mem: array<Byte>, p: nat)
    requires j + 4 <= data.Length && j + 4 <= out.Length && p + 4 <= mem.Length
    requires mem != out
    modifies out
    ensures forall i :: j <= i < j + 4 ==> out[i] == XorByte(old(data[i]), mem[p + (i - j)])
    ensures forall i :: 0 <= i < out.Length && !(j <= i < j + 4) ==> out[i] == old(out[i])
  {
    hide Lanes, XorByte;
    var x, y := Load(data, j), Load(mem, p);
    LanesXor(x, y);
    Store(out, j, x ^ y);
  }

  /** Four native words XORed: one block of output. */
  method XorBlock(data: array<Byte>, out: array<Byte>, j: nat, mem: array<Byte>)
    requires j + 16 <= data.Length && j + 16 <= out.Length && mem.Length == 208
    requires mem != out
    modifies out
    ensures out[j..j + 16] == XorBytes(old(data[j..j + 16]), mem[LAST..])
    ensures Outside(old(out[..]), out[..], j, j + 16)
  {
    hide XorByte;
    XorWord(data, out, j, mem, LAST);
    assert forall i :: j + 4 <= i < j + 16 ==> data[i] == old(data[i]);
    XorWord(data, out, j + 4, mem, LAST + 4);
    assert forall i :: j + 8 <= i < j + 16 ==> data[i] == old(data[i]);
    assert forall i :: j <= i < j + 8 ==> out[i] == XorByte(old(data[i]), mem[LAST + (i - j)]);
    XorWord(data, out, j + 8, mem, LAST + 8);
    assert forall i :: j + 12 <= i < j + 16 ==> data[i] == old(data[i]);
    assert forall i :: j <= i < j + 12 ==> out[i] == XorByte(old(data[i]), mem[LAST + (i - j)]);
    XorWord(data, out, j + 12, mem, LAST + 12);
    assert forall i :: j <= i < j + 16 ==> out[i] == XorByte(old(data[i]), mem[LAST + (i - j)]);
    assert forall k :: 0 <= k < 16 ==> out[j..j + 16][k] == XorByte(old(data[j..j + 16])[k], mem[LAST..][k]);
  }

  /** The global aesDecryptor: one block of memory holding key, iv and last_aes_str in this order. */
  class Decryptor {
    const mem: array<Byte>
    var excess: nat

    ghost predicate Valid()
      reads this
    {
      mem.Length == 208 && excess < 16
    }

    /** What the structure stands for: schedule and counter, and the key bytes still to be used. */
    ghost function Contents(): (st: Stream)
      requires Valid()
      reads this, mem
      ensures st.Valid()
    {
      Stream(mem[..LAST], if excess > 0 then mem[LAST + excess..] else [])
    }

    constructor ()
      ensures fresh(mem) && mem.Length == 208
    {
      mem := new Byte[208];
      excess := 0;
    }

    /** ezAesDecrytInit. */
    method Init(s: SBox, key: array<Byte>, iv: array<Byte>)
      requires mem.Length == 208 && key.Length >= 16 && iv.Length >= 16
      requires key != mem && iv != mem
      modifies this`excess, mem
      ensures Valid() && Contents().pending == []
      ensures Contents().regs[IV..] == iv[..16]
      ensures Columns(Contents().regs[..IV]) == KeyExpansion(s, Columns(key[..16]))
    {
      for i := 0 to 208
        modifies mem
        invariant key[..] == old(key[..]) && iv[..] == old(iv[..])
      {
        mem[i] := 0;
      }
      excess := 0;
      for i := 0 to 16
        modifies mem
        invariant key[..] == old(key[..]) && iv[..] == old(iv[..])
        invariant mem[..i] == key[..i]
      {
        mem[i] := key[i];
      }
      ExtendKey(s, mem, 0);
      ghost var schedule := mem[..IV];
      assert Schedule(mem[..], 0) == Columns(schedule);
      for i := 0 to 16
        modifies mem
        invariant key[..] == old(key[..]) && iv[..] == old(iv[..])
        invariant mem[..IV] == schedule
        invariant mem[IV..IV + i] == iv[..i]
      {
        mem[IV + i] := iv[i];
      }
    }

    /** j bytes of a stretch XORed with the key bytes from position p of last_aes_str. */
    method XorRun(data: array<Byte>, out: array<Byte>, from: nat, j: nat, p: nat)
      requires mem.Length == 208 && LAST + p + j <= 208
      requires from + j <= data.Length && from + j <= out.Length && mem != out
      modifies out
      ensures out[from..from + j] == XorBytes(old(data[from..from + j]), mem[LAST + p..LAST + p + j])
      ensures Outside(old(out[..]), out[..], from, from + j)
    {
      hide XorByte;
      for i := 0 to j
        invariant forall b :: from <= b < from + i ==> out[b] == XorByte(old(data[b]), mem[LAST + p + (b - from)])
        invariant forall b :: 0 <= b < out.Length && !(from <= b < from + i) ==> out[b] == old(out[b])
      {
        assert data[from + i] == old(data[from + i]);
        out[from + i] := XorByte(data[from + i], mem[LAST + p + i]);
      }
    }

    /** ezAesDecrypt from iv into last_aes_str. */
    method MakeBlock(s: SBox)
      requires mem.Length == 208
      modifies mem
      ensures mem[..LAST] == old(mem[..LAST])
      ensures mem[LAST..] == NextBlock(s, old(mem[..LAST]))
    {
      hide CipherBytes, Columns;
      ghost var was := mem[..];
      EncryptBlock(s, mem, IV, LAST, 0);
      assert mem[LAST..LAST + 16] == mem[LAST..];
      assert was[0..176] == was[..LAST][..176] && was[IV..IV + 16] == was[..LAST][176..];
    }

    /** One turn of the block loop. */
    method FullBlock(s: SBox, data: array<Byte>, out: array<Byte>, j: nat)
      requires mem.Length == 208 && !AllOnes(mem[..LAST])
      requires j + 16 <= data.Length && j + 16 <= out.Length && mem != data && mem != out
      modifies mem, out
      ensures mem[..LAST] == Increment(old(mem[..LAST]))
      ensures out[j..j + 16] == XorBytes(old(data[j..j + 16]), NextBlock(s, old(mem[..LAST])))
      ensures Outside(old(out[..]), out[..], j, j + 16)
    {
      hide XorByte, NextBlock;
      MakeBlock(s);
      ghost var block := mem[LAST..];
      XorBlock(data, out, j, mem);
      StepDown(mem, LAST);
    }

    /** One turn of the block loop, with what it does to the whole call. */
    method BlockTurn(s: SBox, data: array<Byte>, out: array<Byte>, from: nat, pos: nat,
                     ghost input: seq<Byte>, ghost key: seq<Byte>, ghost out0: seq<Byte>, ghost end: Stream)
      requires mem.Length == 208 && mem != data && mem != out && !AllOnes(mem[..LAST])
      requires from <= pos && pos + 16 <= data.Length && pos + 16 <= out.Length && pos + 16 - from <= |key|
      requires |input| == data.Length && |out0| == out.Length
      requires Ahead(s, mem[..LAST], key[pos - from..], end)
      requires Masked(input, key, out[..], from, pos) && Outside(out0, out[..], from, pos)
      requires data[pos..] == input[pos..]
      modifies mem, out
      ensures mem[..LAST] == Increment(old(mem[..LAST]))
      ensures Ahead(s, mem[..LAST], key[pos + 16 - from..], end)
      ensures Masked(input, key, out[..], from, pos + 16) && Outside(out0, out[..], from, pos + 16)
      ensures data[pos + 16..] == input[pos + 16..]
    {
      hide Ahead, Masked, NextBlock, Increment, AllOnes, Outside;
      ghost var regs, was := mem[..LAST], out[..];
      SliceOf(data[..], input, pos, 16);
      FullBlock(s, data, out, pos);
      AheadBlock(s, regs, key[pos - from..], end);
      assert key[pos + 16 - from..] == key[pos - from..][16..];
      Extend(input, key, NextBlock(s, regs), out0, was, out[..], from, pos, pos + 16);
      SameTail(was, out[..], input, data == out, data[..], pos);
    }

    /** The last partial block: its unused key bytes stay for the next call. */
    method Tail(s: SBox, data: array<Byte>, out: array<Byte>, from: nat, pos: nat, res: nat,
                ghost input: seq<Byte>, ghost key: seq<Byte>, ghost out0: seq<Byte>, ghost end: Stream)
      requires mem.Length == 208 && mem != data && mem != out && !AllOnes(mem[..LAST])
      requires 0 < res < 16 && from <= pos && pos + res <= data.Length && pos + res <= out.Length
      requires pos + res - from == |key|
      requires |input| == data.Length && |out0| == out.Length
      requires Ahead(s, mem[..LAST], key[pos - from..], end)
      requires Masked(input, key, out[..], from, pos) && Outside(out0, out[..], from, pos)
      requires data[pos..] == input[pos..]
      modifies this`excess, mem, out
      ensures Valid() && Contents() == end
      ensures Masked(input, key, out[..], from, pos + res) && Outside(out0, out[..], from, pos + res)
    {
      hide Ahead, Masked, NextBlock, Increment, AllOnes, Outside;
      ghost var regs, was := mem[..LAST], out[..];
      SliceOf(data[..], input, pos, res);
      MakeBlock(s);
      ghost var block := mem[LAST..];
      excess := res;
      XorRun(data, out, pos, res, 0);
      AheadTail(s, regs, key[pos - from..], end);
      Extend(input, key, block[..res], out0, was, out[..], from, pos, pos + res);
      StepDown(mem, LAST);
      assert mem[LAST + res..] == block[res..];
    }

    /** The part of a call after the left-over key bytes: whole blocks, then a last partial one. */
    method Blocks(s: SBox, data: array<Byte>, from: nat, len: nat, out: array<Byte>)
      requires Valid() && (from == len || excess == 0)
      requires from <= len <= data.Length && len <= out.Length && mem != data && mem != out
      requires Value(mem[..LAST]) + (len - from + 15) / 16 < Power256(192)
      modifies this`excess, mem, out
      ensures Valid()
      ensures Masked(old(data[..]), Keystream(s, old(mem[..LAST]), [], len - from), out[..], from, len)
      ensures Outside(old(out[..]), out[..], from, len)
      ensures Contents() == if from == len then old(Contents()) else After(s, old(mem[..LAST]), [], len - from)
    {
      hide Ahead, Masked, Keystream, After, Increment, Value, AllOnes, Power256, Outside;
      ghost var input, out0 := data[..], out[..];
      ghost var key := Keystream(s, mem[..LAST], [], len - from);
      ghost var end := After(s, mem[..LAST], [], len - from);
      var cnt, res := (len - from) / 16, (len - from) % 16;
      NothingDone(s, mem[..LAST], input, key, out0, from);
      for i := 0 to cnt
        invariant Value(mem[..LAST]) + (len - from - 16 * i + 15) / 16 < Power256(192)
        invariant Ahead(s, mem[..LAST], key[16 * i..], end)
        invariant Masked(input, key, out[..], from, from + 16 * i)
        invariant Outside(out0, out[..], from, from + 16 * i)
        invariant data[from + 16 * i..] == input[from + 16 * i..]
        invariant excess == old(excess) && (i == 0 ==> mem[..] == old(mem[..]))
      {
        ValueBound(mem[..LAST]);
        IncrementValue(mem[..LAST]);
        BlockTurn(s, data, out, from, from + 16 * i, input, key, out0, end);
      }
      if res > 0 {
        ValueBound(mem[..LAST]);
        Tail(s, data, out, from, from + 16 * cnt, res, input, key, out0, end);
      } else {
        assert key[16 * cnt..] == [];
        AheadEnd(s, mem[..LAST], end);
      }
    }

    /** Key bytes left over from the last call; returns how many are used now. */
    method UseExcess(data: array<Byte>, len: nat, out: array<Byte>) returns (j: nat)
      requires Valid() && len <= data.Length && len <= out.Length && mem != data && mem != out
      modifies this`excess, out
      ensures Valid() && j <= |old(Contents()).pending| && j <= len
      ensures j == |old(Contents()).pending| || j == len
      ensures excess == 0 || j == len
      ensures Contents() == Stream(old(Contents()).regs, old(Contents()).pending[j..])
      ensures out[..j] == XorBytes(old(data[..j]), old(Contents()).pending[..j])
      ensures out[j..] == old(out[j..])
    {
      hide XorByte, XorBytes;
      j := 0;
      if excess > 0 {
        j := if len >= 16 - excess then 16 - excess else len;
        ghost var pending := mem[LAST + excess..];
        assert pending[..j] == mem[LAST + excess..LAST + excess + j];
        XorRun(data, out, 0, j, excess);
        excess := (excess + j) % 16;
        assert excess > 0 ==> mem[LAST + excess..] == pending[j..];
      } else {
        NoBytes();
      }
    }

    /** ezAesDecryptBlock; the input and output buffers may be the same. */
    method DecryptBlock(s: SBox, data: array<Byte>, len: nat, out: array<Byte>)
      requires Valid() && len <= data.Length && len <= out.Length && mem != data && mem != out
      requires Value(mem[..LAST]) + BlocksFor(|Contents().pending|, len) < Power256(192)
      modifies this`excess, mem, out
      ensures Valid() && Contents() == Fed(s, old(Contents()), len)
      ensures out[..len] == Feed(s, old(Contents()), old(data[..len]))
      ensures out[len..] == old(out[len..])
    {
      hide Keystream, After, Value, Power256, XorByte, XorBytes;
      ghost var st0, input, out0 := Contents(), data[..], out[..];
      var j := UseExcess(data, len, out);
      ghost var was := out[..];
      assert data[j..len] == input[j..len] by {
        if data == out {
          assert was[j..][..len - j] == out0[j..][..len - j];
        }
      }
      Blocks(s, data, j, len, out);
      JoinRuns(s, st0, input[..j], input[j..len]);
      assert input[..len] == input[..j] + input[j..len];
      assert out[..j] == was[..j] && out[..len] == out[..j] + out[j..len];
      assert out[len..] == was[len..] == was[j..][len - j..] == out0[j..][len - j..];
    }
  }

  lemma NoBytes()
    ensures [] == XorBytes([], [])
  {
  }

  /** A call is its left-over part followed by a call on a fresh stream. */
  lemma JoinRuns(s: SBox, st: Stream, a: seq<Byte>, b: seq<Byte>)
    requires st.Valid() && (|a| == |st.pending| || (|a| < |st.pending| && b == []))
    ensures Feed(s, st, a + b) == XorBytes(a, st.pending[..|a|]) + XorBytes(b, Keystream(s, st.regs, [], |b|))
    ensures Fed(s, st, |a + b|)
         == if b == [] then Stream(st.regs, st.pending[|a|..]) else After(s, st.regs, [], |b|)
  {
    hide XorByte, XorBytes;
    TakeAdd(s, st.regs, st.pending, |a|, |b|);
    XorConcat(a, b, st.pending[..|a|], Keystream(s, st.regs, [], |b|));
  }

  lemma SliceOf(d: seq<Byte>, e: seq<Byte>, pos: nat, n: nat)
    requires |d| == |e| && pos + n <= |d| && d[pos..] == e[pos..]
    ensures d[pos..pos + n] == e[pos..pos + n]
  {
    assert d[pos..][..n] == e[pos..][..n];
  }

  lemma SameTail(was: seq<Byte>, now: seq<Byte>, input: seq<Byte>, aliased: bool, data: seq<Byte>, pos: nat)
    requires pos + 16 <= |input| == |data| && pos + 16 <= |was| == |now|
    requires Outside(was, now, pos, pos + 16)
    requires if aliased then data == now && was[pos..] == input[pos..] else data[pos..] == input[pos..]
    ensures data[pos + 16..] == input[pos + 16..]
  {
    if aliased {
      assert was[pos + 16..] == was[pos..][16..];
      assert input[pos + 16..] == input[pos..][16..];
    } else {
      assert data[pos + 16..] == data[pos..][16..];
      assert input[pos + 16..] == input[pos..][16..];
    }
  }

  /** The key bytes still to come, and the state after them. */
  ghost predicate Ahead(s: SBox, regs: seq<Byte>, key: seq<Byte>, end: Stream)
    requires |regs| == 192
  {
    key == Keystream(s, regs, [], |key|) && end == After(s, regs, [], |key|)
  }

  /** The stretch from..to is input XOR key. */
  ghost predicate Masked(input: seq<Byte>, key: seq<Byte>, out: seq<Byte>, from: nat, to: nat)
    requires from <= to <= |input| && to <= |out| && to - from <= |key|
  {
    out[from..to] == XorBytes(input[from..to], key[..to - from])
  }

  lemma NothingDone(s: SBox, regs: seq<Byte>, input: seq<Byte>, key: seq<Byte>, out: seq<Byte>, from: nat)
    requires |regs| == 192 && from <= |input| && from <= |out|
    requires key == Keystream(s, regs, [], |key|)
    ensures Ahead(s, regs, key[0..], After(s, regs, [], |key|))
    ensures Masked(input, key, out, from, from) && Outside(out, out, from, from)
  {
    hide Keystream, After;
    assert key[0..] == key;
  }

  lemma AheadBlock(s: SBox, regs: seq<Byte>, key: seq<Byte>, end: Stream)
    requires |regs| == 192 && |key| >= 16 && Ahead(s, regs, key, end)
    ensures key[..16] == NextBlock(s, regs)
    ensures Ahead(s, Increment(regs), key[16..], end)
  {
    hide Keystream, After, NextBlock, Increment;
    PeelBlock(s, regs, |key| - 16);
  }

  lemma AheadTail(s: SBox, regs: seq<Byte>, key: seq<Byte>, end: Stream)
    requires |regs| == 192 && 0 < |key| < 16 && Ahead(s, regs, key, end)
    ensures key == NextBlock(s, regs)[..|key|]
    ensures end == Stream(Increment(regs), NextBlock(s, regs)[|key|..])
  {
    hide NextBlock, Increment;
    assert key == [] + Keystream(s, Increment(regs), NextBlock(s, regs), |key|);
    assert end == After(s, Increment(regs), NextBlock(s, regs), |key|);
  }

  lemma AheadEnd(s: SBox, regs: seq<Byte>, end: Stream)
    requires |regs| == 192 && Ahead(s, regs, [], end)
    ensures end == Stream(regs, [])
  {
  }

  /** Nothing but the stretch from..to changed. */
  ghost predicate Outside(before: seq<Byte>, after: seq<Byte>, from: nat, to: nat)
    requires from <= to <= |before| && |before| == |after|
  {
    after[..from] == before[..from] && after[to..] == before[to..]
  }

  lemma OutsideJoins(a: seq<Byte>, b: seq<Byte>, c: seq<Byte>, from: nat, pos: nat, to: nat)
    requires from <= pos <= to <= |a| && |a| == |b| == |c|
    requires Outside(a, b, from, pos) && Outside(b, c, pos, to)
    ensures Outside(a, c, from, to) && c[from..pos] == b[from..pos]
  {
    assert c[..from] == c[..pos][..from] && b[..from] == b[..pos][..from];
    assert c[from..pos] == c[..pos][from..] && b[from..pos] == b[..pos][from..];
    assert a[to..] == a[pos..][to - pos..] && b[to..] == b[pos..][to - pos..];
  }

  /** A masked stretch grows by the next piece of key. */
  lemma Extend(input: seq<Byte>, key: seq<Byte>, piece: seq<Byte>, out0: seq<Byte>, was: seq<Byte>, out: seq<Byte>,
               from: nat, pos: nat, to: nat)
    requires from <= pos <= to <= |input| && to <= |out| && |out| == |was| == |out0| && to - from <= |key|
    requires piece == key[pos - from..][..to - pos]
    requires Masked(input, key, was, from, pos) && Outside(out0, was, from, pos)
    requires out[pos..to] == XorBytes(input[pos..to], piece) && Outside(was, out, pos, to)
    ensures Masked(input, key, out, from, to) && Outside(out0, out, from, to)
  {
    hide XorByte, XorBytes;
    OutsideJoins(out0, was, out, from, pos, to);
    assert input[from..to] == input[from..pos] + input[pos..to];
    assert key[..to - from] == key[..pos - from] + piece;
    assert out[from..to] == out[from..pos] + out[pos..to];
    XorConcat(input[from..pos], input[pos..to], key[..pos - from], piece);
  }
}
