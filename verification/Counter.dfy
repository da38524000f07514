/** Big-endian byte counters and the two loops that step them. */
module Counter {
  import opened Words

  /** The standard incrementing function of SP 800-38A appendix B.1 on a whole byte string. */
  function Increment(b: seq<Byte>): (r: seq<Byte>)
    ensures |r| == |b|
  {
    if b == [] then []
    else
      var last := |b| - 1;
      if b[last] == 0xff then Increment(b[..last]) + [0] else b[..last] + [b[last] + 1]
  }

  function Steps(b: seq<Byte>, n: nat): (r: seq<Byte>)
    ensures |r| == |b|
    decreases n
  {
    if n == 0 then b else Steps(Increment(b), n - 1)
  }

  /** The number a byte string writes, most significant byte first. */
  function Value(b: seq<Byte>): nat {
    if b == [] then 0 else Value(b[..|b| - 1]) * 256 + b[|b| - 1] as nat
  }

  function Power256(n: nat): (p: nat)
    ensures p >= 1
  {
    if n == 0 then 1 else 256 * Power256(n - 1)
  }

  predicate AllOnes(b: seq<Byte>) {
    forall i :: 0 <= i < |b| ==> b[i] == 0xff
  }

  lemma NextByte(x: Byte)
    ensures x == 0xff ==> x as nat == 255
    ensures x != 0xff ==> x as nat < 255 && (x + 1) as nat == x as nat + 1
  {
  }

  lemma {:induction false} ValueBound(b: seq<Byte>)
    ensures Value(b) < Power256(|b|)
    ensures Value(b) == Power256(|b|) - 1 <==> AllOnes(b)
  {
    if b != [] {
      var last := |b| - 1;
      ValueBound(b[..last]);
      NextByte(b[last]);
      assert AllOnes(b) <==> AllOnes(b[..last]) && b[last] == 0xff by {
        if AllOnes(b[..last]) && b[last] == 0xff {
          forall i | 0 <= i < |b| ensures b[i] == 0xff {
            assert i < last ==> b[i] == b[..last][i];
          }
        }
      }
    }
  }

  /** Incrementing adds one modulo 256^|b|. */
  lemma {:induction false} IncrementValue(b: seq<Byte>)
    ensures Value(Increment(b)) == (if AllOnes(b) then 0 else Value(b) + 1)
  {
    if b != [] {
      var last := |b| - 1;
      NextByte(b[last]);
      if b[last] == 0xff {
        IncrementValue(b[..last]);
        assert (Increment(b[..last]) + [0])[..last] == Increment(b[..last]);
        ValueBound(b);
        ValueBound(b[..last]);
      } else {
        assert (b[..last] + [b[last] + 1])[..last] == b[..last];
      }
    }
  }

  function Repeat(x: Byte, k: nat): (r: seq<Byte>)
    ensures |r| == k
  {
    seq(k, _ => x)
  }

  /** The carry of a counter ending in k bytes of 0xff. */
  lemma {:induction false} IncrementCarry(pre: seq<Byte>, x: Byte, k: nat)
    requires x != 0xff
    ensures Increment(pre + [x] + Repeat(0xff, k)) == pre + [x + 1] + Repeat(0, k)
  {
    var b := pre + [x] + Repeat(0xff, k);
    if k == 0 {
      assert b == pre + [x];
      assert b[..|b| - 1] == pre;
    } else {
      assert b[..|b| - 1] == pre + [x] + Repeat(0xff, k - 1);
      IncrementCarry(pre, x, k - 1);
      assert Repeat(0, k - 1) + [0] == Repeat(0, k);
    }
  }

  lemma {:induction false} IncrementOnes(k: nat)
    ensures Increment(Repeat(0xff, k)) == Repeat(0, k)
  {
    if k > 0 {
      assert Repeat(0xff, k)[..k - 1] == Repeat(0xff, k - 1);
      IncrementOnes(k - 1);
    }
  }

  /** The low part steps by itself, and carries into the high part exactly when it is all ones. */
  lemma {:induction false} IncrementSplit(a: seq<Byte>, b: seq<Byte>)
    ensures Increment(a + b) == (if AllOnes(b) then Increment(a) else a) + Increment(b)
  {
    if b == [] {
      assert a + b == a;
    } else {
      var last := |b| - 1;
      assert (a + b)[..|a + b| - 1] == a + b[..last];
      if b[last] == 0xff {
        IncrementSplit(a, b[..last]);
        assert AllOnes(b) <==> AllOnes(b[..last]) by {
          forall i | 0 <= i < last ensures b[i] == b[..last][i] {
          }
        }
      }
    }
  }

  lemma {:induction false} StepsAdd(b: seq<Byte>, m: nat, n: nat)
    ensures Steps(b, m + n) == Steps(Steps(b, m), n)
    decreases m
  {
    if m > 0 {
      StepsAdd(Increment(b), m - 1, n);
    }
  }

  /** Below the wrap-around, n steps add n. */
  lemma {:induction false} StepsValue(b: seq<Byte>, n: nat)
    requires Value(b) + n < Power256(|b|)
    ensures Value(Steps(b, n)) == Value(b) + n
    decreases n
  {
    if n > 0 {
      ValueBound(b);
      IncrementValue(b);
      StepsValue(Increment(b), n - 1);
    }
  }

  /** Below the wrap-around of the low part, the high part is left alone. */
  lemma {:induction false} StepsSplit(a: seq<Byte>, b: seq<Byte>, n: nat)
    requires Value(b) + n < Power256(|b|)
    ensures Steps(a + b, n) == a + Steps(b, n)
    decreases n
  {
    if n > 0 {
      ValueBound(b);
      IncrementValue(b);
      IncrementSplit(a, b);
      StepsSplit(a, Increment(b), n - 1);
    }
  }

  /** Where a carry loop stands when only the bytes above k are done. */
  ghost predicate Carried(was: seq<Byte>, now: seq<Byte>, k: int) {
    && |was| == |now| && -1 <= k < |was|
    && (forall i :: 0 <= i <= k ==> now[i] == was[i])
    && (forall i :: k < i < |was| ==> was[i] == 0xff && now[i] == 0)
  }

  lemma CarryEnds(was: seq<Byte>, now: seq<Byte>, k: nat, after: seq<Byte>)
    requires Carried(was, now, k) && was[k] != 0xff && after == now[k := was[k] + 1]
    ensures after == Increment(was)
  {
    hide Increment;
    var n := |was| - k - 1;
    assert was == was[..k] + [was[k]] + Repeat(0xff, n);
    IncrementCarry(was[..k], was[k], n);
    assert after == was[..k] + [was[k] + 1] + Repeat(0, n);
  }

  lemma CarryOut(was: seq<Byte>, now: seq<Byte>)
    requires Carried(was, now, -1)
    ensures now == Increment(was)
  {
    assert was == Repeat(0xff, |was|) && now == Repeat(0, |was|);
    IncrementOnes(|was|);
  }

  /** The loop of ezAesDecryptBlock: it walks down through 0xff bytes and has no lower bound of its own. */
  method StepDown(mem: array<Byte>, end: nat)
    requires 1 <= end <= mem.Length
    requires !AllOnes(mem[..end])
    modifies mem
    ensures mem[..end] == Increment(old(mem[..end]))
    ensures mem[end..] == old(mem[end..])
  {
    ghost var was := mem[..end];
    var tmp := end - 1;
    while mem[tmp] == 0xff
      invariant 0 <= tmp < end
      invariant Carried(was, mem[..end], tmp)
      invariant mem[end..] == old(mem[end..])
      decreases tmp
    {
      assert tmp == 0 ==> AllOnes(was);
      mem[tmp] := 0x00;
      tmp := tmp - 1;
    }
    ghost var now := mem[..end];
    mem[tmp] := mem[tmp] + 1;
    CarryEnds(was, now, tmp, mem[..end]);
  }

  /** The loop of AES_PairVerify3: sixteen bytes with wrap-around. */
  method StepWrapping(iv: array<Byte>)
    requires iv.Length >= 16
    modifies iv
    ensures iv[..16] == Increment(old(iv[..16]))
    ensures iv[16..] == old(iv[16..])
  {
    ghost var was := iv[..16];
    var k := 15;
    while k >= 0
      invariant -1 <= k <= 15
      invariant Carried(was, iv[..16], k)
      invariant iv[16..] == old(iv[16..])
    {
      ghost var now := iv[..16];
      iv[k] := iv[k] + 1;
      if iv[k] != 0 {
        CarryEnds(was, now, k, iv[..16]);
        return;
      }
      k := k - 1;
    }
    CarryOut(was, iv[..16]);
  }

  lemma ShiftDigit(x: nat, p: nat, y: nat, z: nat)
    ensures (x * p + y) * 256 + z == x * (256 * p) + (y * 256 + z)
  {
    assert x * p * 256 == x * (256 * p);
  }

  lemma {:induction false} ValueConcat(a: seq<Byte>, b: seq<Byte>)
    ensures Value(a + b) == Value(a) * Power256(|b|) + Value(b)
  {
    if b == [] {
      assert a + b == a;
    } else {
      var last := |b| - 1;
      var digit := b[last] as nat;
      assert (a + b)[..|a + b| - 1] == a + b[..last];
      assert Value(a + b) == Value(a + b[..last]) * 256 + digit;
      ValueConcat(a, b[..last]);
      ShiftDigit(Value(a), Power256(last), Value(b[..last]), digit);
    }
  }
}
