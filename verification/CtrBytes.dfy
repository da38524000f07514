/** Counter mode byte by byte: which counter each block enciphers, and which byte of it each data byte meets. */
module CtrBytes {
  import opened Words
  import opened Fips197
  import opened Counter
  import opened Ctr

  /** Sixteen bytes write 2^128 numbers. */
  lemma SixteenBytesWrite()
    ensures Power256(16) == 0x1_0000_0000_0000_0000_0000_0000_0000_0000
  {
    assert Power256(4) == 0x1_0000_0000;
    PowerSplit(4, 4);
    PowerSplit(8, 8);
  }

  lemma ValueExample()
    ensures Value([0x12, 0x34, 0x56]) == 0x12_3456
  {
    var b: seq<Byte> := [0x12, 0x34, 0x56];
    assert b[..2] == [0x12, 0x34] && b[..2][..1] == [0x12] && b[..2][..1][..0] == [];
    assert Value(b[..2][..1]) == 0x12;
    assert Value(b[..2]) == 0x1234;
  }

  /** A byte string is fixed by its length and the number it writes. */
  lemma {:induction false} ValueInjective(a: seq<Byte>, b: seq<Byte>)
    requires |a| == |b| && Value(a) == Value(b)
    ensures a == b
  {
    if a != [] {
      var last := |a| - 1;
      SameByte(Value(a[..last]), a[last], Value(b[..last]), b[last]);
      ValueInjective(a[..last], b[..last]);
      assert a == a[..last] + [a[last]] && b == b[..last] + [b[last]];
    }
  }

  lemma SameByte(m: nat, x: Byte, n: nat, y: Byte)
    requires m * 256 + x as nat == n * 256 + y as nat
    ensures m == n && x == y
  {
  }

  /** Sixteen bytes step modulo 2^128. */
  lemma {:induction false} StepsModulo(b: seq<Byte>, n: nat)
    requires |b| == 16
    ensures Value(Steps(b, n)) == (Value(b) + n) % 0x1_0000_0000_0000_0000_0000_0000_0000_0000
    decreases n
  {
    hide Value, Power256, Increment, AllOnes;
    SixteenBytesWrite();
    ValueBound(b);
    if n > 0 {
      StepsModulo(Increment(b), n - 1);
      IncrementValue(b);
      Wraps(Value(b), n);
    }
  }

  lemma Wraps(v: nat, n: nat)
    requires n > 0 && v < 0x1_0000_0000_0000_0000_0000_0000_0000_0000
    ensures (v + n) % 0x1_0000_0000_0000_0000_0000_0000_0000_0000
         == ((v + 1) % 0x1_0000_0000_0000_0000_0000_0000_0000_0000 + (n - 1))
            % 0x1_0000_0000_0000_0000_0000_0000_0000_0000
  {
  }

  /** Block j of counter mode is the cipher of the sixteen bytes that write j more than the IV does, modulo 2^128. */
  lemma {:induction false} BlockAt(s: SBox, nr: nat, w: seq<Column>, iv: seq<Byte>, m: nat, j: nat, block: seq<Byte>)
    requires |iv| == 16 && 1 <= nr && 4 * nr + 4 <= |w| && j < m
    requires |block| == 16 && Value(block) == (Value(iv) + j) % 0x1_0000_0000_0000_0000_0000_0000_0000_0000
    ensures CtrBlocks(s, nr, w, iv, m)[16 * j..16 * j + 16] == CipherBytes(s, nr, block, w)
  {
    hide Value, Power256, CipherBytes, CtrBlocks, Steps;
    SixteenBytesWrite();
    StepsModulo(iv, j);
    ValueInjective(block, Steps(iv, j));
    BlockOfSteps(s, nr, w, iv, m, j);
  }

  lemma {:induction false} BlockOfSteps(s: SBox, nr: nat, w: seq<Column>, iv: seq<Byte>, m: nat, j: nat)
    requires |iv| == 16 && 1 <= nr && 4 * nr + 4 <= |w| && j < m
    ensures CtrBlocks(s, nr, w, iv, m)[16 * j..16 * j + 16] == CipherBytes(s, nr, Steps(iv, j), w)
    decreases j
  {
    hide CipherBytes, Increment;
    var first, rest := CipherBytes(s, nr, iv, w), CtrBlocks(s, nr, w, Increment(iv), m - 1);
    if j == 0 {
      assert (first + rest)[0..16] == first;
    } else {
      BlockOfSteps(s, nr, w, Increment(iv), m - 1, j - 1);
      assert (first + rest)[16 * j..16 * j + 16] == rest[16 * (j - 1)..16 * (j - 1) + 16];
    }
  }

  lemma KeystreamByte(s: SBox, schedule: seq<Byte>, iv: seq<Byte>, n: nat, k: nat)
    requires |schedule| == 176 && |iv| == 16 && k < n && Value(iv) + k / 16 < Power256(16)
    ensures Keystream(s, schedule + iv, [], n)[k] == CtrBlocks(s, 10, Columns(schedule), iv, k / 16 + 1)[k]
  {
    hide Value, Power256, CtrBlocks, Keystream, Columns;
    assert (k + 1 + 15) / 16 == k / 16 + 1;
    FreshBytesAreCtr(s, schedule, iv, k + 1);
    StreamPrefix(s, schedule + iv, [], k + 1, n);
    var key, meant := Keystream(s, schedule + iv, [], n), CtrBlocks(s, 10, Columns(schedule), iv, k / 16 + 1);
    assert key[k] == key[..k + 1][k] == meant[..k + 1][k] == meant[k];
  }

  lemma ByteOfBlock(key: seq<Byte>, k: nat, block: seq<Byte>)
    requires 16 * (k / 16) + 16 <= |key| && key[16 * (k / 16)..16 * (k / 16) + 16] == block
    ensures key[k] == block[k % 16]
  {
  }

  /**
   * Byte k of what a fresh stream makes of its data is the data byte XORed with byte k % 16 of the enciphered
   * counter, which is k / 16 more than the IV.
   */
  lemma StreamByte(s: SBox, schedule: seq<Byte>, iv: seq<Byte>, data: seq<Byte>, k: nat, block: seq<Byte>)
    requires |schedule| == 176 && |iv| == 16 && k < |data|
    requires |block| == 16 && Value(block) == Value(iv) + k / 16
    ensures Feed(s, Stream(schedule + iv, []), data)[k]
         == data[k] ^ CipherBytes(s, 10, block, Columns(schedule))[k % 16]
  {
    hide Value, Power256, CipherBytes, CtrBlocks, Keystream, Columns;
    SixteenBytesWrite();
    ValueBound(block);
    KeystreamByte(s, schedule, iv, |data|, k);
    BlockAt(s, 10, Columns(schedule), iv, k / 16 + 1, k / 16, block);
    ByteOfBlock(CtrBlocks(s, 10, Columns(schedule), iv, k / 16 + 1), k, CipherBytes(s, 10, block, Columns(schedule)));
  }
}
