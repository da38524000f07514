/** The two ciphers, schedules and counter-mode drivers compared. */
module Agreement {
  import opened Words
  import opened Fips197
  import opened Counter
  import opened Ctr
  import opened CtrRange
  import opened Chunks
  import S = SwarCipher
  import B = ByteKeySchedule
  import T = TableCipher
  import K = WordKeySchedule
  import D = StreamCipher
  import P = PairVerify

  /** The cipher reads no word behind the last round key. */
  lemma CipherPrefix(s: SBox, nr: nat, block: seq<Byte>, v: seq<Column>, w: seq<Column>)
    requires 1 <= nr && 4 * nr + 4 <= |v| && 4 * nr + 4 <= |w| && |block| == 16
    requires v[..4 * nr + 4] == w[..4 * nr + 4]
    ensures CipherBytes(s, nr, block, v) == CipherBytes(s, nr, block, w)
  {
    hide LastRound, AfterRounds, StateOf, BytesOf;
    forall i | 0 <= i < 4 * nr + 4 ensures v[i] == w[i] {
      assert v[..4 * nr + 4][i] == w[..4 * nr + 4][i];
    }
    SameRounds(s, StateOf(block), v, w, nr - 1);
  }

  lemma {:induction false} CtrPrefix(s: SBox, nr: nat, v: seq<Column>, w: seq<Column>, iv: seq<Byte>, m: nat)
    requires 1 <= nr && 4 * nr + 4 <= |v| && 4 * nr + 4 <= |w| && |iv| == 16
    requires v[..4 * nr + 4] == w[..4 * nr + 4]
    ensures CtrBlocks(s, nr, v, iv, m) == CtrBlocks(s, nr, w, iv, m)
    decreases m
  {
    hide CipherBytes, Increment;
    if m > 0 {
      CipherPrefix(s, nr, iv, v, w);
      CtrPrefix(s, nr, v, w, Increment(iv), m - 1);
    }
  }

  lemma MaskInjective(d: seq<Byte>, k: seq<Byte>, l: seq<Byte>)
    requires |d| == |k| == |l| && XorBytes(d, k) == XorBytes(d, l)
    ensures k == l
  {
    forall i | 0 <= i < |d| ensures k[i] == l[i] {
      assert XorBytes(d, k)[i] == XorBytes(d, l)[i];
      XorCancels(d[i], k[i], l[i]);
    }
  }

  lemma {:induction false} LowSteps(a: seq<Byte>, b: seq<Byte>, n: nat)
    ensures Steps(a + b, n)[|a|..] == Steps(b, n)
    decreases n
  {
    hide Increment;
    if n == 0 {
      assert (a + b)[|a|..] == b;
    } else {
      IncrementSplit(a, b);
      LowSteps(if AllOnes(b) then Increment(a) else a, Increment(b), n - 1);
    }
  }

  /** On whole blocks the two drivers end on the same counter, and for every key their outputs are equal
      exactly when the counter does not pass its last value. */
  lemma DriversAgree(s: SBox, schedule: seq<Byte>, key: seq<Column>, iv: seq<Byte>, data: seq<Byte>, m: nat)
    requires |schedule| == 176 && |key| == 4 && Columns(schedule) == KeyExpansion(s, key)
    requires |iv| == 16 && |data| == 16 * m
    ensures Feed(s, Stream(schedule + iv, []), data) == XorBytes(data, CtrBlocks(s, 10, KeyExpansion(s, key), iv, m))
       <==> Value(iv) + m <= Power256(16)
    ensures Fed(s, Stream(schedule + iv, []), 16 * m).regs[176..] == Steps(iv, m)
    ensures Fed(s, Stream(schedule + iv, []), 16 * m).pending == []
  {
    hide Keystream, After, CtrBlocks, XorByte, XorBytes, Increment, Value, Power256, CipherBytes, Columns, Steps;
    hide KeyExpansion;
    WholeBlocks(s, schedule + iv, m);
    LowSteps(schedule, iv, m);
    FreshStreamIffCtr(s, schedule, key, iv, m);
    if Feed(s, Stream(schedule + iv, []), data) == XorBytes(data, CtrBlocks(s, 10, KeyExpansion(s, key), iv, m)) {
      MaskInjective(data, Keystream(s, schedule + iv, [], 16 * m), CtrBlocks(s, 10, KeyExpansion(s, key), iv, m));
    }
  }

  /** The schedule is what aesExtendKey made for as long as the counter has not wrapped, and not one block longer. */
  lemma ScheduleKept(s: SBox, key: seq<Byte>, iv: seq<Byte>, m: nat)
    requires |key| == 176 && |iv| == 16 && Value(iv) + m <= Power256(16)
    ensures Fed(s, Stream(key + iv, []), 16 * m).regs[..176] == key <==> Value(iv) + m < Power256(16)
  {
    hide Keystream, After, Increment, Value, Power256, Steps, AllOnes;
    WholeBlocks(s, key + iv, m);
    if Value(iv) + m < Power256(16) {
      StepsSplit(key, iv, m);
    } else {
      ValueBound(iv);
      StepsSplit(key, iv, m - 1);
      StepsValue(iv, m - 1);
      StepsAdd(key + iv, m - 1, 1);
      var ones := Steps(iv, m - 1);
      ValueBound(ones);
      IncrementSplit(key, ones);
      OneStep(key + ones);
      LastByteSteps(key);
      assert (Increment(key) + Increment(ones))[..176] == Increment(key);
    }
  }

  lemma OneStep(b: seq<Byte>)
    ensures Steps(b, 1) == Increment(b)
  {
    hide Increment;
    assert Steps(Increment(b), 0) == Increment(b);
  }


  /** The unrolled cipher on aesExtendKey's schedule and the table cipher on AES_SetEncryptKey's schedule
      both give the FIPS 197 block. */
  method BothCiphers(s: SBox, key: seq<Byte>, block: seq<Byte>) returns (swar: seq<Byte>, table: seq<Byte>)
    requires |key| == 16 && |block| == 16
    ensures swar == CipherBytes(s, 10, block, KeyExpansion(s, Columns(key)))
    ensures table == swar
  {
    hide CipherBytes, KeyExpansion, Columns, T.WordColumns;
    var filler := seq(160, _ => 0 as Byte);
    var mem := ToArray(key + filler + block + block);
    assert mem[0..16] == key;
    B.ExtendKey(s, mem, 0);
    assert mem[176..192] == block;
    S.EncryptBlock(s, mem, 176, 192, 0);
    swar := mem[192..208];

    var userKey := ToArray(key);
    var buffer := ToArray(block);
    var schedule := new T.AesKey();
    var r := K.SetEncryptKey(s, userKey, 128, schedule);
    assert userKey[..16] == key && buffer[..16] == block;
    CipherPrefix(s, 10, block, T.WordColumns(schedule.rd_key[..]), KeyExpansion(s, Columns(key)));
    T.EncryptBlock(s, buffer, buffer, schedule);
    table := buffer[..16];
  }

  /** ezAesDecrytInit, then one call of ezAesDecryptBlock. */
  method RunStream(s: SBox, key: seq<Byte>, iv: seq<Byte>, data: seq<Byte>)
    returns (out: seq<Byte>, ivOut: seq<Byte>, schedule: seq<Byte>)
    requires |key| == 16 && |iv| == 16 && (|data| + 15) / 16 <= Power256(16)
    ensures |schedule| == 176 && Columns(schedule) == KeyExpansion(s, Columns(key))
    ensures out == Feed(s, Stream(schedule + iv, []), data)
    ensures ivOut == Fed(s, Stream(schedule + iv, []), |data|).regs[176..]
  {
    hide CipherBytes, KeyExpansion, Columns, Power256, Value, XorBytes, Keystream, After;
    var keyBytes := ToArray(key);
    var ivBytes := ToArray(iv);
    var buffer := ToArray(data);
    assert keyBytes[..16] == key && ivBytes[..16] == iv && buffer[..|data|] == data;
    var d := new D.Decryptor();
    d.Init(s, keyBytes, ivBytes);
    schedule := d.mem[..176];
    assert schedule == d.Contents().regs[..176];
    assert d.Contents() == Stream(schedule + iv, []);
    Headroom(s, schedule, Columns(key), iv);
    d.DecryptBlock(s, buffer, |data|, buffer);
    out := buffer[..|data|];
    ivOut := d.mem[176..192];
    assert d.mem[..192][176..] == d.mem[176..192];
  }

  /** AES_SetEncryptKey, then AES_PairVerify3. */
  method RunPair(s: SBox, key: seq<Byte>, iv: seq<Byte>, data: seq<Byte>) returns (out: seq<Byte>, ivOut: seq<Byte>)
    requires |key| == 16 && |iv| == 16 && |data| % 16 == 0
    ensures out == XorBytes(data, CtrBlocks(s, 10, KeyExpansion(s, Columns(key)), iv, |data| / 16))
    ensures ivOut == Steps(iv, |data| / 16)
  {
    hide CipherBytes, KeyExpansion, Columns, T.WordColumns, CtrBlocks, Steps, XorBytes;
    var keyBytes := ToArray(key);
    var ivBytes := ToArray(iv);
    var buffer := ToArray(data);
    assert keyBytes[..16] == key && ivBytes[..16] == iv && buffer[..|data|] == data;
    var words := new T.AesKey();
    var r := K.SetEncryptKey(s, keyBytes, 128, words);
    ghost var w := T.WordColumns(words.rd_key[..]);
    P.PairVerify3(s, buffer, buffer, |data|, words, ivBytes, P.AES_ENCRYPT);
    CtrPrefix(s, 10, w, KeyExpansion(s, Columns(key)), iv, |data| / 16);
    out := buffer[..|data|];
    ivOut := ivBytes[..16];
  }

  /** Both drivers set up with one key and IV, run over the same whole blocks, 2^128 of them at most. */
  method BothDrivers(s: SBox, key: seq<Byte>, iv: seq<Byte>, data: seq<Byte>)
    returns (streamed: seq<Byte>, paired: seq<Byte>, streamIv: seq<Byte>, pairIv: seq<Byte>)
    requires |key| == 16 && |iv| == 16 && |data| % 16 == 0 && |data| / 16 <= Power256(16)
    ensures paired == XorBytes(data, CtrBlocks(s, 10, KeyExpansion(s, Columns(key)), iv, |data| / 16))
    ensures streamed == paired <==> Value(iv) + |data| / 16 <= Power256(16)
    ensures streamIv == pairIv == Steps(iv, |data| / 16)
  {
    hide CipherBytes, KeyExpansion, Columns, CtrBlocks, Steps, Power256, Value, XorBytes, Keystream, After;
    var schedule;
    streamed, streamIv, schedule := RunStream(s, key, iv, data);
    paired, pairIv := RunPair(s, key, iv, data);
    DriversAgree(s, schedule, Columns(key), iv, data, |data| / 16);
  }
}
