/**
 * The example of FIPS 180-4 for SHA-512: the digest of the three bytes of "abc", with the round constants
 * of section 4.2.3 as the program has them.
 */
module ShaExample {
  import opened Words
  import opened Fips180

  function Four(i: int, x0: Word64, x1: Word64, x2: Word64, x3: Word64): Word64 {
    if i < 2 then if i == 0 then x0 else x1 else if i == 2 then x2 else x3
  }

  /** The round constants. */
  function KAt(i: nat): Word64 {
    if i < 40 then
      if i < 20 then
        if i < 12 then
          if i < 8 then
            if i < 4 then
              Four(i, 0x428a2f98d728ae22, 0x7137449123ef65cd, 0xb5c0fbcfec4d3b2f, 0xe9b5dba58189dbbc)
            else
              Four(i - 4, 0x3956c25bf348b538, 0x59f111f1b605d019, 0x923f82a4af194f9b, 0xab1c5ed5da6d8118)
          else
            Four(i - 8, 0xd807aa98a3030242, 0x12835b0145706fbe, 0x243185be4ee4b28c, 0x550c7dc3d5ffb4e2)
        else
          if i < 16 then
            Four(i - 12, 0x72be5d74f27b896f, 0x80deb1fe3b1696b1, 0x9bdc06a725c71235, 0xc19bf174cf692694)
          else
            Four(i - 16, 0xe49b69c19ef14ad2, 0xefbe4786384f25e3, 0x0fc19dc68b8cd5b5, 0x240ca1cc77ac9c65)
      else
        if i < 32 then
          if i < 28 then
            if i < 24 then
              Four(i - 20, 0x2de92c6f592b0275, 0x4a7484aa6ea6e483, 0x5cb0a9dcbd41fbd4, 0x76f988da831153b5)
            else
              Four(i - 24, 0x983e5152ee66dfab, 0xa831c66d2db43210, 0xb00327c898fb213f, 0xbf597fc7beef0ee4)
          else
            Four(i - 28, 0xc6e00bf33da88fc2, 0xd5a79147930aa725, 0x06ca6351e003826f, 0x142929670a0e6e70)
        else
          if i < 36 then
            Four(i - 32, 0x27b70a8546d22ffc, 0x2e1b21385c26c926, 0x4d2c6dfc5ac42aed, 0x53380d139d95b3df)
          else
            Four(i - 36, 0x650a73548baf63de, 0x766a0abb3c77b2a8, 0x81c2c92e47edaee6, 0x92722c851482353b)
    else
      if i < 60 then
        if i < 52 then
          if i < 48 then
            if i < 44 then
              Four(i - 40, 0xa2bfe8a14cf10364, 0xa81a664bbc423001, 0xc24b8b70d0f89791, 0xc76c51a30654be30)
            else
              Four(i - 44, 0xd192e819d6ef5218, 0xd69906245565a910, 0xf40e35855771202a, 0x106aa07032bbd1b8)
          else
            Four(i - 48, 0x19a4c116b8d2d0c8, 0x1e376c085141ab53, 0x2748774cdf8eeb99, 0x34b0bcb5e19b48a8)
        else
          if i < 56 then
            Four(i - 52, 0x391c0cb3c5c95a63, 0x4ed8aa4ae3418acb, 0x5b9cca4f7763e373, 0x682e6ff3d6b2b8a3)
          else
            Four(i - 56, 0x748f82ee5defb2fc, 0x78a5636f43172f60, 0x84c87814a1f0ab72, 0x8cc702081a6439ec)
      else
        if i < 72 then
          if i < 68 then
            if i < 64 then
              Four(i - 60, 0x90befffa23631e28, 0xa4506cebde82bde9, 0xbef9a3f7b2c67915, 0xc67178f2e372532b)
            else
              Four(i - 64, 0xca273eceea26619c, 0xd186b8c721c0c207, 0xeada7dd6cde0eb1e, 0xf57d4f7fee6ed178)
          else
            Four(i - 68, 0x06f067aa72176fba, 0x0a637dc5a2c898a6, 0x113f9804bef90dae, 0x1b710b35131c471b)
        else
          if i < 76 then
            Four(i - 72, 0x28db77f523047d84, 0x32caab7b40c72493, 0x3c9ebe0a15c9bebc, 0x431d67c49c100d4c)
          else
            Four(i - 76, 0x4cc5d4becb3e42b6, 0x597f299cfc657e2a, 0x5fcb6fab3ad6faec, 0x6c44198c4a475817)
  }

  /** The message schedule of the padded message. */
  function WAt(i: nat): Word64 {
    if i < 40 then
      if i < 20 then
        if i < 12 then
          if i < 8 then
            if i < 4 then
              Four(i, 0x6162638000000000, 0x0000000000000000, 0x0000000000000000, 0x0000000000000000)
            else
              Four(i - 4, 0x0000000000000000, 0x0000000000000000, 0x0000000000000000, 0x0000000000000000)
          else
            Four(i - 8, 0x0000000000000000, 0x0000000000000000, 0x0000000000000000, 0x0000000000000000)
        else
          if i < 16 then
            Four(i - 12, 0x0000000000000000, 0x0000000000000000, 0x0000000000000000, 0x0000000000000018)
          else
            Four(i - 16, 0x6162638000000000, 0x00030000000000c0, 0x0a9699a24c700003, 0x00000c0060000603)
      else
        if i < 32 then
          if i < 28 then
            if i < 24 then
              Four(i - 20, 0x549ef62639858996, 0x00c0003300003c00, 0x1497007a8a0e9dbc, 0x62e56500cc0780f0)
            else
              Four(i - 24, 0x7760dd475a538797, 0xf1554b711c1c0003, 0xca2993a4345d9ff2, 0x5e0e66b5c783dd32)
          else
            Four(i - 28, 0xe25a625d00494b62, 0x9f44486fb1e4fbd2, 0xb31b8c2b06085f2f, 0x0e987660934142f6)
        else
          if i < 36 then
            Four(i - 32, 0xa4af2cfd09fbb924, 0xad289e2e0bd53186, 0x3c74563aa2f9673e, 0x6ccdcd14cc14b53f)
          else
            Four(i - 36, 0xc3f925b337f22bde, 0x5bcc77a75ad95b54, 0x3ec2257adca09a52, 0x28246960001fc5eb)
    else
      if i < 60 then
        if i < 52 then
          if i < 48 then
            if i < 44 then
              Four(i - 40, 0x04e33a75ce2be88a, 0x7d5314b3c359e0e7, 0xaef7a285ff251266, 0x0b8472581deea04f)
            else
              Four(i - 44, 0xb174e26eddc7b033, 0x5d63bae58ddd88de, 0x4c044007b744ccbb, 0xe6a9aa4d74dc7d43)
          else
            Four(i - 48, 0xebeaf1237248019c, 0x361e80b2d00f3193, 0x2e9839125df3b175, 0x3319629293ad5363)
        else
          if i < 56 then
            Four(i - 52, 0x9cbc5d89ac1b89d5, 0x275e23ffeeca50b7, 0x3b80d680bf69ef58, 0x0d0696933945a125)
          else
            Four(i - 56, 0x7533eabcb786ff00, 0xb89826cee6fbf0e5, 0x249b4fbcad623e9f, 0x4aea9df2b02d6f1e)
      else
        if i < 72 then
          if i < 68 then
            if i < 64 then
              Four(i - 60, 0x2cc57475a55e8d8f, 0xb2574ae938d8be89, 0xc1b35a57b16d6aea, 0xcc4918b5949206bb)
            else
              Four(i - 64, 0x5099c3add79f90ec, 0x5ea81d78e7660bf1, 0xebee6267405ac2a9, 0xb01f21926108a4ab)
          else
            Four(i - 68, 0x786433dd2fe65556, 0xc54a6eaa24a0552c, 0xb3c8f1530bdbaa9e, 0xbb8abfe56f469338)
        else
          if i < 76 then
            Four(i - 72, 0xf63d4265cc1c5a78, 0xbe8355ea73129afb, 0x49e2db8ebdcfbeb5, 0x82269d4a883a3d99)
          else
            Four(i - 76, 0xfdf53df3011f362b, 0x464af5671d71c12e, 0xe449b68198ec611c, 0x92aeeed1a7bcf7d2)
  }

  /** The values that variable a takes, behind those of d, c and b at the start. */
  function AAt(i: nat): Word64 {
    if i < 44 then
      if i < 24 then
        if i < 12 then
          if i < 8 then
            if i < 4 then
              Four(i, 0xa54ff53a5f1d36f1, 0x3c6ef372fe94f82b, 0xbb67ae8584caa73b, 0x6a09e667f3bcc908)
            else
              Four(i - 4, 0xf6afceb8bcfcddf5, 0x1320f8c9fb872cc0, 0xebcffc07203d91f3, 0x5a83cb3e80050e82)
          else
            Four(i - 8, 0xb680953951604860, 0xaf573b02403e89cd, 0xc4875b0c7abc076b, 0x8093d195e0054fa3)
        else
          if i < 20 then
            if i < 16 then
              Four(i - 12, 0xf1eca5544cb89225, 0x81782d4a5db48f03, 0x69854c4aa0f25b59, 0xdb0a9963f80c2eaa)
            else
              Four(i - 16, 0x5e41214388186c14, 0x44249631255d2ca0, 0xfa967eed85a08028, 0x0ae07c86b1181c75)
          else
            Four(i - 20, 0xcaf81a425d800537, 0x4725be249ad19e6b, 0x3c4b4104168e3edb, 0x9a3fb4d38ab6cf06)
      else
        if i < 36 then
          if i < 32 then
            if i < 28 then
              Four(i - 24, 0x8dc5ae65569d3855, 0xda34d6673d452dcf, 0x3e2644567b709a78, 0x4f6877b58fe55484)
            else
              Four(i - 28, 0x9aff71163fa3a940, 0x0bc5f791f8e6816b, 0x884c3bc27bc4f941, 0xeab4a9e5771b8d09)
          else
            Four(i - 32, 0xe62349090f47d30a, 0x74bf40f869094c63, 0x4c4fbbb75f1873a6, 0xff4d3f1f0d46a736)
        else
          if i < 40 then
            Four(i - 36, 0xa0509015ca08c8d4, 0x60d4e6995ed91fe6, 0x2c59ec7743632621, 0x1a081afc59fdbc2c)
          else
            Four(i - 40, 0x88df85b0bbe77514, 0x002bb8e4cd989567, 0xb3bb8542b3376de5, 0x8e01e125b855d225)
    else
      if i < 64 then
        if i < 56 then
          if i < 52 then
            if i < 48 then
              Four(i - 44, 0xb01521dd6a6be12c, 0xe96f89dd48cbd851, 0xbc05ba8de5d3c480, 0x35d7e7f41defcbd5)
            else
              Four(i - 48, 0xc47c9d5c7ea8a234, 0x021fbadbabab5ac6, 0xf61e672694de2d67, 0x6b69fc1bb482feac)
          else
            Four(i - 52, 0x571f323d96b3a047, 0xca9bd862c5050918, 0x813a43dd2c502043, 0xd43f83727325dd77)
        else
          if i < 60 then
            Four(i - 56, 0x03df11b32d42e203, 0xd63f68037ddf06aa, 0xf650857b5babda4d, 0x63b460e42748817e)
          else
            Four(i - 60, 0x7a52912943d52b05, 0x4b81c3aec976ea4b, 0x581ecb3355dcd9b8, 0x2c074484ef1eac8c)
      else
        if i < 76 then
          if i < 72 then
            if i < 68 then
              Four(i - 64, 0x3857dfd2fc37d3ba, 0xcfcd928c5424e2b6, 0xa81dedbb9f19e643, 0xab44e86276478d85)
            else
              Four(i - 68, 0x5a806d7e9821a501, 0xeeb9c21bb0102598, 0x46c4210ab2cc155d, 0x54ba35cf56a0340e)
          else
            Four(i - 72, 0x181839d609c79748, 0xfb6aaae5d0b6a447, 0x7652c579cb60f19c, 0xf15e9664b2803575)
        else
          if i < 80 then
            Four(i - 76, 0x358406d165aee9ab, 0x20878dcd29cdfaf5, 0x33d48dabb5521de2, 0xc8960e6be864b916)
          else
            Four(i - 80, 0x654ef9abec389ca9, 0xd67806db8b148677, 0x10d9c4c4295599f6, 0x73a54f399fa4b1b2)
  }

  /** The values that variable e takes, behind those of h, g and f at the start. */
  function EAt(i: nat): Word64 {
    if i < 44 then
      if i < 24 then
        if i < 12 then
          if i < 8 then
            if i < 4 then
              Four(i, 0x5be0cd19137e2179, 0x1f83d9abfb41bd6b, 0x9b05688c2b3e6c1f, 0x510e527fade682d1)
            else
              Four(i - 4, 0x58cb02347ab51f91, 0xc3d4ebfd48650ffa, 0xdfa9b239f2697812, 0x0b47b4bb1928990e)
          else
            Four(i - 8, 0x745aca4a342ed2e2, 0x96f60209b6dc35ba, 0x5a6c781f54dcc00c, 0x86f67263a0f0ec0a)
        else
          if i < 20 then
            if i < 16 then
              Four(i - 12, 0xd0403c398fc40002, 0x00091f460be46c52, 0xd375471bde1ba3f4, 0x475975b91a7a462c)
            else
              Four(i - 16, 0xcdf3bff2883fc9d9, 0x860acf9effba6f61, 0x874bfe5f6aae9f2f, 0xa77b7c035dd4c161)
          else
            Four(i - 20, 0x2deecc6b39d64d78, 0xf47e8353f8047455, 0x29695fd88d81dbd0, 0xf14998dd5f70767e)
      else
        if i < 36 then
          if i < 32 then
            if i < 28 then
              Four(i - 24, 0x4bb9e66d1145bfdc, 0x8e30ff09ad488753, 0x0ac2b11da8f571c6, 0xc66005f87db55233)
            else
              Four(i - 28, 0xd3ecf13769180e6f, 0x6ddf1fd7edcce336, 0xe6e48c9a8e948365, 0x09068a4e255a0dac)
          else
            Four(i - 32, 0x0fcdf99710f21584, 0xf0aec2fe1437f085, 0x73e025d91b9efea3, 0x3cd388e119e8162e)
        else
          if i < 40 then
            Four(i - 36, 0xe1034573654a106f, 0xefabbd8bf47c041a, 0x0fbae670fa780fd3, 0xf098082f502b44cd)
          else
            Four(i - 40, 0x8fbfd0162bbf4675, 0x66adcfa249ac7bbd, 0xb49596c20feba7de, 0x0c710a47ba6a567b)
    else
      if i < 64 then
        if i < 56 then
          if i < 52 then
            if i < 48 then
              Four(i - 44, 0x169008b3a4bb170b, 0xf0996439e7b50cb1, 0x639cb938e14dc190, 0xcc5100997f5710f2)
            else
              Four(i - 48, 0x858d832ae0e8911c, 0xe95c2a57572d64d9, 0xc6bc35740d8daa9a, 0x35264334c03ac8ad)
          else
            Four(i - 52, 0x271580ed6c3e5650, 0xdfe091dab182e645, 0x07a0d8ef821c5e1a, 0x483f80a82eaee23e)
        else
          if i < 60 then
            Four(i - 56, 0x504f94e40591cffa, 0xa6781efe1aa1ce02, 0x9ccfb31a86df0f86, 0xc6b4dd2a9931c509)
          else
            Four(i - 60, 0xd2e89bbd91e00be0, 0x70505988124351ac, 0x6a3c9b0f71c8bf36, 0x4797cde4ed370692)
      else
        if i < 76 then
          if i < 72 then
            if i < 68 then
              Four(i - 64, 0xa6af4e9c9f807e51, 0x09aee5bda1644de5, 0x84058865d60a05fa, 0xcd881ee59ca6bc53)
            else
              Four(i - 68, 0xaa84b086688a5c45, 0x3b5fed0d6a1f96e1, 0x29fab5a7bff53366, 0x1c66f46d95690bcf)
          else
            Four(i - 72, 0x0ada78ba2d446140, 0xe3711cb6564d112d, 0xaff62c9665ff80fa, 0x947c3dfafee570ef)
        else
          if i < 80 then
            Four(i - 76, 0x8c7b5fd91a794ca0, 0x054d3536539948d0, 0x2ba18245b50de4cf, 0x995019a6ff3ba3de)
          else
            Four(i - 80, 0xceb9fc3691ce8326, 0x25c96a7768fb2aa3, 0x9bb4d39778c07f9e, 0xd08446aa79693ed7)
  }

  function At(t: nat): Vars {
    Vars(AAt(t + 3), AAt(t + 2), AAt(t + 1), AAt(t), EAt(t + 3), EAt(t + 2), EAt(t + 1), EAt(t))
  }

  function K(): (k: seq<Word64>)
    ensures |k| == 80
  {
    seq(80, t requires 0 <= t < 80 => KAt(t))
  }

  const MESSAGE: seq<Byte> := [0x61, 0x62, 0x63]

  predicate Grows(t: nat)
    requires t >= 16
  {
    WAt(t) == Plus(Plus(Plus(SmallSigma1(WAt(t - 2)), WAt(t - 7)), SmallSigma0(WAt(t - 15))), WAt(t - 16))
  }

  predicate Turns(t: nat) {
    RoundStep(At(t), KAt(t), WAt(t)) == At(t + 1)
  }

  // The padded message is one block: the three bytes, the single bit, zeros and the length of 24 bits.

  lemma PaddingBytes()
    ensures var b := Pad(MESSAGE);
            && |b| == 128 && b[0] == 0x61 && b[1] == 0x62 && b[2] == 0x63 && b[3] == 0x80 && b[127] == 24
            && forall i :: 4 <= i < 127 ==> b[i] == 0
  {
    LengthIs();
    var b, zeros := Pad(MESSAGE), Zeros(PadZeros(3));
    assert PadZeros(3) == 108;
    assert b == MESSAGE + [0x80] + zeros + LengthBytes(3);
    forall i | 4 <= i < 127
      ensures b[i] == 0
    {
      if i < 112 {
        assert b[i] == zeros[i - 4];
      } else {
        assert b[i] == LengthBytes(3)[i - 112];
      }
    }
  }

  lemma LengthIs()
    ensures var l := LengthBytes(3);
            l[15] == 24 && forall i :: 0 <= i < 15 ==> l[i] == 0
  {
    var high, low := WordBytes(ToWord(0)), WordBytes(ToWord(24));
    assert 8 * 3 / TWO64 == 0;
    BytesOfZero();
    BytesOfLength();
    assert LengthBytes(3) == high + low;
  }

  lemma BytesOfZero()
    ensures forall i :: 0 <= i < 8 ==> WordBytes(ToWord(0))[i] == 0
  {
    assert ToWord(0) == 0;
    assert ByteAt(0, 56) == ByteAt(0, 48) == ByteAt(0, 40) == ByteAt(0, 32) == 0;
    assert ByteAt(0, 24) == ByteAt(0, 16) == ByteAt(0, 8) == ByteAt(0, 0) == 0;
  }

  lemma BytesOfLength()
    ensures WordBytes(ToWord(24))[7] == 24 && forall i :: 0 <= i < 7 ==> WordBytes(ToWord(24))[i] == 0
  {
    assert ToWord(24) == 24;
    assert ByteAt(24, 56) == ByteAt(24, 48) == ByteAt(24, 40) == ByteAt(24, 32) == 0;
    assert ByteAt(24, 24) == ByteAt(24, 16) == ByteAt(24, 8) == 0 && ByteAt(24, 0) == 24;
  }

  lemma JoinZeros()
    ensures Join64(0, 0, 0, 0, 0, 0, 0, 0) == 0
    ensures Join64(0, 0, 0, 0, 0, 0, 0, 24) == 24
    ensures Join64(0x61, 0x62, 0x63, 0x80, 0, 0, 0, 0) == 0x6162638000000000
  {
  }

  lemma ZeroWord(t: nat)
    requires 1 <= t < 15
    ensures |Pad(MESSAGE)| == 128 && ScheduleWord(Pad(MESSAGE), t) == 0
  {
    hide Pad, Join64;
    PaddingBytes();
    JoinZeros();
  }

  lemma EndWords()
    ensures |Pad(MESSAGE)| == 128 && ScheduleWord(Pad(MESSAGE), 15) == 24
    ensures ScheduleWord(Pad(MESSAGE), 0) == 0x6162638000000000
  {
    hide Pad, Join64;
    PaddingBytes();
    JoinZeros();
  }

  predicate WordIs(t: nat) {
    |Pad(MESSAGE)| == 128 && ScheduleWord(Pad(MESSAGE), t) == WAt(t)
  }

  predicate EightWords(t: nat) {
    && WordIs(t) && WordIs(t + 1) && WordIs(t + 2) && WordIs(t + 3)
    && WordIs(t + 4) && WordIs(t + 5) && WordIs(t + 6) && WordIs(t + 7)
  }

  /** Eight words more, from the sixteen before them. */
  lemma GrowEight(t: nat)
    requires 16 <= t <= 72 && EightWords(t - 16) && EightWords(t - 8)
    requires Grows(t) && Grows(t + 1) && Grows(t + 2) && Grows(t + 3)
    requires Grows(t + 4) && Grows(t + 5) && Grows(t + 6) && Grows(t + 7)
    ensures EightWords(t)
  {
    hide Grows, WordIs;
    Grow(t);
    Grow(t + 1);
    Grow(t + 2);
    Grow(t + 3);
    Grow(t + 4);
    Grow(t + 5);
    Grow(t + 6);
    Grow(t + 7);
  }

  lemma Grow(t: nat)
    requires 16 <= t < 80 && Grows(t)
    requires WordIs(t - 2) && WordIs(t - 7) && WordIs(t - 15) && WordIs(t - 16)
    ensures WordIs(t)
  {
    hide Pad, WAt, SmallSigma0, SmallSigma1, Plus;
  }

  lemma FirstWords()
    ensures EightWords(0) && EightWords(8)
  {
    hide Pad, ScheduleWord, WAt;
    EndWords();
    FirstOfTable();
    ZeroWord(1);
    ZeroWord(2);
    ZeroWord(3);
    ZeroWord(4);
    ZeroWord(5);
    ZeroWord(6);
    ZeroWord(7);
    ZeroWord(8);
    ZeroWord(9);
    ZeroWord(10);
    ZeroWord(11);
    ZeroWord(12);
    ZeroWord(13);
    ZeroWord(14);
  }

  lemma FirstOfTable()
    ensures WAt(0) == 0x6162638000000000 && WAt(15) == 24
    ensures WAt(1) == WAt(2) == WAt(3) == WAt(4) == WAt(5) == WAt(6) == WAt(7) == 0
    ensures WAt(8) == WAt(9) == WAt(10) == WAt(11) == WAt(12) == WAt(13) == WAt(14) == 0
  {
  }

  lemma Words16()
    ensures EightWords(16)
  {
    hide EightWords, WordIs, AfterRounds, ScheduleWord, Pad, K;
    FirstWords();
    GrowEight(16);
  }

  lemma Words24()
    ensures EightWords(24)
  {
    hide EightWords, WordIs, AfterRounds, ScheduleWord, Pad, K;
    FirstWords();
    Words16();
    GrowEight(24);
  }

  lemma Words32()
    ensures EightWords(32)
  {
    hide EightWords, WordIs, AfterRounds, ScheduleWord, Pad, K;
    Words16();
    Words24();
    GrowEight(32);
  }

  lemma Words40()
    ensures EightWords(40)
  {
    hide EightWords, WordIs, AfterRounds, ScheduleWord, Pad, K;
    Words24();
    Words32();
    GrowEight(40);
  }

  lemma Words48()
    ensures EightWords(48)
  {
    hide EightWords, WordIs, AfterRounds, ScheduleWord, Pad, K;
    Words32();
    Words40();
    GrowEight(48);
  }

  lemma Words56()
    ensures EightWords(56)
  {
    hide EightWords, WordIs, AfterRounds, ScheduleWord, Pad, K;
    Words40();
    Words48();
    GrowEight(56);
  }

  lemma Words64()
    ensures EightWords(64)
  {
    hide EightWords, WordIs, AfterRounds, ScheduleWord, Pad, K;
    Words48();
    Words56();
    GrowEight(64);
  }

  lemma Words72()
    ensures EightWords(72)
  {
    hide EightWords, WordIs, AfterRounds, ScheduleWord, Pad, K;
    Words56();
    Words64();
    GrowEight(72);
  }

  predicate AtRound(t: nat)
    requires t <= 80
  {
    |Pad(MESSAGE)| == 128 && AfterRounds(K(), H0, Pad(MESSAGE), t) == At(t)
  }

  /** Four rounds more. */
  lemma TurnFour(t: nat, w: nat)
    requires t <= 76 && w <= 72 && EightWords(w) && w <= t <= w + 4 && AtRound(t)
    requires Turns(t) && Turns(t + 1) && Turns(t + 2) && Turns(t + 3)
    ensures AtRound(t + 4)
  {
    hide Turns, WordIs, AtRound;
    Turn(t);
    Turn(t + 1);
    Turn(t + 2);
    Turn(t + 3);
  }

  lemma Turn(t: nat)
    requires t < 80 && AtRound(t) && Turns(t)
    requires WordIs(t)
    ensures AtRound(t + 1)
  {
    hide Pad, WAt, KAt, At, RoundStep, ScheduleWord;
  }

  lemma Rounds0()
    ensures AtRound(0)
  {
    hide Pad;
    PaddingBytes();
  }

  lemma Rounds4()
    ensures AtRound(4)
  {
    hide AtRound, EightWords, WordIs, AfterRounds, ScheduleWord, Pad, K;
    Rounds0();
    FirstWords();
    TurnFour(0, 0);
  }

  lemma Rounds8()
    ensures AtRound(8)
  {
    hide AtRound, EightWords, WordIs, AfterRounds, ScheduleWord, Pad, K;
    Rounds4();
    FirstWords();
    TurnFour(4, 0);
  }

  lemma Rounds12()
    ensures AtRound(12)
  {
    hide AtRound, EightWords, WordIs, AfterRounds, ScheduleWord, Pad, K;
    Rounds8();
    FirstWords();
    TurnFour(8, 8);
  }

  lemma Rounds16()
    ensures AtRound(16)
  {
    hide AtRound, EightWords, WordIs, AfterRounds, ScheduleWord, Pad, K;
    Rounds12();
    FirstWords();
    TurnFour(12, 8);
  }

  lemma Rounds20()
    ensures AtRound(20)
  {
    hide AtRound, EightWords, WordIs, AfterRounds, ScheduleWord, Pad, K;
    Rounds16();
    Words16();
    TurnFour(16, 16);
  }

  lemma Rounds24()
    ensures AtRound(24)
  {
    hide AtRound, EightWords, WordIs, AfterRounds, ScheduleWord, Pad, K;
    Rounds20();
    Words16();
    TurnFour(20, 16);
  }

  lemma Rounds28()
    ensures AtRound(28)
  {
    hide AtRound, EightWords, WordIs, AfterRounds, ScheduleWord, Pad, K;
    Rounds24();
    Words24();
    TurnFour(24, 24);
  }

  lemma Rounds32()
    ensures AtRound(32)
  {
    hide AtRound, EightWords, WordIs, AfterRounds, ScheduleWord, Pad, K;
    Rounds28();
    Words24();
    TurnFour(28, 24);
  }

  lemma Rounds36()
    ensures AtRound(36)
  {
    hide AtRound, EightWords, WordIs, AfterRounds, ScheduleWord, Pad, K;
    Rounds32();
    Words32();
    TurnFour(32, 32);
  }

  lemma Rounds40()
    ensures AtRound(40)
  {
    hide AtRound, EightWords, WordIs, AfterRounds, ScheduleWord, Pad, K;
    Rounds36();
    Words32();
    TurnFour(36, 32);
  }

  lemma Rounds44()
    ensures AtRound(44)
  {
    hide AtRound, EightWords, WordIs, AfterRounds, ScheduleWord, Pad, K;
    Rounds40();
    Words40();
    TurnFour(40, 40);
  }

  lemma Rounds48()
    ensures AtRound(48)
  {
    hide AtRound, EightWords, WordIs, AfterRounds, ScheduleWord, Pad, K;
    Rounds44();
    Words40();
    TurnFour(44, 40);
  }

  lemma Rounds52()
    ensures AtRound(52)
  {
    hide AtRound, EightWords, WordIs, AfterRounds, ScheduleWord, Pad, K;
    Rounds48();
    Words48();
    TurnFour(48, 48);
  }

  lemma Rounds56()
    ensures AtRound(56)
  {
    hide AtRound, EightWords, WordIs, AfterRounds, ScheduleWord, Pad, K;
    Rounds52();
    Words48();
    TurnFour(52, 48);
  }

  lemma Rounds60()
    ensures AtRound(60)
  {
    hide AtRound, EightWords, WordIs, AfterRounds, ScheduleWord, Pad, K;
    Rounds56();
    Words56();
    TurnFour(56, 56);
  }

  lemma Rounds64()
    ensures AtRound(64)
  {
    hide AtRound, EightWords, WordIs, AfterRounds, ScheduleWord, Pad, K;
    Rounds60();
    Words56();
    TurnFour(60, 56);
  }

  lemma Rounds68()
    ensures AtRound(68)
  {
    hide AtRound, EightWords, WordIs, AfterRounds, ScheduleWord, Pad, K;
    Rounds64();
    Words64();
    TurnFour(64, 64);
  }

  lemma Rounds72()
    ensures AtRound(72)
  {
    hide AtRound, EightWords, WordIs, AfterRounds, ScheduleWord, Pad, K;
    Rounds68();
    Words64();
    TurnFour(68, 64);
  }

  lemma Turning72()
    ensures Turns(72) && Turns(73) && Turns(74) && Turns(75)
  {
  }

  lemma Rounds76()
    ensures AtRound(76)
  {
    hide AtRound, EightWords, WordIs, AfterRounds, ScheduleWord, Pad, K;
    hide Turns;
    Turning72();
    Rounds72();
    Words72();
    TurnFour(72, 72);
  }

  lemma Turning76()
    ensures Turns(76) && Turns(77) && Turns(78) && Turns(79)
  {
  }

  lemma Rounds80()
    ensures AtRound(80)
  {
    hide AtRound, EightWords, WordIs, AfterRounds, ScheduleWord, Pad, K;
    hide Turns;
    Turning76();
    Rounds76();
    Words72();
    TurnFour(76, 72);
  }

  lemma Sums()
    ensures VarsOf(H0) == Vars(0x6a09e667f3bcc908, 0xbb67ae8584caa73b, 0x3c6ef372fe94f82b, 0xa54ff53a5f1d36f1,
                              0x510e527fade682d1, 0x9b05688c2b3e6c1f, 0x1f83d9abfb41bd6b, 0x5be0cd19137e2179)
    ensures Plus(0x6a09e667f3bcc908, 0x73a54f399fa4b1b2) == 0xddaf35a193617aba
    ensures Plus(0xbb67ae8584caa73b, 0x10d9c4c4295599f6) == 0xcc417349ae204131
    ensures Plus(0x3c6ef372fe94f82b, 0xd67806db8b148677) == 0x12e6fa4e89a97ea2
    ensures Plus(0xa54ff53a5f1d36f1, 0x654ef9abec389ca9) == 0x0a9eeee64b55d39a
    ensures Plus(0x510e527fade682d1, 0xd08446aa79693ed7) == 0x2192992a274fc1a8
    ensures Plus(0x9b05688c2b3e6c1f, 0x9bb4d39778c07f9e) == 0x36ba3c23a3feebbd
    ensures Plus(0x1f83d9abfb41bd6b, 0x25c96a7768fb2aa3) == 0x454d4423643ce80e
    ensures Plus(0x5be0cd19137e2179, 0xceb9fc3691ce8326) == 0x2a9ac94fa54ca49f
    ensures At(80) == Vars(0x73a54f399fa4b1b2, 0x10d9c4c4295599f6, 0xd67806db8b148677, 0x654ef9abec389ca9,
                           0xd08446aa79693ed7, 0x9bb4d39778c07f9e, 0x25c96a7768fb2aa3, 0xceb9fc3691ce8326)
  {
  }

  /** The eight words of the digest. */
  lemma ExampleDigest()
    ensures Sha512(K(), MESSAGE)
         == WordsBytes([
           0xddaf35a193617aba, 0xcc417349ae204131, 0x12e6fa4e89a97ea2, 0x0a9eeee64b55d39a,
           0x2192992a274fc1a8, 0x36ba3c23a3feebbd, 0x454d4423643ce80e, 0x2a9ac94fa54ca49f])
  {
    hide Pad, AfterRounds, WordsBytes, KAt, Plus, At;
    Rounds80();
    Sums();
    var block := Pad(MESSAGE);
    assert block[..128] == block && block[128..] == [];
  }
}
