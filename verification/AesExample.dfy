/**
 * The worked examples of FIPS 197 (appendices A and C), with the S-box of section 5.1.1 as both
 * programs for the cipher table it.
 */
module AesExample {
  import opened Words
  import opened Fips197

  function Pick(n: Byte, x0: Byte, x1: Byte, x2: Byte, x3: Byte, x4: Byte, x5: Byte, x6: Byte, x7: Byte,
                x8: Byte, x9: Byte, xa: Byte, xb: Byte, xc: Byte, xd: Byte, xe: Byte, xf: Byte): Byte
  {
    if n < 8 then
      if n < 4 then if n < 2 then if n == 0 then x0 else x1 else if n == 2 then x2 else x3
      else if n < 6 then if n == 4 then x4 else x5 else if n == 6 then x6 else x7
    else
      if n < 12 then if n < 10 then if n == 8 then x8 else x9 else if n == 10 then xa else xb
      else if n < 14 then if n == 12 then xc else xd else if n == 14 then xe else xf
  }

  /** Figure 7 of the standard: row x, column y for the byte xy. */
  function SubByte(b: Byte): Byte {
    var y := b & 0xf;
    if b < 0x80 then
      if b < 0x40 then
        if b < 0x20 then
          if b < 0x10 then
            Pick(y, 0x63, 0x7c, 0x77, 0x7b, 0xf2, 0x6b, 0x6f, 0xc5, 0x30, 0x01, 0x67, 0x2b, 0xfe, 0xd7, 0xab, 0x76)
          else
            Pick(y, 0xca, 0x82, 0xc9, 0x7d, 0xfa, 0x59, 0x47, 0xf0, 0xad, 0xd4, 0xa2, 0xaf, 0x9c, 0xa4, 0x72, 0xc0)
        else
          if b < 0x30 then
            Pick(y, 0xb7, 0xfd, 0x93, 0x26, 0x36, 0x3f, 0xf7, 0xcc, 0x34, 0xa5, 0xe5, 0xf1, 0x71, 0xd8, 0x31, 0x15)
          else
            Pick(y, 0x04, 0xc7, 0x23, 0xc3, 0x18, 0x96, 0x05, 0x9a, 0x07, 0x12, 0x80, 0xe2, 0xeb, 0x27, 0xb2, 0x75)
      else
        if b < 0x60 then
          if b < 0x50 then
            Pick(y, 0x09, 0x83, 0x2c, 0x1a, 0x1b, 0x6e, 0x5a, 0xa0, 0x52, 0x3b, 0xd6, 0xb3, 0x29, 0xe3, 0x2f, 0x84)
          else
            Pick(y, 0x53, 0xd1, 0x00, 0xed, 0x20, 0xfc, 0xb1, 0x5b, 0x6a, 0xcb, 0xbe, 0x39, 0x4a, 0x4c, 0x58, 0xcf)
        else
          if b < 0x70 then
            Pick(y, 0xd0, 0xef, 0xaa, 0xfb, 0x43, 0x4d, 0x33, 0x85, 0x45, 0xf9, 0x02, 0x7f, 0x50, 0x3c, 0x9f, 0xa8)
          else
            Pick(y, 0x51, 0xa3, 0x40, 0x8f, 0x92, 0x9d, 0x38, 0xf5, 0xbc, 0xb6, 0xda, 0x21, 0x10, 0xff, 0xf3, 0xd2)
    else
      if b < 0xc0 then
        if b < 0xa0 then
          if b < 0x90 then
            Pick(y, 0xcd, 0x0c, 0x13, 0xec, 0x5f, 0x97, 0x44, 0x17, 0xc4, 0xa7, 0x7e, 0x3d, 0x64, 0x5d, 0x19, 0x73)
          else
            Pick(y, 0x60, 0x81, 0x4f, 0xdc, 0x22, 0x2a, 0x90, 0x88, 0x46, 0xee, 0xb8, 0x14, 0xde, 0x5e, 0x0b, 0xdb)
        else
          if b < 0xb0 then
            Pick(y, 0xe0, 0x32, 0x3a, 0x0a, 0x49, 0x06, 0x24, 0x5c, 0xc2, 0xd3, 0xac, 0x62, 0x91, 0x95, 0xe4, 0x79)
          else
            Pick(y, 0xe7, 0xc8, 0x37, 0x6d, 0x8d, 0xd5, 0x4e, 0xa9, 0x6c, 0x56, 0xf4, 0xea, 0x65, 0x7a, 0xae, 0x08)
      else
        if b < 0xe0 then
          if b < 0xd0 then
            Pick(y, 0xba, 0x78, 0x25, 0x2e, 0x1c, 0xa6, 0xb4, 0xc6, 0xe8, 0xdd, 0x74, 0x1f, 0x4b, 0xbd, 0x8b, 0x8a)
          else
            Pick(y, 0x70, 0x3e, 0xb5, 0x66, 0x48, 0x03, 0xf6, 0x0e, 0x61, 0x35, 0x57, 0xb9, 0x86, 0xc1, 0x1d, 0x9e)
        else
          if b < 0xf0 then
            Pick(y, 0xe1, 0xf8, 0x98, 0x11, 0x69, 0xd9, 0x8e, 0x94, 0x9b, 0x1e, 0x87, 0xe9, 0xce, 0x55, 0x28, 0xdf)
          else
            Pick(y, 0x8c, 0xa1, 0x89, 0x0d, 0xbf, 0xe6, 0x42, 0x68, 0x41, 0x99, 0x2d, 0x0f, 0xb0, 0x54, 0xbb, 0x16)
  }

  const S: SBox := SubByte

  lemma Row0()
    ensures S(0x00) == 0x63 && S(0x01) == 0x7c && S(0x02) == 0x77 && S(0x03) == 0x7b
    ensures S(0x04) == 0xf2 && S(0x05) == 0x6b && S(0x06) == 0x6f && S(0x07) == 0xc5
    ensures S(0x08) == 0x30 && S(0x09) == 0x01 && S(0x0a) == 0x67 && S(0x0b) == 0x2b
    ensures S(0x0c) == 0xfe && S(0x0d) == 0xd7 && S(0x0e) == 0xab && S(0x0f) == 0x76
  {
  }

  lemma Row1()
    ensures S(0x10) == 0xca && S(0x11) == 0x82 && S(0x12) == 0xc9 && S(0x13) == 0x7d
    ensures S(0x14) == 0xfa && S(0x15) == 0x59 && S(0x16) == 0x47 && S(0x17) == 0xf0
    ensures S(0x18) == 0xad && S(0x19) == 0xd4 && S(0x1a) == 0xa2 && S(0x1b) == 0xaf
    ensures S(0x1c) == 0x9c && S(0x1d) == 0xa4 && S(0x1e) == 0x72 && S(0x1f) == 0xc0
  {
  }

  lemma Row2()
    ensures S(0x20) == 0xb7 && S(0x21) == 0xfd && S(0x22) == 0x93 && S(0x23) == 0x26
    ensures S(0x24) == 0x36 && S(0x25) == 0x3f && S(0x26) == 0xf7 && S(0x27) == 0xcc
    ensures S(0x28) == 0x34 && S(0x29) == 0xa5 && S(0x2a) == 0xe5 && S(0x2b) == 0xf1
    ensures S(0x2c) == 0x71 && S(0x2d) == 0xd8 && S(0x2e) == 0x31 && S(0x2f) == 0x15
  {
  }

  lemma Row3()
    ensures S(0x30) == 0x04 && S(0x31) == 0xc7 && S(0x32) == 0x23 && S(0x33) == 0xc3
    ensures S(0x34) == 0x18 && S(0x35) == 0x96 && S(0x36) == 0x05 && S(0x37) == 0x9a
    ensures S(0x38) == 0x07 && S(0x39) == 0x12 && S(0x3a) == 0x80 && S(0x3b) == 0xe2
    ensures S(0x3c) == 0xeb && S(0x3d) == 0x27 && S(0x3e) == 0xb2 && S(0x3f) == 0x75
  {
  }

  lemma Row4()
    ensures S(0x40) == 0x09 && S(0x41) == 0x83 && S(0x42) == 0x2c && S(0x43) == 0x1a
    ensures S(0x44) == 0x1b && S(0x45) == 0x6e && S(0x46) == 0x5a && S(0x47) == 0xa0
    ensures S(0x48) == 0x52 && S(0x49) == 0x3b && S(0x4a) == 0xd6 && S(0x4b) == 0xb3
    ensures S(0x4c) == 0x29 && S(0x4d) == 0xe3 && S(0x4e) == 0x2f && S(0x4f) == 0x84
  {
  }

  lemma Row5()
    ensures S(0x50) == 0x53 && S(0x51) == 0xd1 && S(0x52) == 0x00 && S(0x53) == 0xed
    ensures S(0x54) == 0x20 && S(0x55) == 0xfc && S(0x56) == 0xb1 && S(0x57) == 0x5b
    ensures S(0x58) == 0x6a && S(0x59) == 0xcb && S(0x5a) == 0xbe && S(0x5b) == 0x39
    ensures S(0x5c) == 0x4a && S(0x5d) == 0x4c && S(0x5e) == 0x58 && S(0x5f) == 0xcf
  {
  }

  lemma Row6()
    ensures S(0x60) == 0xd0 && S(0x61) == 0xef && S(0x62) == 0xaa && S(0x63) == 0xfb
    ensures S(0x64) == 0x43 && S(0x65) == 0x4d && S(0x66) == 0x33 && S(0x67) == 0x85
    ensures S(0x68) == 0x45 && S(0x69) == 0xf9 && S(0x6a) == 0x02 && S(0x6b) == 0x7f
    ensures S(0x6c) == 0x50 && S(0x6d) == 0x3c && S(0x6e) == 0x9f && S(0x6f) == 0xa8
  {
  }

  lemma Row7()
    ensures S(0x70) == 0x51 && S(0x71) == 0xa3 && S(0x72) == 0x40 && S(0x73) == 0x8f
    ensures S(0x74) == 0x92 && S(0x75) == 0x9d && S(0x76) == 0x38 && S(0x77) == 0xf5
    ensures S(0x78) == 0xbc && S(0x79) == 0xb6 && S(0x7a) == 0xda && S(0x7b) == 0x21
    ensures S(0x7c) == 0x10 && S(0x7d) == 0xff && S(0x7e) == 0xf3 && S(0x7f) == 0xd2
  {
  }

  lemma Row8()
    ensures S(0x80) == 0xcd && S(0x81) == 0x0c && S(0x82) == 0x13 && S(0x83) == 0xec
    ensures S(0x84) == 0x5f && S(0x85) == 0x97 && S(0x86) == 0x44 && S(0x87) == 0x17
    ensures S(0x88) == 0xc4 && S(0x89) == 0xa7 && S(0x8a) == 0x7e && S(0x8b) == 0x3d
    ensures S(0x8c) == 0x64 && S(0x8d) == 0x5d && S(0x8e) == 0x19 && S(0x8f) == 0x73
  {
  }

  lemma Row9()
    ensures S(0x90) == 0x60 && S(0x91) == 0x81 && S(0x92) == 0x4f && S(0x93) == 0xdc
    ensures S(0x94) == 0x22 && S(0x95) == 0x2a && S(0x96) == 0x90 && S(0x97) == 0x88
    ensures S(0x98) == 0x46 && S(0x99) == 0xee && S(0x9a) == 0xb8 && S(0x9b) == 0x14
    ensures S(0x9c) == 0xde && S(0x9d) == 0x5e && S(0x9e) == 0x0b && S(0x9f) == 0xdb
  {
  }

  lemma Rowa()
    ensures S(0xa0) == 0xe0 && S(0xa1) == 0x32 && S(0xa2) == 0x3a && S(0xa3) == 0x0a
    ensures S(0xa4) == 0x49 && S(0xa5) == 0x06 && S(0xa6) == 0x24 && S(0xa7) == 0x5c
    ensures S(0xa8) == 0xc2 && S(0xa9) == 0xd3 && S(0xaa) == 0xac && S(0xab) == 0x62
    ensures S(0xac) == 0x91 && S(0xad) == 0x95 && S(0xae) == 0xe4 && S(0xaf) == 0x79
  {
  }

  lemma Rowb()
    ensures S(0xb0) == 0xe7 && S(0xb1) == 0xc8 && S(0xb2) == 0x37 && S(0xb3) == 0x6d
    ensures S(0xb4) == 0x8d && S(0xb5) == 0xd5 && S(0xb6) == 0x4e && S(0xb7) == 0xa9
    ensures S(0xb8) == 0x6c && S(0xb9) == 0x56 && S(0xba) == 0xf4 && S(0xbb) == 0xea
    ensures S(0xbc) == 0x65 && S(0xbd) == 0x7a && S(0xbe) == 0xae && S(0xbf) == 0x08
  {
  }

  lemma Rowc()
    ensures S(0xc0) == 0xba && S(0xc1) == 0x78 && S(0xc2) == 0x25 && S(0xc3) == 0x2e
    ensures S(0xc4) == 0x1c && S(0xc5) == 0xa6 && S(0xc6) == 0xb4 && S(0xc7) == 0xc6
    ensures S(0xc8) == 0xe8 && S(0xc9) == 0xdd && S(0xca) == 0x74 && S(0xcb) == 0x1f
    ensures S(0xcc) == 0x4b && S(0xcd) == 0xbd && S(0xce) == 0x8b && S(0xcf) == 0x8a
  {
  }

  lemma Rowd()
    ensures S(0xd0) == 0x70 && S(0xd1) == 0x3e && S(0xd2) == 0xb5 && S(0xd3) == 0x66
    ensures S(0xd4) == 0x48 && S(0xd5) == 0x03 && S(0xd6) == 0xf6 && S(0xd7) == 0x0e
    ensures S(0xd8) == 0x61 && S(0xd9) == 0x35 && S(0xda) == 0x57 && S(0xdb) == 0xb9
    ensures S(0xdc) == 0x86 && S(0xdd) == 0xc1 && S(0xde) == 0x1d && S(0xdf) == 0x9e
  {
  }

  lemma Rowe()
    ensures S(0xe0) == 0xe1 && S(0xe1) == 0xf8 && S(0xe2) == 0x98 && S(0xe3) == 0x11
    ensures S(0xe4) == 0x69 && S(0xe5) == 0xd9 && S(0xe6) == 0x8e && S(0xe7) == 0x94
    ensures S(0xe8) == 0x9b && S(0xe9) == 0x1e && S(0xea) == 0x87 && S(0xeb) == 0xe9
    ensures S(0xec) == 0xce && S(0xed) == 0x55 && S(0xee) == 0x28 && S(0xef) == 0xdf
  {
  }

  lemma Rowf()
    ensures S(0xf0) == 0x8c && S(0xf1) == 0xa1 && S(0xf2) == 0x89 && S(0xf3) == 0x0d
    ensures S(0xf4) == 0xbf && S(0xf5) == 0xe6 && S(0xf6) == 0x42 && S(0xf7) == 0x68
    ensures S(0xf8) == 0x41 && S(0xf9) == 0x99 && S(0xfa) == 0x2d && S(0xfb) == 0x0f
    ensures S(0xfc) == 0xb0 && S(0xfd) == 0x54 && S(0xfe) == 0xbb && S(0xff) == 0x16
  {
  }

  /** Appendix C.1. */
  const KEY128: seq<Column> := [
    Column(0x00, 0x01, 0x02, 0x03),
    Column(0x04, 0x05, 0x06, 0x07),
    Column(0x08, 0x09, 0x0a, 0x0b),
    Column(0x0c, 0x0d, 0x0e, 0x0f)]

  /** One turn of the 128-bit schedule, from the four words before it. */
  lemma Turn128(t: nat, p: State, w: State)
    requires t > 0 && WordsAt(KEY128, 4 * t - 4) == p
    requires w.c0 == Xor(p.c0, Xor(SubWord(S, RotateUp(p.c3)), Rcon(t)))
    requires w.c1 == Xor(p.c1, w.c0) && w.c2 == Xor(p.c2, w.c1) && w.c3 == Xor(p.c3, w.c2)
    ensures WordsAt(KEY128, 4 * t) == w
  {
    hide ScheduleWord, SubWord, RotateUp, Rcon, Xor;
    RotatedWord(S, KEY128, 4 * t);
    PlainWord(S, KEY128, 4 * t + 1);
    PlainWord(S, KEY128, 4 * t + 2);
    PlainWord(S, KEY128, 4 * t + 3);
  }

  /** Four words of a schedule. */
  function WordsAt(key: seq<Column>, i: nat): State
    requires |key| in {4, 6, 8}
  {
    State(ScheduleWord(S, key, i), ScheduleWord(S, key, i + 1),
          ScheduleWord(S, key, i + 2), ScheduleWord(S, key, i + 3))
  }

  lemma Words0()
    ensures WordsAt(KEY128, 0)
         == State(Column(0x00, 0x01, 0x02, 0x03),
                  Column(0x04, 0x05, 0x06, 0x07),
                  Column(0x08, 0x09, 0x0a, 0x0b),
                  Column(0x0c, 0x0d, 0x0e, 0x0f))
  {
  }

  lemma Words4()
    ensures WordsAt(KEY128, 4)
         == State(Column(0xd6, 0xaa, 0x74, 0xfd),
                  Column(0xd2, 0xaf, 0x72, 0xfa),
                  Column(0xda, 0xa6, 0x78, 0xf1),
                  Column(0xd6, 0xab, 0x76, 0xfe))
  {
    hide ScheduleWord, WordsAt, SubByte, Pick;
    Row0();
    Words0();
    Turn128(1,
            State(Column(0x00, 0x01, 0x02, 0x03),
                  Column(0x04, 0x05, 0x06, 0x07),
                  Column(0x08, 0x09, 0x0a, 0x0b),
                  Column(0x0c, 0x0d, 0x0e, 0x0f)),
            State(Column(0xd6, 0xaa, 0x74, 0xfd),
                  Column(0xd2, 0xaf, 0x72, 0xfa),
                  Column(0xda, 0xa6, 0x78, 0xf1),
                  Column(0xd6, 0xab, 0x76, 0xfe)));
  }

  lemma Words8()
    ensures WordsAt(KEY128, 8)
         == State(Column(0xb6, 0x92, 0xcf, 0x0b),
                  Column(0x64, 0x3d, 0xbd, 0xf1),
                  Column(0xbe, 0x9b, 0xc5, 0x00),
                  Column(0x68, 0x30, 0xb3, 0xfe))
  {
    hide ScheduleWord, WordsAt, SubByte, Pick;
    Row7(); Rowa(); Rowd(); Rowf();
    Words4();
    Turn128(2,
            State(Column(0xd6, 0xaa, 0x74, 0xfd),
                  Column(0xd2, 0xaf, 0x72, 0xfa),
                  Column(0xda, 0xa6, 0x78, 0xf1),
                  Column(0xd6, 0xab, 0x76, 0xfe)),
            State(Column(0xb6, 0x92, 0xcf, 0x0b),
                  Column(0x64, 0x3d, 0xbd, 0xf1),
                  Column(0xbe, 0x9b, 0xc5, 0x00),
                  Column(0x68, 0x30, 0xb3, 0xfe)));
  }

  lemma Words12()
    ensures WordsAt(KEY128, 12)
         == State(Column(0xb6, 0xff, 0x74, 0x4e),
                  Column(0xd2, 0xc2, 0xc9, 0xbf),
                  Column(0x6c, 0x59, 0x0c, 0xbf),
                  Column(0x04, 0x69, 0xbf, 0x41))
  {
    hide ScheduleWord, WordsAt, SubByte, Pick;
    Row3(); Row6(); Rowb(); Rowf();
    Words8();
    Turn128(3,
            State(Column(0xb6, 0x92, 0xcf, 0x0b),
                  Column(0x64, 0x3d, 0xbd, 0xf1),
                  Column(0xbe, 0x9b, 0xc5, 0x00),
                  Column(0x68, 0x30, 0xb3, 0xfe)),
            State(Column(0xb6, 0xff, 0x74, 0x4e),
                  Column(0xd2, 0xc2, 0xc9, 0xbf),
                  Column(0x6c, 0x59, 0x0c, 0xbf),
                  Column(0x04, 0x69, 0xbf, 0x41)));
  }

  lemma Words16()
    ensures WordsAt(KEY128, 16)
         == State(Column(0x47, 0xf7, 0xf7, 0xbc),
                  Column(0x95, 0x35, 0x3e, 0x03),
                  Column(0xf9, 0x6c, 0x32, 0xbc),
                  Column(0xfd, 0x05, 0x8d, 0xfd))
  {
    hide ScheduleWord, WordsAt, SubByte, Pick;
    Row0(); Row4(); Row6(); Rowb();
    Words12();
    Turn128(4,
            State(Column(0xb6, 0xff, 0x74, 0x4e),
                  Column(0xd2, 0xc2, 0xc9, 0xbf),
                  Column(0x6c, 0x59, 0x0c, 0xbf),
                  Column(0x04, 0x69, 0xbf, 0x41)),
            State(Column(0x47, 0xf7, 0xf7, 0xbc),
                  Column(0x95, 0x35, 0x3e, 0x03),
                  Column(0xf9, 0x6c, 0x32, 0xbc),
                  Column(0xfd, 0x05, 0x8d, 0xfd)));
  }

  lemma Words20()
    ensures WordsAt(KEY128, 20)
         == State(Column(0x3c, 0xaa, 0xa3, 0xe8),
                  Column(0xa9, 0x9f, 0x9d, 0xeb),
                  Column(0x50, 0xf3, 0xaf, 0x57),
                  Column(0xad, 0xf6, 0x22, 0xaa))
  {
    hide ScheduleWord, WordsAt, SubByte, Pick;
    Row0(); Row8(); Rowf();
    Words16();
    Turn128(5,
            State(Column(0x47, 0xf7, 0xf7, 0xbc),
                  Column(0x95, 0x35, 0x3e, 0x03),
                  Column(0xf9, 0x6c, 0x32, 0xbc),
                  Column(0xfd, 0x05, 0x8d, 0xfd)),
            State(Column(0x3c, 0xaa, 0xa3, 0xe8),
                  Column(0xa9, 0x9f, 0x9d, 0xeb),
                  Column(0x50, 0xf3, 0xaf, 0x57),
                  Column(0xad, 0xf6, 0x22, 0xaa)));
  }

  lemma Words24()
    ensures WordsAt(KEY128, 24)
         == State(Column(0x5e, 0x39, 0x0f, 0x7d),
                  Column(0xf7, 0xa6, 0x92, 0x96),
                  Column(0xa7, 0x55, 0x3d, 0xc1),
                  Column(0x0a, 0xa3, 0x1f, 0x6b))
  {
    hide ScheduleWord, WordsAt, SubByte, Pick;
    Row2(); Rowa(); Rowf();
    Words20();
    Turn128(6,
            State(Column(0x3c, 0xaa, 0xa3, 0xe8),
                  Column(0xa9, 0x9f, 0x9d, 0xeb),
                  Column(0x50, 0xf3, 0xaf, 0x57),
                  Column(0xad, 0xf6, 0x22, 0xaa)),
            State(Column(0x5e, 0x39, 0x0f, 0x7d),
                  Column(0xf7, 0xa6, 0x92, 0x96),
                  Column(0xa7, 0x55, 0x3d, 0xc1),
                  Column(0x0a, 0xa3, 0x1f, 0x6b)));
  }

  lemma Words28()
    ensures WordsAt(KEY128, 28)
         == State(Column(0x14, 0xf9, 0x70, 0x1a),
                  Column(0xe3, 0x5f, 0xe2, 0x8c),
                  Column(0x44, 0x0a, 0xdf, 0x4d),
                  Column(0x4e, 0xa9, 0xc0, 0x26))
  {
    hide ScheduleWord, WordsAt, SubByte, Pick;
    Row0(); Row1(); Row6(); Rowa();
    Words24();
    Turn128(7,
            State(Column(0x5e, 0x39, 0x0f, 0x7d),
                  Column(0xf7, 0xa6, 0x92, 0x96),
                  Column(0xa7, 0x55, 0x3d, 0xc1),
                  Column(0x0a, 0xa3, 0x1f, 0x6b)),
            State(Column(0x14, 0xf9, 0x70, 0x1a),
                  Column(0xe3, 0x5f, 0xe2, 0x8c),
                  Column(0x44, 0x0a, 0xdf, 0x4d),
                  Column(0x4e, 0xa9, 0xc0, 0x26)));
  }

  lemma Words32()
    ensures WordsAt(KEY128, 32)
         == State(Column(0x47, 0x43, 0x87, 0x35),
                  Column(0xa4, 0x1c, 0x65, 0xb9),
                  Column(0xe0, 0x16, 0xba, 0xf4),
                  Column(0xae, 0xbf, 0x7a, 0xd2))
  {
    hide ScheduleWord, WordsAt, SubByte, Pick;
    Row2(); Row4(); Rowa(); Rowc();
    Words28();
    Turn128(8,
            State(Column(0x14, 0xf9, 0x70, 0x1a),
                  Column(0xe3, 0x5f, 0xe2, 0x8c),
                  Column(0x44, 0x0a, 0xdf, 0x4d),
                  Column(0x4e, 0xa9, 0xc0, 0x26)),
            State(Column(0x47, 0x43, 0x87, 0x35),
                  Column(0xa4, 0x1c, 0x65, 0xb9),
                  Column(0xe0, 0x16, 0xba, 0xf4),
                  Column(0xae, 0xbf, 0x7a, 0xd2)));
  }

  lemma Words36()
    ensures WordsAt(KEY128, 36)
         == State(Column(0x54, 0x99, 0x32, 0xd1),
                  Column(0xf0, 0x85, 0x57, 0x68),
                  Column(0x10, 0x93, 0xed, 0x9c),
                  Column(0xbe, 0x2c, 0x97, 0x4e))
  {
    hide ScheduleWord, WordsAt, SubByte, Pick;
    Row7(); Rowa(); Rowb(); Rowd();
    Words32();
    Turn128(9,
            State(Column(0x47, 0x43, 0x87, 0x35),
                  Column(0xa4, 0x1c, 0x65, 0xb9),
                  Column(0xe0, 0x16, 0xba, 0xf4),
                  Column(0xae, 0xbf, 0x7a, 0xd2)),
            State(Column(0x54, 0x99, 0x32, 0xd1),
                  Column(0xf0, 0x85, 0x57, 0x68),
                  Column(0x10, 0x93, 0xed, 0x9c),
                  Column(0xbe, 0x2c, 0x97, 0x4e)));
  }

  lemma Words40()
    ensures WordsAt(KEY128, 40)
         == State(Column(0x13, 0x11, 0x1d, 0x7f),
                  Column(0xe3, 0x94, 0x4a, 0x17),
                  Column(0xf3, 0x07, 0xa7, 0x8b),
                  Column(0x4d, 0x2b, 0x30, 0xc5))
  {
    hide ScheduleWord, WordsAt, SubByte, Pick;
    Row2(); Row4(); Row9(); Rowb();
    Words36();
    Turn128(10,
            State(Column(0x54, 0x99, 0x32, 0xd1),
                  Column(0xf0, 0x85, 0x57, 0x68),
                  Column(0x10, 0x93, 0xed, 0x9c),
                  Column(0xbe, 0x2c, 0x97, 0x4e)),
            State(Column(0x13, 0x11, 0x1d, 0x7f),
                  Column(0xe3, 0x94, 0x4a, 0x17),
                  Column(0xf3, 0x07, 0xa7, 0x8b),
                  Column(0x4d, 0x2b, 0x30, 0xc5)));
  }

  const BLOCK: State := State(Column(0x00, 0x11, 0x22, 0x33),
                              Column(0x44, 0x55, 0x66, 0x77),
                              Column(0x88, 0x99, 0xaa, 0xbb),
                              Column(0xcc, 0xdd, 0xee, 0xff))

  lemma KeyOf(t: nat)
    requires t <= 10
    ensures |KeyExpansion(S, KEY128)| == 44 && RoundKey(KeyExpansion(S, KEY128), t) == WordsAt(KEY128, 4 * t)
  {
    hide ScheduleWord;
  }

  lemma NextRound(t: nat, before: State, k: State, after: State)
    requires 1 <= t <= 9 && |KeyExpansion(S, KEY128)| == 44
    requires AfterRounds(S, BLOCK, KeyExpansion(S, KEY128), t - 1) == before
    requires WordsAt(KEY128, 4 * t) == k && after == FullRound(S, before, k)
    ensures AfterRounds(S, BLOCK, KeyExpansion(S, KEY128), t) == after
  {
    hide KeyExpansion, RoundKey, WordsAt, FullRound;
    KeyOf(t);
  }

  lemma Round0()
    ensures |KeyExpansion(S, KEY128)| == 44
    ensures AfterRounds(S, BLOCK, KeyExpansion(S, KEY128), 0)
         == State(Column(0x00, 0x10, 0x20, 0x30),
                  Column(0x40, 0x50, 0x60, 0x70),
                  Column(0x80, 0x90, 0xa0, 0xb0),
                  Column(0xc0, 0xd0, 0xe0, 0xf0))
  {
    hide KeyExpansion, RoundKey, WordsAt;
    KeyOf(0);
    Words0();
  }

  lemma Round1()
    ensures |KeyExpansion(S, KEY128)| == 44
    ensures AfterRounds(S, BLOCK, KeyExpansion(S, KEY128), 1)
         == State(Column(0x89, 0xd8, 0x10, 0xe8),
                  Column(0x85, 0x5a, 0xce, 0x68),
                  Column(0x2d, 0x18, 0x43, 0xd8),
                  Column(0xcb, 0x12, 0x8f, 0xe4))
  {
    hide KeyExpansion, AfterRounds, WordsAt, SubByte, Pick;
    Row0(); Row1(); Row2(); Row3(); Row4(); Row5(); Row6(); Row7();
    Row8(); Row9(); Rowa(); Rowb(); Rowc(); Rowd(); Rowe(); Rowf();
    Round0();
    Words4();
    NextRound(1,
              State(Column(0x00, 0x10, 0x20, 0x30),
                    Column(0x40, 0x50, 0x60, 0x70),
                    Column(0x80, 0x90, 0xa0, 0xb0),
                    Column(0xc0, 0xd0, 0xe0, 0xf0)),
              State(Column(0xd6, 0xaa, 0x74, 0xfd),
                    Column(0xd2, 0xaf, 0x72, 0xfa),
                    Column(0xda, 0xa6, 0x78, 0xf1),
                    Column(0xd6, 0xab, 0x76, 0xfe)),
              State(Column(0x89, 0xd8, 0x10, 0xe8),
                    Column(0x85, 0x5a, 0xce, 0x68),
                    Column(0x2d, 0x18, 0x43, 0xd8),
                    Column(0xcb, 0x12, 0x8f, 0xe4)));
  }

  lemma Round2()
    ensures |KeyExpansion(S, KEY128)| == 44
    ensures AfterRounds(S, BLOCK, KeyExpansion(S, KEY128), 2)
         == State(Column(0x49, 0x15, 0x59, 0x8f),
                  Column(0x55, 0xe5, 0xd7, 0xa0),
                  Column(0xda, 0xca, 0x94, 0xfa),
                  Column(0x1f, 0x0a, 0x63, 0xf7))
  {
    hide KeyExpansion, AfterRounds, WordsAt, SubByte, Pick;
    Row1(); Row2(); Row4(); Row5(); Row6(); Row8(); Rowc(); Rowd();
    Rowe();
    Round1();
    Words8();
    NextRound(2,
              State(Column(0x89, 0xd8, 0x10, 0xe8),
                    Column(0x85, 0x5a, 0xce, 0x68),
                    Column(0x2d, 0x18, 0x43, 0xd8),
                    Column(0xcb, 0x12, 0x8f, 0xe4)),
              State(Column(0xb6, 0x92, 0xcf, 0x0b),
                    Column(0x64, 0x3d, 0xbd, 0xf1),
                    Column(0xbe, 0x9b, 0xc5, 0x00),
                    Column(0x68, 0x30, 0xb3, 0xfe)),
              State(Column(0x49, 0x15, 0x59, 0x8f),
                    Column(0x55, 0xe5, 0xd7, 0xa0),
                    Column(0xda, 0xca, 0x94, 0xfa),
                    Column(0x1f, 0x0a, 0x63, 0xf7)));
  }

  lemma Round3()
    ensures |KeyExpansion(S, KEY128)| == 44
    ensures AfterRounds(S, BLOCK, KeyExpansion(S, KEY128), 3)
         == State(Column(0xfa, 0x63, 0x6a, 0x28),
                  Column(0x25, 0xb3, 0x39, 0xc9),
                  Column(0x40, 0x66, 0x8a, 0x31),
                  Column(0x57, 0x24, 0x4d, 0x17))
  {
    hide KeyExpansion, AfterRounds, WordsAt, SubByte, Pick;
    Row0(); Row1(); Row4(); Row5(); Row6(); Row8(); Row9(); Rowa();
    Rowc(); Rowd(); Rowe(); Rowf();
    Round2();
    Words12();
    NextRound(3,
              State(Column(0x49, 0x15, 0x59, 0x8f),
                    Column(0x55, 0xe5, 0xd7, 0xa0),
                    Column(0xda, 0xca, 0x94, 0xfa),
                    Column(0x1f, 0x0a, 0x63, 0xf7)),
              State(Column(0xb6, 0xff, 0x74, 0x4e),
                    Column(0xd2, 0xc2, 0xc9, 0xbf),
                    Column(0x6c, 0x59, 0x0c, 0xbf),
                    Column(0x04, 0x69, 0xbf, 0x41)),
              State(Column(0xfa, 0x63, 0x6a, 0x28),
                    Column(0x25, 0xb3, 0x39, 0xc9),
                    Column(0x40, 0x66, 0x8a, 0x31),
                    Column(0x57, 0x24, 0x4d, 0x17)));
  }

  lemma Round4()
    ensures |KeyExpansion(S, KEY128)| == 44
    ensures AfterRounds(S, BLOCK, KeyExpansion(S, KEY128), 4)
         == State(Column(0x24, 0x72, 0x40, 0x23),
                  Column(0x69, 0x66, 0xb3, 0xfa),
                  Column(0x6e, 0xd2, 0x75, 0x32),
                  Column(0x88, 0x42, 0x5b, 0x6c))
  {
    hide KeyExpansion, AfterRounds, WordsAt, SubByte, Pick;
    Row1(); Row2(); Row3(); Row4(); Row5(); Row6(); Row8(); Rowb();
    Rowc(); Rowf();
    Round3();
    Words16();
    NextRound(4,
              State(Column(0xfa, 0x63, 0x6a, 0x28),
                    Column(0x25, 0xb3, 0x39, 0xc9),
                    Column(0x40, 0x66, 0x8a, 0x31),
                    Column(0x57, 0x24, 0x4d, 0x17)),
              State(Column(0x47, 0xf7, 0xf7, 0xbc),
                    Column(0x95, 0x35, 0x3e, 0x03),
                    Column(0xf9, 0x6c, 0x32, 0xbc),
                    Column(0xfd, 0x05, 0x8d, 0xfd)),
              State(Column(0x24, 0x72, 0x40, 0x23),
                    Column(0x69, 0x66, 0xb3, 0xfa),
                    Column(0x6e, 0xd2, 0x75, 0x32),
                    Column(0x88, 0x42, 0x5b, 0x6c)));
  }

  lemma Round5()
    ensures |KeyExpansion(S, KEY128)| == 44
    ensures AfterRounds(S, BLOCK, KeyExpansion(S, KEY128), 5)
         == State(Column(0xc8, 0x16, 0x77, 0xbc),
                  Column(0x9b, 0x7a, 0xc9, 0x3b),
                  Column(0x25, 0x02, 0x79, 0x92),
                  Column(0xb0, 0x26, 0x19, 0x96))
  {
    hide KeyExpansion, AfterRounds, WordsAt, SubByte, Pick;
    Row2(); Row3(); Row4(); Row5(); Row6(); Row7(); Row8(); Rowb();
    Rowd(); Rowf();
    Round4();
    Words20();
    NextRound(5,
              State(Column(0x24, 0x72, 0x40, 0x23),
                    Column(0x69, 0x66, 0xb3, 0xfa),
                    Column(0x6e, 0xd2, 0x75, 0x32),
                    Column(0x88, 0x42, 0x5b, 0x6c)),
              State(Column(0x3c, 0xaa, 0xa3, 0xe8),
                    Column(0xa9, 0x9f, 0x9d, 0xeb),
                    Column(0x50, 0xf3, 0xaf, 0x57),
                    Column(0xad, 0xf6, 0x22, 0xaa)),
              State(Column(0xc8, 0x16, 0x77, 0xbc),
                    Column(0x9b, 0x7a, 0xc9, 0x3b),
                    Column(0x25, 0x02, 0x79, 0x92),
                    Column(0xb0, 0x26, 0x19, 0x96)));
  }

  lemma Round6()
    ensures |KeyExpansion(S, KEY128)| == 44
    ensures AfterRounds(S, BLOCK, KeyExpansion(S, KEY128), 6)
         == State(Column(0xc6, 0x2f, 0xe1, 0x09),
                  Column(0xf7, 0x5e, 0xed, 0xc3),
                  Column(0xcc, 0x79, 0x39, 0x5d),
                  Column(0x84, 0xf9, 0xcf, 0x5d))
  {
    hide KeyExpansion, AfterRounds, WordsAt, SubByte, Pick;
    Row0(); Row1(); Row2(); Row3(); Row7(); Row9(); Rowb(); Rowc();
    Round5();
    Words24();
    NextRound(6,
              State(Column(0xc8, 0x16, 0x77, 0xbc),
                    Column(0x9b, 0x7a, 0xc9, 0x3b),
                    Column(0x25, 0x02, 0x79, 0x92),
                    Column(0xb0, 0x26, 0x19, 0x96)),
              State(Column(0x5e, 0x39, 0x0f, 0x7d),
                    Column(0xf7, 0xa6, 0x92, 0x96),
                    Column(0xa7, 0x55, 0x3d, 0xc1),
                    Column(0x0a, 0xa3, 0x1f, 0x6b)),
              State(Column(0xc6, 0x2f, 0xe1, 0x09),
                    Column(0xf7, 0x5e, 0xed, 0xc3),
                    Column(0xcc, 0x79, 0x39, 0x5d),
                    Column(0x84, 0xf9, 0xcf, 0x5d)));
  }

  lemma Round7()
    ensures |KeyExpansion(S, KEY128)| == 44
    ensures AfterRounds(S, BLOCK, KeyExpansion(S, KEY128), 7)
         == State(Column(0xd1, 0x87, 0x6c, 0x0f),
                  Column(0x79, 0xc4, 0x30, 0x0a),
                  Column(0xb4, 0x55, 0x94, 0xad),
                  Column(0xd6, 0x6f, 0xf4, 0x1f))
  {
    hide KeyExpansion, AfterRounds, WordsAt, SubByte, Pick;
    Row0(); Row2(); Row3(); Row5(); Row7(); Row8(); Rowc(); Rowe();
    Rowf();
    Round6();
    Words28();
    NextRound(7,
              State(Column(0xc6, 0x2f, 0xe1, 0x09),
                    Column(0xf7, 0x5e, 0xed, 0xc3),
                    Column(0xcc, 0x79, 0x39, 0x5d),
                    Column(0x84, 0xf9, 0xcf, 0x5d)),
              State(Column(0x14, 0xf9, 0x70, 0x1a),
                    Column(0xe3, 0x5f, 0xe2, 0x8c),
                    Column(0x44, 0x0a, 0xdf, 0x4d),
                    Column(0x4e, 0xa9, 0xc0, 0x26)),
              State(Column(0xd1, 0x87, 0x6c, 0x0f),
                    Column(0x79, 0xc4, 0x30, 0x0a),
                    Column(0xb4, 0x55, 0x94, 0xad),
                    Column(0xd6, 0x6f, 0xf4, 0x1f)));
  }

  lemma Round8()
    ensures |KeyExpansion(S, KEY128)| == 44
    ensures AfterRounds(S, BLOCK, KeyExpansion(S, KEY128), 8)
         == State(Column(0xfd, 0xe3, 0xba, 0xd2),
                  Column(0x05, 0xe5, 0xd0, 0xd7),
                  Column(0x35, 0x47, 0x96, 0x4e),
                  Column(0xf1, 0xfe, 0x37, 0xf1))
  {
    hide KeyExpansion, AfterRounds, WordsAt, SubByte, Pick;
    Row0(); Row1(); Row3(); Row5(); Row6(); Row7(); Row8(); Row9();
    Rowa(); Rowb(); Rowc(); Rowd(); Rowf();
    Round7();
    Words32();
    NextRound(8,
              State(Column(0xd1, 0x87, 0x6c, 0x0f),
                    Column(0x79, 0xc4, 0x30, 0x0a),
                    Column(0xb4, 0x55, 0x94, 0xad),
                    Column(0xd6, 0x6f, 0xf4, 0x1f)),
              State(Column(0x47, 0x43, 0x87, 0x35),
                    Column(0xa4, 0x1c, 0x65, 0xb9),
                    Column(0xe0, 0x16, 0xba, 0xf4),
                    Column(0xae, 0xbf, 0x7a, 0xd2)),
              State(Column(0xfd, 0xe3, 0xba, 0xd2),
                    Column(0x05, 0xe5, 0xd0, 0xd7),
                    Column(0x35, 0x47, 0x96, 0x4e),
                    Column(0xf1, 0xfe, 0x37, 0xf1)));
  }

  lemma Round9()
    ensures |KeyExpansion(S, KEY128)| == 44
    ensures AfterRounds(S, BLOCK, KeyExpansion(S, KEY128), 9)
         == State(Column(0xbd, 0x6e, 0x7c, 0x3d),
                  Column(0xf2, 0xb5, 0x77, 0x9e),
                  Column(0x0b, 0x61, 0x21, 0x6e),
                  Column(0x8b, 0x10, 0xb6, 0x89))
  {
    hide KeyExpansion, AfterRounds, WordsAt, SubByte, Pick;
    Row0(); Row3(); Row4(); Row9(); Rowb(); Rowd(); Rowe(); Rowf();
    Round8();
    Words36();
    NextRound(9,
              State(Column(0xfd, 0xe3, 0xba, 0xd2),
                    Column(0x05, 0xe5, 0xd0, 0xd7),
                    Column(0x35, 0x47, 0x96, 0x4e),
                    Column(0xf1, 0xfe, 0x37, 0xf1)),
              State(Column(0x54, 0x99, 0x32, 0xd1),
                    Column(0xf0, 0x85, 0x57, 0x68),
                    Column(0x10, 0x93, 0xed, 0x9c),
                    Column(0xbe, 0x2c, 0x97, 0x4e)),
              State(Column(0xbd, 0x6e, 0x7c, 0x3d),
                    Column(0xf2, 0xb5, 0x77, 0x9e),
                    Column(0x0b, 0x61, 0x21, 0x6e),
                    Column(0x8b, 0x10, 0xb6, 0x89)));
  }

  /** Appendix C.1: the ciphertext of the example block. */
  lemma ExampleBlock()
    ensures |KeyExpansion(S, KEY128)| == 44
    ensures Cipher(S, 10, BLOCK, KeyExpansion(S, KEY128))
         == State(Column(0x69, 0xc4, 0xe0, 0xd8),
                  Column(0x6a, 0x7b, 0x04, 0x30),
                  Column(0xd8, 0xcd, 0xb7, 0x80),
                  Column(0x70, 0xb4, 0xc5, 0x5a))
  {
    hide KeyExpansion, RoundKey, AfterRounds, WordsAt, SubByte, Pick;
    Row0(); Row1(); Row2(); Row3(); Row6(); Row7(); Row8(); Row9();
    Rowb(); Rowf();
    KeyOf(10);
    Round9();
    Words40();
  }

  // Appendices A.2 and A.3: the longer schedules, word by word, past their second opening word.

  lemma Rotated(key: seq<Column>, i: nat, a: Column, b: Column, w: Column)
    requires |key| in {4, 6, 8} && i >= |key| && i % |key| == 0
    requires ScheduleWord(S, key, i - |key|) == a && ScheduleWord(S, key, i - 1) == b
    requires w == Xor(a, Xor(SubWord(S, RotateUp(b)), Rcon(i / |key|)))
    ensures ScheduleWord(S, key, i) == w
  {
    hide ScheduleWord, SubWord, RotateUp, Rcon, Xor;
    RotatedWord(S, key, i);
  }

  lemma Plain(key: seq<Column>, i: nat, a: Column, b: Column, w: Column)
    requires |key| in {4, 6, 8} && i >= |key| && i % |key| != 0 && !(|key| == 8 && i % 8 == 4)
    requires ScheduleWord(S, key, i - |key|) == a && ScheduleWord(S, key, i - 1) == b && w == Xor(a, b)
    ensures ScheduleWord(S, key, i) == w
  {
    hide ScheduleWord, Xor;
    PlainWord(S, key, i);
  }

  lemma Subbed(key: seq<Column>, i: nat, a: Column, b: Column, w: Column)
    requires |key| == 8 && i >= 8 && i % 8 == 4
    requires ScheduleWord(S, key, i - 8) == a && ScheduleWord(S, key, i - 1) == b && w == Xor(a, SubWord(S, b))
    ensures ScheduleWord(S, key, i) == w
  {
    hide ScheduleWord, SubWord, Xor;
    SubbedWord(S, key, i);
  }

  /** Appendix A.2. */
  const KEY192: seq<Column> := [
    Column(0x8e, 0x73, 0xb0, 0xf7),
    Column(0xda, 0x0e, 0x64, 0x52),
    Column(0xc8, 0x10, 0xf3, 0x2b),
    Column(0x80, 0x90, 0x79, 0xe5),
    Column(0x62, 0xf8, 0xea, 0xd2),
    Column(0x52, 0x2c, 0x6b, 0x7b)]

  lemma Words192From6()
    ensures ScheduleWord(S, KEY192, 6) == Column(0xfe, 0x0c, 0x91, 0xf7)
    ensures ScheduleWord(S, KEY192, 7) == Column(0x24, 0x02, 0xf5, 0xa5)
    ensures ScheduleWord(S, KEY192, 8) == Column(0xec, 0x12, 0x06, 0x8e)
    ensures ScheduleWord(S, KEY192, 9) == Column(0x6c, 0x82, 0x7f, 0x6b)
  {
    hide ScheduleWord, SubByte, Pick;
    Row2(); Row5(); Row6(); Row7();
    KeyWord(S, KEY192, 0);
    KeyWord(S, KEY192, 1);
    KeyWord(S, KEY192, 2);
    KeyWord(S, KEY192, 3);
    KeyWord(S, KEY192, 4);
    KeyWord(S, KEY192, 5);
    Rotated(KEY192, 6, Column(0x8e, 0x73, 0xb0, 0xf7), Column(0x52, 0x2c, 0x6b, 0x7b),
            Column(0xfe, 0x0c, 0x91, 0xf7));
    Plain(KEY192, 7, Column(0xda, 0x0e, 0x64, 0x52), Column(0xfe, 0x0c, 0x91, 0xf7),
            Column(0x24, 0x02, 0xf5, 0xa5));
    Plain(KEY192, 8, Column(0xc8, 0x10, 0xf3, 0x2b), Column(0x24, 0x02, 0xf5, 0xa5),
            Column(0xec, 0x12, 0x06, 0x8e));
    Plain(KEY192, 9, Column(0x80, 0x90, 0x79, 0xe5), Column(0xec, 0x12, 0x06, 0x8e),
            Column(0x6c, 0x82, 0x7f, 0x6b));
  }

  lemma Example192()
    ensures ScheduleWord(S, KEY192, 6) == Column(0xfe, 0x0c, 0x91, 0xf7)
    ensures ScheduleWord(S, KEY192, 7) == Column(0x24, 0x02, 0xf5, 0xa5)
    ensures ScheduleWord(S, KEY192, 8) == Column(0xec, 0x12, 0x06, 0x8e)
    ensures ScheduleWord(S, KEY192, 9) == Column(0x6c, 0x82, 0x7f, 0x6b)
    ensures ScheduleWord(S, KEY192, 10) == Column(0x0e, 0x7a, 0x95, 0xb9)
    ensures ScheduleWord(S, KEY192, 11) == Column(0x5c, 0x56, 0xfe, 0xc2)
    ensures ScheduleWord(S, KEY192, 12) == Column(0x4d, 0xb7, 0xb4, 0xbd)
  {
    hide ScheduleWord, SubByte, Pick;
    Row5(); Rowc(); Rowf();
    Words192From6();
    KeyWord(S, KEY192, 4);
    KeyWord(S, KEY192, 5);
    assert Rcon(2) == Column(2, 0, 0, 0);
    Plain(KEY192, 10, Column(0x62, 0xf8, 0xea, 0xd2), Column(0x6c, 0x82, 0x7f, 0x6b),
            Column(0x0e, 0x7a, 0x95, 0xb9));
    Plain(KEY192, 11, Column(0x52, 0x2c, 0x6b, 0x7b), Column(0x0e, 0x7a, 0x95, 0xb9),
            Column(0x5c, 0x56, 0xfe, 0xc2));
    Rotated(KEY192, 12, Column(0xfe, 0x0c, 0x91, 0xf7), Column(0x5c, 0x56, 0xfe, 0xc2),
            Column(0x4d, 0xb7, 0xb4, 0xbd));
  }

  /** Appendix A.3. */
  const KEY256: seq<Column> := [
    Column(0x60, 0x3d, 0xeb, 0x10),
    Column(0x15, 0xca, 0x71, 0xbe),
    Column(0x2b, 0x73, 0xae, 0xf0),
    Column(0x85, 0x7d, 0x77, 0x81),
    Column(0x1f, 0x35, 0x2c, 0x07),
    Column(0x3b, 0x61, 0x08, 0xd7),
    Column(0x2d, 0x98, 0x10, 0xa3),
    Column(0x09, 0x14, 0xdf, 0xf4)]

  lemma Words256From8()
    ensures ScheduleWord(S, KEY256, 8) == Column(0x9b, 0xa3, 0x54, 0x11)
    ensures ScheduleWord(S, KEY256, 9) == Column(0x8e, 0x69, 0x25, 0xaf)
    ensures ScheduleWord(S, KEY256, 10) == Column(0xa5, 0x1a, 0x8b, 0x5f)
    ensures ScheduleWord(S, KEY256, 11) == Column(0x20, 0x67, 0xfc, 0xde)
  {
    hide ScheduleWord, SubByte, Pick;
    Row0(); Row1(); Rowd(); Rowf();
    KeyWord(S, KEY256, 0);
    KeyWord(S, KEY256, 1);
    KeyWord(S, KEY256, 2);
    KeyWord(S, KEY256, 3);
    KeyWord(S, KEY256, 4);
    KeyWord(S, KEY256, 5);
    KeyWord(S, KEY256, 6);
    KeyWord(S, KEY256, 7);
    Rotated(KEY256, 8, Column(0x60, 0x3d, 0xeb, 0x10), Column(0x09, 0x14, 0xdf, 0xf4),
            Column(0x9b, 0xa3, 0x54, 0x11));
    Plain(KEY256, 9, Column(0x15, 0xca, 0x71, 0xbe), Column(0x9b, 0xa3, 0x54, 0x11),
            Column(0x8e, 0x69, 0x25, 0xaf));
    Plain(KEY256, 10, Column(0x2b, 0x73, 0xae, 0xf0), Column(0x8e, 0x69, 0x25, 0xaf),
            Column(0xa5, 0x1a, 0x8b, 0x5f));
    Plain(KEY256, 11, Column(0x85, 0x7d, 0x77, 0x81), Column(0xa5, 0x1a, 0x8b, 0x5f),
            Column(0x20, 0x67, 0xfc, 0xde));
  }

  lemma Words256From12()
    ensures ScheduleWord(S, KEY256, 12) == Column(0xa8, 0xb0, 0x9c, 0x1a)
    ensures ScheduleWord(S, KEY256, 13) == Column(0x93, 0xd1, 0x94, 0xcd)
    ensures ScheduleWord(S, KEY256, 14) == Column(0xbe, 0x49, 0x84, 0x6e)
    ensures ScheduleWord(S, KEY256, 15) == Column(0xb7, 0x5d, 0x5b, 0x9a)
  {
    hide ScheduleWord, SubByte, Pick;
    Row2(); Row6(); Rowd(); Rowf();
    Words256From8();
    KeyWord(S, KEY256, 4);
    KeyWord(S, KEY256, 5);
    KeyWord(S, KEY256, 6);
    KeyWord(S, KEY256, 7);
    Subbed(KEY256, 12, Column(0x1f, 0x35, 0x2c, 0x07), Column(0x20, 0x67, 0xfc, 0xde),
            Column(0xa8, 0xb0, 0x9c, 0x1a));
    Plain(KEY256, 13, Column(0x3b, 0x61, 0x08, 0xd7), Column(0xa8, 0xb0, 0x9c, 0x1a),
            Column(0x93, 0xd1, 0x94, 0xcd));
    Plain(KEY256, 14, Column(0x2d, 0x98, 0x10, 0xa3), Column(0x93, 0xd1, 0x94, 0xcd),
            Column(0xbe, 0x49, 0x84, 0x6e));
    Plain(KEY256, 15, Column(0x09, 0x14, 0xdf, 0xf4), Column(0xbe, 0x49, 0x84, 0x6e),
            Column(0xb7, 0x5d, 0x5b, 0x9a));
  }

  lemma Example256()
    ensures ScheduleWord(S, KEY256, 8) == Column(0x9b, 0xa3, 0x54, 0x11)
    ensures ScheduleWord(S, KEY256, 9) == Column(0x8e, 0x69, 0x25, 0xaf)
    ensures ScheduleWord(S, KEY256, 10) == Column(0xa5, 0x1a, 0x8b, 0x5f)
    ensures ScheduleWord(S, KEY256, 11) == Column(0x20, 0x67, 0xfc, 0xde)
    ensures ScheduleWord(S, KEY256, 12) == Column(0xa8, 0xb0, 0x9c, 0x1a)
    ensures ScheduleWord(S, KEY256, 13) == Column(0x93, 0xd1, 0x94, 0xcd)
    ensures ScheduleWord(S, KEY256, 14) == Column(0xbe, 0x49, 0x84, 0x6e)
    ensures ScheduleWord(S, KEY256, 15) == Column(0xb7, 0x5d, 0x5b, 0x9a)
    ensures ScheduleWord(S, KEY256, 16) == Column(0xd5, 0x9a, 0xec, 0xb8)
  {
    hide ScheduleWord, SubByte, Pick;
    Row5(); Row9(); Rowb();
    Words256From8();
    Words256From12();
    assert Rcon(2) == Column(2, 0, 0, 0);
    Rotated(KEY256, 16, Column(0x9b, 0xa3, 0x54, 0x11), Column(0xb7, 0x5d, 0x5b, 0x9a),
            Column(0xd5, 0x9a, 0xec, 0xb8));
  }
}
