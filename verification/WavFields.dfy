/** The fields of a file that is written from chosen values, and reads that run into the end of the file. */
module WavFields {
  import opened WavFile
  import opened WavRoundTrip

  /** The four letters that each constant spells. */
  lemma TagsSpelled()
    ensures Be4(RIFF) == ['R' as int, 'I' as int, 'F' as int, 'F' as int]
    ensures Be4(WAVE) == ['W' as int, 'A' as int, 'V' as int, 'E' as int]
    ensures Be4(FMT) == ['f' as int, 'm' as int, 't' as int, ' ' as int]
    ensures Be4(DATA) == ['d' as int, 'a' as int, 't' as int, 'a' as int]
  {
  }

  function Le2(n: int): (b: File)
    ensures |b| == 2
  {
    [n % 256, n / 256 % 256]
  }

  lemma Le2U16(file: File, p: nat, n: int)
    requires 0 <= n < 0x1_0000 && p + 2 <= |file| && file[p..p + 2] == Le2(n)
    ensures U16(file, p) == n
  {
    var b := file[p..p + 2];
    assert file[p] == b[0] && file[p + 1] == b[1];
  }

  /** A number and its 32 bits. */
  lemma ToIntBack(x: int)
    requires -0x8000_0000 <= x < 0x8000_0000
    ensures ToInt(x % WRAP) == x
  {
  }

  // A read that runs into the end of the file keeps the bytes it found below ones.

  lemma U16PastEnd(file: File, p: nat)
    requires Bytes(file)
    ensures p >= |file| ==> U16(file, p) == 0xffff
    ensures p + 1 == |file| ==> U16(file, p) == 0xff00 + file[p]
  {
  }

  lemma U32PastEnd(file: File, p: nat)
    requires Bytes(file) && |file| < p + 2
    ensures U32(file, p) == if p + 1 == |file| then 0xffff_ff00 + file[p] else 0xffff_ffff
  {
  }

  lemma U32AcrossEnd(file: File, p: nat)
    requires Bytes(file) && p + 2 <= |file| < p + 4
    ensures U32(file, p)
         == file[p] + file[p + 1] * 0x100
            + if p + 3 == |file| then file[p + 2] * 0x1_0000 + 0xff00_0000 else 0xffff_0000
  {
  }

  lemma TagPastEnd(file: File, p: nat)
    requires |file| < p + 4
    ensures Tag(file, p) == 0xffff_ffff
  {
  }

  /** What a writer puts into a fmt chunk. */
  datatype Fmt = Fmt(format: int, channels: int, sampleRate: int, byteRate: int, blockAlign: int, bits: int)

  ghost predicate Fits(f: Fmt) {
    && 0 <= f.channels < 0x1_0000 && 0 <= f.blockAlign < 0x1_0000 && 0 <= f.bits < 0x1_0000
    && -0x8000_0000 <= f.sampleRate < 0x8000_0000 && -0x8000_0000 <= f.byteRate < 0x8000_0000
  }

  function FmtBody(tag: int, f: Fmt): (b: File)
    ensures |b| == 16
  {
    Le2(tag) + Le2(f.channels) + Le4(f.sampleRate % WRAP) + Le4(f.byteRate % WRAP) + Le2(f.blockAlign) + Le2(f.bits)
  }

  /** The places of the fields. */
  lemma FmtParts(tag: int, f: Fmt, tail: File)
    ensures var b := FmtBody(tag, f) + tail;
            && b[0..2] == Le2(tag) && b[2..4] == Le2(f.channels)
            && b[4..8] == Le4(f.sampleRate % WRAP) && b[8..12] == Le4(f.byteRate % WRAP)
            && b[12..14] == Le2(f.blockAlign) && b[14..16] == Le2(f.bits) && b[16..] == tail
  {
    hide Le2, Le4;
  }

  lemma FmtFields(tag: int, f: Fmt, tail: File)
    requires Fits(f) && 0 <= tag < 0x1_0000
    ensures var b := FmtBody(tag, f) + tail;
            && U16(b, 0) == tag && U16(b, 2) == f.channels
            && ToInt(U32(b, 4)) == f.sampleRate && ToInt(U32(b, 8)) == f.byteRate
            && U16(b, 12) == f.blockAlign && U16(b, 14) == f.bits
  {
    hide U16, U32, ToInt, FmtBody, Le2, Le4;
    var b := FmtBody(tag, f) + tail;
    FmtParts(tag, f, tail);
    Le2U16(b, 0, tag);
    Le2U16(b, 2, f.channels);
    Le4U32(b, 4, f.sampleRate % WRAP);
    Le4U32(b, 8, f.byteRate % WRAP);
    Le2U16(b, 12, f.blockAlign);
    Le2U16(b, 14, f.bits);
    ToIntBack(f.sampleRate);
    ToIntBack(f.byteRate);
  }

  lemma FmtBytes(tag: int, f: Fmt)
    ensures Bytes(FmtBody(tag, f))
  {
  }

  /** The six fields of a header. */
  function FmtOf(h: Header): Fmt {
    Fmt(h.format, h.channels, h.sampleRate, h.byteRate, h.blockAlign, h.bits)
  }

  /** A chunk of another kind. */
  ghost predicate Plain(c: Chunk) {
    0 <= c.id < WRAP && c.id != FMT && Bytes(c.body) && (c.id == DATA ==> c.body != [])
  }

  /** Among other chunks, one fmt chunk with this body. */
  function Around(before: seq<Chunk>, body: File, after: seq<Chunk>): seq<Chunk> {
    before + [Chunk(FMT, body)] + after
  }

  ghost predicate Others(before: seq<Chunk>, body: File, after: seq<Chunk>) {
    (forall c :: c in before + after ==> Plain(c)) && 4 + |EncodeAll(Around(before, body, after))| < 0x7fff0000
  }

  /** Opening the file fills the header with these six values. */
  ghost predicate OpensWith(file: File, f: Fmt) {
    Bytes(file) && FmtOf(WalkFile(file, 0, EMPTY).header) == f
  }

  lemma OthersAre(before: seq<Chunk>, body: File, after: seq<Chunk>)
    requires Others(before, body, after) && WellFormed(Chunk(FMT, body))
    ensures var cs := Around(before, body, after);
            && (forall c :: c in cs ==> WellFormed(c)) && (forall j :: |before| < j < |cs| ==> cs[j].id != FMT)
            && |before| < |cs| && cs[|before|] == Chunk(FMT, body)
  {
    hide EncodeAll, U16, Bytes;
    var cs := Around(before, body, after);
    forall c | c in cs
      ensures WellFormed(c)
    {
      assert c in before + after || c == Chunk(FMT, body);
    }
    forall j | |before| < j < |cs|
      ensures cs[j].id != FMT
    {
      assert cs[j] in before + after;
    }
  }

  lemma OneFmtTells(before: seq<Chunk>, body: File, after: seq<Chunk>)
    requires Others(before, body, after) && WellFormed(Chunk(FMT, body))
    ensures OpensWith(RiffFile(Around(before, body, after)), FmtOf(Tell(Chunk(FMT, body), 0, EMPTY)))
  {
    hide WalkFile, EncodeAll, RiffFile, Tell, U16, Bytes, Around, WellFormed, Plain;
    var cs := Around(before, body, after);
    OthersAre(before, body, after);
    LongEnough(body);
    RoundTrip(cs);
    LastFmtDecides(cs, |before|, 12, EMPTY);
  }

  lemma LongEnough(body: File)
    requires WellFormed(Chunk(FMT, body))
    ensures |body| >= 16
  {
  }

  /** A format that is not the extensible one comes back with its five other values. */
  lemma FmtComesBack(before: seq<Chunk>, f: Fmt, tail: File, after: seq<Chunk>)
    requires Fits(f) && 0 <= f.format < 0x1_0000 && f.format != 0xfffe && Bytes(tail)
    requires Others(before, FmtBody(f.format, f) + tail, after)
    ensures OpensWith(RiffFile(Around(before, FmtBody(f.format, f) + tail, after)), f)
  {
    hide RiffFile, Around, Others, OpensWith, U16, U32, ToInt, FmtBody;
    var body := FmtBody(f.format, f) + tail;
    FmtFields(f.format, f, tail);
    FmtBytes(f.format, f);
    OneFmtTells(before, body, after);
  }

  /** An extensible body: the format itself stands at place 24. */
  function ExtensibleBody(f: Fmt, gap: File, tail: File): File {
    FmtBody(0xfffe, f) + (gap + Le4(f.format % WRAP) + tail)
  }

  lemma ExtensibleFormat(f: Fmt, gap: File, tail: File)
    requires |gap| == 8 && -0x8000_0000 <= f.format < 0x8000_0000
    ensures |ExtensibleBody(f, gap, tail)| >= 28 && ToInt(U32(ExtensibleBody(f, gap, tail), 24)) == f.format
  {
    hide U32, ToInt, FmtBody, Le4;
    var body := ExtensibleBody(f, gap, tail);
    assert body[24..28] == Le4(f.format % WRAP);
    Le4U32(body, 24, f.format % WRAP);
    ToIntBack(f.format);
  }

  lemma ExtensibleBytes(f: Fmt, gap: File, tail: File)
    requires Bytes(gap) && Bytes(tail)
    ensures Bytes(ExtensibleBody(f, gap, tail))
  {
    hide FmtBody;
    FmtBytes(0xfffe, f);
  }

  lemma ExtensibleComesBack(before: seq<Chunk>, f: Fmt, gap: File, tail: File, after: seq<Chunk>)
    requires Fits(f) && -0x8000_0000 <= f.format < 0x8000_0000 && |gap| == 8 && Bytes(gap) && Bytes(tail)
    requires Others(before, ExtensibleBody(f, gap, tail), after)
    ensures OpensWith(RiffFile(Around(before, ExtensibleBody(f, gap, tail), after)), f)
  {
    hide RiffFile, Around, Others, OpensWith, U16, U32, ToInt, FmtBody, Le4, Bytes;
    FmtFields(0xfffe, f, gap + Le4(f.format % WRAP) + tail);
    ExtensibleFormat(f, gap, tail);
    ExtensibleBytes(f, gap, tail);
    OneFmtTells(before, ExtensibleBody(f, gap, tail), after);
  }

  lemma TwoTold(f: Fmt, tail: File, samples: File)
    requires Fits(f) && 0 <= f.format < 0x1_0000 && f.format != 0xfffe && samples != []
    ensures var p := 44 + |tail|;
            TellAll([Chunk(FMT, FmtBody(f.format, f) + tail), Chunk(DATA, samples)], 12, EMPTY)
            == Header(f.format, f.channels, f.sampleRate, f.byteRate, f.blockAlign, f.bits, |samples|, p, false)
  {
    hide U16, U32, ToInt, FmtBody;
    FmtFields(f.format, f, tail);
    var first, second := Chunk(FMT, FmtBody(f.format, f) + tail), Chunk(DATA, samples);
    var h := Tell(first, 20, EMPTY);
    assert [first, second][1..] == [second];
    assert TellAll([second], 36 + |tail|, h) == TellAll([], 44 + |tail| + |samples|, Tell(second, 44 + |tail|, h));
  }

  lemma TwoEncoded(first: Chunk, second: Chunk)
    ensures EncodeAll([first, second]) == Encode(first) + Encode(second)
  {
    hide Encode;
    assert EncodeAll([second]) == Encode(second) + EncodeAll([]);
    assert [first, second][1..] == [second];
  }

  lemma DataAtEnd(first: Chunk, second: Chunk)
    ensures var p := 28 + |first.body|;
            var file := RiffFile([first, second]);
            |file| == p + |second.body| && file[p..] == second.body
  {
    hide Encode, EncodeAll, Be4, Le4;
    TwoEncoded(first, second);
    EncodeParts(first);
    EncodeParts(second);
    var all := EncodeAll([first, second]);
    assert RiffFile([first, second])[12..] == all;
    assert all[|Encode(first)|..] == Encode(second);
  }

  /** A whole file: the header with its six values, and the data where it stands. */
  lemma WrittenFileOpens(f: Fmt, tail: File, samples: File)
    requires Fits(f) && 0 <= f.format < 0x1_0000 && f.format != 0xfffe
    requires Bytes(tail) && Bytes(samples) && samples != [] && |tail| + |samples| < 0x7ffe0000
    ensures var p := 44 + |tail|;
            var file := RiffFile([Chunk(FMT, FmtBody(f.format, f) + tail), Chunk(DATA, samples)]);
            && Bytes(file) && |file| == p + |samples| && file[p..] == samples
            && WalkFile(file, 0, EMPTY)
               == Opened(p, Header(f.format, f.channels, f.sampleRate, f.byteRate, f.blockAlign, f.bits,
                                   |samples|, p, false))
  {
    hide WalkFile, RiffFile, U16, U32, ToInt, FmtBody, Encode, TellAll, Tell;
    var first, second := Chunk(FMT, FmtBody(f.format, f) + tail), Chunk(DATA, samples);
    var cs := [first, second];
    EncodeParts(first);
    EncodeParts(second);
    TwoEncoded(first, second);
    DataAtEnd(first, second);
    FmtFields(f.format, f, tail);
    FmtBytes(f.format, f);
    TwoTold(f, tail, samples);
    RoundTrip(cs);
  }

  /** The head of a file written while its size is not known: a RIFF size, a fmt chunk and the head of a data chunk. */
  function StreamHead(size: int, fmt: Chunk, m: int): File {
    Be4(RIFF) + Le4(size) + Be4(WAVE) + Encode(fmt) + (Be4(DATA) + Le4(m))
  }

  lemma StreamParts(size: int, fmt: Chunk, m: int, samples: File)
    ensures var file := StreamHead(size, fmt, m) + samples;
            var q := 20 + |fmt.body|;
            && |file| == q + 8 + |samples|
            && file[0..4] == Be4(RIFF) && file[4..8] == Le4(size) && file[8..12] == Be4(WAVE)
            && file[12..q] == Encode(fmt) && file[q..q + 4] == Be4(DATA) && file[q + 4..q + 8] == Le4(m)
  {
    hide Be4, Le4, Encode;
    EncodeParts(fmt);
  }

  lemma StreamBytes(size: int, fmt: Chunk, m: int, samples: File)
    requires Bytes(fmt.body) && Bytes(samples)
    ensures Bytes(StreamHead(size, fmt, m) + samples)
  {
  }

  lemma StreamFmtTurn(file: File, pos: nat, length: int, c: Chunk, h: Header)
    requires Bytes(file) && c.id == FMT && WellFormed(c) && 8 + |c.body| <= length && |c.body| < 0x7fff0000
    requires pos + 8 + |c.body| <= |file| && file[pos..pos + 8 + |c.body|] == Encode(c)
    ensures ChunkTurn(file, pos, length, h) == Go(pos + 8 + |c.body|, length - 8 - |c.body|, Tell(c, pos + 8, h))
  {
    hide U32, U16, Tag, FmtTurn, Encode;
    ChunkParts(file, pos, c);
    FmtRead(file, pos + 8, length - 8, c, h);
  }

  lemma StreamDataTurn(file: File, pos: nat, length: int, m: int, h: Header)
    requires Bytes(file) && 0 <= m < WRAP && 8 + m <= length && (m == 0 || h.streamed)
    requires pos + 8 <= |file| && file[pos..pos + 4] == Be4(DATA) && file[pos + 4..pos + 8] == Le4(m)
    ensures ChunkTurn(file, pos, length, h)
         == Stop(Walked(pos + 8, length - 8, h.(dataPos := pos + 8, dataLength := m, streamed := true), true))
  {
    hide U32, Tag, Be4, Le4;
    Be4Tag(file, pos, DATA);
    Le4U32(file, pos + 4, m);
  }

  /**
   * A RIFF size of zero or of 0x7fff0000 and more, or an empty data chunk, makes the reader a stream: the open
   * returns at the data, whatever stands there, and looks no further.
   */
  lemma StreamOpens(size: int, fmt: Chunk, m: int, samples: File)
    requires 0 <= size < WRAP && 0 <= m < 0x7fff0000 && |fmt.body| < 0x7fff0000
    requires fmt.id == FMT && WellFormed(fmt) && Bytes(samples)
    requires size == 0 || size >= 0x7fff0000 || (m == 0 && size >= 20 + |fmt.body|)
    ensures var file := StreamHead(size, fmt, m) + samples;
            var p := 28 + |fmt.body|;
            && Bytes(file)
            && WalkFile(file, 0, EMPTY)
               == Opened(p, Tell(fmt, 0, EMPTY).(dataLength := m, dataPos := p, streamed := true))
  {
    hide WalkFile, WalkChunks, U32, U16, Tag, Be4, Le4, Encode, FmtTurn, ChunkTurn;
    var file := StreamHead(size, fmt, m) + samples;
    var q := 20 + |fmt.body|;
    StreamParts(size, fmt, m, samples);
    StreamBytes(size, fmt, m, samples);
    Be4Tag(file, 0, RIFF);
    Le4U32(file, 4, size);
    Be4Tag(file, 8, WAVE);
    OuterTurn(file, 0, EMPTY);
    var length := (if size == 0 || size >= 0x7fff0000 then WRAP - 1 else size) - 4;
    var h := EMPTY.(streamed := size == 0 || size >= 0x7fff0000);
    StreamFmtTurn(file, 12, length, fmt, h);
    WalkTurn(file, 12, length, h);
    StreamDataTurn(file, q, length - 8 - |fmt.body|, m, Tell(fmt, 20, h));
    WalkTurn(file, q, length - 8 - |fmt.body|, Tell(fmt, 20, h));
  }

  /** A fmt chunk with fewer than 16 bytes says nothing. */
  lemma ShortFmtSaysNothing(body: File)
    requires |body| < 16 && Bytes(body)
    ensures var file := RiffFile([Chunk(FMT, body)]);
            Bytes(file) && WalkFile(file, 0, EMPTY) == Opened(0, EMPTY)
  {
    hide WalkFile, WalkChunks, U32, U16, Tag, Be4, Le4, Encode, RiffOf;
    var c := Chunk(FMT, body);
    EncodeParts(c);
    assert EncodeAll([c]) == Encode(c) + EncodeAll([]) == Encode(c);
    var file := RiffFile([c]);
    EncodedBytes([c]);
    RiffBytes(Encode(c));
    RiffParts(Encode(c), []);
    assert file + [] == file;
    OpenRiff(Encode(c), []);
    ChunkParts(file, 12, c);
    WalkTurn(file, 12, |Encode(c)|, EMPTY);
    OuterTurn(file, |file|, EMPTY);
  }

  /** Eight thousand samples of two bytes a second, on one channel, byte by byte. */
  lemma PlainBody()
    ensures FmtBody(1, Fmt(1, 1, 8000, 16000, 2, 16))
         == [0x01, 0x00, 0x01, 0x00, 0x40, 0x1f, 0x00, 0x00, 0x80, 0x3e, 0x00, 0x00, 0x02, 0x00, 0x10, 0x00]
  {
  }
}
