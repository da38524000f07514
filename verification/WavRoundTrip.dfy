/** RIFF/WAVE files written chunk by chunk, and what the walk makes of them. */
module WavRoundTrip {
  import opened WavFile

  datatype Chunk = Chunk(id: int, body: File)

  function Be4(n: int): (b: File)
    ensures |b| == 4
  {
    [n / 0x100_0000 % 256, n / 0x1_0000 % 256, n / 0x100 % 256, n % 256]
  }

  function Le4(n: int): (b: File)
    ensures |b| == 4
  {
    [n % 256, n / 0x100 % 256, n / 0x1_0000 % 256, n / 0x100_0000 % 256]
  }

  function Encode(c: Chunk): File {
    Be4(c.id) + Le4(|c.body|) + c.body
  }

  function EncodeAll(cs: seq<Chunk>): File {
    if cs == [] then [] else Encode(cs[0]) + EncodeAll(cs[1..])
  }

  /** The file with one RIFF chunk of form WAVE around some content. */
  function RiffOf(content: File): File {
    Be4(RIFF) + Le4(4 + |content|) + Be4(WAVE) + content
  }

  /** The chunks one behind the other, as the reader expects them. */
  function RiffFile(cs: seq<Chunk>): File {
    RiffOf(EncodeAll(cs))
  }

  /** fmt bodies of 16 bytes or more, 28 or more when extensible; data bodies not empty. */
  ghost predicate WellFormed(c: Chunk) {
    && 0 <= c.id < WRAP && Bytes(c.body)
    && (c.id == FMT ==> |c.body| >= 16 && (U16(c.body, 0) == 0xfffe ==> |c.body| >= 28))
    && (c.id == DATA ==> c.body != [])
  }

  /** What a chunk says to the header, read from its own body. */
  function Tell(c: Chunk, bodyPos: nat, h: Header): Header {
    if c.id == FMT && |c.body| >= 16 then
      h.(format := if U16(c.body, 0) == 0xfffe then ToInt(U32(c.body, 24)) else U16(c.body, 0),
         channels := U16(c.body, 2), sampleRate := ToInt(U32(c.body, 4)), byteRate := ToInt(U32(c.body, 8)),
         blockAlign := U16(c.body, 12), bits := U16(c.body, 14))
    else if c.id == DATA then h.(dataPos := bodyPos, dataLength := |c.body|)
    else h
  }

  function TellAll(cs: seq<Chunk>, pos: nat, h: Header): Header {
    if cs == [] then h else TellAll(cs[1..], pos + 8 + |cs[0].body|, Tell(cs[0], pos + 8, h))
  }

  lemma Digits(n: int)
    requires 0 <= n < WRAP
    ensures n / 0x100_0000 < 256
    ensures n / 0x100_0000 * 256 + n / 0x1_0000 % 256 == n / 0x1_0000
    ensures n / 0x1_0000 * 256 + n / 0x100 % 256 == n / 0x100
    ensures n / 0x100 * 256 + n % 256 == n
  {
  }

  lemma Be4Tag(file: File, p: nat, n: int)
    requires 0 <= n < WRAP && p + 4 <= |file| && file[p..p + 4] == Be4(n)
    ensures Tag(file, p) == n
  {
    var b := file[p..p + 4];
    assert file[p] == b[0] && file[p + 1] == b[1] && file[p + 2] == b[2] && file[p + 3] == b[3];
    Digits(n);
    var t0, t1, t2 := n / 0x100_0000, n / 0x1_0000, n / 0x100;
    assert ShiftIn(0, b[0]) == t0;
    assert ShiftIn(t0, b[1]) == t1;
    assert ShiftIn(t1, b[2]) == t2;
    assert ShiftIn(t2, b[3]) == n;
  }

  lemma Le4U32(file: File, p: nat, n: int)
    requires 0 <= n < WRAP && p + 4 <= |file| && file[p..p + 4] == Le4(n)
    ensures U32(file, p) == n
  {
    var b := file[p..p + 4];
    assert file[p] == b[0] && file[p + 1] == b[1] && file[p + 2] == b[2] && file[p + 3] == b[3];
    Digits(n);
  }

  lemma SameByte(file: File, p: nat, body: File, q: nat)
    requires p + |body| <= |file| && file[p..p + |body|] == body && q < |body|
    ensures GetC(file, p + q) == GetC(body, q)
  {
    assert file[p + q] == file[p..p + |body|][q];
  }

  lemma SameU32(file: File, p: nat, body: File, q: nat)
    requires p + |body| <= |file| && file[p..p + |body|] == body && q + 4 <= |body|
    ensures U32(file, p + q) == U32(body, q)
  {
    hide GetC, OrAt;
    SameByte(file, p, body, q);
    SameByte(file, p, body, q + 1);
    SameByte(file, p, body, q + 2);
    SameByte(file, p, body, q + 3);
  }

  lemma SameU16(file: File, p: nat, body: File, q: nat)
    requires p + |body| <= |file| && file[p..p + |body|] == body && q + 2 <= |body|
    ensures U16(file, p + q) == U16(body, q)
  {
    hide GetC, OrAt;
    SameByte(file, p, body, q);
    SameByte(file, p, body, q + 1);
  }

  lemma EncodeParts(c: Chunk)
    ensures |Encode(c)| == 8 + |c.body|
    ensures Encode(c)[..4] == Be4(c.id) && Encode(c)[4..8] == Le4(|c.body|) && Encode(c)[8..] == c.body
  {
    hide Be4, Le4;
  }

  lemma SliceOfSlice(file: File, p: nat, n: nat, i: nat, j: nat)
    requires p + n <= |file| && i <= j <= n
    ensures file[p..p + n][i..j] == file[p + i..p + j]
  {
    var whole, part := file[p..p + n], file[p + i..p + j];
    assert |whole[i..j]| == |part|;
    forall k | 0 <= k < j - i ensures whole[i..j][k] == part[k] {
      assert whole[i..j][k] == whole[i + k] == file[p + (i + k)];
    }
  }

  /** The parts of an encoded chunk where they stand in the file. */
  lemma ChunkParts(file: File, pos: nat, c: Chunk)
    requires 0 <= c.id < WRAP && |c.body| < 0x7fff0000
    requires pos + 8 + |c.body| <= |file| && file[pos..pos + 8 + |c.body|] == Encode(c)
    ensures Tag(file, pos) == c.id && U32(file, pos + 4) == |c.body|
    ensures file[pos + 8..pos + 8 + |c.body|] == c.body
  {
    hide U32, Tag, Be4, Le4, Encode;
    EncodeParts(c);
    var e := file[pos..pos + 8 + |c.body|];
    SliceOfSlice(file, pos, |e|, 0, 4);
    SliceOfSlice(file, pos, |e|, 4, 8);
    SliceOfSlice(file, pos, |e|, 8, |e|);
    assert e[8..|e|] == e[8..];
    Be4Tag(file, pos, c.id);
    Le4U32(file, pos + 4, |c.body|);
  }

  lemma FmtRead(file: File, body: nat, left: int, c: Chunk, h: Header)
    requires Bytes(file) && c.id == FMT && WellFormed(c) && |c.body| < 0x7fff0000
    requires body + |c.body| <= |file| && file[body..body + |c.body|] == c.body && |c.body| <= left
    ensures FmtTurn(file, body, left, |c.body|, h) == Go(body + |c.body|, left - |c.body|, Tell(c, body, h))
  {
    hide U32, U16;
    SameU16(file, body, c.body, 0);
    SameU16(file, body, c.body, 2);
    SameU32(file, body, c.body, 4);
    SameU32(file, body, c.body, 8);
    SameU16(file, body, c.body, 12);
    SameU16(file, body, c.body, 14);
    if |c.body| >= 28 {
      SameU32(file, body, c.body, 24);
    }
  }

  /** One well-formed chunk is one turn of the loop. */
  lemma ChunkRead(file: File, pos: nat, length: int, c: Chunk, h: Header)
    requires Bytes(file) && WellFormed(c) && !h.streamed && |c.body| < 0x7fff0000
    requires 8 + |c.body| <= length && pos + length <= |file|
    requires file[pos..pos + 8 + |c.body|] == Encode(c)
    ensures ChunkTurn(file, pos, length, h) == Go(pos + 8 + |c.body|, length - 8 - |c.body|, Tell(c, pos + 8, h))
  {
    hide U32, U16, Tag, FmtTurn, Encode;
    ChunkParts(file, pos, c);
    ReadRange(file, pos + 4);
    if c.id == FMT {
      FmtRead(file, pos + 8, length - 8, c, h);
    }
  }

  /** Well-formed chunks at the front of a RIFF chunk are read off, and the walk goes on behind them. */
  lemma {:induction false} AllRead(file: File, pos: nat, cs: seq<Chunk>, more: nat, h: Header)
    requires Bytes(file) && (forall c :: c in cs ==> WellFormed(c)) && !h.streamed
    requires |EncodeAll(cs)| + more < 0x7fff0000 && pos + |EncodeAll(cs)| + more <= |file|
    requires file[pos..pos + |EncodeAll(cs)|] == EncodeAll(cs)
    ensures WalkChunks(file, pos, |EncodeAll(cs)| + more, h)
         == WalkChunks(file, pos + |EncodeAll(cs)|, more, TellAll(cs, pos, h))
    ensures !TellAll(cs, pos, h).streamed
    decreases |cs|
  {
    hide ChunkTurn, Tell, WellFormed, Be4, Le4, Encode;
    if cs != [] {
      EncodeParts(cs[0]);
      var all, first := EncodeAll(cs), Encode(cs[0]);
      var q := pos + |first|;
      assert cs[0] in cs;
      assert file[pos..q] == file[pos..pos + |all|][..|first|] == first;
      assert file[q..pos + |all|] == file[pos..pos + |all|][|first|..] == EncodeAll(cs[1..]);
      ChunkRead(file, pos, |all| + more, cs[0], h);
      TellKeeps(cs[0], pos + 8, h);
      AllRead(file, q, cs[1..], more, Tell(cs[0], pos + 8, h));
    }
  }

  lemma TellKeeps(c: Chunk, bodyPos: nat, h: Header)
    ensures Tell(c, bodyPos, h).streamed == h.streamed
  {
  }

  lemma RiffParts(content: File, more: File)
    ensures var file := RiffOf(content) + more;
            && |file| == 12 + |content| + |more| && file[0..4] == Be4(RIFF) && file[4..8] == Le4(4 + |content|)
            && file[8..12] == Be4(WAVE) && file[12..12 + |content|] == content
  {
    hide Be4, Le4;
    var a, b, c := Be4(RIFF), Le4(4 + |content|), Be4(WAVE);
    assert RiffOf(content) + more == [] + a + (b + c + content + more) == a + b + (c + content + more)
        == (a + b) + c + (content + more) == (a + b + c) + content + more;
    MiddleOf([], a, b + c + content + more);
    MiddleOf(a, b, c + content + more);
    MiddleOf(a + b, c, content + more);
    MiddleOf(a + b + c, content, more);
  }

  /** Opening a RIFF chunk walks its content, and then whatever lies behind the place the walk ends at. */
  lemma OpenRiff(content: File, more: File)
    requires Bytes(RiffOf(content) + more) && 4 + |content| < 0x7fff0000
    ensures var file := RiffOf(content) + more;
            var w := WalkChunks(file, 12, |content|, EMPTY);
            WalkFile(file, 0, EMPTY)
            == if w.returned then Opened(w.pos, w.header) else WalkFile(file, w.pos + w.left, w.header)
  {
    hide WalkFile, WalkChunks, Tag, U32, Be4, Le4;
    hide RiffOf, Advance;
    var file, size := RiffOf(content) + more, 4 + |content|;
    RiffParts(content, more);
    Be4Tag(file, 0, RIFF);
    Le4U32(file, 4, size);
    Be4Tag(file, 8, WAVE);
    OuterTurn(file, 0, EMPTY);
  }

  lemma {:induction false} EncodedBytes(cs: seq<Chunk>)
    requires forall c :: c in cs ==> 0 <= c.id < WRAP && Bytes(c.body)
    ensures Bytes(EncodeAll(cs))
  {
    if cs != [] {
      assert cs[0] in cs;
      EncodedBytes(cs[1..]);
    }
  }

  lemma RiffBytes(content: File)
    requires Bytes(content)
    ensures Bytes(RiffOf(content))
  {
  }

  /** Opening a written file gives what its chunks say, and leaves the reader at the last data chunk. */
  lemma RoundTrip(cs: seq<Chunk>)
    requires forall c :: c in cs ==> WellFormed(c)
    requires 4 + |EncodeAll(cs)| < 0x7fff0000
    ensures Bytes(RiffFile(cs))
    ensures var h := TellAll(cs, 12, EMPTY);
            WalkFile(RiffFile(cs), 0, EMPTY) == Opened(h.dataPos, h)
  {
    hide WalkFile, WalkChunks, EncodeAll, RiffOf, Tell, U16;
    var file, all := RiffFile(cs), EncodeAll(cs);
    EncodedBytes(cs);
    RiffBytes(all);
    RiffParts(all, []);
    assert file + [] == file;
    OpenRiff(all, []);
    AllRead(file, 12, cs, 0, EMPTY);
    WalkEnds(file, 12 + |all|, 0, TellAll(cs, 12, EMPTY));
    OuterTurn(file, 12 + |all|, TellAll(cs, 12, EMPTY));
  }

  lemma WalkEnds(file: File, pos: nat, length: int, h: Header)
    requires Bytes(file) && 0 <= length < 8
    ensures WalkChunks(file, pos, length, h) == Walked(pos, length, h, false)
  {
  }

  /** The last chunk of its kind decides. */
  lemma {:induction false} LastFmtDecides(cs: seq<Chunk>, k: nat, pos: nat, h: Header)
    requires k < |cs| && cs[k].id == FMT && |cs[k].body| >= 16
    requires forall j :: k < j < |cs| ==> cs[j].id != FMT
    ensures var r, t := TellAll(cs, pos, h), Tell(cs[k], 0, EMPTY);
            r.format == t.format && r.channels == t.channels && r.sampleRate == t.sampleRate
            && r.byteRate == t.byteRate && r.blockAlign == t.blockAlign && r.bits == t.bits
    decreases |cs|
  {
    var h1 := Tell(cs[0], pos + 8, h);
    if k > 0 {
      LastFmtDecides(cs[1..], k - 1, pos + 8 + |cs[0].body|, h1);
    } else {
      NoFmt(cs[1..], pos + 8 + |cs[0].body|, h1);
    }
  }

  lemma {:induction false} NoFmt(cs: seq<Chunk>, pos: nat, h: Header)
    requires forall j :: 0 <= j < |cs| ==> cs[j].id != FMT
    ensures var r := TellAll(cs, pos, h);
            r == h.(dataPos := r.dataPos, dataLength := r.dataLength)
    decreases |cs|
  {
    if cs != [] {
      NoFmt(cs[1..], pos + 8 + |cs[0].body|, Tell(cs[0], pos + 8, h));
    }
  }

  lemma {:induction false} LastDataDecides(cs: seq<Chunk>, k: nat, pos: nat, h: Header)
    requires k < |cs| && cs[k].id == DATA
    requires forall j :: k < j < |cs| ==> cs[j].id != DATA
    ensures TellAll(cs, pos, h).dataLength == |cs[k].body|
    ensures TellAll(cs, pos, h).dataPos == pos + |EncodeAll(cs[..k])| + 8
    decreases |cs|
  {
    var q, h1 := pos + 8 + |cs[0].body|, Tell(cs[0], pos + 8, h);
    if k > 0 {
      LastDataDecides(cs[1..], k - 1, q, h1);
      assert cs[..k][1..] == cs[1..][..k - 1];
    } else {
      NoData(cs[1..], q, h1);
    }
  }

  lemma {:induction false} NoData(cs: seq<Chunk>, pos: nat, h: Header)
    requires forall j :: 0 <= j < |cs| ==> cs[j].id != DATA
    ensures TellAll(cs, pos, h).dataPos == h.dataPos && TellAll(cs, pos, h).dataLength == h.dataLength
    decreases |cs|
  {
    if cs != [] {
      NoData(cs[1..], pos + 8 + |cs[0].body|, Tell(cs[0], pos + 8, h));
    }
  }

  lemma MiddleOf(a: File, b: File, c: File)
    ensures (a + b + c)[|a|..|a| + |b|] == b
  {
  }

  /** The data bytes stand where the reader is left, whatever follows the chunks. */
  lemma DataStandsThere(cs: seq<Chunk>, k: nat, more: File)
    requires k < |cs|
    ensures var p := 12 + |EncodeAll(cs[..k])| + 8;
            var file := RiffOf(EncodeAll(cs) + more);
            p + |cs[k].body| <= |file| && file[p..p + |cs[k].body|] == cs[k].body
  {
    hide EncodeAll, Be4, Le4;
    EncodeSplit(cs, k);
    var before, rest := EncodeAll(cs[..k]), EncodeAll(cs[k + 1..]);
    var head := Be4(RIFF) + Le4(4 + |EncodeAll(cs) + more|) + Be4(WAVE);
    var front := head + before + Be4(cs[k].id) + Le4(|cs[k].body|);
    assert RiffOf(EncodeAll(cs) + more) == front + cs[k].body + (rest + more);
    MiddleOf(front, cs[k].body, rest + more);
  }

  lemma {:induction false} EncodeSplit(cs: seq<Chunk>, k: nat)
    requires k < |cs|
    ensures EncodeAll(cs) == EncodeAll(cs[..k]) + (Encode(cs[k]) + EncodeAll(cs[k + 1..]))
    decreases k
  {
    hide Encode;
    if k > 0 {
      EncodeSplit(cs[1..], k - 1);
      assert cs[..k][1..] == cs[1..][..k - 1] && cs[1..][k..] == cs[k + 1..];
    }
  }

  /** An extensible fmt chunk with fewer than 28 bytes. */
  predicate ShortExtensible(file: File, pos: nat, length: int)
    requires Bytes(file)
  {
    && length >= 8 && pos + 8 <= |file| && Tag(file, pos) == FMT
    && 16 <= U32(file, pos + 4) < 28 && U32(file, pos + 4) <= length - 8 && U16(file, pos + 8) == 0xfffe
  }

  /** Some turn of the loop stops at an extensible fmt chunk that is too short. */
  ghost predicate StopsShort(file: File, pos: nat, length: int, h: Header)
    requires Bytes(file) && length >= 0
    decreases length
  {
    length >= 8 &&
    (ShortExtensible(file, pos, length) ||
     (var t := ChunkTurn(file, pos, length, h);
      TurnAhead(file, pos, length, h);
      t.Go? && StopsShort(file, t.pos, t.left, t.header)))
  }

  lemma TurnBalances(file: File, pos: nat, length: int, h: Header)
    requires Bytes(file) && 8 <= length < 0x8000_0000 && pos + length <= |file|
    ensures var t := ChunkTurn(file, pos, length, h);
            if t.Go? then t.pos + t.left == pos + length
            else t.walked.pos + t.walked.left == pos + length + (if ShortExtensible(file, pos, length) then 16 else 0)
                 || t.walked.returned
  {
    hide U32, U16, Tag;
    ReadRange(file, pos + 4);
  }

  /** On an untruncated RIFF chunk the position and what is left add up to the chunk's end at every turn,
      and the loop ends on them unless it stops at a short extensible fmt chunk. */
  lemma {:induction false} WalkBalances(file: File, pos: nat, length: int, h: Header)
    requires Bytes(file) && 0 <= length < 0x8000_0000 && pos + length <= |file|
    ensures var w := WalkChunks(file, pos, length, h);
            !w.returned ==> w.pos + w.left == pos + length + (if StopsShort(file, pos, length, h) then 16 else 0)
    decreases length
  {
    hide ChunkTurn, ShortExtensible;
    if length >= 8 {
      TurnBalances(file, pos, length, h);
      TurnAhead(file, pos, length, h);
      var t := ChunkTurn(file, pos, length, h);
      if t.Go? {
        WalkBalances(file, t.pos, t.left, t.header);
        GoIsNotShort(file, pos, length, h);
      }
    }
  }

  lemma GoIsNotShort(file: File, pos: nat, length: int, h: Header)
    requires Bytes(file) && length >= 8 && ChunkTurn(file, pos, length, h).Go?
    ensures !ShortExtensible(file, pos, length)
  {
    hide U32, U16, Tag;
  }

  /** A fmt chunk of 16 bytes that claims the extensible format. */
  const SHORT_FMT: Chunk := Chunk(FMT, [0xfe, 0xff, 0, 0, 0, 0, 0, 0, 0, 0, 0, 0, 0, 0, 0, 0])

  /** A RIFF chunk with nothing else inside ends at 36; the open goes on at 52, whatever stands behind it. */
  lemma ShortFmtOvershoots(more: File)
    requires Bytes(more)
    ensures var file := RiffFile([SHORT_FMT]) + more;
            && Bytes(file) && StopsShort(file, 12, 24, EMPTY)
            && var w := WalkChunks(file, 12, 24, EMPTY);
            !w.returned && w.pos + w.left == 36 + 16 && WalkFile(file, 0, EMPTY) == WalkFile(file, 52, w.header)
  {
    hide WalkFile, U32, Tag, Be4, Le4, Encode;
    var file, e := RiffFile([SHORT_FMT]) + more, Encode(SHORT_FMT);
    EncodeParts(SHORT_FMT);
    assert EncodeAll([SHORT_FMT]) == e + [] == e;
    ShortFmtBytes(more);
    assert file[12..36] == e;
    ChunkParts(file, 12, SHORT_FMT);
    SameU16(file, 20, SHORT_FMT.body, 0);
    assert ShortExtensible(file, 12, 24);
    TurnBalances(file, 12, 24, EMPTY);
    OpenRiff(e, more);
  }

  lemma ShortFmtIsBytes()
    ensures forall c :: c in [SHORT_FMT] ==> 0 <= c.id < WRAP && Bytes(c.body)
  {
  }

  lemma ShortFmtBytes(more: File)
    requires Bytes(more)
    ensures Bytes(RiffFile([SHORT_FMT]) + more)
  {
    ShortFmtIsBytes();
    EncodedBytes([SHORT_FMT]);
    RiffBytes(EncodeAll([SHORT_FMT]));
  }
}
