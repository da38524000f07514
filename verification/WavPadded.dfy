/**
 * RIFF/WAVE files as a conforming writer makes them, with a zero byte behind every body of odd size,
 * and what becomes of them in a reader that does not know about that byte.
 */
module WavPadded {
  import opened WavFile
  import opened WavRoundTrip

  predicate Odd(c: Chunk) {
    |c.body| % 2 == 1
  }

  function Pad(c: Chunk): File {
    if Odd(c) then [0] else []
  }

  function PaddedAll(cs: seq<Chunk>): File {
    if cs == [] then [] else Encode(cs[0]) + Pad(cs[0]) + PaddedAll(cs[1..])
  }

  function PaddedFile(cs: seq<Chunk>): File {
    RiffOf(PaddedAll(cs))
  }

  /** What the chunks of a padded file say, each from its true place. */
  function PaddedTell(cs: seq<Chunk>, pos: nat, h: Header): Header {
    if cs == [] then h
    else PaddedTell(cs[1..], pos + 8 + |cs[0].body| + |Pad(cs[0])|, Tell(cs[0], pos + 8, h))
  }

  /** A file that fits the reader: well-formed chunks and a size that is not taken for an unknown one. */
  ghost predicate Fits(cs: seq<Chunk>) {
    (forall c :: c in cs ==> WellFormed(c)) && 4 + |PaddedAll(cs)| < 0x7fff0000
  }

  /** The open finds what a reader that skips the pads would find. */
  ghost predicate ReadsRight(cs: seq<Chunk>)
    requires Bytes(PaddedFile(cs))
  {
    var h := PaddedTell(cs, 12, EMPTY);
    WalkFile(PaddedFile(cs), 0, EMPTY) == Opened(h.dataPos, h)
  }

  predicate EvenBeforeLast(cs: seq<Chunk>) {
    forall j :: 0 <= j < |cs| - 1 ==> !Odd(cs[j])
  }

  /** Chunk k is the first of odd size, and another one follows. */
  predicate FirstOdd(cs: seq<Chunk>, k: nat) {
    k + 1 < |cs| && Odd(cs[k]) && forall j :: 0 <= j < k ==> !Odd(cs[j])
  }

  /** The size that is read for a chunk when its header is read one byte too early. */
  function Misread(c: Chunk): nat {
    c.id % 0x100 + |c.body| % 0x100_0000 * 0x100
  }

  lemma {:induction false} PaddedBytes(cs: seq<Chunk>)
    requires forall c :: c in cs ==> WellFormed(c)
    ensures Bytes(PaddedAll(cs)) && Bytes(PaddedFile(cs))
  {
    hide RiffOf;
    if cs != [] {
      assert cs[0] in cs;
      PaddedBytes(cs[1..]);
      EncodedBytes([cs[0]]);
      assert EncodeAll([cs[0]]) == Encode(cs[0]) + [] == Encode(cs[0]);
    }
    RiffBytes(PaddedAll(cs));
  }

  /** Up to the first odd chunk a padded file is the plain one. */
  lemma {:induction false} PlainBefore(cs: seq<Chunk>, k: nat)
    requires k < |cs| && forall j :: 0 <= j < k ==> !Odd(cs[j])
    ensures PaddedAll(cs) == EncodeAll(cs[..k + 1]) + (Pad(cs[k]) + PaddedAll(cs[k + 1..]))
    decreases k
  {
    hide Encode, Pad;
    if k > 0 {
      PlainBefore(cs[1..], k - 1);
      assert cs[1..][..k] == cs[..k + 1][1..] && cs[1..][k..] == cs[k + 1..];
      EvenPad(cs[0]);
      Regroup(Encode(cs[0]), EncodeAll(cs[..k + 1][1..]), Pad(cs[k]) + PaddedAll(cs[k + 1..]));
    } else {
      assert cs[..1][1..] == [] && EncodeAll(cs[..1]) == Encode(cs[0]) + [];
      Regroup(Encode(cs[0]), [], Pad(cs[0]) + PaddedAll(cs[1..]));
      assert Encode(cs[0]) + Pad(cs[0]) + PaddedAll(cs[1..]) == Encode(cs[0]) + (Pad(cs[0]) + PaddedAll(cs[1..]));
    }
  }

  lemma EvenPad(c: Chunk)
    ensures |Pad(c)| <= 1 && (!Odd(c) ==> Pad(c) == [])
  {
  }

  lemma Regroup(a: File, b: File, c: File)
    ensures a + [] + (b + c) == (a + b) + c
    ensures b == [] ==> a + c == (a + b) + c
  {
  }

  lemma {:induction false} TellBefore(cs: seq<Chunk>, k: nat, pos: nat, h: Header)
    requires k < |cs| && forall j :: 0 <= j < k ==> !Odd(cs[j])
    ensures PaddedTell(cs, pos, h)
         == PaddedTell(cs[k + 1..], pos + |EncodeAll(cs[..k + 1])| + |Pad(cs[k])|, TellAll(cs[..k + 1], pos, h))
    decreases k
  {
    hide Tell, Encode;
    EncodeParts(cs[0]);
    if k > 0 {
      TellBefore(cs[1..], k - 1, pos + 8 + |cs[0].body|, Tell(cs[0], pos + 8, h));
      assert cs[1..][..k] == cs[..k + 1][1..] && cs[1..][k..] == cs[k + 1..];
    } else {
      assert cs[..1][1..] == [] && EncodeAll(cs[..1]) == Encode(cs[0]) + [] == Encode(cs[0]);
    }
  }

  /** The walk through padded chunks as far as the first pad that could be in the way. */
  lemma ReachesPad(file: File, pos: nat, cs: seq<Chunk>, k: nat, h: Header)
    requires Bytes(file) && Fits(cs) && !h.streamed
    requires pos <= |file| && file[pos..] == PaddedAll(cs)
    requires k < |cs| && forall j :: 0 <= j < k ==> !Odd(cs[j])
    ensures var h1 := TellAll(cs[..k + 1], pos, h);
            var q := pos + |EncodeAll(cs[..k + 1])|;
            var more := Pad(cs[k]) + PaddedAll(cs[k + 1..]);
            && q + |more| == |file| && file[q..] == more && !h1.streamed
            && WalkChunks(file, pos, |PaddedAll(cs)|, h) == WalkChunks(file, q, |more|, h1)
  {
    hide WalkChunks, Tell, WellFormed, Encode, Pad, PaddedAll, EncodeAll;
    var plain, more := EncodeAll(cs[..k + 1]), Pad(cs[k]) + PaddedAll(cs[k + 1..]);
    PlainBefore(cs, k);
    assert file[pos..] == plain + more;
    assert file[pos..pos + |plain|] == file[pos..][..|plain|] == plain;
    assert file[pos + |plain|..] == file[pos..][|plain|..] == more;
    forall c | c in cs[..k + 1] ensures WellFormed(c) {
      assert c in cs;
    }
    AllRead(file, pos, cs[..k + 1], |more|, h);
  }

  /** Where a walk has come to the end of the file with what the chunks say, it has read them right. */
  ghost predicate Complete(file: File, w: Walked, h: Header) {
    !w.returned && w.pos + w.left == |file| && w.header == h
  }

  lemma NoTells(pos: nat, h: Header)
    ensures PaddedAll([]) == [] && PaddedTell([], pos, h) == TellAll([], pos, h) == h
  {
  }

  /** When only the last chunk may be odd, the walk is right: the last pad is less than a chunk header. */
  lemma WalkEven(file: File, pos: nat, cs: seq<Chunk>, h: Header)
    requires Bytes(file) && Fits(cs) && !h.streamed && EvenBeforeLast(cs)
    requires pos <= |file| && file[pos..] == PaddedAll(cs)
    ensures Complete(file, WalkChunks(file, pos, |PaddedAll(cs)|, h), PaddedTell(cs, pos, h))
    ensures PaddedTell(cs, pos, h) == TellAll(cs, pos, h)
  {
    hide TellAll, PaddedTell, PaddedAll, WellFormed, EncodeAll, WalkChunks, Pad;
    NoTells(pos, h);
    if cs == [] {
      WalkEnds(file, pos, 0, h);
    } else {
      var k, h1, q := |cs| - 1, TellAll(cs, pos, h), pos + |EncodeAll(cs)|;
      assert cs[..k + 1] == cs && cs[k + 1..] == [];
      EvenPad(cs[k]);
      assert PaddedTell(cs, pos, h) == h1 by {
        TellBefore(cs, k, pos, h);
        NoTells(q + |Pad(cs[k])|, h1);
      }
      assert WalkChunks(file, pos, |PaddedAll(cs)|, h) == Walked(q, |Pad(cs[k])|, h1, false)
          && q + |Pad(cs[k])| == |file| by {
        ReachesPad(file, pos, cs, k, h);
        WalkEnds(file, q, |Pad(cs[k])|, h1);
      }
    }
  }

  /** The content of a padded file stands at 12, and opening the file is the walk over it. */
  lemma Opens(cs: seq<Chunk>, w: Walked, h: Header)
    requires Fits(cs)
    ensures Bytes(PaddedFile(cs)) && 12 <= |PaddedFile(cs)| && PaddedFile(cs)[12..] == PaddedAll(cs)
    ensures w == WalkChunks(PaddedFile(cs), 12, |PaddedAll(cs)|, EMPTY) && Complete(PaddedFile(cs), w, h)
        ==> WalkFile(PaddedFile(cs), 0, EMPTY) == Opened(h.dataPos, h)
  {
    hide RiffOf, WalkFile, WalkChunks, PaddedAll;
    var file := PaddedFile(cs);
    PaddedBytes(cs);
    RiffParts(PaddedAll(cs), []);
    assert file + [] == file;
    assert file[12..] == file[12..12 + |PaddedAll(cs)|];
    OpenRiff(PaddedAll(cs), []);
    OuterTurn(file, |file|, h);
  }

  /** A padded file in which only the last chunk may be odd opens to what its chunks say. */
  lemma PaddedRoundTrip(cs: seq<Chunk>)
    requires Fits(cs) && EvenBeforeLast(cs)
    ensures Bytes(PaddedFile(cs)) && ReadsRight(cs)
    ensures PaddedTell(cs, 12, EMPTY) == TellAll(cs, 12, EMPTY)
  {
    hide PaddedFile, PaddedAll, WalkFile, WalkChunks, WellFormed, Tell;
    var h := PaddedTell(cs, 12, EMPTY);
    Opens(cs, Walked(0, 0, EMPTY, false), h);
    Opens(cs, WalkChunks(PaddedFile(cs), 12, |PaddedAll(cs)|, EMPTY), h);
    WalkEven(PaddedFile(cs), 12, cs, EMPTY);
  }

  lemma LateDigits(n: int)
    requires 0 <= n < WRAP
    ensures n / 0x100_0000 * 0x1_0000 + n / 0x1_0000 % 0x100 * 0x100 + n / 0x100 % 0x100 == n / 0x100
    ensures n % 0x100 + n / 0x100 % 0x100 * 0x100 + n / 0x1_0000 % 0x100 * 0x1_0000 == n % 0x100_0000
    ensures n / 0x100_0000 % 0x100 == n / 0x100_0000
  {
    Digits(n);
    assert n == n / 0x100_0000 * 0x100_0000 + n % 0x100_0000;
  }

  /** A header behind a pad: the identifier has a zero on top, and the size is made of the wrong four bytes. */
  lemma ReadEarly(file: File, q: nat, c: Chunk)
    requires 0 <= c.id < WRAP && |c.body| < 0x7fff0000 && q + 9 <= |file|
    requires file[q..q + 9] == [0] + Be4(c.id) + Le4(|c.body|)
    ensures Tag(file, q) == c.id / 0x100 && U32(file, q + 4) == Misread(c)
  {
    hide Tag, U32;
    var b, i, n := file[q..q + 9], c.id, |c.body|;
    assert file[q] == b[0] && file[q + 1] == b[1] && file[q + 2] == b[2] && file[q + 3] == b[3];
    assert file[q + 4] == b[4] && file[q + 5] == b[5] && file[q + 6] == b[6] && file[q + 7] == b[7];
    FourBytes(file, q, 0, i / 0x100_0000 % 0x100, i / 0x1_0000 % 0x100, i / 0x100 % 0x100);
    FourBytes(file, q + 4, i % 0x100, n % 0x100, n / 0x100 % 0x100, n / 0x1_0000 % 0x100);
    LateDigits(i);
    LateDigits(n);
  }

  lemma FourBytes(file: File, p: nat, b0: int, b1: int, b2: int, b3: int)
    requires p + 4 <= |file| && file[p] == b0 && file[p + 1] == b1 && file[p + 2] == b2 && file[p + 3] == b3
    requires 0 <= b0 < 0x100 && 0 <= b1 < 0x100 && 0 <= b2 < 0x100 && 0 <= b3 < 0x100
    ensures Tag(file, p) == b0 * 0x100_0000 + b1 * 0x1_0000 + b2 * 0x100 + b3
    ensures U32(file, p) == b0 + b1 * 0x100 + b2 * 0x1_0000 + b3 * 0x100_0000
  {
    hide ShiftIn, OrAt;
    Shifted(0, b0);
    Shifted(b0, b1);
    Shifted(b0 * 0x100 + b1, b2);
    Shifted(b0 * 0x1_0000 + b1 * 0x100 + b2, b3);
    Ored(0, b0, 1);
    Ored(b0, b1, 0x100);
    Ored(b0 + b1 * 0x100, b2, 0x1_0000);
    Ored(b0 + b1 * 0x100 + b2 * 0x1_0000, b3, 0x100_0000);
  }

  lemma Shifted(tag: int, c: int)
    requires 0 <= tag < 0x100_0000 && 0 <= c
    ensures ShiftIn(tag, c) == tag * 0x100 + c
  {
  }

  lemma Ored(value: int, c: int, unit: int)
    requires 0 <= value < unit && 0 <= c
    ensures OrAt(value, c, unit) == value + c * unit
  {
  }

  /** So the chunk is neither a fmt nor a data chunk to the reader, and is skipped by that size or ends the walk. */
  lemma TurnOnPad(file: File, q: nat, left: nat, c: Chunk, h: Header)
    requires Bytes(file) && 0 <= c.id < WRAP && |c.body| < 0x7fff0000
    requires 9 <= left < 0x7fff0000 && q + left <= |file|
    requires file[q..q + 9] == [0] + Be4(c.id) + Le4(|c.body|)
    ensures var m := Misread(c);
            ChunkTurn(file, q, left, h)
            == if m > left - 8 then Stop(Walked(q + 8, left - 8, h, false)) else Go(q + 8 + m, left - 8 - m, h)
  {
    hide Tag, U32, Misread, Be4, Le4, FmtTurn, DataTurn;
    ReadEarly(file, q, c);
    ReadRange(file, q + 4);
  }

  lemma HeaderBehindPad(cs: seq<Chunk>, k: nat)
    requires FirstOdd(cs, k)
    ensures var c, more := cs[k + 1], Pad(cs[k]) + PaddedAll(cs[k + 1..]);
            && |more| == 9 + |c.body| + |Pad(c)| + |PaddedAll(cs[k + 2..])|
            && more[..9] == [0] + Be4(c.id) + Le4(|c.body|)
            && more[9 + |c.body| + |Pad(c)|..] == PaddedAll(cs[k + 2..])
  {
    hide Be4, Le4;
    var c := cs[k + 1];
    assert cs[k + 1..][0] == c && cs[k + 1..][1..] == cs[k + 2..];
  }

  /**
   * Behind the first odd chunk that is not the last, the walk goes on at the place that the misread
   * size leads to, with everything else as the chunks before it left it.
   */
  lemma WalkBehindPad(file: File, cs: seq<Chunk>, k: nat)
    requires Fits(cs) && FirstOdd(cs, k) && file == PaddedFile(cs)
    ensures Bytes(file)
    ensures var h := TellAll(cs[..k + 1], 12, EMPTY);
            var q, m := 12 + |EncodeAll(cs[..k + 1])|, Misread(cs[k + 1]);
            var left := |file| - q - 8;
            && left == |PaddedAll(cs[k + 1..])| - 7 > 0 && !h.streamed
            && WalkChunks(file, 12, |PaddedAll(cs)|, EMPTY)
               == if m > left then Walked(q + 8, left, h, false) else WalkChunks(file, q + 8 + m, left - m, h)
  {
    hide PaddedFile, WalkFile, WalkChunks, WellFormed, Tell, Misread, ChunkTurn, Be4, Le4, PaddedAll, EncodeAll;
    Opens(cs, Walked(0, 0, EMPTY, false), EMPTY);
    ReachesPad(file, 12, cs, k, EMPTY);
    var c, h, q := cs[k + 1], TellAll(cs[..k + 1], 12, EMPTY), 12 + |EncodeAll(cs[..k + 1])|;
    HeaderBehindPad(cs, k);
    assert file[q..q + 9] == file[q..][..9];
    assert c in cs;
    WellFormedId(c);
    TurnOnPad(file, q, |file| - q, c, h);
    WalkTurn(file, q, |file| - q, h);
  }

  lemma WellFormedId(c: Chunk)
    requires WellFormed(c)
    ensures 0 <= c.id < WRAP
  {
  }

  /** The misread size leaves no room for another chunk header. */
  predicate Swallowed(cs: seq<Chunk>, k: nat)
    requires k + 1 < |cs|
  {
    Misread(cs[k + 1]) + 15 > |PaddedAll(cs[k + 1..])|
  }

  /** Then the open ends with what the chunks up to the odd one say, and everything behind is lost. */
  lemma PadSwallows(cs: seq<Chunk>, k: nat)
    requires Fits(cs) && FirstOdd(cs, k) && Swallowed(cs, k)
    ensures Bytes(PaddedFile(cs))
    ensures var h := TellAll(cs[..k + 1], 12, EMPTY);
            WalkFile(PaddedFile(cs), 0, EMPTY) == Opened(h.dataPos, h)
  {
    hide PaddedFile, WalkFile, WalkChunks, TellAll, WellFormed, Misread, PaddedAll, EncodeAll;
    var file, h := PaddedFile(cs), TellAll(cs[..k + 1], 12, EMPTY);
    WalkBehindPad(file, cs, k);
    var q, m := 12 + |EncodeAll(cs[..k + 1])|, Misread(cs[k + 1]);
    var left := |file| - q - 8;
    if m <= left {
      WalkEnds(file, q + 8 + m, left - m, h);
    }
    Opens(cs, WalkChunks(file, 12, |PaddedAll(cs)|, EMPTY), h);
  }

  lemma {:induction false} DataStaysBelow(cs: seq<Chunk>, pos: nat, h: Header)
    requires h.dataPos <= pos
    ensures TellAll(cs, pos, h).dataPos <= pos + |EncodeAll(cs)|
    decreases |cs|
  {
    hide Encode;
    if cs != [] {
      EncodeParts(cs[0]);
      DataStaysBelow(cs[1..], pos + 8 + |cs[0].body|, Tell(cs[0], pos + 8, h));
    }
  }

  lemma {:induction false} PaddedData(cs: seq<Chunk>, pos: nat, h: Header)
    ensures if forall c :: c in cs ==> c.id != DATA then PaddedTell(cs, pos, h).dataPos == h.dataPos
            else PaddedTell(cs, pos, h).dataPos >= pos + 8
    ensures (forall c :: c in cs ==> c.id != DATA && c.id != FMT) ==> PaddedTell(cs, pos, h) == h
    decreases |cs|
  {
    if cs != [] {
      var q, h1 := pos + 8 + |cs[0].body| + |Pad(cs[0])|, Tell(cs[0], pos + 8, h);
      PaddedData(cs[1..], q, h1);
      assert cs[0] in cs && (forall c :: c in cs[1..] ==> c in cs);
      assert forall c :: c in cs ==> c == cs[0] || c in cs[1..];
    }
  }

  /** In that case the data is found where it stands if and only if no data chunk follows the odd one, and
      all is read right if and only if the chunks behind it tell the header nothing new. */
  lemma FoundIff(cs: seq<Chunk>, k: nat)
    requires Fits(cs) && FirstOdd(cs, k) && Swallowed(cs, k)
    ensures Bytes(PaddedFile(cs))
    ensures WalkFile(PaddedFile(cs), 0, EMPTY).pos == PaddedTell(cs, 12, EMPTY).dataPos
       <==> forall c :: c in cs[k + 1..] ==> c.id != DATA
    ensures var h := TellAll(cs[..k + 1], 12, EMPTY);
            ReadsRight(cs) <==> PaddedTell(cs[k + 1..], 12 + |EncodeAll(cs[..k + 1])| + 1, h) == h
    ensures (exists c :: c in cs[k + 1..] && c.id == DATA) ==> !ReadsRight(cs)
    ensures (forall c :: c in cs[k + 1..] ==> c.id != DATA && c.id != FMT) ==> ReadsRight(cs)
  {
    hide PaddedFile, WalkFile, TellAll, PaddedTell, WellFormed, PaddedAll, EncodeAll, Swallowed;
    PadSwallows(cs, k);
    TellBefore(cs, k, 12, EMPTY);
    DataStaysBelow(cs[..k + 1], 12, EMPTY);
    PaddedData(cs[k + 1..], 12 + |EncodeAll(cs[..k + 1])| + 1, TellAll(cs[..k + 1], 12, EMPTY));
  }

  /** One more chunk behind an odd one, of less than 2^24 bytes, is always lost. */
  lemma LastIsLost(cs: seq<Chunk>, k: nat)
    requires Fits(cs) && FirstOdd(cs, k) && k + 2 == |cs| && |cs[k + 1].body| < 0x100_0000
    ensures Swallowed(cs, k) && Bytes(PaddedFile(cs))
    ensures var h := TellAll(cs[..k + 1], 12, EMPTY);
            WalkFile(PaddedFile(cs), 0, EMPTY) == Opened(h.dataPos, h)
  {
    hide WalkFile, TellAll, PaddedFile, WellFormed;
    MisreadReaches(cs, k);
    PadSwallows(cs, k);
  }

  lemma MisreadReaches(cs: seq<Chunk>, k: nat)
    requires FirstOdd(cs, k) && k + 2 == |cs| && |cs[k + 1].body| < 0x100_0000
    ensures Swallowed(cs, k)
  {
    hide Encode;
    var c := cs[k + 1];
    EncodeParts(c);
    assert cs[k + 1..] == [c] && PaddedAll([c]) == Encode(c) + Pad(c) + [];
  }

  // A data position that is found from some place on lies at least four bytes behind that place.

  lemma TurnFindsBehind(file: File, pos: nat, length: int, h: Header)
    requires Bytes(file) && length >= 8
    ensures match ChunkTurn(file, pos, length, h)
            case Go(_, _, h1) => h1.dataPos == h.dataPos || h1.dataPos >= pos + 4
            case Stop(w) =>
              (w.header.dataPos == h.dataPos || w.header.dataPos >= pos + 4) && (w.returned ==> w.pos >= pos + 4)
  {
    hide Tag, U32, U16;
    if pos + 4 <= |file| {
      ReadRange(file, pos + 4);
    }
  }

  lemma {:induction false} WalkFindsBehind(file: File, pos: nat, length: int, h: Header)
    requires Bytes(file) && length >= 0
    ensures var w := WalkChunks(file, pos, length, h);
            (w.header.dataPos == h.dataPos || w.header.dataPos >= pos + 4) && (w.returned ==> w.pos >= pos + 4)
    decreases length
  {
    hide ChunkTurn;
    if length >= 8 {
      TurnAhead(file, pos, length, h);
      TurnFindsBehind(file, pos, length, h);
      var t := ChunkTurn(file, pos, length, h);
      if t.Go? {
        WalkFindsBehind(file, t.pos, t.left, t.header);
      }
    }
  }

  lemma {:induction false} OpenFindsBehind(file: File, pos: nat, h: Header)
    requires Bytes(file)
    ensures var o := WalkFile(file, pos, h);
            o.pos == h.dataPos || o.pos >= pos + 4
    decreases if pos > |file| then 0 else |file| - pos
  {
    hide WalkFile, WalkChunks, Tag, U32;
    OuterTurn(file, pos, h);
    if pos + 4 <= |file| {
      var size, p := U32(file, pos + 4), Advance(file, pos + 4, 4);
      var unknown := size == 0 || size >= 0x7fff0000;
      var length := if unknown then WRAP - 1 else size;
      var h1 := if unknown then h.(streamed := true) else h;
      var q := Advance(file, p, 4);
      if Tag(file, pos) != RIFF || length < 4 {
        OpenFindsBehind(file, p + length, h1);
      } else if Tag(file, p) != WAVE {
        OpenFindsBehind(file, q + (length - 4), h1);
      } else {
        WalkFindsBehind(file, q, length - 4, h1);
        var w := WalkChunks(file, q, length - 4, h1);
        if !w.returned {
          OpenFindsBehind(file, w.pos + w.left, w.header);
        }
      }
    }
  }

  lemma OpenPadded(cs: seq<Chunk>)
    requires Fits(cs)
    ensures Bytes(PaddedFile(cs))
    ensures var w := WalkChunks(PaddedFile(cs), 12, |PaddedAll(cs)|, EMPTY);
            WalkFile(PaddedFile(cs), 0, EMPTY)
            == if w.returned then Opened(w.pos, w.header) else WalkFile(PaddedFile(cs), w.pos + w.left, w.header)
  {
    hide RiffOf, WalkFile, WalkChunks, PaddedAll;
    PaddedBytes(cs);
    assert PaddedFile(cs) + [] == PaddedFile(cs);
    OpenRiff(PaddedAll(cs), []);
  }

  /** The open of a padded file ends on a data position up to the first pad, or on one well behind it. */
  lemma FoundBesidePad(cs: seq<Chunk>, k: nat)
    requires Fits(cs) && FirstOdd(cs, k)
    ensures Bytes(PaddedFile(cs))
    ensures var p, q := WalkFile(PaddedFile(cs), 0, EMPTY).pos, 12 + |EncodeAll(cs[..k + 1])|;
            p <= q || p >= q + 12
  {
    hide PaddedFile, WalkFile, WalkChunks, TellAll, Fits, PaddedAll, EncodeAll, Misread;
    var file, h, q := PaddedFile(cs), TellAll(cs[..k + 1], 12, EMPTY), 12 + |EncodeAll(cs[..k + 1])|;
    WalkBehindPad(file, cs, k);
    OpenPadded(cs);
    DataStaysBelow(cs[..k + 1], 12, EMPTY);
    var m, left := Misread(cs[k + 1]), |file| - q - 8;
    var w := WalkChunks(file, 12, |PaddedAll(cs)|, EMPTY);
    if m <= left {
      WalkFindsBehind(file, q + 8 + m, left - m, h);
    }
    if !w.returned {
      OpenFindsBehind(file, w.pos + w.left, w.header);
    }
  }

  lemma TrueDataPlace(cs: seq<Chunk>, k: nat, pos: nat, h: Header)
    requires k + 1 < |cs| && cs[k + 1].id == DATA && forall j :: k + 1 < j < |cs| ==> cs[j].id != DATA
    ensures PaddedTell(cs[k + 1..], pos, h).dataPos == pos + 8
  {
    var c, rest := cs[k + 1], cs[k + 2..];
    assert cs[k + 1..][0] == c && cs[k + 1..][1..] == rest;
    PaddedData(rest, pos + 8 + |c.body| + |Pad(c)|, Tell(c, pos + 8, h));
  }

  /** Whatever the bodies hold, a last data chunk directly behind the first odd chunk is never found. */
  lemma DataBehindPadIsLost(cs: seq<Chunk>, k: nat)
    requires Fits(cs) && FirstOdd(cs, k) && cs[k + 1].id == DATA
    requires forall j :: k + 1 < j < |cs| ==> cs[j].id != DATA
    ensures Bytes(PaddedFile(cs))
    ensures WalkFile(PaddedFile(cs), 0, EMPTY).pos != PaddedTell(cs, 12, EMPTY).dataPos && !ReadsRight(cs)
  {
    hide PaddedFile, WalkFile, PaddedTell, TellAll, Fits, EncodeAll;
    FoundBesidePad(cs, k);
    TellBefore(cs, k, 12, EMPTY);
    TrueDataPlace(cs, k, 12 + |EncodeAll(cs[..k + 1])| + 1, TellAll(cs[..k + 1], 12, EMPTY));
  }

  /**
   * The misread size can lead back to a chunk by chance: an empty chunk whose identifier ends in a
   * byte of 1 takes up the pad, and the rest of the file is read right.
   */
  lemma PadTakenUp(cs: seq<Chunk>, k: nat)
    requires Fits(cs) && FirstOdd(cs, k)
    requires cs[k + 1].body == [] && cs[k + 1].id % 0x100 == 1 && EvenBeforeLast(cs[k + 2..])
    ensures Bytes(PaddedFile(cs)) && ReadsRight(cs)
  {
    hide PaddedFile, WalkFile, WalkChunks, TellAll, WellFormed, PaddedAll, EncodeAll;
    var file, h, c, rest := PaddedFile(cs), TellAll(cs[..k + 1], 12, EMPTY), cs[k + 1], cs[k + 2..];
    var q := 12 + |EncodeAll(cs[..k + 1])|;
    WalkBehindPad(file, cs, k);
    HeaderBehindPad(cs, k);
    Opens(cs, Walked(0, 0, EMPTY, false), h);
    ReachesPad(file, 12, cs, k, EMPTY);
    assert file[q + 9..] == file[q..][9..] == PaddedAll(rest);
    RestFits(cs, k);
    WalkEven(file, q + 9, rest, h);
    TellBefore(cs, k, 12, EMPTY);
    EmptyTells(cs, k, q + 1, h);
    Opens(cs, WalkChunks(file, 12, |PaddedAll(cs)|, EMPTY), PaddedTell(rest, q + 9, h));
  }

  lemma RestFits(cs: seq<Chunk>, k: nat)
    requires Fits(cs) && FirstOdd(cs, k)
    ensures Fits(cs[k + 2..])
  {
    hide WellFormed, Encode, Be4, Le4;
    PlainBefore(cs, k);
    HeaderBehindPad(cs, k);
    forall c | c in cs[k + 2..] ensures WellFormed(c) {
      assert c in cs;
    }
  }

  lemma EmptyTells(cs: seq<Chunk>, k: nat, pos: nat, h: Header)
    requires k + 1 < |cs| && cs[k + 1].body == [] && cs[k + 1].id % 0x100 == 1
    ensures PaddedTell(cs[k + 1..], pos, h) == PaddedTell(cs[k + 2..], pos + 8, h)
  {
    assert cs[k + 1..][0] == cs[k + 1] && cs[k + 1..][1..] == cs[k + 2..];
  }

  const LIST: int := 0x4c495354

  /** A chunk of one byte in front of the samples: the file has 32 bytes, and its data is lost. */
  lemma PadLosesData()
    ensures var cs := [Chunk(LIST, [7]), Chunk(DATA, [1, 2])];
            && |PaddedFile(cs)| == 32 && Bytes(PaddedFile(cs))
            && PaddedTell(cs, 12, EMPTY) == EMPTY.(dataPos := 30, dataLength := 2)
            && WalkFile(PaddedFile(cs), 0, EMPTY) == Opened(0, EMPTY)
  {
    hide WalkFile, Be4, Le4;
    var a, b := Chunk(LIST, [7]), Chunk(DATA, [1, 2]);
    var cs := [a, b];
    assert cs[1..] == [b] && cs[..1] == [a] && cs[..1][1..] == [] && [b][1..] == [];
    assert PaddedAll([b]) == Encode(b) + [] + [] && PaddedAll(cs) == Encode(a) + [0] + PaddedAll([b]);
    assert WellFormed(a) && WellFormed(b);
    assert Tell(a, 20, EMPTY) == EMPTY && PaddedTell(cs, 12, EMPTY) == PaddedTell([b], 22, EMPTY);
    assert PaddedTell([b], 22, EMPTY) == PaddedTell([], 32, Tell(b, 30, EMPTY));
    assert TellAll([a], 12, EMPTY) == TellAll([], 21, EMPTY);
    PadSwallows(cs, 0);
  }

  // Two files of the same chunks in kind and size, of which one is read right and the other is not.

  const JUNK: int := 0x4a554e4b

  /** An empty chunk whose identifier ends in 9 behind the pad: the walk goes on in the third chunk's body. */
  function Disguised(body: File): seq<Chunk> {
    [Chunk(LIST, [7]), Chunk(0x4a554e09, []), Chunk(JUNK, body), Chunk(DATA, [1, 2])]
  }

  lemma DisguisedParts(body: File)
    requires |body| == 8 && Bytes(body)
    ensures var cs := Disguised(body);
            && Fits(cs) && |PaddedAll(cs)| == 44 && PaddedAll(cs)[26..34] == body
            && PaddedAll(cs)[34..] == PaddedAll(cs[3..]) && |PaddedAll(cs[1..])| == 34
            && PaddedTell(cs, 12, EMPTY) == PaddedTell(cs[3..], 46, EMPTY) == EMPTY.(dataPos := 54, dataLength := 2)
            && TellAll(cs[..1], 12, EMPTY) == EMPTY && |EncodeAll(cs[..1])| == 9
  {
    hide Be4, Le4, PaddedTell, TellAll;
    var cs := Disguised(body);
    var x0, x1, x2, x3 := Encode(cs[0]), Encode(cs[1]), Encode(cs[2]), Encode(cs[3]);
    assert cs[1..] == [cs[1], cs[2], cs[3]] && cs[1..][1..] == [cs[2], cs[3]];
    assert cs[1..][1..][1..] == [cs[3]] == cs[3..];
    assert cs[3..][1..] == [] && cs[..1] == [cs[0]] && cs[..1][1..] == [];
    assert PaddedAll(cs[3..]) == x3 && PaddedAll([cs[2], cs[3]]) == x2 + x3;
    assert PaddedAll(cs[1..]) == x1 + (x2 + x3) && PaddedAll(cs) == x0 + [0] + (x1 + (x2 + x3));
    assert x2[8..] == body;
    assert forall c :: c in cs ==> WellFormed(c);
    DisguisedTells(body);
  }

  lemma DisguisedTells(body: File)
    requires |body| == 8
    ensures var cs := Disguised(body);
            && PaddedTell(cs, 12, EMPTY) == PaddedTell(cs[3..], 46, EMPTY) == EMPTY.(dataPos := 54, dataLength := 2)
            && TellAll(cs[..1], 12, EMPTY) == EMPTY
  {
    var cs := Disguised(body);
    var last := Tell(cs[3], 54, EMPTY);
    assert Tell(cs[0], 20, EMPTY) == Tell(cs[1], 30, EMPTY) == Tell(cs[2], 38, EMPTY) == EMPTY;
    assert PaddedTell(cs, 12, EMPTY) == PaddedTell(cs[1..], 22, EMPTY);
    assert cs[1..][0] == cs[1] && cs[1..][1..] == cs[2..];
    assert PaddedTell(cs[1..], 22, EMPTY) == PaddedTell(cs[2..], 30, EMPTY);
    assert cs[2..][0] == cs[2] && cs[2..][1..] == cs[3..];
    assert PaddedTell(cs[2..], 30, EMPTY) == PaddedTell(cs[3..], 46, EMPTY);
    assert cs[3..][0] == cs[3] && cs[3..][1..] == [];
    assert PaddedTell(cs[3..], 46, EMPTY) == PaddedTell([], 56, last) == last;
    assert cs[..1][0] == cs[0] && cs[..1][1..] == [];
    assert TellAll(cs[..1], 12, EMPTY) == TellAll([], 21, EMPTY);
  }

  lemma DisguisedWalk(body: File)
    requires |body| == 8 && Bytes(body)
    ensures var cs := Disguised(body);
            var file := PaddedFile(cs);
            && Fits(cs) && Bytes(file) && |file| == 56 && file[38..46] == body && file[46..] == PaddedAll(cs[3..])
            && WalkChunks(file, 12, |PaddedAll(cs)|, EMPTY) == WalkChunks(file, 38, 18, EMPTY)
  {
    hide RiffOf, WalkFile, WalkChunks, TellAll, PaddedTell, WellFormed, PaddedAll, EncodeAll;
    var cs := Disguised(body);
    var file, all := PaddedFile(cs), PaddedAll(cs);
    DisguisedParts(body);
    Opens(cs, Walked(0, 0, EMPTY, false), EMPTY);
    WalkBehindPad(file, cs, 0);
    assert file[12..] == all;
    assert file[38..46] == file[12..][26..34] && file[46..] == file[12..][34..];
  }

  /** So no condition on the kinds and sizes alone decides what happens to a data chunk further behind. */
  lemma BodiesDecide()
    ensures var right := Disguised([0, 0, 0, 0, 0, 0, 0, 0]);
            var wrong := Disguised([0, 0, 0, 0, 0, 0, 0, 1]);
            && |right| == |wrong| && (forall j :: 0 <= j < |right| ==> right[j].id == wrong[j].id)
            && (forall j :: 0 <= j < |right| ==> |right[j].body| == |wrong[j].body|)
            && Bytes(PaddedFile(right)) && ReadsRight(right)
            && Bytes(PaddedFile(wrong)) && !ReadsRight(wrong)
  {
    hide Bytes, PaddedFile, ReadsRight;
    ThirdReadThrough();
    ThirdStops();
  }

  lemma ThirdReadThrough()
    ensures var cs := Disguised([0, 0, 0, 0, 0, 0, 0, 0]);
            Bytes(PaddedFile(cs)) && ReadsRight(cs)
  {
    hide WalkFile, WalkChunks, TellAll, PaddedTell, WellFormed, PaddedAll, PaddedFile, Tag, U32;
    var body := [0, 0, 0, 0, 0, 0, 0, 0];
    var cs := Disguised(body);
    var file, h := PaddedFile(cs), PaddedTell(cs, 12, EMPTY);
    DisguisedParts(body);
    DisguisedWalk(body);
    ThirdHeader(file, body, 0, 0, 0, 0);
    WalkTurn(file, 38, 18, EMPTY);
    LastFits(body);
    WalkEven(file, 46, cs[3..], EMPTY);
    Opens(cs, WalkChunks(file, 12, |PaddedAll(cs)|, EMPTY), h);
  }

  lemma ThirdStops()
    ensures var cs := Disguised([0, 0, 0, 0, 0, 0, 0, 1]);
            Bytes(PaddedFile(cs)) && !ReadsRight(cs)
  {
    hide WalkFile, WalkChunks, TellAll, PaddedTell, WellFormed, PaddedAll, PaddedFile, Tag, U32;
    var body := [0, 0, 0, 0, 0, 0, 0, 1];
    var cs := Disguised(body);
    var file := PaddedFile(cs);
    DisguisedParts(body);
    DisguisedWalk(body);
    ThirdHeader(file, body, 0, 0, 0, 1);
    WalkTurn(file, 38, 18, EMPTY);
    Opens(cs, WalkChunks(file, 12, |PaddedAll(cs)|, EMPTY), EMPTY);
  }

  lemma ThirdHeader(file: File, body: File, b0: int, b1: int, b2: int, b3: int)
    requires Bytes(file) && |file| == 56 && |body| == 8 && file[38..46] == body
    requires body[..4] == [0, 0, 0, 0] && body[4..] == [b0, b1, b2, b3] && Bytes(body)
    ensures Tag(file, 38) == 0 && U32(file, 42) == b0 + b1 * 0x100 + b2 * 0x1_0000 + b3 * 0x100_0000
    ensures ChunkTurn(file, 38, 18, EMPTY)
         == if U32(file, 42) > 10 then Stop(Walked(46, 10, EMPTY, false))
            else Go(46 + U32(file, 42), 10 - U32(file, 42), EMPTY)
  {
    hide Tag, U32;
    assert forall i :: 0 <= i < 8 ==> file[38 + i] == file[38..46][i];
    assert body[4] == body[4..][0] && body[5] == body[4..][1] && body[6] == body[4..][2] && body[7] == body[4..][3];
    assert body[0] == body[..4][0] && body[1] == body[..4][1] && body[2] == body[..4][2] && body[3] == body[..4][3];
    FourBytes(file, 38, body[0], body[1], body[2], body[3]);
    FourBytes(file, 42, body[4], body[5], body[6], body[7]);
    ReadRange(file, 42);
  }

  lemma LastFits(body: File)
    requires |body| == 8 && Bytes(body)
    ensures Fits(Disguised(body)[3..])
  {
    var cs := Disguised(body);
    DisguisedParts(body);
    assert |PaddedAll(cs[3..])| <= |PaddedAll(cs)|;
    forall c | c in cs[3..]
      ensures WellFormed(c)
    {
      assert c in cs;
    }
  }
}
