/** A byte file read through a position, and the RIFF walk over it as functions. */
module WavFile {
  type File = seq<int>

  const WRAP: int := 0x1_0000_0000

  ghost predicate Bytes(file: File) {
    forall i :: 0 <= i < |file| ==> 0 <= file[i] < 256
  }

  /** fgetc at a position: a byte, or EOF. */
  function GetC(file: File, p: nat): int {
    if p < |file| then file[p] else -1
  }

  /** Where the position is after n calls of fgetc; it does not move past the end. */
  function Advance(file: File, p: nat, n: nat): (q: nat)
    ensures p <= q <= p + n && (p + n <= |file| ==> q == p + n)
  {
    if p >= |file| then p else if p + n <= |file| then p + n else |file|
  }

  /** value | (c << k) in 32 bits for unit = 2^k, where value is below unit or has every bit from unit up set. */
  function OrAt(value: int, c: int, unit: int): int
    requires unit > 0
  {
    if c < 0 then value % unit + (WRAP - unit) else if value < unit then value + c * unit else value
  }

  /** (tag << 8) | c in 32 bits. */
  function ShiftIn(tag: int, c: int): int {
    if c < 0 then WRAP - 1 else tag * 256 % WRAP + c
  }

  function Tag(file: File, p: nat): int {
    ShiftIn(ShiftIn(ShiftIn(ShiftIn(0, GetC(file, p)), GetC(file, p + 1)), GetC(file, p + 2)), GetC(file, p + 3))
  }

  function U32(file: File, p: nat): int {
    OrAt(OrAt(OrAt(OrAt(0, GetC(file, p), 1), GetC(file, p + 1), 0x100), GetC(file, p + 2), 0x1_0000),
         GetC(file, p + 3), 0x100_0000)
  }

  /** The same into a 16-bit variable. */
  function U16(file: File, p: nat): int {
    OrAt(OrAt(0, GetC(file, p), 1) % 0x1_0000, GetC(file, p + 1), 0x100) % 0x1_0000
  }

  /** A 32-bit unsigned value put into an int. */
  function ToInt(v: int): int {
    if v >= 0x8000_0000 then v - WRAP else v
  }

  lemma OrRange(value: int, c: int, unit: int)
    requires 0 <= value < WRAP && -1 <= c < 256 && unit in {1, 0x100, 0x1_0000, 0x100_0000}
    ensures 0 <= OrAt(value, c, unit) < WRAP
  {
  }

  lemma CharRange(file: File, p: nat)
    requires Bytes(file)
    ensures -1 <= GetC(file, p) < 256
  {
  }

  lemma ReadRange(file: File, p: nat)
    requires Bytes(file)
    ensures 0 <= U32(file, p) < WRAP
  {
    hide OrAt, GetC;
    CharRange(file, p);
    CharRange(file, p + 1);
    CharRange(file, p + 2);
    CharRange(file, p + 3);
    var v0 := OrAt(0, GetC(file, p), 1);
    OrRange(0, GetC(file, p), 1);
    var v1 := OrAt(v0, GetC(file, p + 1), 0x100);
    OrRange(v0, GetC(file, p + 1), 0x100);
    var v2 := OrAt(v1, GetC(file, p + 2), 0x1_0000);
    OrRange(v1, GetC(file, p + 2), 0x1_0000);
    OrRange(v2, GetC(file, p + 3), 0x100_0000);
  }

  const RIFF: int := 0x52494646
  const WAVE: int := 0x57415645
  const FMT: int := 0x666d7420
  const DATA: int := 0x64617461

  /** What the walk collects. */
  datatype Header = Header(format: int, channels: int, sampleRate: int, byteRate: int, blockAlign: int, bits: int,
                           dataLength: int, dataPos: nat, streamed: bool)

  const EMPTY := Header(0, 0, 0, 0, 0, 0, 0, 0, false)

  /** The six fields of a fmt chunk whose body begins at p, before the extensible case is looked at. */
  function ReadFmt(file: File, p: nat, h: Header): Header {
    var p1 := Advance(file, p, 2);
    var p2 := Advance(file, p1, 2);
    var p3 := Advance(file, p2, 4);
    var p4 := Advance(file, p3, 4);
    var p5 := Advance(file, p4, 2);
    h.(format := U16(file, p), channels := U16(file, p1), sampleRate := ToInt(U32(file, p2)),
       byteRate := ToInt(U32(file, p3)), blockAlign := U16(file, p4), bits := U16(file, p5))
  }

  function AfterFmt(file: File, p: nat): nat {
    Advance(file, Advance(file, Advance(file, Advance(file, Advance(file, Advance(file, p, 2), 2), 4), 4), 2), 2)
  }

  /** The skip function: nothing happens for a negative count. */
  function Skip(file: File, p: nat, n: int): nat {
    if n <= 0 then p else Advance(file, p, n)
  }

  /** The inner loop's outcome: position, bytes of the RIFF chunk left, header, and whether the open returned early. */
  datatype Walked = Walked(pos: nat, left: int, header: Header, returned: bool)

  /** One turn of the inner loop: it ends, or goes on with what is left. */
  datatype Turn = Stop(walked: Walked) | Go(pos: nat, left: int, header: Header)

  function FmtTurn(file: File, body: nat, left: int, sublength: nat, h: Header): Turn {
    if sublength < 16 then Stop(Walked(body, left, h, false))
    else
      var h1 := ReadFmt(file, body, h);
      var q := AfterFmt(file, body);
      if h1.format == 0xfffe then
        if sublength < 28 then Stop(Walked(q, left, h1, false))
        else
          var q1 := Advance(file, q, 8);
          Go(Skip(file, Advance(file, q1, 4), ToInt(sublength - 28)), left - sublength,
             h1.(format := ToInt(U32(file, q1))))
      else Go(Skip(file, q, ToInt(sublength - 16)), left - sublength, h1)
  }

  function DataTurn(file: File, body: nat, left: int, sublength: nat, h: Header): Turn {
    var h1 := h.(dataPos := body, dataLength := sublength);
    if sublength == 0 || h.streamed then Stop(Walked(body, left, h1.(streamed := true), true))
    else Go(body + sublength, left - sublength, h1)
  }

  function ChunkTurn(file: File, pos: nat, length: int, h: Header): Turn
    requires Bytes(file) && length >= 8
  {
    if pos + 4 > |file| then Stop(Walked(Advance(file, pos, 4), length, h, false))
    else
      ReadRange(file, pos + 4);
      var subtag := Tag(file, pos);
      var sublength := U32(file, pos + 4);
      var body := Advance(file, pos + 4, 4);
      var left := length - 8;
      if left < sublength then Stop(Walked(body, left, h, false))
      else if subtag == FMT then FmtTurn(file, body, left, sublength, h)
      else if subtag == DATA then DataTurn(file, body, left, sublength, h)
      else Go(Skip(file, body, ToInt(sublength)), left - sublength, h)
  }

  lemma TurnAhead(file: File, pos: nat, length: int, h: Header)
    requires Bytes(file) && length >= 8
    ensures var t := ChunkTurn(file, pos, length, h);
            if t.Go? then t.pos >= pos && 0 <= t.left <= length - 8
            else t.walked.pos >= pos && 0 <= t.walked.left
  {
    hide Tag, U32, U16, Bytes;
    if pos + 4 <= |file| {
      ReadRange(file, pos + 4);
    }
  }

  /** The loop over the chunks inside a RIFF chunk. */
  function WalkChunks(file: File, pos: nat, length: int, h: Header): (w: Walked)
    requires Bytes(file) && length >= 0
    ensures w.pos >= pos && w.left >= 0
    decreases length
  {
    if length < 8 then Walked(pos, length, h, false)
    else
      TurnAhead(file, pos, length, h);
      match ChunkTurn(file, pos, length, h)
      case Stop(w) => w
      case Go(q, left, h1) => WalkChunks(file, q, left, h1)
  }

  /** Where the open ends up: the header, with the position the reader is left at. */
  datatype Opened = Opened(pos: nat, header: Header)

  /** The outer loop over top-level chunks. */
  function WalkFile(file: File, pos: nat, h: Header): Opened
    requires Bytes(file)
    decreases if pos > |file| then 0 else |file| - pos
  {
    if pos + 4 > |file| then Opened(h.dataPos, h)
    else
      ReadRange(file, pos + 4);
      var tag := Tag(file, pos);
      var size := U32(file, pos + 4);
      var p := Advance(file, pos + 4, 4);
      var unknown := size == 0 || size >= 0x7fff0000;
      var length := if unknown then WRAP - 1 else size;
      var h1 := if unknown then h.(streamed := true) else h;
      if tag != RIFF || length < 4 then WalkFile(file, p + length, h1)
      else
        var tag2 := Tag(file, p);
        var q := Advance(file, p, 4);
        if tag2 != WAVE then WalkFile(file, q + (length - 4), h1)
        else
          var w := WalkChunks(file, q, length - 4, h1);
          if w.returned then Opened(w.pos, w.header)
          else WalkFile(file, w.pos + w.left, w.header)
  }

  /** One turn of the outer loop. */
  lemma OuterTurn(file: File, pos: nat, h: Header)
    requires Bytes(file)
    ensures pos + 4 > |file| ==> WalkFile(file, pos, h) == Opened(h.dataPos, h)
    ensures pos + 4 <= |file| ==>
      var size := U32(file, pos + 4);
      var p := Advance(file, pos + 4, 4);
      var unknown := size == 0 || size >= 0x7fff0000;
      var length := if unknown then WRAP - 1 else size;
      var h1 := if unknown then h.(streamed := true) else h;
      var q := Advance(file, p, 4);
      && p > pos && length >= 0
      && WalkFile(file, pos, h)
         == if Tag(file, pos) != RIFF || length < 4 then WalkFile(file, p + length, h1)
            else if Tag(file, p) != WAVE then WalkFile(file, q + (length - 4), h1)
            else
              var w := WalkChunks(file, q, length - 4, h1);
              if w.returned then Opened(w.pos, w.header) else WalkFile(file, w.pos + w.left, w.header)
  {
    hide U32, Tag, WalkChunks;
    if pos + 4 <= |file| {
      ReadRange(file, pos + 4);
    }
  }

  lemma WalkTurn(file: File, pos: nat, length: int, h: Header)
    requires Bytes(file) && length >= 8
    ensures WalkChunks(file, pos, length, h)
         == match ChunkTurn(file, pos, length, h)
            case Stop(w) => w
            case Go(q, left, h1) => if left >= 0 then WalkChunks(file, q, left, h1) else Walked(q, left, h1, false)
  {
    hide ChunkTurn;
    TurnAhead(file, pos, length, h);
  }
}
