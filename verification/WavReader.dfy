/** The wav_reader structure: opening a file and reading its data. */
module WavReader {
  import opened WavFile
  import opened WavRoundTrip
  import opened WavPadded

  /** struct wav_reader with the file it has open. */
  class Reader {
    const file: File
    var pos: nat
    var eof: bool
    var format: int
    var channels: int
    var sample_rate: int
    var byte_rate: int
    var block_align: int
    var bits_per_sample: int
    var data_length: int
    var data_pos: nat
    var streamed: bool

    ghost predicate Valid()
      reads this
    {
      Bytes(file) && (eof ==> pos >= |file|)
    }

    ghost function Fields(): Header
      reads this
    {
      Header(format, channels, sample_rate, byte_rate, block_align, bits_per_sample, data_length, data_pos, streamed)
    }

    constructor (file: File)
      ensures this.file == file && pos == 0 && !eof && Fields() == EMPTY
    {
      this.file := file;
      pos, eof := 0, false;
      format, channels, sample_rate, byte_rate, block_align, bits_per_sample := 0, 0, 0, 0, 0, 0;
      data_length, data_pos, streamed := 0, 0, false;
    }

    method Fgetc() returns (c: int)
      requires Valid()
      modifies this`pos, this`eof
      ensures Valid() && c == GetC(file, old(pos)) && pos == Advance(file, old(pos), 1)
      ensures eof == (old(eof) || old(pos) >= |file|)
    {
      if pos < |file| {
        c := file[pos];
        pos := pos + 1;
      } else {
        c := -1;
        eof := true;
      }
    }

    method ReadTag() returns (tag: int)
      requires Valid()
      modifies this`pos, this`eof
      ensures Valid() && tag == Tag(file, old(pos)) && pos == Advance(file, old(pos), 4)
      ensures eof == (old(pos) + 4 > |file|)
    {
      hide ShiftIn;
      tag := 0;
      var c := Fgetc();
      tag := ShiftIn(tag, c);
      c := Fgetc();
      tag := ShiftIn(tag, c);
      c := Fgetc();
      tag := ShiftIn(tag, c);
      c := Fgetc();
      tag := ShiftIn(tag, c);
    }

    method ReadInt32() returns (value: int)
      requires Valid()
      modifies this`pos, this`eof
      ensures Valid() && value == U32(file, old(pos)) && pos == Advance(file, old(pos), 4)
    {
      hide OrAt;
      value := 0;
      var c := Fgetc();
      value := OrAt(value, c, 1);
      c := Fgetc();
      value := OrAt(value, c, 0x100);
      c := Fgetc();
      value := OrAt(value, c, 0x1_0000);
      c := Fgetc();
      value := OrAt(value, c, 0x100_0000);
    }

    method ReadInt16() returns (value: int)
      requires Valid()
      modifies this`pos, this`eof
      ensures Valid() && value == U16(file, old(pos)) && pos == Advance(file, old(pos), 2)
    {
      hide OrAt;
      value := 0;
      var c := Fgetc();
      value := OrAt(value, c, 1) % 0x1_0000;
      c := Fgetc();
      value := OrAt(value, c, 0x100) % 0x1_0000;
    }

    method SkipBytes(n: int)
      requires Valid()
      modifies this`pos, this`eof
      ensures Valid() && pos == Skip(file, old(pos), n)
    {
      var i := 0;
      while i < n
        invariant Valid() && 0 <= i && (n >= 0 ==> i <= n) && (n < 0 ==> i == 0)
        invariant pos == Advance(file, old(pos), i)
      {
        var c := Fgetc();
        i := i + 1;
      }
    }

    /** fseek, which also clears the end-of-file indicator. */
    method Seek(p: nat)
      requires Bytes(file)
      modifies this`pos, this`eof
      ensures Valid() && pos == p
    {
      pos, eof := p, false;
    }

    /** The six reads at the head of a fmt chunk. */
    method FmtFields()
      requires Valid()
      modifies this
      ensures Valid() && pos == AfterFmt(file, old(pos)) && Fields() == ReadFmt(file, old(pos), old(Fields()))
    {
      hide U16, U32, Advance;
      format := ReadInt16();
      channels := ReadInt16();
      var v := ReadInt32();
      sample_rate := ToInt(v);
      v := ReadInt32();
      byte_rate := ToInt(v);
      block_align := ReadInt16();
      bits_per_sample := ReadInt16();
    }

    /** The fmt branch; stops when the chunk is unusable and the inner loop must end. */
    method FmtChunk(left: int, sublength: nat) returns (stop: bool)
      requires Valid() && sublength < WRAP
      modifies this
      ensures Valid()
      ensures FmtTurn(file, old(pos), left, sublength, old(Fields()))
           == if stop then Stop(Walked(pos, left, Fields(), false)) else Go(pos, left - sublength, Fields())
    {
      hide U32, Advance, ReadFmt, AfterFmt;
      if sublength < 16 {
        return true;
      }
      FmtFields();
      if format == 0xfffe {
        if sublength < 28 {
          return true;
        }
        SkipBytes(8);
        var v := ReadInt32();
        format := ToInt(v);
        SkipBytes(ToInt(sublength - 28));
      } else {
        SkipBytes(ToInt(sublength - 16));
      }
      stop := false;
    }

    /** The loop over the chunks of one RIFF chunk; returns what is left of it, and whether the open ends here. */
    method Chunks(length0: int) returns (length: int, returned: bool)
      requires Valid() && length0 >= 0
      modifies this
      ensures Valid()
      ensures WalkChunks(file, old(pos), length0, old(Fields())) == Walked(pos, length, Fields(), returned)
    {
      hide U32, Tag, FmtTurn, WalkChunks;
      length := length0;
      ghost var all := WalkChunks(file, pos, length, Fields());
      while length >= 8
        invariant Valid() && length >= 0
        invariant all == WalkChunks(file, pos, length, Fields())
        decreases length
      {
        ghost var p, n, h := pos, length, Fields();
        WalkTurn(file, p, n, h);
        var subtag := ReadTag();
        if eof {
          return length, false;
        }
        var sublength := ReadInt32();
        ReadRange(file, p + 4);
        length := length - 8;
        if length < sublength {
          return length, false;
        }
        if subtag == FMT {
          var stop := FmtChunk(length, sublength);
          if stop {
            return length, false;
          }
        } else if subtag == DATA {
          data_pos := pos;
          data_length := sublength;
          if data_length == 0 || streamed {
            streamed := true;
            return length, true;
          }
          Seek(pos + sublength);
        } else {
          SkipBytes(ToInt(sublength));
        }
        length := length - sublength;
      }
      WalkEnds(file, pos, length, Fields());
      returned := false;
    }

    /** wav_read_open, from the point where the file is open. */
    method Open()
      requires Valid() && pos == 0 && Fields() == EMPTY
      modifies this
      ensures Valid() && Opened(pos, Fields()) == WalkFile(file, 0, EMPTY)
    {
      hide U32, Tag, WalkChunks, WalkFile, Advance;
      while true
        invariant Valid()
        invariant WalkFile(file, 0, EMPTY) == WalkFile(file, pos, Fields())
        decreases if pos > |file| then 0 else |file| - pos
      {
        ghost var p := pos;
        OuterTurn(file, p, Fields());
        var tag := ReadTag();
        if eof {
          break;
        }
        var length := ReadInt32();
        ReadRange(file, p + 4);
        if length == 0 || length >= 0x7fff0000 {
          streamed := true;
          length := WRAP - 1;
        }
        if tag != RIFF || length < 4 {
          Seek(pos + length);
          continue;
        }
        var tag2 := ReadTag();
        length := length - 4;
        if tag2 != WAVE {
          Seek(pos + length);
          continue;
        }
        var returned;
        length, returned := Chunks(length);
        if returned {
          return;
        }
        if length > 0 {
          Seek(pos + length);
        }
      }
      Seek(data_pos);
    }

    /** wav_read_data: at most the rest of the data chunk, and at most the rest of the file. */
    method ReadData(request: nat) returns (data: File)
      requires Valid() && request < WRAP && 0 <= data_length < WRAP
      modifies this`pos, this`eof, this`data_length
      ensures Valid()
      ensures var length := if request > old(data_length) && !streamed then old(data_length) else request;
              data == Stretch(file, old(pos), length) && data_length == (old(data_length) - length) % WRAP
      ensures pos == old(pos) + |data|
      ensures !streamed ==> 0 <= data_length <= old(data_length)
    {
      var length := request;
      if length > data_length && !streamed {
        length := data_length;
      }
      var n := if pos >= |file| then 0 else if pos + length <= |file| then length else |file| - pos;
      data := if n == 0 then [] else file[pos..pos + n];
      if n < length {
        eof := true;
      }
      pos := pos + n;
      data_length := (data_length - length) % WRAP;
    }
  }

  function Sum(requests: seq<nat>): nat {
    if requests == [] then 0 else requests[0] + Sum(requests[1..])
  }

  /** The first n bytes from a position, as far as the file goes. */
  function Stretch(file: File, p: nat, n: nat): File {
    if p >= |file| then [] else if p + n <= |file| then file[p..p + n] else file[p..]
  }

  lemma StretchAdds(file: File, p: nat, m: nat, n: nat, q: nat)
    requires q == p + |Stretch(file, p, m)|
    ensures Stretch(file, p, m + n) == Stretch(file, p, m) + Stretch(file, q, n)
  {
  }

  lemma NoStretch(file: File, p: nat)
    ensures Stretch(file, p, 0) == []
  {
  }

  lemma WholeStretch(file: File, p: nat, n: nat)
    requires p + n <= |file|
    ensures Stretch(file, p, n) == file[p..p + n]
  {
  }

  /** Over any sequence of reads the clipped requests and what is left add up to the length at the start,
      and the bytes handed out are the front of the data chunk, as far as the file goes. */
  method ReadMany(r: Reader, requests: seq<nat>) returns (data: File)
    requires r.Valid() && !r.streamed && 0 <= r.data_length < WRAP
    requires forall q :: q in requests ==> q < WRAP
    modifies r
    ensures var taken := if Sum(requests) <= old(r.data_length) then Sum(requests) else old(r.data_length);
            r.data_length + taken == old(r.data_length) && r.data_length >= 0
            && data == Stretch(r.file, old(r.pos), taken) && r.pos == old(r.pos) + |data|
  {
    hide Sum, Stretch;
    ghost var start, total := r.pos, r.data_length;
    ghost var taken := 0;
    data := [];
    NoRequests();
    NoStretch(r.file, start);
    for i := 0 to |requests|
      invariant r.Valid() && !r.streamed && 0 <= r.data_length < WRAP
      invariant taken == (if Sum(requests[..i]) <= total then Sum(requests[..i]) else total)
      invariant r.data_length + taken == total
      invariant data == Stretch(r.file, start, taken) && r.pos == start + |data|
    {
      assert requests[i] in requests;
      SumLast(requests[..i], requests[i]);
      assert requests[..i + 1] == requests[..i] + [requests[i]];
      ghost var clipped := if requests[i] > r.data_length then r.data_length else requests[i];
      StretchAdds(r.file, start, taken, clipped, r.pos);
      var piece := r.ReadData(requests[i]);
      taken := taken + clipped;
      data := data + piece;
    }
    assert requests[..|requests|] == requests;
  }

  lemma NoRequests()
    ensures Sum([]) == 0
  {
  }

  lemma {:induction false} SumLast(s: seq<nat>, x: nat)
    ensures Sum(s + [x]) == Sum(s) + x
  {
    if s != [] {
      assert (s + [x])[1..] == s[1..] + [x];
      SumLast(s[1..], x);
    }
  }

  /** A file whose walk finds a data chunk, opened and read: a prefix of that chunk's body. */
  method ReadBody(file: File, ghost h: Header, ghost body: File, requests: seq<nat>) returns (r: Reader, data: File)
    requires Bytes(file) && WalkFile(file, 0, EMPTY) == Opened(h.dataPos, h)
    requires !h.streamed && h.dataLength == |body| < WRAP
    requires h.dataPos + |body| <= |file| && file[h.dataPos..h.dataPos + |body|] == body
    requires forall q :: q in requests ==> q < WRAP
    ensures fresh(r)
    ensures Sum(requests) <= |body| ==> data == body[..Sum(requests)]
    ensures Sum(requests) > |body| ==> data == body
  {
    hide Sum, WalkFile, Bytes, Stretch;
    r := new Reader(file);
    r.Open();
    ghost var start := r.pos;
    data := ReadMany(r, requests);
    ghost var taken := if Sum(requests) <= |body| then Sum(requests) else |body|;
    WholeStretch(file, start, taken);
    SliceOfSlice(file, start, |body|, 0, taken);
    assert data == body[..taken];
    assert body[..|body|] == body;
  }

  /** A file of plain chunks opened and read: the last data chunk's bytes. */
  method ReadBack(cs: seq<Chunk>, k: nat, requests: seq<nat>) returns (r: Reader, data: File)
    requires forall c :: c in cs ==> WellFormed(c)
    requires 4 + |EncodeAll(cs)| < 0x7fff0000
    requires k < |cs| && cs[k].id == DATA && forall j :: k < j < |cs| ==> cs[j].id != DATA
    requires forall q :: q in requests ==> q < WRAP
    ensures fresh(r)
    ensures Sum(requests) <= |cs[k].body| ==> data == cs[k].body[..Sum(requests)]
    ensures Sum(requests) > |cs[k].body| ==> data == cs[k].body
  {
    hide RiffOf, WellFormed, EncodeAll, Sum, WalkFile, Bytes, TellAll;
    RoundTrip(cs);
    LastDataDecides(cs, k, 12, EMPTY);
    DataStandsThere(cs, k, []);
    assert EncodeAll(cs) + [] == EncodeAll(cs);
    NeverStreamed(cs, 12, EMPTY);
    BodyFits(cs, k);
    r, data := ReadBody(RiffFile(cs), TellAll(cs, 12, EMPTY), cs[k].body, requests);
  }

  /** The same for a file with pads in which only the last chunk may be odd. */
  method ReadPaddedBack(cs: seq<Chunk>, k: nat, requests: seq<nat>) returns (r: Reader, data: File)
    requires Fits(cs) && EvenBeforeLast(cs)
    requires k < |cs| && cs[k].id == DATA && forall j :: k < j < |cs| ==> cs[j].id != DATA
    requires forall q :: q in requests ==> q < WRAP
    ensures fresh(r)
    ensures Sum(requests) <= |cs[k].body| ==> data == cs[k].body[..Sum(requests)]
    ensures Sum(requests) > |cs[k].body| ==> data == cs[k].body
  {
    hide RiffOf, WellFormed, EncodeAll, Sum, WalkFile, Bytes, TellAll, PaddedTell, PaddedAll;
    PaddedRoundTrip(cs);
    ghost var last := |cs| - 1;
    PlainBefore(cs, last);
    assert cs[..last + 1] == cs;
    LastDataDecides(cs, k, 12, EMPTY);
    DataStandsThere(cs, k, Pad(cs[last]) + PaddedAll(cs[last + 1..]));
    NeverStreamed(cs, 12, EMPTY);
    BodyFits(cs, k);
    r, data := ReadBody(PaddedFile(cs), TellAll(cs, 12, EMPTY), cs[k].body, requests);
  }

  lemma {:induction false} NeverStreamed(cs: seq<Chunk>, pos: nat, h: Header)
    ensures TellAll(cs, pos, h).streamed == h.streamed
    decreases |cs|
  {
    if cs != [] {
      NeverStreamed(cs[1..], pos + 8 + |cs[0].body|, Tell(cs[0], pos + 8, h));
    }
  }

  lemma BodyFits(cs: seq<Chunk>, k: nat)
    requires k < |cs|
    ensures |cs[k].body| <= |EncodeAll(cs)|
  {
    hide EncodeAll, Be4, Le4;
    EncodeSplit(cs, k);
  }
}
