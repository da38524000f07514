/** The two-pointer walk that cuts text nodes along the decorations. */
module SpanWalk {
  import opened Decorations
  import opened Compaction

  /** Where a node's text begins in the source, and whether the node is an element standing for a line break. */
  datatype Span = Span(start: int, isElement: bool)

  /** A styled piece: the node it was cut from, the decoration it lies in, where it begins and its text. */
  datatype Styled = Styled(span: nat, decoration: nat, from: int, text: string)

  /** One character of styled text. */
  datatype Mark = Mark(at: int, ch: char, span: int, decoration: int)

  function SpanStart(span: Span): int {
    span.start
  }

  function DecorationStart(d: Decoration): int {
    d.start
  }

  function Starts<T>(items: seq<T>, start: T -> int): (s: seq<int>)
    ensures |s| == |items|
    ensures forall i :: 0 <= i < |s| ==> s[i] == start(items[i])
  {
    seq(|items|, i requires 0 <= i < |items| => start(items[i]))
  }

  /** The last entry that starts at or before a position, or -1. */
  function IndexAt(starts: seq<int>, p: int): (i: int)
    ensures -1 <= i < |starts|
  {
    if starts == [] then -1
    else if starts[|starts| - 1] <= p then |starts| - 1
    else IndexAt(starts[..|starts| - 1], p)
  }

  ghost predicate Increasing(starts: seq<int>) {
    forall i, j :: 0 <= i < j < |starts| ==> starts[i] < starts[j]
  }

  lemma {:induction false} IndexIs(starts: seq<int>, p: int, i: nat)
    requires Increasing(starts) && i < |starts| && starts[i] <= p && (i + 1 < |starts| ==> p < starts[i + 1])
    ensures IndexAt(starts, p) == i
  {
    if i + 1 < |starts| {
      IndexIs(starts[..|starts| - 1], p, i);
    }
  }

  /** The decoration at a position is the one that gives it its style. */
  lemma {:induction false} StyleOfIndex(c: seq<Decoration>, p: int)
    ensures StyleAt(c, p)
         == if IndexAt(Starts(c, DecorationStart), p) == -1 then None
            else Some(c[IndexAt(Starts(c, DecorationStart), p)].style)
  {
    if c != [] && c[|c| - 1].start > p {
      assert Starts(c, DecorationStart)[..|c| - 1] == Starts(c[..|c| - 1], DecorationStart);
      StyleOfIndex(c[..|c| - 1], p);
    }
  }

  /** What the whole document should look like from position lo up to hi: every character of a text node,
      with its node and its decoration. */
  function Marks(source: string, spans: seq<Span>, c: seq<Decoration>, lo: int, hi: int): seq<Mark>
    requires 0 <= lo && hi <= |source|
    decreases hi - lo
  {
    if lo >= hi then []
    else
      var i := IndexAt(Starts(spans, SpanStart), hi - 1);
      Marks(source, spans, c, lo, hi - 1)
      + (if i >= 0 && spans[i].isElement then []
         else [Mark(hi - 1, source[hi - 1], i, IndexAt(Starts(c, DecorationStart), hi - 1))])
  }

  function PieceMarks(p: Styled): seq<Mark> {
    seq(|p.text|, i requires 0 <= i < |p.text| => Mark(p.from + i, p.text[i], p.span, p.decoration))
  }

  function AllMarks(ps: seq<Styled>): seq<Mark> {
    if ps == [] then [] else AllMarks(ps[..|ps| - 1]) + PieceMarks(ps[|ps| - 1])
  }

  /** A stretch inside one node and one decoration is one piece, or nothing when the node is an element. */
  lemma {:induction false} StretchMarks(source: string, spans: seq<Span>, c: seq<Decoration>, g: int, t: int,
                                        b: nat, r: nat)
    requires 0 <= g <= t <= |source| && b < |spans| && (g < t ==> r < |c|)
    requires forall p :: g <= p < t ==>
      IndexAt(Starts(spans, SpanStart), p) == b && IndexAt(Starts(c, DecorationStart), p) == r
    ensures Marks(source, spans, c, 0, t)
         == Marks(source, spans, c, 0, g)
            + if spans[b].isElement then [] else PieceMarks(Styled(b, r, g, source[g..t]))
    decreases t - g
  {
    if g < t {
      StretchMarks(source, spans, c, g, t - 1, b, r);
      var piece, shorter := Styled(b, r, g, source[g..t]), Styled(b, r, g, source[g..t - 1]);
      assert IndexAt(Starts(spans, SpanStart), t - 1) == b && IndexAt(Starts(c, DecorationStart), t - 1) == r;
      assert PieceMarks(piece) == PieceMarks(shorter) + [Mark(t - 1, source[t - 1], b, r)];
    }
  }

  /** The start of the next entry, or the source length where there is none; a zero start counts as none. */
  function NextOr(starts: seq<int>, i: int, m: int): int {
    if 0 <= i + 1 < |starts| && starts[i + 1] != 0 then starts[i + 1] else m
  }

  /** What the walk needs to be given: compaction and the node collector give it. */
  ghost predicate Ready(source: string, spans: seq<Span>, c: seq<Decoration>) {
    var m := |source|;
    && Increasing(Starts(spans, SpanStart)) && Increasing(Starts(c, DecorationStart))
    && (forall i :: 0 <= i < |spans| ==> 0 <= spans[i].start <= m)
    && (forall i :: 0 <= i < |c| ==> 0 <= c[i].start < m)
    && (spans != [] ==> spans[0].start == 0)
    && (m > 0 ==> spans != [] && c != [] && c[0].start == 0)
  }

  /** Both pointers stand on the entries that cover the next position. */
  ghost predicate Standing(starts: seq<int>, i: nat, g: int, m: int) {
    && (g < m ==> i < |starts|)
    && (i < |starts| ==> starts[i] <= g <= NextOr(starts, i, m))
  }

  lemma Covers(starts: seq<int>, i: nat, g: int, t: int, m: int)
    requires Increasing(starts) && (forall k :: 0 <= k < |starts| ==> 0 <= starts[k] <= m)
    requires Standing(starts, i, g, m) && t <= NextOr(starts, i, m) && g < t <= m
    ensures i < |starts| && forall p :: g <= p < t ==> IndexAt(starts, p) == i
  {
    forall p | g <= p < t ensures IndexAt(starts, p) == i {
      IndexIs(starts, p, i);
    }
  }

  /** Moving on to the next boundary keeps the pointer standing, whether or not it is its own boundary. */
  lemma Moves(starts: seq<int>, i: nat, g: int, t: int, m: int)
    requires Increasing(starts) && (forall k :: 0 <= k < |starts| ==> 0 <= starts[k] <= m)
    requires Standing(starts, i, g, m) && g <= t <= m && t <= NextOr(starts, i, m)
    ensures Standing(starts, if t >= NextOr(starts, i, m) then i + 1 else i, t, m)
  {
  }

  lemma Pushed(pieces: seq<Styled>, piece: Styled)
    ensures AllMarks(pieces + [piece]) == AllMarks(pieces) + PieceMarks(piece)
  {
    assert (pieces + [piece])[..|pieces|] == pieces;
  }

  lemma EmptyPiece(b: nat, r: nat, g: int)
    ensures PieceMarks(Styled(b, r, g, "")) == []
  {
  }

  /** One turn of the walk as values: the marks it adds and where both pointers stand after it. */
  lemma Turn(source: string, spans: seq<Span>, c: seq<Decoration>, g: int, t: int, b: nat, r: nat)
    requires Ready(source, spans, c) && 0 <= g <= |source| && b < |spans|
    requires Standing(Starts(spans, SpanStart), b, g, |source|) && Standing(Starts(c, DecorationStart), r, g, |source|)
    requires t == Least(NextOr(Starts(spans, SpanStart), b, |source|), NextOr(Starts(c, DecorationStart), r, |source|))
    ensures g <= t <= |source| && (g < t ==> r < |c|) && NextOr(Starts(spans, SpanStart), b, |source|) <= |source|
    ensures Marks(source, spans, c, 0, t)
         == Marks(source, spans, c, 0, g) + if spans[b].isElement then [] else PieceMarks(Styled(b, r, g, source[g..t]))
    ensures var next := if t >= NextOr(Starts(spans, SpanStart), b, |source|) then b + 1 else b;
            Standing(Starts(spans, SpanStart), next, t, |source|)
    ensures var next := if t >= NextOr(Starts(c, DecorationStart), r, |source|) then r + 1 else r;
            Standing(Starts(c, DecorationStart), next, t, |source|)
  {
    hide IndexAt, Marks, PieceMarks, Standing;
    var m := |source|;
    Bounds(Starts(spans, SpanStart), b, g, m);
    Bounds(Starts(c, DecorationStart), r, g, m);
    if g < t {
      Covers(Starts(spans, SpanStart), b, g, t, m);
      Covers(Starts(c, DecorationStart), r, g, t, m);
    }
    StretchMarks(source, spans, c, g, t, b, r);
    Moves(Starts(spans, SpanStart), b, g, t, m);
    Moves(Starts(c, DecorationStart), r, g, t, m);
  }

  function Least(x: int, y: int): int {
    if x < y then x else y
  }

  /** A piece is put out unless the node is an element or nothing is left of it. */
  method Emit(source: string, isElement: bool, pieces: seq<Styled>, g: int, t: int, b: nat, r: nat)
    returns (out: seq<Styled>)
    requires 0 <= g <= t <= |source|
    ensures AllMarks(out) == AllMarks(pieces) + if isElement then [] else PieceMarks(Styled(b, r, g, source[g..t]))
    ensures forall p :: p in out ==> p in pieces || (p.text != "" && p.span == b && !isElement)
  {
    hide AllMarks, PieceMarks;
    if !isElement && source[g..t] != "" {
      var piece := Styled(b, r, g, source[g..t]);
      Pushed(pieces, piece);
      out := pieces + [piece];
    } else {
      EmptyPiece(b, r, g);
      out := pieces;
    }
  }

  /** The loop of recombineTagsAndDecorations. */
  method Walk(source: string, spans: seq<Span>, c: seq<Decoration>) returns (pieces: seq<Styled>)
    requires Ready(source, spans, c)
    ensures AllMarks(pieces) == Marks(source, spans, c, 0, |source|)
    ensures forall p :: p in pieces ==> p.text != "" && p.span < |spans| && !spans[p.span].isElement
  {
    hide IndexAt, Marks, AllMarks, PieceMarks, Standing, Ready, Starts;
    var m := |source|;
    var g, b, r := 0, 0, 0;
    pieces := [];
    Begins(source, spans, c);
    while b < |spans|
      invariant 0 <= g <= m && (b >= |spans| ==> g == m)
      invariant Standing(Starts(spans, SpanStart), b, g, m) && Standing(Starts(c, DecorationStart), r, g, m)
      invariant AllMarks(pieces) == Marks(source, spans, c, 0, g)
      invariant forall p :: p in pieces ==> p.text != "" && p.span < |spans| && !spans[p.span].isElement
      decreases |spans| - b, |c| - r
    {
      var l := NextOr(Starts(spans, SpanStart), b, m);
      var e := NextOr(Starts(c, DecorationStart), r, m);
      var t := if l < e then l else e;
      Turn(source, spans, c, g, t, b, r);
      LastSpan(Starts(spans, SpanStart), b, m);
      LastSpan(Starts(c, DecorationStart), r, m);
      pieces := Emit(source, spans[b].isElement, pieces, g, t, b, r);
      g := t;
      if g >= l {
        b := b + 1;
      }
      if g >= e {
        r := r + 1;
      }
    }
  }

  lemma Begins(source: string, spans: seq<Span>, c: seq<Decoration>)
    requires Ready(source, spans, c)
    ensures Standing(Starts(spans, SpanStart), 0, 0, |source|) && Standing(Starts(c, DecorationStart), 0, 0, |source|)
    ensures AllMarks([]) == [] == Marks(source, spans, c, 0, 0)
    ensures spans == [] ==> |source| == 0
  {
  }

  lemma Bounds(starts: seq<int>, i: nat, g: int, m: int)
    requires Increasing(starts) && (forall k :: 0 <= k < |starts| ==> 0 <= starts[k] <= m)
    requires Standing(starts, i, g, m) && g <= m
    ensures g <= NextOr(starts, i, m) <= m
    ensures NextOr(starts, i, m) < m ==> i < |starts|
  {
  }

  lemma LastSpan(starts: seq<int>, i: nat, m: int)
    ensures i + 1 >= |starts| ==> NextOr(starts, i, m) == m
  {
  }

  /** The text of the pieces, one after the other. */
  function PiecesText(ps: seq<Styled>): string {
    if ps == [] then "" else PiecesText(ps[..|ps| - 1]) + ps[|ps| - 1].text
  }

  function MarksText(ms: seq<Mark>): string {
    if ms == [] then "" else MarksText(ms[..|ms| - 1]) + [ms[|ms| - 1].ch]
  }

  lemma {:induction false} MarksTextAdd(a: seq<Mark>, b: seq<Mark>)
    ensures MarksText(a + b) == MarksText(a) + MarksText(b)
  {
    if b == [] {
      assert a + b == a;
    } else {
      assert (a + b)[..|a + b| - 1] == a + b[..|b| - 1];
      MarksTextAdd(a, b[..|b| - 1]);
    }
  }

  lemma {:induction false} PieceMarksText(p: Styled)
    ensures MarksText(PieceMarks(p)) == p.text
    decreases |p.text|
  {
    if p.text != "" {
      var shorter := p.(text := p.text[..|p.text| - 1]);
      PieceMarksText(shorter);
      assert PieceMarks(p)[..|p.text| - 1] == PieceMarks(shorter);
    }
  }

  lemma {:induction false} AllMarksText(ps: seq<Styled>)
    ensures MarksText(AllMarks(ps)) == PiecesText(ps)
  {
    if ps != [] {
      AllMarksText(ps[..|ps| - 1]);
      MarksTextAdd(AllMarks(ps[..|ps| - 1]), PieceMarks(ps[|ps| - 1]));
      PieceMarksText(ps[|ps| - 1]);
    }
  }

  lemma {:induction false} TextMarks(source: string, spans: seq<Span>, c: seq<Decoration>, hi: int)
    requires 0 <= hi <= |source| && forall i :: 0 <= i < |spans| ==> !spans[i].isElement
    ensures MarksText(Marks(source, spans, c, 0, hi)) == source[..hi]
    decreases hi
  {
    if hi > 0 {
      hide IndexAt;
      TextMarks(source, spans, c, hi - 1);
      var ms := Marks(source, spans, c, 0, hi);
      assert ms[..|ms| - 1] == Marks(source, spans, c, 0, hi - 1);
      assert source[..hi] == source[..hi - 1] + [source[hi - 1]];
    }
  }

  /** Without line-break elements the pieces join to the source text. */
  lemma PiecesJoinToSource(source: string, spans: seq<Span>, c: seq<Decoration>, pieces: seq<Styled>)
    requires AllMarks(pieces) == Marks(source, spans, c, 0, |source|)
    requires forall i :: 0 <= i < |spans| ==> !spans[i].isElement
    ensures PiecesText(pieces) == source
  {
    hide Marks, AllMarks;
    AllMarksText(pieces);
    TextMarks(source, spans, c, |source|);
    assert source[..|source|] == source;
  }

  lemma IncreasingStarts(c: seq<Decoration>)
    requires StrictlySorted(c)
    ensures Increasing(Starts(c, DecorationStart))
  {
  }

  /** Lexing, compaction and the walk together: each character of a text node is cut out once, in its own
      node, and in the style of the leaf that covers it. */
  method Highlight(source: string, tokens: Pieces, spans: seq<Span>) returns (c: seq<Decoration>, pieces: seq<Styled>)
    requires Text(tokens) == source
    requires Increasing(Starts(spans, SpanStart)) && (forall i :: 0 <= i < |spans| ==> 0 <= spans[i].start <= |source|)
    requires spans != [] ==> spans[0].start == 0
    requires source != "" ==> spans != []
    ensures AllMarks(pieces) == Marks(source, spans, c, 0, |source|)
    ensures forall p :: 0 <= p < |source| ==>
      var d := IndexAt(Starts(c, DecorationStart), p);
      0 <= d < |c| && LeafStyle(tokens, p) == Some(c[d].style)
  {
    hide Decorate, Compacted, StyleAt, Marks, AllMarks, IndexAt, LeafStyle;
    var m := |source|;
    var list := DecorateJob(0, tokens);
    DecorateInOrder(0, tokens);
    var a := new Decoration[|list| + 1](i => if 0 <= i < |list| then list[i] else Decoration(m, ""));
    assert a[..|list|] == list;
    var n := Compact(a, |list|, m);
    c := a[..n];
    CompactionKeepsStyles(list, m);
    IncreasingStarts(c);
    pieces := Walk(source, spans, c);
    forall p | 0 <= p < |source|
      ensures var d := IndexAt(Starts(c, DecorationStart), p);
              0 <= d < |c| && LeafStyle(tokens, p) == Some(c[d].style)
    {
      DecoratePaints(0, tokens, p);
      StyleOfIndex(c, p);
    }
  }
}
