/** The text of a nested source painted character by character, and what a decoration list shows. */
module Painted {
  import opened Decorations

  /** One style for every character of the text, in the order of the text. */
  function Paint(ps: Pieces): seq<Style>
    decreases ps, 1
  {
    if ps.Nil? then [] else PaintPiece(ps.head) + Paint(ps.tail)
  }

  function PaintPiece(p: Piece): seq<Style>
    decreases p, 0
  {
    match p
    case Leaf(text, style) => seq(|text|, _ => style)
    case Embedded(before, inner, after) => Paint(before) + Paint(inner) + Paint(after)
  }

  lemma {:induction false} PaintCovers(ps: Pieces)
    ensures |Paint(ps)| == |Text(ps)|
    decreases ps, 1
  {
    if ps.Cons? {
      PieceCovers(ps.head);
      PaintCovers(ps.tail);
    }
  }

  lemma {:induction false} PieceCovers(p: Piece)
    ensures |PaintPiece(p)| == |PieceText(p)|
    decreases p, 0
  {
    match p
    case Leaf(_, _) =>
    case Embedded(before, inner, after) =>
      PaintCovers(before);
      PaintCovers(inner);
      PaintCovers(after);
  }

  /** The leaf that covers a position gives it the colour it is painted in. */
  lemma {:induction false} LeafIsPaint(ps: Pieces, p: int)
    requires 0 <= p < |Text(ps)| == |Paint(ps)|
    ensures LeafStyle(ps, p) == Some(Paint(ps)[p])
    decreases ps, 1
  {
    hide LeafStyle, PieceText;
    PieceCovers(ps.head);
    PaintCovers(ps.tail);
    if p >= |PieceText(ps.head)| {
      LaterLeaf(ps, p);
      LeafIsPaint(ps.tail, p - |PieceText(ps.head)|);
    } else {
      PieceIsPaint(ps, p);
    }
  }

  lemma {:induction false} PieceIsPaint(ps: Pieces, p: int)
    requires ps.Cons? && 0 <= p < |PieceText(ps.head)| == |PaintPiece(ps.head)|
    ensures LeafStyle(ps, p) == Some(PaintPiece(ps.head)[p])
    decreases ps.head, 0
  {
    match ps.head
    case Leaf(_, _) =>
    case Embedded(before, inner, after) =>
      EmbeddedLeaf(ps, p);
      hide LeafStyle;
      PaintCovers(before);
      PaintCovers(inner);
      PaintCovers(after);
      var x, y := |Text(before)|, |Text(before)| + |Text(inner)|;
      if p < x {
        LeafIsPaint(before, p);
      } else if p < y {
        LeafIsPaint(inner, p - x);
      } else {
        LeafIsPaint(after, p - y);
      }
  }

  /** Decorating paints every character of the text. */
  lemma DecorateIsPaint(base: int, ps: Pieces, p: int)
    requires 0 <= p < |Text(ps)|
    ensures |Paint(ps)| == |Text(ps)| && StyleAt(Decorate(base, ps), base + p) == Some(Paint(ps)[p])
  {
    hide Decorate, StyleAt, LeafStyle, Paint, Text;
    PaintCovers(ps);
    DecoratePaints(base, ps, p);
    LeafIsPaint(ps, p);
  }

  /** A list shows at a position the style of an entry that has begun when no later one has. */
  lemma {:induction false} StyleShown(c: seq<Decoration>, p: int, i: nat)
    requires i < |c| && c[i].start <= p && forall j :: i < j < |c| ==> c[j].start > p
    ensures StyleAt(c, p) == Some(c[i].style)
    decreases |c|
  {
    if i + 1 < |c| {
      StyleShown(c[..|c| - 1], p, i);
    }
  }

  lemma {:induction false} NothingShown(c: seq<Decoration>, p: int)
    requires forall j :: 0 <= j < |c| ==> c[j].start > p
    ensures StyleAt(c, p) == None
  {
    if c != [] {
      NothingShown(c[..|c| - 1], p);
    }
  }
}
