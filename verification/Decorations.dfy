/** The highlighter's decoration list: made by nested lexers, compacted in place. */
module Decorations {
  type Style = string

  datatype Decoration = Decoration(start: int, style: Style)

  datatype Option<T> = None | Some(value: T)

  /** What a lexer cuts a source into: a token of one style, or a token whose middle another lexer takes
      and whose ends go back to this one. */
  datatype Piece =
    | Leaf(text: string, style: Style)
    | Embedded(before: Pieces, inner: Pieces, after: Pieces)

  datatype Pieces = Nil | Cons(head: Piece, tail: Pieces)

  function PieceText(p: Piece): string {
    match p
    case Leaf(text, _) => text
    case Embedded(before, inner, after) => Text(before) + Text(inner) + Text(after)
  }

  function Text(ps: Pieces): string {
    if ps.Nil? then "" else PieceText(ps.head) + Text(ps.tail)
  }

  /** The decorate function of one lexer. */
  function Decorate(base: int, ps: Pieces): seq<Decoration>
    decreases ps, 2
  {
    [Decoration(base, "pln")] + DecorateTokens(base, ps)
  }

  /** The appendDecorations function: an empty source adds nothing. */
  function Append(base: int, ps: Pieces): seq<Decoration>
    decreases ps, 3
  {
    if Text(ps) == "" then [] else Decorate(base, ps)
  }

  function DecorateToken(base: int, p: Piece): seq<Decoration>
    decreases p, 0
  {
    match p
    case Leaf(_, style) => [Decoration(base, style)]
    case Embedded(before, inner, after) =>
      Append(base, before) + Append(base + |Text(before)|, inner) + Append(base + |Text(before)| + |Text(inner)|, after)
  }

  function DecorateTokens(base: int, ps: Pieces): seq<Decoration>
    decreases ps, 1
  {
    if ps.Nil? then []
    else DecorateToken(base, ps.head) + DecorateTokens(base + |PieceText(ps.head)|, ps.tail)
  }

  /** The style a reader sees at a position: that of the last decoration at or before it. */
  function StyleAt(c: seq<Decoration>, p: int): Option<Style> {
    if c == [] then None
    else if c[|c| - 1].start <= p then Some(c[|c| - 1].style)
    else StyleAt(c[..|c| - 1], p)
  }

  function Or(a: Option<Style>, b: Option<Style>): Option<Style> {
    if a == None then b else a
  }

  /** The style of the leaf that covers a position. */
  function LeafStyle(ps: Pieces, p: int): Option<Style> {
    if ps.Nil? then None
    else if p >= |PieceText(ps.head)| then LeafStyle(ps.tail, p - |PieceText(ps.head)|)
    else match ps.head
      case Leaf(_, style) => Some(style)
      case Embedded(before, inner, after) =>
        if p < |Text(before)| then LeafStyle(before, p)
        else if p < |Text(before)| + |Text(inner)| then LeafStyle(inner, p - |Text(before)|)
        else LeafStyle(after, p - |Text(before)| - |Text(inner)|)
  }

  ghost predicate Sorted(c: seq<Decoration>) {
    forall i, j :: 0 <= i < j < |c| ==> c[i].start <= c[j].start
  }

  ghost predicate Within(c: seq<Decoration>, lo: int, hi: int) {
    forall i :: 0 <= i < |c| ==> lo <= c[i].start <= hi
  }

  lemma Joined(a: seq<Decoration>, b: seq<Decoration>, lo: int, mid: int, hi: int)
    requires lo <= mid <= hi && Sorted(a) && Within(a, lo, mid) && Sorted(b) && Within(b, mid, hi)
    ensures Sorted(a + b) && Within(a + b, lo, hi)
  {
  }

  lemma {:induction false} StyleJoined(a: seq<Decoration>, b: seq<Decoration>, p: int)
    ensures StyleAt(a + b, p) == Or(StyleAt(b, p), StyleAt(a, p))
  {
    if b == [] {
      assert a + b == a;
    } else {
      assert (a + b)[..|a + b| - 1] == a + b[..|b| - 1];
      StyleJoined(a, b[..|b| - 1], p);
    }
  }

  lemma {:induction false} NotYet(c: seq<Decoration>, lo: int, hi: int, p: int)
    requires Within(c, lo, hi) && p < lo
    ensures StyleAt(c, p) == None
  {
    if c != [] {
      NotYet(c[..|c| - 1], lo, hi, p);
    }
  }

  /** Every lexer's decorations are in order, begin at its base and stay within its source. */
  lemma {:induction false} DecorateInOrder(base: int, ps: Pieces)
    ensures Decorate(base, ps) != [] && Decorate(base, ps)[0].start == base
    ensures Sorted(Decorate(base, ps)) && Within(Decorate(base, ps), base, base + |Text(ps)|)
    decreases ps, 2
  {
    TokensInOrder(base, ps);
    Joined([Decoration(base, "pln")], DecorateTokens(base, ps), base, base, base + |Text(ps)|);
  }

  lemma {:induction false} AppendInOrder(base: int, ps: Pieces)
    ensures Sorted(Append(base, ps)) && Within(Append(base, ps), base, base + |Text(ps)|)
    decreases ps, 3
  {
    DecorateInOrder(base, ps);
  }

  lemma {:induction false} TokenInOrder(base: int, p: Piece)
    ensures Sorted(DecorateToken(base, p)) && Within(DecorateToken(base, p), base, base + |PieceText(p)|)
    decreases p, 0
  {
    match p
    case Leaf(_, _) =>
    case Embedded(before, inner, after) =>
      hide Append, Within, Sorted, Text;
      var x := base + |Text(before)|;
      var y := x + |Text(inner)|;
      AppendInOrder(base, before);
      AppendInOrder(x, inner);
      AppendInOrder(y, after);
      Joined(Append(base, before), Append(x, inner), base, x, y);
      Joined(Append(base, before) + Append(x, inner), Append(y, after), base, y, y + |Text(after)|);
  }

  lemma FirstToken(base: int, ps: Pieces)
    requires ps.Cons?
    ensures |Text(ps)| == |PieceText(ps.head)| + |Text(ps.tail)|
    ensures DecorateTokens(base, ps)
         == DecorateToken(base, ps.head) + DecorateTokens(base + |PieceText(ps.head)|, ps.tail)
  {
    hide DecorateToken, PieceText;
  }

  lemma {:induction false} TokensInOrder(base: int, ps: Pieces)
    ensures Sorted(DecorateTokens(base, ps)) && Within(DecorateTokens(base, ps), base, base + |Text(ps)|)
    decreases ps, 1
  {
    if ps.Cons? {
      hide DecorateTokens, DecorateToken, Within, Sorted, PieceText, Text;
      var mid := base + |PieceText(ps.head)|;
      FirstToken(base, ps);
      TokenInOrder(base, ps.head);
      TokensInOrder(mid, ps.tail);
      Joined(DecorateToken(base, ps.head), DecorateTokens(mid, ps.tail), base, mid, base + |Text(ps)|);
    }
  }

  /** Nested lexing paints every position in the style of the leaf that covers it. */
  lemma {:induction false} DecoratePaints(base: int, ps: Pieces, p: int)
    requires 0 <= p < |Text(ps)|
    ensures StyleAt(Decorate(base, ps), base + p) == LeafStyle(ps, p) != None
    decreases ps, 2
  {
    NonEmpty(ps);
    TokensPaint(base, ps, p);
    StyleJoined([Decoration(base, "pln")], DecorateTokens(base, ps), base + p);
  }

  lemma {:induction false} AppendPaints(base: int, ps: Pieces, p: int)
    requires 0 <= p < |Text(ps)|
    ensures StyleAt(Append(base, ps), base + p) == LeafStyle(ps, p) != None
    decreases ps, 3
  {
    hide Decorate, StyleAt, LeafStyle;
    DecoratePaints(base, ps, p);
  }

  lemma {:induction false} TokensPaint(base: int, ps: Pieces, p: int)
    requires ps.Cons? && 0 <= p < |Text(ps)|
    ensures StyleAt(DecorateTokens(base, ps), base + p) == LeafStyle(ps, p) != None
    decreases ps, 1
  {
    hide DecorateTokens, DecorateToken, StyleAt, Within, Sorted, PieceText, Text;
    FirstToken(base, ps);
    var len := |PieceText(ps.head)|;
    var first, rest := DecorateToken(base, ps.head), DecorateTokens(base + len, ps.tail);
    StyleJoined(first, rest, base + p);
    if p >= len {
      NonEmpty(ps.tail);
      TokensPaint(base + len, ps.tail, p - len);
      LaterLeaf(ps, p);
    } else {
      TokensInOrder(base + len, ps.tail);
      NotYet(rest, base + len, base + |Text(ps)|, base + p);
      TokenPaints(base, ps, p);
    }
  }

  lemma NonEmpty(ps: Pieces)
    ensures |Text(ps)| > 0 ==> ps.Cons?
  {
  }

  lemma LaterLeaf(ps: Pieces, p: int)
    requires ps.Cons? && p >= |PieceText(ps.head)|
    ensures LeafStyle(ps, p) == LeafStyle(ps.tail, p - |PieceText(ps.head)|)
  {
    hide PieceText;
  }

  lemma EmbeddedLeaf(ps: Pieces, p: int)
    requires ps.Cons? && ps.head.Embedded? && p < |PieceText(ps.head)|
    ensures var x, y := |Text(ps.head.before)|, |Text(ps.head.before)| + |Text(ps.head.inner)|;
            LeafStyle(ps, p) == if p < x then LeafStyle(ps.head.before, p)
                                else if p < y then LeafStyle(ps.head.inner, p - x)
                                else LeafStyle(ps.head.after, p - y)
  {
    hide PieceText, Text;
  }

  lemma {:induction false} TokenPaints(base: int, ps: Pieces, p: int)
    requires ps.Cons? && 0 <= p < |PieceText(ps.head)|
    ensures StyleAt(DecorateToken(base, ps.head), base + p) == LeafStyle(ps, p) != None
    decreases ps, 0
  {
    match ps.head
    case Leaf(_, style) =>
    case Embedded(before, inner, after) =>
      hide Append, Within, Sorted, StyleAt, Text;
      var x := base + |Text(before)|;
      var y := x + |Text(inner)|;
      var a, b, c := Append(base, before), Append(x, inner), Append(y, after);
      assert DecorateToken(base, ps.head) == a + b + c;
      EmbeddedLeaf(ps, p);
      hide LeafStyle;
      StyleJoined(a + b, c, base + p);
      StyleJoined(a, b, base + p);
      AppendInOrder(x, inner);
      AppendInOrder(y, after);
      if base + p < x {
        NotYet(b, x, y, base + p);
        NotYet(c, y, y + |Text(after)|, base + p);
        AppendPaints(base, before, p);
      } else if base + p < y {
        NotYet(c, y, y + |Text(after)|, base + p);
        AppendPaints(x, inner, base + p - x);
      } else {
        AppendPaints(y, after, base + p - y);
      }
  }

  /** The loop of decorate: tokens are pushed one after the other, embedded sources decorated on the way. */
  method DecorateJob(base: int, tokens: Pieces) returns (k: seq<Decoration>)
    ensures k == Decorate(base, tokens)
    decreases tokens, 2
  {
    hide Append, Text, PieceText;
    k := [Decoration(base, "pln")];
    var pos := 0;
    var rest := tokens;
    while rest.Cons?
      invariant rest == tokens || rest < tokens
      invariant Decorate(base, tokens) == k + DecorateTokens(base + pos, rest)
      decreases rest
    {
      var token := rest.head;
      var tokenStart := pos;
      pos := pos + |PieceText(token)|;
      match token {
        case Leaf(_, style) =>
          k := k + [Decoration(base + tokenStart, style)];
        case Embedded(before, inner, after) =>
          k := AppendJob(base + tokenStart, before, k);
          k := AppendJob(base + tokenStart + |Text(before)|, inner, k);
          k := AppendJob(base + tokenStart + |Text(before)| + |Text(inner)|, after, k);
      }
      rest := rest.tail;
    }
  }

  method AppendJob(base: int, source: Pieces, out: seq<Decoration>) returns (k: seq<Decoration>)
    ensures k == out + Append(base, source)
    decreases source, 3
  {
    if Text(source) == "" {
      return out;
    }
    var decorations := DecorateJob(base, source);
    k := out + decorations;
  }
}
