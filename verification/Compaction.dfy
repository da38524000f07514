/** The two in-place passes over the decoration list. */
module Compaction {
  import opened Decorations

  /** The start behind entry i, which at the end of the list is the source length. */
  function NextStart(c: seq<Decoration>, m: int): int
    requires c != []
  {
    if |c| == 1 then m else c[1].start
  }

  /** First pass: an entry is dropped when the next one starts at the same place. */
  function KeepLast(c: seq<Decoration>, m: int): seq<Decoration> {
    if c == [] then []
    else (if c[0].start != NextStart(c, m) then [c[0]] else []) + KeepLast(c[1..], m)
  }

  function DropSame(c: seq<Decoration>, w: Style): (r: seq<Decoration>)
    ensures |r| <= |c|
  {
    if c == [] || c[0].style != w then c else DropSame(c[1..], w)
  }

  /** Second pass: a run of one style becomes its first entry. */
  function MergeRuns(c: seq<Decoration>): seq<Decoration>
    decreases |c|
  {
    if c == [] then [] else [c[0]] + MergeRuns(DropSame(c[1..], c[0].style))
  }

  ghost predicate StrictlySorted(c: seq<Decoration>) {
    forall i, j :: 0 <= i < j < |c| ==> c[i].start < c[j].start
  }

  ghost predicate NeighboursDiffer(c: seq<Decoration>) {
    forall i :: 0 < i < |c| ==> c[i - 1].style != c[i].style
  }

  ghost predicate Between(c: seq<Decoration>, lo: int, hi: int) {
    forall i :: 0 <= i < |c| ==> lo <= c[i].start < hi
  }

  /** The style at a position, read from the front. */
  lemma StyleFromFront(c: seq<Decoration>, p: int)
    requires c != []
    ensures StyleAt(c, p) == Or(StyleAt(c[1..], p), if c[0].start <= p then Some(c[0].style) else None)
  {
    StyleJoined([c[0]], c[1..], p);
    assert c == [c[0]] + c[1..];
  }

  lemma SomeStyle(c: seq<Decoration>, p: int)
    requires c != [] && c[0].start <= p
    ensures StyleAt(c, p) != None
  {
    hide StyleAt;
    StyleFromFront(c, p);
  }

  lemma {:induction false} KeepLastSorted(c: seq<Decoration>, lo: int, m: int)
    requires Sorted(c) && Within(c, lo, m)
    ensures StrictlySorted(KeepLast(c, m)) && Between(KeepLast(c, m), lo, m)
  {
    if c != [] {
      KeepLastSorted(c[1..], NextStart(c, m), m);
    }
  }

  /** The first pass leaves the style of every source position as it was. */
  lemma {:induction false} KeepLastStyle(c: seq<Decoration>, m: int, p: int)
    requires Sorted(c) && p < m
    ensures StyleAt(KeepLast(c, m), p) == StyleAt(c, p)
  {
    if c != [] {
      hide StyleAt;
      KeepLastStyle(c[1..], m, p);
      StyleFromFront(c, p);
      if c[0].start != NextStart(c, m) {
        StyleFromFront(KeepLast(c, m), p);
        assert KeepLast(c, m)[1..] == KeepLast(c[1..], m);
      } else {
        assert KeepLast(c, m) == KeepLast(c[1..], m);
        if |c| > 1 && c[0].start <= p {
          SomeStyle(c[1..], p);
        }
      }
    }
  }

  lemma {:induction false} DropSameSuffix(c: seq<Decoration>, w: Style)
    ensures DropSame(c, w) == c[|c| - |DropSame(c, w)|..]
    ensures DropSame(c, w) != [] ==> DropSame(c, w)[0].style != w
  {
    if c != [] && c[0].style == w {
      DropSameSuffix(c[1..], w);
    }
  }

  /** Skipping a run of the style that already holds changes nothing behind the entry that holds it. */
  lemma {:induction false} DropSameStyle(c: seq<Decoration>, w: Style, p: int)
    ensures Or(StyleAt(c, p), Some(w)) == Or(StyleAt(DropSame(c, w), p), Some(w))
  {
    if c != [] && c[0].style == w {
      hide StyleAt;
      DropSameStyle(c[1..], w, p);
      StyleFromFront(c, p);
    }
  }

  lemma {:induction false} NoneBefore(c: seq<Decoration>, p: int)
    requires forall i :: 0 <= i < |c| ==> c[i].start > p
    ensures StyleAt(c, p) == None
  {
    if c != [] {
      NoneBefore(c[..|c| - 1], p);
    }
  }

  /** One merged run in front of a list whose own merged form is style-equal. */
  lemma RunStyle(c: seq<Decoration>, rest: seq<Decoration>, merged: seq<Decoration>, p: int)
    requires c != [] && StrictlySorted(c) && rest == DropSame(c[1..], c[0].style)
    requires StyleAt(merged, p) == StyleAt(rest, p)
    ensures StyleAt([c[0]] + merged, p) == StyleAt(c, p)
  {
    hide StyleAt, DropSame;
    DropSameSuffix(c[1..], c[0].style);
    StyleFromFront(c, p);
    StyleJoined([c[0]], merged, p);
    SingleStyle(c[0], p);
    if c[0].start <= p {
      DropSameStyle(c[1..], c[0].style, p);
    } else {
      NoneBefore(c[1..], p);
      NoneBefore(rest, p);
    }
  }

  lemma SingleStyle(d: Decoration, p: int)
    ensures StyleAt([d], p) == if d.start <= p then Some(d.style) else None
  {
  }

  /** The second pass leaves the style of every position as it was. */
  lemma {:induction false} MergeRunsStyle(c: seq<Decoration>, p: int)
    requires StrictlySorted(c)
    ensures StyleAt(MergeRuns(c), p) == StyleAt(c, p)
    decreases |c|
  {
    if c != [] {
      hide StyleAt, DropSame;
      var rest := DropSame(c[1..], c[0].style);
      DropSameSuffix(c[1..], c[0].style);
      MergeRunsStyle(rest, p);
      RunStyle(c, rest, MergeRuns(rest), p);
    }
  }

  lemma Prepended(d: Decoration, r: seq<Decoration>, lo: int, hi: int)
    requires lo <= d.start < hi && StrictlySorted(r) && NeighboursDiffer(r) && Between(r, d.start + 1, hi)
    requires r != [] ==> r[0].style != d.style
    ensures StrictlySorted([d] + r) && NeighboursDiffer([d] + r) && Between([d] + r, lo, hi)
  {
  }

  lemma SuffixKept(c: seq<Decoration>, n: nat, lo: int, hi: int)
    requires StrictlySorted(c) && Between(c, lo, hi) && 0 < n <= |c|
    ensures StrictlySorted(c[n..]) && Between(c[n..], c[0].start + 1, hi)
  {
  }

  lemma {:induction false} MergeRunsShape(c: seq<Decoration>, lo: int, hi: int)
    requires StrictlySorted(c) && Between(c, lo, hi)
    ensures StrictlySorted(MergeRuns(c)) && NeighboursDiffer(MergeRuns(c)) && Between(MergeRuns(c), lo, hi)
    ensures c != [] ==> MergeRuns(c) != [] && MergeRuns(c)[0] == c[0]
    decreases |c|
  {
    if c != [] {
      var rest := DropSame(c[1..], c[0].style);
      DropSameSuffix(c[1..], c[0].style);
      assert rest == c[|c| - |rest|..];
      assert MergeRuns(c) == [c[0]] + MergeRuns(rest);
      assert lo <= c[0].start < hi;
      hide DropSame, MergeRuns, StrictlySorted, NeighboursDiffer, Between;
      SuffixKept(c, |c| - |rest|, lo, hi);
      MergeRunsShape(rest, c[0].start + 1, hi);
      Prepended(c[0], MergeRuns(rest), lo, hi);
    }
  }

  /** What both passes make of a list. */
  function Compacted(c: seq<Decoration>, m: int): seq<Decoration> {
    MergeRuns(KeepLast(c, m))
  }

  /** Compaction keeps the look of the source and leaves starts strictly increasing, inside the source,
      from position 0 on, with no two neighbours of one style. */
  lemma CompactionKeepsStyles(c: seq<Decoration>, m: int)
    requires Sorted(c) && Within(c, 0, m)
    ensures StrictlySorted(Compacted(c, m)) && NeighboursDiffer(Compacted(c, m)) && Between(Compacted(c, m), 0, m)
    ensures forall p :: p < m ==> StyleAt(Compacted(c, m), p) == StyleAt(c, p)
    ensures c != [] && c[0].start == 0 && 0 < m ==> Compacted(c, m) != [] && Compacted(c, m)[0].start == 0
  {
    hide StyleAt, KeepLast, MergeRuns;
    var k := KeepLast(c, m);
    KeepLastSorted(c, 0, m);
    MergeRunsShape(k, 0, m);
    forall p | p < m ensures StyleAt(Compacted(c, m), p) == StyleAt(c, p) {
      KeepLastStyle(c, m, p);
      MergeRunsStyle(k, p);
    }
    if c != [] && c[0].start == 0 && 0 < m {
      SomeStyle(c, 0);
      StyledAtZero(Compacted(c, m));
    }
  }

  lemma StyledAtZero(c: seq<Decoration>)
    requires StyleAt(c, 0) != None && StrictlySorted(c)
    ensures c != [] && c[0].start <= 0
  {
    if c != [] && c[0].start > 0 {
      NoneBefore(c, 0);
    }
  }

  lemma KeepLastStep(list: seq<Decoration>, m: int, e: nat, next: int)
    requires e < |list| && next == if e + 1 < |list| then list[e + 1].start else m
    ensures KeepLast(list[e..], m) == (if list[e].start != next then [list[e]] else []) + KeepLast(list[e + 1..], m)
  {
    assert list[e..][1..] == list[e + 1..];
  }

  /** The first loop; the array has one slot behind the list for the end mark. */
  method FirstPass(c: array<Decoration>, i: nat, m: int) returns (n: nat)
    requires c.Length == i + 1
    modifies c
    ensures n <= i && c[..n] == KeepLast(old(c[..i]), m)
  {
    hide KeepLast;
    ghost var list := c[..i];
    c[i] := Decoration(m, "");
    var e := 0;
    n := 0;
    assert list[0..] == list;
    while e < i
      invariant n <= e <= i
      invariant c[e..i] == list[e..] && c[i].start == m
      invariant KeepLast(list, m) == c[..n] + KeepLast(list[e..], m)
    {
      ghost var was := c[..n];
      assert c[e] == c[e..i][0] == list[e];
      assert e + 1 < i ==> c[e + 1] == c[e..i][1] == list[e + 1];
      KeepLastStep(list, m, e, c[e + 1].start);
      assert c[e + 1..i] == c[e..i][1..] == list[e + 1..];
      if c[e].start != c[e + 1].start {
        c[n] := c[e];
        n := n + 1;
        assert c[..n] == was + [list[e]];
      }
      e := e + 1;
    }
    KeepNothing(m);
  }

  lemma KeepNothing(m: int)
    ensures KeepLast([], m) == []
  {
  }

  lemma MergeStep(list: seq<Decoration>, e: nat, t: nat)
    requires e < t <= |list| && DropSame(list[e + 1..], list[e].style) == DropSame(list[t..], list[e].style)
    requires t < |list| ==> list[t].style != list[e].style
    ensures MergeRuns(list[e..]) == [list[e]] + MergeRuns(list[t..])
  {
    assert list[e..][1..] == list[e + 1..];
  }

  /** The inner loop: the end of the run of style w that begins at e. */
  method RunEnd(c: array<Decoration>, e: nat, i: nat, w: Style) returns (t: nat)
    requires e < i <= c.Length
    ensures e < t <= i && DropSame(c[e + 1..i], w) == DropSame(c[t..i], w)
    ensures t < i ==> c[t].style != w
  {
    t := e + 1;
    while t < i && c[t].style == w
      invariant e < t <= i
      invariant DropSame(c[e + 1..i], w) == DropSame(c[t..i], w)
    {
      assert c[t..i][1..] == c[t + 1..i];
      t := t + 1;
    }
  }

  /** The second loop, over the first i entries. */
  method SecondPass(c: array<Decoration>, i: nat) returns (n: nat)
    requires i <= c.Length
    modifies c
    ensures n <= i && c[..n] == MergeRuns(old(c[..i]))
  {
    hide MergeRuns, DropSame;
    ghost var kept := c[..i];
    var e := 0;
    n := 0;
    assert kept[0..] == kept;
    while e < i
      invariant n <= e <= i
      invariant c[e..i] == kept[e..]
      invariant MergeRuns(kept) == c[..n] + MergeRuns(kept[e..])
    {
      assert c[e] == c[e..i][0] == kept[e];
      var p := c[e].start;
      var w := c[e].style;
      var t := RunEnd(c, e, i, w);
      assert c[e + 1..i] == c[e..i][1..] == kept[e + 1..];
      assert c[t..i] == c[e..i][t - e..] == kept[t..];
      assert t < i ==> c[t] == c[t..i][0] == kept[t];
      MergeStep(kept, e, t);
      ghost var was, tail := c[..n], c[t..i];
      c[n] := Decoration(p, w);
      n := n + 1;
      assert c[..n] == was + [kept[e]] && c[t..i] == tail;
      e := t;
    }
    MergeNothing();
  }

  lemma MergeNothing()
    ensures MergeRuns([]) == []
  {
  }

  /** Both passes: the number of entries left at the front of the array. */
  method Compact(c: array<Decoration>, i: nat, m: int) returns (n: nat)
    requires c.Length == i + 1
    modifies c
    ensures n <= i && c[..n] == Compacted(old(c[..i]), m)
  {
    hide KeepLast, MergeRuns;
    n := FirstPass(c, i, m);
    n := SecondPass(c, n);
  }
}
