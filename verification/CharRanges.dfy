/** Case folding of a regular expression's character class, and the sort-and-merge that follows it. */
module CharRanges {
  datatype Range = Range(lo: int, hi: int)

  /** The code points a list of ranges stands for. */
  ghost predicate Holds(rs: seq<Range>, x: int) {
    exists r :: r in rs && r.lo <= x <= r.hi
  }

  predicate IsLetter(x: int) {
    65 <= x <= 90 || 97 <= x <= 122
  }

  /** The same ASCII letter in the other case. */
  function SwapCase(x: int): int {
    if 65 <= x <= 90 then x + 32 else if 97 <= x <= 122 then x - 32 else x
  }

  /** The letters, and what each of them becomes. */
  lemma LetterPairs(x: int)
    ensures IsLetter(x) <==> 'A' as int <= x <= 'Z' as int || 'a' as int <= x <= 'z' as int
    ensures 'A' as int <= x <= 'Z' as int ==> SwapCase(x) - 'a' as int == x - 'A' as int
    ensures 'a' as int <= x <= 'z' as int ==> SwapCase(x) - 'A' as int == x - 'a' as int
    ensures !IsLetter(x) ==> SwapCase(x) == x
    ensures SwapCase(SwapCase(x)) == x
  {
  }

  /** x | 32 on a number that is not negative. */
  function SetBit5(x: int): int {
    if x / 32 % 2 == 1 then x else x + 32
  }

  /** x & -33 on a number that is not negative. */
  function ClearBit5(x: int): int {
    if x / 32 % 2 == 1 then x - 32 else x
  }

  function Max(a: int, b: int): int {
    if a < b then b else a
  }

  function Min(a: int, b: int): int {
    if a < b then a else b
  }

  /** The ranges one source range adds: itself, and its letters in the other case. */
  method PushFolded(e: seq<Range>, h: int, l: int) returns (r: seq<Range>)
    requires 0 <= h <= l
    ensures forall x :: Holds(r, x) <==> Holds(e, x) || h <= x <= l || (IsLetter(x) && h <= SwapCase(x) <= l)
    ensures forall q :: q in r ==> q in e || 0 <= q.lo <= q.hi
  {
    r := e + [Range(h, l)];
    Added(e, Range(h, l));
    if !(l < 65 || h > 122) {
      if !(l < 65 || h > 90) {
        var q := Range(SetBit5(Max(65, h)), SetBit5(Min(l, 90)));
        Added(r, q);
        r := r + [q];
      }
      if !(l < 97 || h > 122) {
        var q := Range(ClearBit5(Max(97, h)), ClearBit5(Min(l, 122)));
        Added(r, q);
        r := r + [q];
      }
    }
  }

  lemma Added(e: seq<Range>, q: Range)
    ensures forall x :: Holds(e + [q], x) <==> Holds(e, x) || q.lo <= x <= q.hi
  {
    forall x ensures Holds(e + [q], x) <==> Holds(e, x) || q.lo <= x <= q.hi {
      if Holds(e, x) {
        var r :| r in e && r.lo <= x <= r.hi;
        assert r in e + [q];
      }
      if q.lo <= x <= q.hi {
        assert q in e + [q];
      }
    }
  }

  /** The order the code sorts by: low end first, and of two equal low ends the longer range. */
  predicate InOrder(a: Range, b: Range) {
    a.lo < b.lo || (a.lo == b.lo && b.hi <= a.hi)
  }

  ghost predicate Sorted(rs: seq<Range>) {
    forall i, j :: 0 <= i < j < |rs| ==> InOrder(rs[i], rs[j])
  }

  /** One element into its place. */
  method Insert(s: seq<Range>, x: Range) returns (r: seq<Range>)
    requires Sorted(s)
    ensures Sorted(r) && multiset(r) == multiset(s) + multiset{x}
  {
    var k := |s|;
    while k > 0 && !InOrder(s[k - 1], x)
      invariant 0 <= k <= |s|
      invariant forall j :: k <= j < |s| ==> InOrder(x, s[j])
    {
      k := k - 1;
    }
    assert s == s[..k] + s[k..];
    r := s[..k] + [x] + s[k..];
    assert k > 0 ==> forall j :: 0 <= j < k - 1 ==> InOrder(s[j], s[k - 1]);
  }

  /** The library sort. */
  method Sort(e: seq<Range>) returns (r: seq<Range>)
    ensures Sorted(r) && multiset(r) == multiset(e)
  {
    hide Sorted;
    r := [];
    assert Sorted([]) by {
      NothingSorted();
    }
    for n := 0 to |e|
      invariant Sorted(r) && multiset(r) == multiset(e[..n])
    {
      r := Insert(r, e[n]);
      assert e[..n + 1] == e[..n] + [e[n]];
    }
    assert e[..|e|] == e;
  }

  lemma NothingSorted()
    ensures Sorted([])
  {
  }

  /** Disjoint, in order, and with a gap between neighbours. */
  ghost predicate Separated(rs: seq<Range>) {
    && (forall i :: 0 <= i < |rs| ==> rs[i].lo <= rs[i].hi)
    && (forall i, j :: 0 <= i < j < |rs| ==> rs[i].hi + 1 < rs[j].lo)
  }

  /** One turn of the merge loop. */
  function MergeOne(b: seq<Range>, h: Range): seq<Range> {
    if b != [] && h.lo <= b[|b| - 1].hi + 1
    then b[|b| - 1 := Range(b[|b| - 1].lo, Max(b[|b| - 1].hi, h.hi))]
    else b + [h]
  }

  lemma MergeOneKeeps(b: seq<Range>, h: Range)
    requires Separated(b) && h.lo <= h.hi && (b != [] ==> b[|b| - 1].lo <= h.lo)
    ensures Separated(MergeOne(b, h)) && MergeOne(b, h) != []
    ensures MergeOne(b, h)[|MergeOne(b, h)| - 1].lo <= h.lo
    ensures forall x :: Holds(MergeOne(b, h), x) <==> Holds(b, x) || h.lo <= x <= h.hi
  {
    if b != [] && h.lo <= b[|b| - 1].hi + 1 {
      var init, last := b[..|b| - 1], b[|b| - 1];
      var grown := Range(last.lo, Max(last.hi, h.hi));
      assert b == init + [last] && MergeOne(b, h) == init + [grown];
      Added(init, last);
      Added(init, grown);
    } else {
      Added(b, h);
    }
  }

  /** The merge loop over the sorted ranges. */
  method Merge(e: seq<Range>) returns (b: seq<Range>)
    requires Sorted(e) && forall r :: r in e ==> r.lo <= r.hi
    ensures Separated(b) && forall x :: Holds(b, x) <==> Holds(e, x)
  {
    hide Holds, Separated;
    b := [];
    Nothing();
    for a := 0 to |e|
      invariant Separated(b)
      invariant if a == 0 then b == [] else b != [] && b[|b| - 1].lo <= e[a - 1].lo
      invariant forall x :: Holds(b, x) <==> Holds(e[..a], x)
    {
      var h := e[a];
      assert h in e;
      assert a > 0 ==> InOrder(e[a - 1], h);
      MergeOneKeeps(b, h);
      Added(e[..a], h);
      assert e[..a + 1] == e[..a] + [h];
      if b != [] && h.lo <= b[|b| - 1].hi + 1 {
        var f := b[|b| - 1];
        b := b[|b| - 1 := Range(f.lo, Max(f.hi, h.hi))];
      } else {
        b := b + [h];
      }
    }
    assert e[..|e|] == e;
  }

  lemma Nothing()
    ensures Separated([]) && forall x :: !Holds([], x)
  {
  }

  /** The inner function that rewrites one character class. */
  method FoldClass(input: seq<Range>) returns (b: seq<Range>)
    requires forall r :: r in input ==> 0 <= r.lo <= r.hi
    ensures Separated(b)
    ensures forall x :: Holds(b, x) <==> Holds(input, x) || (IsLetter(x) && Holds(input, SwapCase(x)))
  {
    var e: seq<Range> := [];
    for i := 0 to |input|
      invariant forall x :: Holds(e, x) <==> Holds(input[..i], x) || (IsLetter(x) && Holds(input[..i], SwapCase(x)))
      invariant forall q :: q in e ==> 0 <= q.lo <= q.hi
    {
      assert input[i] in input;
      Added(input[..i], input[i]);
      assert input[..i + 1] == input[..i] + [input[i]];
      e := PushFolded(e, input[i].lo, input[i].hi);
    }
    assert input[..|input|] == input;
    var s := Sort(e);
    SameElements(s, e);
    b := Merge(s);
  }

  lemma SameElements(s: seq<Range>, e: seq<Range>)
    requires multiset(s) == multiset(e)
    ensures forall r :: r in s <==> r in e
    ensures forall x :: Holds(s, x) <==> Holds(e, x)
  {
    forall r ensures r in s <==> r in e {
      assert r in s <==> r in multiset(s);
      assert r in e <==> r in multiset(e);
    }
  }

  ghost predicate ClosedUnderCase(p: int -> bool) {
    forall x :: p(x) ==> p(SwapCase(x))
  }

  /** The folded class is the least superset of the class that is closed under swapping case. */
  lemma FoldedIsLeast(input: seq<Range>, p: int -> bool)
    requires forall x :: p(x) <==> Holds(input, x) || (IsLetter(x) && Holds(input, SwapCase(x)))
    ensures ClosedUnderCase(p)
    ensures forall x :: Holds(input, x) ==> p(x)
    ensures forall q: int -> bool ::
      ClosedUnderCase(q) && (forall x :: Holds(input, x) ==> q(x)) ==> forall x :: p(x) ==> q(x)
  {
    forall x | p(x) ensures p(SwapCase(x)) {
      assert SwapCase(SwapCase(x)) == x;
    }
    forall q: int -> bool, x | ClosedUnderCase(q) && (forall y :: Holds(input, y) ==> q(y)) && p(x) ensures q(x) {
      if !Holds(input, x) {
        assert q(SwapCase(x));
        assert SwapCase(SwapCase(x)) == x;
      }
    }
  }

  lemma SameFirst(a: seq<Range>, b: seq<Range>)
    requires Separated(a) && Separated(b) && a != [] && forall x :: Holds(a, x) <==> Holds(b, x)
    ensures b != [] && a[0] == b[0]
  {
    FirstRange(a);
    hide Holds, Separated;
    assert b != [] by {
      if b == [] {
        Nothing();
      }
    }
    FirstRange(b);
  }

  /** A separated list is fixed by the code points it holds. */
  lemma {:induction false} SeparatedIsCanonical(a: seq<Range>, b: seq<Range>)
    requires Separated(a) && Separated(b) && forall x :: Holds(a, x) <==> Holds(b, x)
    ensures a == b
  {
    hide Holds, Separated;
    if a != [] {
      SameFirst(a, b);
      RestRanges(a);
      RestRanges(b);
      SeparatedIsCanonical(a[1..], b[1..]);
      assert a == [a[0]] + a[1..] && b == [b[0]] + b[1..];
    } else if b != [] {
      SameFirst(b, a);
    }
  }

  lemma FirstRange(a: seq<Range>)
    requires Separated(a) && a != []
    ensures Holds(a, a[0].lo) && !Holds(a, a[0].hi + 1)
    ensures forall x :: a[0].lo <= x <= a[0].hi ==> Holds(a, x)
    ensures forall x :: Holds(a, x) ==> a[0].lo <= x
  {
    assert a[0] in a;
  }

  lemma RestRanges(a: seq<Range>)
    requires Separated(a) && a != []
    ensures Separated(a[1..])
    ensures forall x :: Holds(a[1..], x) <==> Holds(a, x) && x > a[0].hi
  {
    assert a == [a[0]] + a[1..];
    forall x ensures Holds(a[1..], x) <==> Holds(a, x) && x > a[0].hi {
      if Holds(a[1..], x) {
        var r :| r in a[1..] && r.lo <= x <= r.hi;
        assert r in a;
      }
    }
  }
}
