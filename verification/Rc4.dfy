/**
 * The RC4 cipher as arc4random uses it: key bytes may be added at any time, words are four key
 * stream bytes, and after every PERIOD words the table is stirred with 128 fresh bytes.
 */
module Rc4 {
  import opened Words

  type Box = s: seq<Byte> | |s| == 256 witness seq(256, _ => 0)
  type Seed = s: seq<Byte> | |s| == 128 witness seq(128, _ => 0)

  datatype Cipher = Cipher(s: Box, i: Byte, j: Byte)

  function Plus(a: Byte, b: Byte): Byte {
    a + b
  }

  function At(s: Box, k: Byte): Byte {
    s[k as int]
  }

  function Swap(s: Box, a: Byte, b: Byte): Box {
    s[a as int := At(s, b)][b as int := At(s, a)]
  }

  function Step(c: Cipher): Cipher {
    var i := Plus(c.i, 1);
    var j := Plus(c.j, At(c.s, i));
    Cipher(Swap(c.s, i, j), i, j)
  }

  function Output(c: Cipher): Byte {
    At(c.s, Plus(At(c.s, c.i), At(c.s, c.j)))
  }

  function KeyStep(c: Cipher, byte: Byte): Cipher {
    var i := Plus(c.i, 1);
    var j := Plus(c.j, Plus(At(c.s, i), byte));
    Cipher(Swap(c.s, i, j), i, j)
  }

  function KeySteps(c: Cipher, data: seq<Byte>, n: nat): Cipher
    requires data != []
  {
    if n == 0 then c else KeyStep(KeySteps(c, data, n - 1), data[(n - 1) % |data|])
  }

  function AddKey(c: Cipher, data: seq<Byte>): Cipher {
    if data == [] then
      c
    else
      var d := KeySteps(c.(i := Plus(c.i, 255)), data, 256);
      d.(j := d.i)
  }

  function WordStep(c: Cipher): Cipher {
    Step(Step(Step(Step(c))))
  }

  function WordSteps(c: Cipher, n: nat): Cipher {
    if n == 0 then c else WordStep(WordSteps(c, n - 1))
  }

  /** The word that the next four bytes make, the first of them on top. */
  function WordOf(c: Cipher): Word {
    var c1 := Step(c);
    var c2 := Step(c1);
    var c3 := Step(c2);
    Join(Output(c1), Output(c2), Output(c3), Output(Step(c3)))
  }

  // Every step only exchanges two bytes of the table.

  lemma ExchangeKeeps(s: seq<Byte>, x: nat, y: nat)
    requires x < |s| && y < |s|
    ensures multiset(s[x := s[y]][y := s[x]]) == multiset(s)
  {
  }

  lemma SwapKeeps(s: Box, a: Byte, b: Byte)
    ensures multiset(Swap(s, a, b)) == multiset(s)
  {
    ExchangeKeeps(s, a as int, b as int);
  }

  lemma {:induction false} KeyStepsKeep(c: Cipher, data: seq<Byte>, n: nat)
    requires data != []
    ensures multiset(KeySteps(c, data, n).s) == multiset(c.s)
  {
    hide Swap, At, Plus;
    if n > 0 {
      KeyStepsKeep(c, data, n - 1);
      var d := KeySteps(c, data, n - 1);
      var i := Plus(d.i, 1);
      SwapKeeps(d.s, i, Plus(d.j, Plus(At(d.s, i), data[(n - 1) % |data|])));
    }
  }

  lemma AddKeyKeeps(c: Cipher, data: seq<Byte>)
    ensures multiset(AddKey(c, data).s) == multiset(c.s)
  {
    if data != [] {
      KeyStepsKeep(c.(i := Plus(c.i, 255)), data, 256);
    }
  }

  lemma StepKeeps(c: Cipher)
    ensures multiset(Step(c).s) == multiset(c.s)
  {
    hide Swap, At, Plus;
    var i := Plus(c.i, 1);
    SwapKeeps(c.s, i, Plus(c.j, At(c.s, i)));
  }

  lemma {:induction false} WordStepsKeep(c: Cipher, n: nat)
    ensures multiset(WordSteps(c, n).s) == multiset(c.s)
  {
    hide Step;
    if n > 0 {
      WordStepsKeep(c, n - 1);
      var c0 := WordSteps(c, n - 1);
      StepKeeps(c0);
      StepKeeps(Step(c0));
      StepKeeps(Step(Step(c0)));
      StepKeeps(Step(Step(Step(c0))));
    }
  }

  lemma {:induction false} WordStepsAdd(c: Cipher, m: nat, n: nat)
    ensures WordSteps(c, m + n) == WordSteps(WordSteps(c, m), n)
  {
    hide WordStep;
    if n > 0 {
      WordStepsAdd(c, m, n - 1);
    }
  }

  // A table of equal bytes stays one, and so gives no key stream.

  ghost predicate Blank(c: Cipher) {
    forall k :: 0 <= k < 256 ==> c.s[k] == 0
  }

  lemma BlankIs(c: Cipher, d: Cipher)
    requires multiset(c.s) == multiset(d.s) && Blank(c)
    ensures Blank(d)
  {
    forall k | 0 <= k < 256
      ensures d.s[k] == 0
    {
      assert d.s[k] in multiset(d.s);
      assert d.s[k] in multiset(c.s);
    }
  }

  lemma BlankGivesZero(c: Cipher)
    requires Blank(c)
    ensures WordOf(c) == 0
  {
    hide Swap, Plus, Join;
    StepKeeps(c);
    StepKeeps(Step(c));
    StepKeeps(Step(Step(c)));
    StepKeeps(Step(Step(Step(c))));
    BlankIs(c, Step(c));
    BlankIs(c, Step(Step(c)));
    BlankIs(c, Step(Step(Step(c))));
    BlankIs(c, Step(Step(Step(Step(c)))));
    JoinZero();
  }

  lemma JoinZero()
    ensures Join(0, 0, 0, 0) == 0
  {
  }

  // The source of words: when its count of bytes has run out, a draw stirs it first.

  const FULL: nat := 0x186A40
  const PERIOD: nat := 399952

  datatype Source = Source(cipher: Cipher, count: int, stirs: nat)

  function Stirred(source: Source, entropy: nat -> Seed): Source {
    Source(WordSteps(AddKey(source.cipher, entropy(source.stirs)), 64), FULL - 256, source.stirs + 1)
  }

  function Ready(source: Source, entropy: nat -> Seed): Source {
    if source.count <= 0 then Stirred(source, entropy) else source
  }

  function Drawn(source: Source, entropy: nat -> Seed): Source {
    var ready := Ready(source, entropy);
    ready.(cipher := WordStep(ready.cipher), count := ready.count - 4)
  }

  function WordFrom(source: Source, entropy: nat -> Seed): Word {
    WordOf(Ready(source, entropy).cipher)
  }

  function DrawnBy(source: Source, entropy: nat -> Seed, n: nat): Source {
    if n == 0 then source else Drawn(DrawnBy(source, entropy, n - 1), entropy)
  }

  /** The cipher right after stirring number e of a run. */
  function Epoch(start: Cipher, entropy: nat -> Seed, e: nat): Cipher {
    AddKey(if e == 0 then start else WordSteps(Epoch(start, entropy, e - 1), 64 + PERIOD), entropy(e))
  }

  /**
   * Word n of a run: it stands 64 words after the latest stirring, further by the number of words
   * delivered since then.
   */
  function WordAt(start: Cipher, entropy: nat -> Seed, n: nat): Word {
    WordOf(WordSteps(Epoch(start, entropy, n / PERIOD), 64 + n % PERIOD))
  }

  /** The source of a run when it has delivered word r - 1 of epoch e. */
  function Within(start: Cipher, entropy: nat -> Seed, e: nat, r: nat): Source {
    Source(WordSteps(Epoch(start, entropy, e), 64 + r), 4 * (PERIOD - r), e + 1)
  }

  lemma EpochBegins(start: Cipher, entropy: nat -> Seed, source: Source, e: nat)
    requires source.count <= 0 && source.stirs == e
    requires source.cipher == if e == 0 then start else WordSteps(Epoch(start, entropy, e - 1), 64 + PERIOD)
    ensures Drawn(source, entropy) == Within(start, entropy, e, 1)
    ensures WordFrom(source, entropy) == WordOf(WordSteps(Epoch(start, entropy, e), 64))
  {
    hide WordStep, AddKey, WordOf;
    assert Epoch(start, entropy, e) == AddKey(source.cipher, entropy(e));
    assert WordSteps(Epoch(start, entropy, e), 65) == WordStep(WordSteps(Epoch(start, entropy, e), 64));
  }

  lemma EpochContinues(start: Cipher, entropy: nat -> Seed, e: nat, r: nat)
    requires r < PERIOD
    ensures Drawn(Within(start, entropy, e, r), entropy) == Within(start, entropy, e, r + 1)
    ensures WordFrom(Within(start, entropy, e, r), entropy)
         == WordOf(WordSteps(Epoch(start, entropy, e), 64 + r))
  {
    hide WordStep, AddKey, WordOf, Epoch;
  }

  /** The source when e periods and r more words have been delivered. */
  function After(start: Cipher, entropy: nat -> Seed, e: nat, r: nat): Source {
    if r > 0 then Within(start, entropy, e, r)
    else if e > 0 then Within(start, entropy, e - 1, PERIOD)
    else Source(start, 0, 0)
  }

  lemma AfterJoins(start: Cipher, entropy: nat -> Seed, e: nat, r: nat)
    ensures e == 0 && r == 0 ==> After(start, entropy, e, r) == Source(start, 0, 0)
    ensures After(start, entropy, e + 1, 0) == After(start, entropy, e, PERIOD)
  {
    hide Within;
  }

  lemma AfterMoves(start: Cipher, entropy: nat -> Seed, e: nat, r: nat)
    requires r < PERIOD
    ensures Drawn(After(start, entropy, e, r), entropy) == After(start, entropy, e, r + 1)
    ensures WordFrom(After(start, entropy, e, r), entropy)
         == WordOf(WordSteps(Epoch(start, entropy, e), 64 + r))
  {
    hide Drawn, WordFrom, Epoch, WordOf, WordSteps;
    if r > 0 {
      EpochContinues(start, entropy, e, r);
    } else {
      EpochBegins(start, entropy, After(start, entropy, e, r), e);
    }
  }

  lemma DrawnNext(source: Source, entropy: nat -> Seed, n: nat)
    ensures DrawnBy(source, entropy, 0) == source
    ensures DrawnBy(source, entropy, n + 1) == Drawn(DrawnBy(source, entropy, n), entropy)
  {
  }

  function Delivered(e: nat, r: nat): nat {
    399952 * e + r
  }

  lemma DeliveredMoves(e: nat, r: nat)
    ensures Delivered(e, r) == 0 <==> e == 0 && r == 0
    ensures Delivered(e, r + 1) == Delivered(e, r) + 1
    ensures Delivered(e + 1, 0) == Delivered(e, PERIOD)
  {
  }

  lemma {:induction false} RunTo(start: Cipher, entropy: nat -> Seed, e: nat, r: nat)
    requires r <= PERIOD
    ensures DrawnBy(Source(start, 0, 0), entropy, Delivered(e, r)) == After(start, entropy, e, r)
    decreases e, r
  {
    hide *;
    var source := Source(start, 0, 0);
    if r > 0 {
      RunTo(start, entropy, e, r - 1);
      AfterMoves(start, entropy, e, r - 1);
      DrawnNext(source, entropy, Delivered(e, r - 1));
      DeliveredMoves(e, r - 1);
    } else if e > 0 {
      RunTo(start, entropy, e - 1, PERIOD);
      DeliveredMoves(e - 1, r);
      AfterJoins(start, entropy, e - 1, r);
    } else {
      DrawnNext(source, entropy, 0);
      DeliveredMoves(e, r);
      AfterJoins(start, entropy, e, r);
    }
  }

  /**
   * Every run: before word n the source has been stirred once for every PERIOD words that have
   * begun, its count is what is left of the period, and word n is WordAt.
   */
  lemma WholeRun(start: Cipher, entropy: nat -> Seed, n: nat)
    ensures DrawnBy(Source(start, 0, 0), entropy, n) == After(start, entropy, n / PERIOD, n % PERIOD)
    ensures WordFrom(DrawnBy(Source(start, 0, 0), entropy, n), entropy) == WordAt(start, entropy, n)
  {
    hide After, DrawnBy, WordFrom, Epoch, WordOf, WordSteps;
    RunTo(start, entropy, n / PERIOD, n % PERIOD);
    AfterMoves(start, entropy, n / PERIOD, n % PERIOD);
  }

  /** The count never leaves 0..FULL, always allows whole words, and runs out once in a period. */
  lemma CountStays(start: Cipher, entropy: nat -> Seed, n: nat)
    ensures var count := DrawnBy(Source(start, 0, 0), entropy, n).count;
            0 <= count < FULL && count % 4 == 0 && (count == 0 <==> n % PERIOD == 0)
  {
    hide DrawnBy, WordFrom, Epoch, WordAt, WordSteps;
    WholeRun(start, entropy, n);
  }

  lemma {:induction false} EpochKeeps(start: Cipher, entropy: nat -> Seed, e: nat)
    ensures multiset(Epoch(start, entropy, e).s) == multiset(start.s)
  {
    hide AddKey, WordSteps;
    if e == 0 {
      AddKeyKeeps(start, entropy(0));
    } else {
      EpochKeeps(start, entropy, e - 1);
      var before := WordSteps(Epoch(start, entropy, e - 1), 64 + PERIOD);
      WordStepsKeep(Epoch(start, entropy, e - 1), 64 + PERIOD);
      AddKeyKeeps(before, entropy(e));
    }
  }

  /** Whatever is drawn, the table holds the bytes that it started with. */
  lemma RunKeepsTable(start: Cipher, entropy: nat -> Seed, n: nat)
    ensures multiset(DrawnBy(Source(start, 0, 0), entropy, n).cipher.s) == multiset(start.s)
  {
    hide WordSteps, Epoch, WordAt, WordFrom, DrawnBy;
    WholeRun(start, entropy, n);
    var e, r := n / PERIOD, n % PERIOD;
    if r > 0 {
      EpochKeeps(start, entropy, e);
      WordStepsKeep(Epoch(start, entropy, e), 64 + r);
    } else if e > 0 {
      EpochKeeps(start, entropy, e - 1);
      WordStepsKeep(Epoch(start, entropy, e - 1), 64 + PERIOD);
    }
  }

  /** A run that starts from a table of zeros delivers zeros only, whatever it is stirred with. */
  lemma BlankRun(start: Cipher, entropy: nat -> Seed, n: nat)
    requires Blank(start)
    ensures WordAt(start, entropy, n) == 0
  {
    hide WordSteps, Epoch, WordOf, Blank;
    var epoch := Epoch(start, entropy, n / PERIOD);
    var here := WordSteps(epoch, 64 + n % PERIOD);
    EpochKeeps(start, entropy, n / PERIOD);
    WordStepsKeep(epoch, 64 + n % PERIOD);
    BlankIs(start, here);
    BlankGivesZero(here);
  }
}
