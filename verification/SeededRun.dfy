/** How the two generators of the handshake meet: one gives the five seed words of the other. */
module SeededRun {
  import opened Rc4
  import opened Words
  import Arc4Random
  import Mersenne
  import MersenneSpec

  /** What the next five words of a source are. */
  function NextDraw(source: Source, entropy: nat -> Seed): Mersenne.Draw {
    var word := (k: nat) => WordFrom(DrawnBy(source, entropy, k), entropy);
    Mersenne.Draw(word(0), MersenneSpec.Key(word(1), word(2), word(3), word(4)))
  }

  /** The calls of v2935 in v3371 and v6506. */
  method Collect(source: Arc4Random.Generator) returns (draw: Mersenne.Draw)
    requires source.Valid()
    modifies source`i, source`j, source`count, source`stirs, source.table
    ensures source.View() == DrawnBy(old(source.View()), source.entropy, 5)
    ensures draw == NextDraw(old(source.View()), source.entropy)
  {
    hide Drawn, WordFrom;
    ghost var start := source.View();
    DrawnNext(start, source.entropy, 0);
    var w0 := source.GetWord();
    DrawnNext(start, source.entropy, 1);
    var w1 := source.GetWord();
    DrawnNext(start, source.entropy, 2);
    var w2 := source.GetWord();
    DrawnNext(start, source.entropy, 3);
    var w3 := source.GetWord();
    DrawnNext(start, source.entropy, 4);
    var w4 := source.GetWord();
    draw := Mersenne.Draw(w0, MersenneSpec.Key(w1, w2, w3, w4));
  }

  lemma {:induction false} DrawnByAdds(source: Source, entropy: nat -> Seed, m: nat, n: nat)
    ensures DrawnBy(DrawnBy(source, entropy, m), entropy, n) == DrawnBy(source, entropy, m + n)
  {
    hide Drawn;
    if n > 0 {
      DrawnByAdds(source, entropy, m, n - 1);
    }
  }

  const ZEROS := Mersenne.Draw(0, MersenneSpec.Key(0, 0, 0, 0))

  /**
   * A source whose table is blank when the program starts gives every seeding the same five zeros,
   * however many words it has given before and whatever it was stirred with.
   */
  lemma BlankSeedsOneTable(start: Cipher, entropy: nat -> Seed, n: nat)
    requires Blank(start)
    ensures NextDraw(DrawnBy(Source(start, 0, 0), entropy, n), entropy) == ZEROS
  {
    hide Drawn, WordFrom, WordAt, After, Blank;
    var source := DrawnBy(Source(start, 0, 0), entropy, n);
    forall k: nat
      ensures WordFrom(DrawnBy(source, entropy, k), entropy) == 0
    {
      DrawnByAdds(Source(start, 0, 0), entropy, n, k);
      WholeRun(start, entropy, n + k);
      BlankRun(start, entropy, n + k);
    }
  }

  /** Words that other callers draw from the source. */
  method Others(source: Arc4Random.Generator, n: nat)
    requires source.Valid()
    modifies source`i, source`j, source`count, source`stirs, source.table
    ensures source.View() == DrawnBy(old(source.View()), source.entropy, n)
  {
    hide Drawn, WordFrom;
    ghost var start := source.View();
    for k := 0 to n
      invariant source.View() == DrawnBy(start, source.entropy, k)
    {
      var word := source.GetWord();
    }
  }

  /** The words of the twister as the program is: one seeding's worth, over and over. */
  function Stream(n: nat): Word {
    Mersenne.WordAt(_ => ZEROS, n)
  }

  /**
   * The program's word stream from its start. Before word i, others[i] words of the source go to other
   * callers. Whatever they are and whatever the platform gives, the words are one fixed sequence, and it
   * repeats after 5121 of them.
   */
  method Run(entropy: nat -> Seed, others: seq<nat>) returns (words: seq<Word>)
    ensures |words| == |others|
    ensures forall i :: 0 <= i < |words| ==> words[i] == Stream(i)
    ensures forall i :: 0 <= i < |words| - Mersenne.PERIOD ==> words[i + Mersenne.PERIOD] == words[i]
  {
    hide Mersenne.TableOf, MersenneSpec.Temper, MersenneSpec.X, Drawn, NextDraw;
    var source := new Arc4Random.Generator(entropy);
    var twister := new Mersenne.Generator();
    ghost var zeros, drawn: nat, e: nat := source.State(), 0, 0;
    ghost var table := Mersenne.TableOf(ZEROS);
    words := [];
    for i := 0 to |others|
      invariant |words| == i && source.Valid() && twister.Valid() && source.entropy == entropy
      invariant fresh(source) && fresh(source.table) && fresh(twister) && fresh(twister.mt)
      invariant source.View() == DrawnBy(Source(zeros, 0, 0), entropy, drawn)
      invariant i == 5121 * e + twister.count
      invariant twister.count > 0 ==> twister.Given(table, twister.count)
      invariant forall k :: 0 <= k < i ==> words[k] == Stream(k)
    {
      DrawnByAdds(Source(zeros, 0, 0), entropy, drawn, others[i]);
      Others(source, others[i]);
      drawn := drawn + others[i];
      if twister.count == 0 {
        DrawnByAdds(Source(zeros, 0, 0), entropy, drawn, 5);
        BlankSeedsOneTable(zeros, entropy, drawn);
        var draw := Collect(source);
        twister.Reseed(draw);
        drawn := drawn + 5;
      }
      Mersenne.SplitIndex(e, twister.count, i);
      ghost var r := twister.count;
      var word := twister.NextOf(table, r);
      words := words + [word];
      if r == 0x1400 {
        e := e + 1;
      }
    }
    forall i | 0 <= i < |words| - Mersenne.PERIOD
      ensures words[i + Mersenne.PERIOD] == words[i]
    {
      SamePlace(i);
    }
  }

  lemma SamePlace(n: nat)
    ensures Stream(n + Mersenne.PERIOD) == Stream(n)
  {
    hide Mersenne.TableOf, MersenneSpec.Temper, MersenneSpec.X, Mersenne.Position;
  }
}
