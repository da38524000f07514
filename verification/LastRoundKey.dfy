/** A key schedule read backwards: the last round key fixes the key. */
module LastRoundKey {
  import opened Words
  import opened Fips197
  import opened Ctr

  /** What is added to word i - 4 to make word i, from word i - 1. */
  function Turned(s: SBox, w: Column, i: nat): Column
    requires i >= 4
  {
    if i % 4 == 0 then Xor(SubWord(s, RotateUp(w)), Rcon(i / 4)) else w
  }

  /** The four schedule words from i on. */
  function WordsFrom(s: SBox, key: seq<Column>, i: nat): State
    requires |key| == 4
  {
    State(ScheduleWord(s, key, i), ScheduleWord(s, key, i + 1),
          ScheduleWord(s, key, i + 2), ScheduleWord(s, key, i + 3))
  }

  /** The four words from i on, out of the four from i + 1 on. */
  function Before(s: SBox, v: State, i: nat): State {
    State(Xor(v.c3, Turned(s, v.c2, i + 4)), v.c0, v.c1, v.c2)
  }

  function BackTo(s: SBox, v: State, i: nat): State
    requires i <= 40
    decreases 40 - i
  {
    if i == 40 then v else Before(s, BackTo(s, v, i + 1), i)
  }

  lemma Undone(a: Column, b: Column)
    ensures Xor(Xor(a, b), b) == a
  {
    hide XorByte;
    XorTwice(a.r0, b.r0);
    XorTwice(a.r1, b.r1);
    XorTwice(a.r2, b.r2);
    XorTwice(a.r3, b.r3);
  }

  lemma StepBack(s: SBox, key: seq<Column>, i: nat)
    requires |key| == 4
    ensures Before(s, WordsFrom(s, key, i + 1), i) == WordsFrom(s, key, i)
  {
    hide Xor, SubWord, RotateUp, Rcon;
    if i % 4 == 0 {
      RotatedWord(s, key, i + 4);
    } else {
      PlainWord(s, key, i + 4);
    }
    Undone(ScheduleWord(s, key, i), Turned(s, ScheduleWord(s, key, i + 3), i + 4));
  }

  lemma BeforeInjective(s: SBox, u: State, v: State, i: nat)
    requires Before(s, u, i) == Before(s, v, i)
    ensures u == v
  {
    hide Xor, SubWord, RotateUp, Rcon;
    Undone(u.c3, Turned(s, u.c2, i + 4));
    Undone(v.c3, Turned(s, v.c2, i + 4));
  }

  lemma {:induction false} BackToIs(s: SBox, key: seq<Column>, i: nat)
    requires |key| == 4 && i <= 40
    ensures BackTo(s, WordsFrom(s, key, 40), i) == WordsFrom(s, key, i)
    decreases 40 - i
  {
    hide Before, ScheduleWord;
    if i < 40 {
      BackToIs(s, key, i + 1);
      StepBack(s, key, i);
    }
  }

  lemma {:induction false} BackToInjective(s: SBox, u: State, v: State, i: nat)
    requires i <= 40 && BackTo(s, u, i) == BackTo(s, v, i)
    ensures u == v
    decreases 40 - i
  {
    hide Before;
    if i < 40 {
      BeforeInjective(s, BackTo(s, u, i + 1), BackTo(s, v, i + 1), i);
      BackToInjective(s, u, v, i + 1);
    }
  }

  /** The key that a last round key belongs to. */
  function KeyOf(s: SBox, last: State): (key: seq<Column>)
    ensures |key| == 4
  {
    var v := BackTo(s, last, 0);
    [v.c0, v.c1, v.c2, v.c3]
  }

  /** For every S-box, each last round key comes from one key and no other. */
  lemma OneKeyForEach(s: SBox, key: seq<Column>, last: State)
    requires |key| == 4
    ensures RoundKey(KeyExpansion(s, key), 10) == last <==> key == KeyOf(s, last)
  {
    hide BackTo, ScheduleWord;
    var k := KeyExpansion(s, key);
    assert RoundKey(k, 10) == WordsFrom(s, key, 40);
    BackToIs(s, key, 0);
    KeyWord(s, key, 0);
    KeyWord(s, key, 1);
    KeyWord(s, key, 2);
    KeyWord(s, key, 3);
    if key == KeyOf(s, last) {
      BackToInjective(s, WordsFrom(s, key, 40), last, 0);
    }
  }
}
