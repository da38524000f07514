/** One step of the key stream and of the key mixing, told by table positions. */
module Rc4Laws {
  import opened Words
  import opened Rc4

  function Num(b: Byte): (n: nat)
    ensures n < 256
  {
    b as nat
  }

  /** The place that an index and an entry add up to. */
  function Place(m: nat, n: nat): (k: nat)
    ensures k < 256
  {
    (m + n) % 256
  }

  lemma Turns(x: nat, y: nat, q: nat)
    requires x == y + 256 * q
    ensures x % 256 == y % 256
  {
  }

  lemma PlaceAdds(m: nat, n: nat, k: nat)
    ensures Place(m, Place(n, k)) == Place(m, n + k) && Place(Place(m, n), k) == Place(m, n + k)
  {
    Turns(m + n + k, m + Place(n, k), (n + k) / 256);
    Turns(m + n + k, Place(m, n) + k, (m + n) / 256);
  }

  lemma NextValue(a: Byte)
    ensures Num(Plus(a, 1)) == Place(Num(a), 1) && Place(Num(a), 0) == Num(a) && Num(0) == 0 && (Num(a) == 0 ==> a == 0)
  {
    assert a == 0xff ==> a as nat == 255 && Plus(a, 1) == 0;
    assert a != 0xff ==> a as nat < 255 && (a + 1) as nat == a as nat + 1;
  }

  lemma PlusNext(a: Byte, b: Byte)
    ensures Plus(a, Plus(b, 1)) == Plus(Plus(a, b), 1)
    ensures Plus(Plus(b, 255), 1) == b
  {
    assert Plus(a, b + 1) == Plus(a + b, 1) && Plus(b + 255, 1) == b;
  }

  lemma PlusZero(a: Byte)
    ensures Plus(a, 0) == a
  {
  }

  lemma OneBefore(b: Byte, c: Byte)
    requires b == Plus(c, 1) && Num(b) > 0
    ensures Num(b) == Num(c) + 1
  {
    hide Num, Plus;
    NextValue(c);
  }

  lemma {:induction false} PlusIs(a: Byte, b: Byte, n: nat)
    requires n == Num(b)
    ensures Num(Plus(a, b)) == Place(Num(a), n)
    decreases n
  {
    hide Plus, Num, Place;
    NextValue(a);
    NextValue(b);
    if n == 0 {
      PlusZero(a);
    } else {
      var c := Plus(b, 255);
      PlusNext(a, c);
      PlusNext(a, b);
      OneBefore(b, c);
      PlusIs(a, c, n - 1);
      NextValue(Plus(a, c));
      PlaceAdds(Num(a), n - 1, 1);
    }
  }

  /** Bytes are added modulo 256. */
  lemma PlusValue(a: Byte, b: Byte)
    ensures Num(Plus(a, b)) == Place(Num(a), Num(b))
  {
    PlusIs(a, b, Num(b));
  }

  lemma AtIs(s: Box, k: Byte)
    ensures At(s, k) == s[Num(k)]
  {
  }

  /** The two entries that a step exchanges, and the ones it leaves. */
  ghost predicate Exchanged(s: Box, t: Box, i: nat, j: nat)
    requires i < 256 && j < 256
  {
    t[i] == s[j] && t[j] == s[i] && forall k :: 0 <= k < 256 && k != i && k != j ==> t[k] == s[k]
  }

  lemma SwapExchanges(s: Box, a: Byte, b: Byte)
    ensures Exchanged(s, Swap(s, a, b), Num(a), Num(b))
  {
  }

  lemma PlacePlus(a: Byte, b: Byte)
    ensures Num(Plus(a, b)) == Place(Num(a), Num(b)) && Num(Plus(a, 1)) == Place(Num(a), 1)
    ensures Place(Num(a), 0) == Num(a)
  {
    hide Num, Plus;
    PlusValue(a, b);
    NextValue(a);
  }

  lemma StepLaw(c: Cipher)
    ensures var i := Place(Num(c.i), 1);
            var j := Place(Num(c.j), Num(c.s[i]));
            var d := Step(c);
            && Num(d.i) == i && Num(d.j) == j && Exchanged(c.s, d.s, i, j)
            && Output(d) == d.s[Place(Num(d.s[i]), Num(d.s[j]))]
  {
    hide Swap, Plus, Exchanged, Num, At, Place;
    PlacePlus(c.i, 1);
    var i := Plus(c.i, 1);
    AtIs(c.s, i);
    PlacePlus(c.j, At(c.s, i));
    var j := Plus(c.j, At(c.s, i));
    SwapExchanges(c.s, i, j);
    var d := Step(c);
    AtIs(d.s, i);
    AtIs(d.s, j);
    PlacePlus(At(d.s, i), At(d.s, j));
    AtIs(d.s, Plus(At(d.s, i), At(d.s, j)));
  }

  lemma KeyStepLaw(c: Cipher, byte: Byte)
    ensures var i := Place(Num(c.i), 1);
            var j := Place(Num(c.j), Num(c.s[i]) + Num(byte));
            var d := KeyStep(c, byte);
            Num(d.i) == i && Num(d.j) == j && Exchanged(c.s, d.s, i, j)
  {
    hide Swap, Plus, Exchanged, Num, At, Place;
    PlacePlus(c.i, 1);
    var i := Plus(c.i, 1);
    AtIs(c.s, i);
    PlacePlus(At(c.s, i), byte);
    PlacePlus(c.j, Plus(At(c.s, i), byte));
    PlaceAdds(Num(c.j), Num(At(c.s, i)), Num(byte));
    SwapExchanges(c.s, i, Plus(c.j, Plus(At(c.s, i), byte)));
  }

  lemma {:induction false} KeyStepsIndex(c: Cipher, data: seq<Byte>, n: nat)
    requires data != []
    ensures Num(KeySteps(c, data, n).i) == Place(Num(c.i), n)
  {
    hide Swap, Plus, At, Num, Place;
    PlacePlus(c.i, 1);
    if n > 0 {
      KeyStepsIndex(c, data, n - 1);
      PlacePlus(KeySteps(c, data, n - 1).i, 1);
      PlaceAdds(Num(c.i), n - 1, 1);
    }
  }

  /** Mixing in key bytes visits every entry once, the first at the index where it starts, and ends one before that. */
  lemma AddKeyLaw(c: Cipher, data: seq<Byte>)
    ensures data == [] ==> AddKey(c, data) == c
    ensures data != [] ==>
      var d := AddKey(c, data);
      && d.i == d.j && Num(d.i) == Place(Num(c.i), 255)
      && (forall n :: 0 < n <= 256 ==> Num(KeySteps(c.(i := d.i), data, n).i) == Place(Num(c.i), n - 1))
      && d.s == KeySteps(c.(i := d.i), data, 256).s
  {
    hide KeySteps, Plus, Num;
    if data != [] {
      Num255();
      PlacePlus(c.i, 255);
      var start := c.(i := Plus(c.i, 255));
      KeyStepsIndex(start, data, 256);
      SameIndex(start.i, AddKey(c, data).i);
      forall n | 0 < n <= 256
        ensures Num(KeySteps(start, data, n).i) == Place(Num(c.i), n - 1)
      {
        KeyStepsIndex(start, data, n);
      }
    }
  }

  lemma Num255()
    ensures Num(255) == 255
  {
  }

  lemma SameIndex(a: Byte, b: Byte)
    requires Num(a) == Num(b)
    ensures a == b
  {
  }

  /** A word is written by the outputs of its four steps, the first on top. */
  lemma WordLaw(c: Cipher)
    ensures var c1 := Step(c);
            BigEndian(WordOf(c)) == Column(Output(c1), Output(Step(c1)), Output(Step(Step(c1))), Output(WordStep(c)))
  {
    hide Step, Output, Join, Lanes, BigEndian;
    var c1 := Step(c);
    JoinBytes(Output(c1), Output(Step(c1)), Output(Step(Step(c1))), Output(WordStep(c)));
  }

  lemma JoinBytes(b3: Byte, b2: Byte, b1: Byte, b0: Byte)
    ensures BigEndian(Join(b3, b2, b1, b0)) == Column(b3, b2, b1, b0)
  {
    hide Join, Low;
    LanesJoin(b3, b2, b1, b0);
  }
}
