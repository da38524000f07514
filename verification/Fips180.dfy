/** SHA-512 as FIPS 180-4 writes it, over arbitrary round constants. */
module Fips180 {
  import opened Words

  type Word64 = bv64

  /** Section 2.2.2: addition modulo 2^64. */
  function Plus(x: Word64, y: Word64): Word64 {
    x + y
  }

  function Rotr(x: Word64, n: bv7): Word64
    requires 0 < n < 64
  {
    (x >> n) | (x << (64 - n))
  }

  /** Section 4.1.3. */
  function Ch(x: Word64, y: Word64, z: Word64): Word64 {
    (x & y) ^ (!x & z)
  }

  function Maj(x: Word64, y: Word64, z: Word64): Word64 {
    (x & y) ^ (x & z) ^ (y & z)
  }

  function XorWord(x: Word64, y: Word64): Word64 {
    x ^ y
  }

  function Shr(x: Word64, n: bv7): Word64
    requires n < 64
  {
    x >> n
  }

  function BigSigma0(x: Word64): Word64 {
    XorWord(XorWord(Rotr(x, 28), Rotr(x, 34)), Rotr(x, 39))
  }

  function BigSigma1(x: Word64): Word64 {
    XorWord(XorWord(Rotr(x, 14), Rotr(x, 18)), Rotr(x, 41))
  }

  function SmallSigma0(x: Word64): Word64 {
    XorWord(XorWord(Rotr(x, 1), Rotr(x, 8)), Shr(x, 7))
  }

  function SmallSigma1(x: Word64): Word64 {
    XorWord(XorWord(Rotr(x, 19), Rotr(x, 61)), Shr(x, 6))
  }

  function Join64(b0: Byte, b1: Byte, b2: Byte, b3: Byte, b4: Byte, b5: Byte, b6: Byte, b7: Byte): Word64 {
    ((b0 as Word64) << 56) | ((b1 as Word64) << 48) | ((b2 as Word64) << 40) | ((b3 as Word64) << 32)
    | ((b4 as Word64) << 24) | ((b5 as Word64) << 16) | ((b6 as Word64) << 8) | (b7 as Word64)
  }

  /** Section 3.1: a word from eight bytes, most significant first. */
  function ParseWord(b: seq<Byte>, p: nat): Word64
    requires p + 8 <= |b|
  {
    Join64(b[p], b[p + 1], b[p + 2], b[p + 3], b[p + 4], b[p + 5], b[p + 6], b[p + 7])
  }

  function ByteAt(x: Word64, n: bv7): Byte
    requires n < 64
  {
    ((x >> n) & 0xff) as Byte
  }

  function WordBytes(x: Word64): (b: seq<Byte>)
    ensures |b| == 8
  {
    [ByteAt(x, 56), ByteAt(x, 48), ByteAt(x, 40), ByteAt(x, 32),
     ByteAt(x, 24), ByteAt(x, 16), ByteAt(x, 8), ByteAt(x, 0)]
  }

  lemma WordRoundTrip(x: Word64)
    ensures ParseWord(WordBytes(x), 0) == x
  {
  }

  /** Section 6.4.2, step 1. */
  function ScheduleWord(block: seq<Byte>, t: nat): Word64
    requires |block| == 128
  {
    if t < 16 then ParseWord(block, 8 * t)
    else
      Plus(Plus(Plus(SmallSigma1(ScheduleWord(block, t - 2)), ScheduleWord(block, t - 7)),
                SmallSigma0(ScheduleWord(block, t - 15))), ScheduleWord(block, t - 16))
  }

  /** The eight working variables. */
  datatype Vars = Vars(a: Word64, b: Word64, c: Word64, d: Word64, e: Word64, f: Word64, g: Word64, h: Word64)

  /** Section 6.4.2, one pass of step 3. */
  function RoundStep(v: Vars, k: Word64, w: Word64): Vars {
    var t1 := Plus(Plus(Plus(Plus(v.h, BigSigma1(v.e)), Ch(v.e, v.f, v.g)), k), w);
    var t2 := Plus(BigSigma0(v.a), Maj(v.a, v.b, v.c));
    Vars(Plus(t1, t2), v.a, v.b, v.c, Plus(v.d, t1), v.e, v.f, v.g)
  }

  function VarsOf(h: seq<Word64>): Vars
    requires |h| == 8
  {
    Vars(h[0], h[1], h[2], h[3], h[4], h[5], h[6], h[7])
  }

  function AfterRounds(k: seq<Word64>, h: seq<Word64>, block: seq<Byte>, t: nat): Vars
    requires |k| == 80 && |h| == 8 && |block| == 128 && t <= 80
  {
    if t == 0 then VarsOf(h)
    else RoundStep(AfterRounds(k, h, block, t - 1), k[t - 1], ScheduleWord(block, t - 1))
  }

  /** Section 6.4.2 for one block. */
  function Compress(k: seq<Word64>, h: seq<Word64>, block: seq<Byte>): (r: seq<Word64>)
    requires |k| == 80 && |h| == 8 && |block| == 128
    ensures |r| == 8
  {
    var v := AfterRounds(k, h, block, 80);
    [Plus(h[0], v.a), Plus(h[1], v.b), Plus(h[2], v.c), Plus(h[3], v.d),
     Plus(h[4], v.e), Plus(h[5], v.f), Plus(h[6], v.g), Plus(h[7], v.h)]
  }

  /** The hash value after every complete block of a message. */
  function Absorb(k: seq<Word64>, h: seq<Word64>, msg: seq<Byte>): (r: seq<Word64>)
    requires |k| == 80 && |h| == 8
    ensures |r| == 8
    decreases |msg|
  {
    if |msg| < 128 then h else Absorb(k, Compress(k, h, msg[..128]), msg[128..])
  }

  /** Section 5.3.5. */
  const H0: seq<Word64> := [
    0x6a09e667f3bcc908, 0xbb67ae8584caa73b, 0x3c6ef372fe94f82b, 0xa54ff53a5f1d36f1,
    0x510e527fade682d1, 0x9b05688c2b3e6c1f, 0x1f83d9abfb41bd6b, 0x5be0cd19137e2179]

  const TWO64: nat := 0x1_0000_0000_0000_0000

  /** Section 5.1.2: the zero bytes between the single one bit and the length. */
  function PadZeros(n: nat): (z: nat)
    ensures z < 128 && (n + 1 + z) % 128 == 112
  {
    (239 - n % 128) % 128
  }

  function ToWord(n: nat): Word64 {
    (n % TWO64) as Word64
  }

  /** Section 3.1: the bit length of n bytes as two words. */
  function LengthBytes(n: nat): (b: seq<Byte>)
    ensures |b| == 16
  {
    WordBytes(ToWord(8 * n / TWO64)) + WordBytes(ToWord(8 * n))
  }

  function Zeros(n: nat): (z: seq<Byte>)
    ensures |z| == n
  {
    seq(n, _ => 0)
  }

  /** Section 5.1.2. */
  function Pad(msg: seq<Byte>): (p: seq<Byte>)
    ensures |p| == |msg| + 17 + PadZeros(|msg|)
  {
    msg + [0x80] + Zeros(PadZeros(|msg|)) + LengthBytes(|msg|)
  }

  lemma PaddedToBlocks(msg: seq<Byte>)
    ensures |Pad(msg)| % 128 == 0
    ensures |msg| + 17 <= |Pad(msg)| < |msg| + 145
  {
    hide Pad, PadZeros;
    SixteenMore(|msg| + 1 + PadZeros(|msg|));
  }

  lemma SixteenMore(n: nat)
    requires n % 128 == 112
    ensures (n + 16) % 128 == 0
  {
  }

  function WordsBytes(w: seq<Word64>): (b: seq<Byte>)
    ensures |b| == 8 * |w|
  {
    if w == [] then [] else WordsBytes(w[..|w| - 1]) + WordBytes(w[|w| - 1])
  }

  function Sha512(k: seq<Word64>, msg: seq<Byte>): (digest: seq<Byte>)
    requires |k| == 80
    ensures |digest| == 64
  {
    WordsBytes(Absorb(k, H0, Pad(msg)))
  }

  /** Whole blocks can be absorbed first. */
  lemma {:induction false} AbsorbAdd(k: seq<Word64>, h: seq<Word64>, a: seq<Byte>, b: seq<Byte>)
    requires |k| == 80 && |h| == 8 && |a| % 128 == 0
    ensures Absorb(k, h, a + b) == Absorb(k, Absorb(k, h, a), b)
    decreases |a|
  {
    hide Compress;
    if a == [] {
      assert a + b == b;
    } else {
      assert (a + b)[..128] == a[..128] && (a + b)[128..] == a[128..] + b;
      AbsorbAdd(k, Compress(k, h, a[..128]), a[128..], b);
    }
  }

  lemma {:induction false} WordsRoundTrip(a: seq<Word64>, b: seq<Word64>)
    requires |a| == |b| && WordsBytes(a) == WordsBytes(b)
    ensures a == b
    decreases |a|
  {
    hide WordBytes, ParseWord;
    if a != [] {
      var last := |a| - 1;
      var x, y := WordsBytes(a[..last]), WordsBytes(b[..last]);
      assert x == (x + WordBytes(a[last]))[..8 * last] == (y + WordBytes(b[last]))[..8 * last] == y;
      assert WordBytes(a[last]) == (x + WordBytes(a[last]))[8 * last..] == WordBytes(b[last]);
      WordsRoundTrip(a[..last], b[..last]);
      WordRoundTrip(a[last]);
      WordRoundTrip(b[last]);
      assert a == a[..last] + [a[last]] && b == b[..last] + [b[last]];
    }
  }

  /** A digest loses nothing of the last chaining value: two messages collide only if those do. */
  lemma SameDigest(k: seq<Word64>, m: seq<Byte>, n: seq<Byte>)
    requires |k| == 80
    ensures Sha512(k, m) == Sha512(k, n) <==> Absorb(k, H0, Pad(m)) == Absorb(k, H0, Pad(n))
  {
    hide Absorb, Pad, WordsBytes;
    if Sha512(k, m) == Sha512(k, n) {
      WordsRoundTrip(Absorb(k, H0, Pad(m)), Absorb(k, H0, Pad(n)));
    }
  }
}
