# Verification of the crypto, generator and parsing core

A Dafny model of the stateful algorithms of this repository, with proofs that each of them does what
the simple definition behind it says. The parts are:

* **AES in counter mode** (`Words`, `Fips197`, `SwarCipher`, `ByteKeySchedule`, `TableCipher`,
  `WordKeySchedule`, `Counter`, `Ctr`, `CtrRange`, `StreamCipher`, `PairVerify`, `Agreement`, `Session`,
  `LastRoundKey`, `Chunks`; `AesBytes`, `AesExample` and `CtrBytes` for the standard itself). The library
  holds two block encryptors that share no code: `ezAesDecrypt`, which in spite of its name encrypts, works on
  little-endian words with four bytes mixed at once; `AES_Encrypt` works on big-endian words with lookup
  tables. Each has its own key schedule and its own counter-mode driver, one of which keeps unused key bytes
  between calls. Both are proved equal to FIPS 197 and SP 800-38A, and so to each other, for every S-box.
* **SHA-512** (`Fips180`, `Sha512`, `ShaBits`, `ShaExample`). Streaming updates, the 128-bit bit count, padding and the rounds with
  rotating names, proved equal to FIPS 180-4 for every message and every way of cutting it up.
* **The generators of the handshake** (`MersenneSpec`, `Mersenne`, `MersenneLaws`, `Rc4`, `Rc4Laws`,
  `Arc4Random`, `SeededRun`): the
  Mersenne twister inside the flattened `v4323`, the arc4random-like generator of `v2935`, and how the one is
  seeded from the other.
* **The highlighter** (`Decorations`, `Painted`, `Compaction`, `SpanWalk`, `CharRanges`): nested lexing, the in-place
  compaction of the decorations, the walk that cuts text nodes, and the case folding of character classes.
* **The WAV reader** (`WavFile`, `WavRoundTrip`, `WavFields`, `WavPadded`, `WavReader`): the RIFF walk over arbitrary files
  with `fgetc` and end-of-file as they are, files written with and without RIFF pad bytes, and the bounded reads.

State that the source updates in place is kept in classes and arrays with loops; each such method is tied by
its postcondition to a function on values, and the lemmas are about those functions. What such a function
computes is said a second time, in other terms, where code and specification share it: by byte and bit
positions, by laws that leave only one function, by inverses, or by a worked example of the standard.
`dafny verify dfyconfig.toml` checks everything.

## What the proofs brought out

* The carry loop of `ezAesDecryptBlock` has no lower bound. It runs from the counter into the key schedule in
  front of it when the counter stands at 2^128 - 1. For every key and S-box the driver is counter mode up to
  there and not beyond: the next block agrees up to the byte of the last round key at which the carry stops, and
  differs there (`CtrRange.StreamIffCtr`). The carry cannot leave the structure within
  2^128 blocks of its set-up (`Ctr.Headroom`). The precondition of `DecryptBlock` says just that the carry
  stays in the structure.
* The flattened twister twists its whole table for every word it gives, and it is seeded afresh after 5121
  words. The words of one seeding come from one MT19937 sequence but, except for the first, not from where the
  standard's engine takes them (`Mersenne.Run`, `Mersenne.Position`).
* The table of `v2935` is static storage that nothing fills before the first stirring. Every turn only
  exchanges two of its bytes, so it stays zero, and so is every word (`Rc4.BlankRun`): the twister is always
  seeded with five zeros (`SeededRun.BlankSeedsOneTable`), and the words it gives are one fixed sequence of
  period 5121 (`SeededRun.Run`).
* A RIFF writer puts a zero byte behind every body of odd size, and `wav_read_open` does not know about it. A
  padded file is read right when only its last chunk is odd (`WavPadded.PaddedRoundTrip`). Otherwise the header
  behind the first pad is read one byte early, as a chunk of no known kind with a size made of the wrong bytes
  (`WavPadded.WalkBehindPad`, for every file). A last data chunk directly behind that pad is never found,
  whatever the bodies hold (`WavPadded.DataBehindPadIsLost`); `WavPadded.PadLosesData` is a file of 32 bytes.
  When the misread size reaches past the chunks, everything behind the pad is lost, and the data is found if
  and only if no data chunk stood there (`WavPadded.FoundIff`). When it does not, the walk goes on inside the
  bodies, and those decide about a data chunk further behind: two files of the same kinds and sizes of chunks,
  one read right and one not, are in `WavPadded.BodiesDecide`.
* A fmt chunk that claims the extensible format and is shorter than 28 bytes makes `wav_read_open` go on 16
  bytes behind the end of its RIFF chunk (`WavRoundTrip.WalkBalances`, `WavRoundTrip.ShortFmtOvershoots`).

## Conventions

The S-box is an arbitrary function on bytes, the tables `Te0` to `Te3` are what the comment at ez_aes.c:1419-1422
makes of it, and the 80 round constants of SHA-512 are an arbitrary sequence; only `AesExample` and `ShaExample`
fix them, to the values of the standards. Native four-byte loads are
little-endian. The blocks of `v4323` are named by their labels; which block follows which was read off the
constants that the blocks store for their successors. Where the comments in `code1.c` give the instruction and
the line below emulates its flags, the instruction counts. What the platform offers as entropy is a parameter.

## Model

| member | source | states |
|---|---|---|
| SwarCipher.DoubledLanes | src/main/jni/fairplay_jni/ez_aes.c:87-92 | the carry-free doubling on a whole word, without a branch, is multiplication by {02} in each of its four bytes |
| SwarCipher.MixWord | src/main/jni/fairplay_jni/ez_aes.c:87-99 | the shift, rotate and XOR lines on one word are MixColumns (FIPS 197 section 5.1.3) on the column its bytes hold |
| SwarCipher.SubShift | src/main/jni/fairplay_jni/ez_aes.c:61-86 | the sixteen lookups, two of them on a word already shifted down, are SubBytes followed by ShiftRows |
| SwarCipher.MiddleRounds | src/main/jni/fairplay_jni/ez_aes.c:61-857 | the nine written-out rounds leave the state of nine rounds of the cipher, for every schedule |
| SwarCipher.EncryptBlock | src/main/jni/fairplay_jni/ez_aes.c:42-895 | for every S-box, schedule and block the output is the FIPS 197 section 5.1 cipher of the input, also when the two blocks overlap, and no other byte of memory changes |
| ByteKeySchedule.ExtendKey | src/main/jni/fairplay_jni/ez_aes.c:897-929 | the sixteen bytes at the front become the 44 words of KeyExpansion (section 5.2) in memory order; nothing outside the 176 bytes changes |
| Fips197.RconPowers | src/main/jni/fairplay_jni/ez_aes.c:897-902 | the tabled round constants of both schedules are the successive doublings of 1 that section 5.2 names |
| TableCipher.RoundWord | src/main/jni/fairplay_jni/ez_aes.c:1419-1422 | four table entries XORed with a key word are one mixed and keyed column, by nothing but the relation of the tables to the S-box |
| TableCipher.MiddleRounds | src/main/jni/fairplay_jni/ez_aes.c:2229-2290 | the loop of two rounds a turn that is left in its middle makes rounds - 1 full rounds, for 10, 12 and 14 rounds |
| TableCipher.EncryptBlock | src/main/jni/fairplay_jni/ez_aes.c:2140-2323 | for every S-box, key structure and block the output is the FIPS 197 cipher under the schedule held, in place or not |
| WordKeySchedule.SetEncryptKey | src/main/jni/fairplay_jni/ez_aes.c:2012-2106 | both error codes, when they are given, and that they change nothing; otherwise words 0 to 4 * rounds + 3 are KeyExpansion of the user key for 128, 192 and 256 bits, and the words behind them keep their values |
| WordKeySchedule.OpenTurn | src/main/jni/fairplay_jni/ez_aes.c:2035-2085 | the first word of turn i, in every key size, is the schedule's word: its round constant is found inside the table and its place inside rd_key |
| Agreement.BothCiphers | src/main/jni/fairplay_jni/ez_aes.c:42-929 | the two encryptors, each over the schedule of its own key expansion, give the same sixteen bytes for every key, block and S-box |
| AesBytes.RowsMoveLeft | src/main/jni/fairplay_jni/ez_aes.c:61-80 | byte i of the shifted state is byte (i + 4 * (i % 4)) % 16: row r moves left by r places |
| AesBytes.XtimeIsProduct | src/main/jni/fairplay_jni/ez_aes.c:87-92 | the doubling of a byte is its product with x modulo x^8 + x^4 + x^3 + x + 1, with the ninth bit reduced away |
| AesBytes.CipherIsByBytes | src/main/jni/fairplay_jni/ez_aes.c:42-895 | the whole cipher written over sixteen byte positions, without columns: each byte of a round is the mixture of the substituted bytes at the places the rows came from, plus its key byte; for every S-box, schedule and number of rounds |
| AesBytes.ConstantIsPower | src/main/jni/fairplay_jni/ez_aes.c:2002-2010 | the round constant of turn t is x^(t - 1) in GF(2^8), beginning with 1 |
| AesBytes.OpeningBytes | src/main/jni/fairplay_jni/ez_aes.c:2035-2085 | the four bytes of the word that opens a turn: the word one key length earlier plus the substituted bytes of the one before, taken one row on, and the power of x on the first byte only |
| AesBytes.FirstNewWord | src/main/jni/fairplay_jni/ez_aes.c:905-929 | the first word behind a key of four words, byte by byte, with 1 as its constant |
| AesBytes.ScheduleByte | src/main/jni/fairplay_jni/ez_aes.c:905-929 | every byte of the 176-byte schedule from earlier bytes of it, by its position |
| AesExample.ExampleBlock | src/main/jni/fairplay_jni/ez_aes.c:8-895 | with the literal S-box, the expanded key 00..0f enciphers the block 00112233..ff to 69c4e0d8 6a7b0430 d8cdb780 70b4c55a (FIPS 197 appendix C.1) |
| AesExample.Example192 | src/main/jni/fairplay_jni/ez_aes.c:2054-2075 | the first seven new words of the 192-bit key of FIPS 197 appendix A.2 |
| AesExample.Example256 | src/main/jni/fairplay_jni/ez_aes.c:2076-2105 | the first nine new words of the 256-bit key of appendix A.3, one of them without rotation |
| Words.ByteOrders | src/main/jni/fairplay_jni/ez_aes.c:1412-1413 | which byte of a word each of the two byte orders puts first |
| Counter.IncrementValue | src/main/jni/fairplay_jni/ez_aes.c:2346-2351 | the carry rule adds one to the big-endian number modulo a power of 256; it wraps exactly when all bytes are 0xff |
| Counter.StepWrapping | src/main/jni/fairplay_jni/ez_aes.c:2346-2351 | the bounded carry loop is that increment on the sixteen counter bytes for every counter, wrap-around included |
| Counter.StepDown | src/main/jni/fairplay_jni/ez_aes.c:987-994 | the carry loop without a lower bound is the increment of everything below it in memory, and ends if those bytes are not all 0xff |
| Counter.StepsSplit | src/main/jni/fairplay_jni/ez_aes.c:931-936 | as long as the counter does not pass its last value, stepping leaves the bytes in front of it alone |
| Counter.StepsValue | src/main/jni/fairplay_jni/ez_aes.c:987-994 | below the wrap-around n steps add n to the number |
| StreamCipher.Decryptor.Init | src/main/jni/fairplay_jni/ez_aes.c:938-946 | after the set-up nothing is pending, the counter is the IV and the schedule is KeyExpansion of the key |
| StreamCipher.Decryptor.UseExcess | src/main/jni/fairplay_jni/ez_aes.c:953-971 | exactly the pending key bytes, or as many as the data has, are used, and the others stay pending |
| StreamCipher.Decryptor.Blocks | src/main/jni/fairplay_jni/ez_aes.c:973-1015 | whole blocks and the last partial one take the next bytes of the key stream and leave its unused bytes pending |
| StreamCipher.Decryptor.DecryptBlock | src/main/jni/fairplay_jni/ez_aes.c:948-1018 | a call of any length, in place or not, XORs exactly the next bytes of the stream, leaves the stream behind them, and touches nothing past the length, given that the counter's carry stays in the structure |
| Ctr.SplitInvariance | src/main/jni/fairplay_jni/ez_aes.c:948-1018 | any way of cutting the data into calls, empty and odd ones included, gives the output and the state of a single call |
| Ctr.Involution | src/main/jni/fairplay_jni/ez_aes.c:938-1018 | running the output from the same start state gives the data back, however differently the two runs are cut up |
| Ctr.CounterAfter | src/main/jni/fairplay_jni/ez_aes.c:973-1015 | after n bytes the counter has stepped once for every block made, and the pending bytes are all that was made and not used |
| Ctr.FreshBytesAreCtr | src/main/jni/fairplay_jni/ez_aes.c:938-1018 | a stream of any length from set-up is the start of the counter-mode blocks of SP 800-38A section 6.5 while the counter stays in range |
| CtrRange.StreamIffCtr | src/main/jni/fairplay_jni/ez_aes.c:973-1015 | for every key and any number of bytes: a stream from set-up is counter mode if and only if it ends within 2^128 - IV blocks and as many bytes more as the last round key has in front of the byte at which the carry stops |
| CtrRange.FreshStreamIffCtr | src/main/jni/fairplay_jni/ez_aes.c:973-1015 | for every key, whole blocks from set-up are counter mode if and only if IV + blocks <= 2^128: past that the carry has run into the schedule |
| CtrRange.WrapChangesBlock | src/main/jni/fairplay_jni/ez_aes.c:987-994 | for every key and S-box the first block made after the counter stood at all 0xff differs from the counter-mode block, first at the byte at which the carry stops in the last round key |
| CtrRange.ZeroInFront | src/main/jni/fairplay_jni/ez_aes.c:905-929 | in a schedule that ends in sixteen bytes of 0xff the byte in front of them is 0, so that the carry stops there |
| Ctr.ScheduleNotAllOnes | src/main/jni/fairplay_jni/ez_aes.c:905-929 | no key expands to a schedule of 0xff bytes only, so a schedule always stops the carry |
| Ctr.Headroom | src/main/jni/fairplay_jni/ez_aes.c:931-946 | from set-up, 2^128 blocks can be made before the carry could leave the front of the structure |
| Session.RoomForNext | src/main/jni/fairplay_jni/ez_aes.c:973-1015 | whatever was decrypted before, the next call of a session within the total still has room for all its blocks |
| Session.Run | src/main/jni/fairplay_jni/ez_aes.c:938-1018 | a set-up and any list of calls up to 2^128 blocks: the joined outputs are one stream over the joined data, and counter mode of the expanded key exactly as far as its range goes |
| CtrBytes.StepsModulo | src/main/jni/fairplay_jni/ez_aes.c:2346-2351 | n steps of the sixteen counter bytes add n modulo 2^128, for every counter and n |
| CtrBytes.BlockAt | src/main/jni/fairplay_jni/ez_aes.c:2339-2352 | block j of counter mode is the cipher of those sixteen bytes that write IV + j modulo 2^128, named by their number alone |
| CtrBytes.StreamByte | src/main/jni/fairplay_jni/ez_aes.c:938-1018 | byte k of the decryptor's output from set-up is data byte k XORed with byte k % 16 of the enciphered counter IV + k / 16 |
| CtrBytes.ValueInjective | src/main/jni/fairplay_jni/ez_aes.c:2346-2351 | a counter is fixed by its length and the number it writes |
| CtrBytes.ValueExample | src/main/jni/fairplay_jni/ez_aes.c:2346-2351 | the bytes 12 34 56 write 0x123456 |
| PairVerify.PairVerify3 | src/main/jni/fairplay_jni/ez_aes.c:2325-2365 | every whole block is XORed with counter mode over the table cipher modulo 2^128, the counter ends stepped once a block, a last partial block is left alone, and any other mode changes nothing |
| Agreement.DriversAgree | src/main/jni/fairplay_jni/ez_aes.c:976-1016 | for every key the two drivers end on the same counter after whole blocks, and their outputs are equal if and only if IV + blocks <= 2^128 |
| Agreement.ScheduleKept | src/main/jni/fairplay_jni/ez_aes.c:987-994 | after the blocks that counter mode allows the schedule is what it was, except when the very last of them made the counter wrap |
| Agreement.BothDrivers | src/main/jni/fairplay_jni/ez_aes.c:938-1018 | set-up to output, for any IV and up to 2^128 blocks: the table driver gives the counter-mode ciphertext, both end on the same IV, and the bytes are the same if and only if IV + blocks <= 2^128 |
| LastRoundKey.StepBack | src/main/jni/fairplay_jni/ez_aes.c:905-929 | the four schedule words from i on are determined by the four from i + 1 on |
| LastRoundKey.OneKeyForEach | src/main/jni/fairplay_jni/ez_aes.c:905-929 | for every S-box each last round key belongs to exactly one key, which the backward recurrence computes |
| Sha512.Be64Dec | src/main/jni/fairplay_jni/ez_aes.c:1140-1148 | the sum of eight shifted bytes is the big-endian word |
| Sha512.ChForms | src/main/jni/fairplay_jni/ez_aes.c:1159-1159 | the shorter Ch is the Ch of FIPS 180-4 section 4.1.3 |
| Sha512.MajForms | src/main/jni/fairplay_jni/ez_aes.c:1160-1160 | the shorter Maj is the Maj of section 4.1.3 |
| Sha512.RoundR | src/main/jni/fairplay_jni/ez_aes.c:1168-1179 | a round that writes two array slots and lets the names rotate is a round of the eight shifting variables of section 6.4.2 |
| Sha512.Expand | src/main/jni/fairplay_jni/ez_aes.c:1211-1214 | the 80 schedule words are those of section 6.4.2 step 1 |
| Sha512.Transform | src/main/jni/fairplay_jni/ez_aes.c:1204-1307 | for every block, chaining value and table of 80 constants the new chaining value is the compression function's |
| Sha512.State.Update | src/main/jni/fairplay_jni/ez_aes.c:1309-1346 | if the structure holds a message, then it holds that message with the input behind it: chaining value of all complete blocks, tail in the buffer, 128-bit bit count |
| Sha512.CountAdds | src/main/jni/fairplay_jni/ez_aes.c:1317-1327 | adding the two halves of the input's bit length with the carry test is addition modulo 2^128 |
| Sha512.State.PadMessage | src/main/jni/fairplay_jni/ez_aes.c:1359-1371 | the two padding updates make the held message its padded form of section 5.1.2, with the length from before the padding, for every tail length, and end on a block boundary with nothing buffered |
| Sha512.PadField | src/main/jni/fairplay_jni/ez_aes.c:1348-1367 | both branches of the padding length give the one bit and the zeros that bring the message to 112 bytes into a block |
| Fips180.PaddedToBlocks | src/main/jni/fairplay_jni/ez_aes.c:1359-1371 | a padded message is whole blocks, and no shorter padding has room for the bit and the length |
| Sha512.State.Final | src/main/jni/fairplay_jni/ez_aes.c:1373-1381 | the digest is SHA-512 of the held message; the bytes behind it are kept and the structure is cleared |
| Sha512.HashChunks | src/main/jni/fairplay_jni/ez_aes.c:1309-1381 | initialise, any list of updates, finish: the digest is SHA-512 of the concatenation |
| Sha512.TwoRuns | src/main/jni/fairplay_jni/ez_aes.c:1309-1346 | two runs of updates over different cuttings of one message end with equal chaining value, bit count and buffered tail |
| Sha512.PairVerify1 | src/main/jni/fairplay_jni/ez_aes.c:1383-1402 | the two results are the digests of the two prefixes, each followed by the 32 bytes, the second from the arrays as the first result left them when they are shared |
| Fips180.AbsorbAdd | src/main/jni/fairplay_jni/ez_aes.c:1330-1343 | hashing whole blocks first and the rest afterwards is hashing all of it |
| Fips180.SameDigest | src/main/jni/fairplay_jni/ez_aes.c:1131-1137 | the encoding of a digest loses nothing: two messages have one digest if and only if their last chaining values are equal |
| ShaBits.BigSigma0Bits | src/main/jni/fairplay_jni/ez_aes.c:1163-1163 | bit i of the function is the sum of bits i + 28, i + 34 and i + 39 of the word, around its end |
| ShaBits.BigSigma1Bits | src/main/jni/fairplay_jni/ez_aes.c:1164-1164 | bit i is the sum of bits i + 14, i + 18 and i + 41 |
| ShaBits.SmallSigma0Bits | src/main/jni/fairplay_jni/ez_aes.c:1165-1165 | bit i is the sum of bits i + 1 and i + 8 around the end and of bit i + 7 if there is one |
| ShaBits.SmallSigma1Bits | src/main/jni/fairplay_jni/ez_aes.c:1166-1166 | bit i is the sum of bits i + 19 and i + 61 around the end and of bit i + 6 if there is one |
| ShaBits.ChooseBits | src/main/jni/fairplay_jni/ez_aes.c:1159-1159 | each bit of the first word chooses between those of the other two |
| ShaBits.MajorityBits | src/main/jni/fairplay_jni/ez_aes.c:1160-1160 | each bit is the one that at least two of the three words have |
| ShaBits.StartIsRoots | src/main/jni/fairplay_jni/ez_aes.c:1102-1113 | the eight starting words are the first 64 bits behind the point of the square roots of the first eight primes |
| ShaBits.LengthField | src/main/jni/fairplay_jni/ez_aes.c:1359-1365 | the length of a message of more than 2^61 bytes fills both words of the field, most significant byte first |
| ShaExample.ExampleDigest | src/main/jni/fairplay_jni/ez_aes.c:1204-1381 | with the 80 constants of the standard the digest of abc is ddaf35a1..a54ca49f, through padding, schedule and all 80 rounds |
| Mersenne.TwistedIsNext | src/main/jni/fairplay_jni/fairplay/code13.c:4814-4930 | masking the low bit away and choosing between two stored words is the transition of ISO C++11 section 26.5.3.2 |
| Mersenne.MaskedIsTemper | src/main/jni/fairplay_jni/fairplay/code13.c:3998-4026 | masking before the left shifts, with the constants of the code, is the tempering of the standard |
| Mersenne.SeedFromOne | src/main/jni/fairplay_jni/fairplay/code13.c:1446-1609 | the table is seeded by the standard's linear rule from one word |
| Mersenne.NextIndex | src/main/jni/fairplay_jni/fairplay/code13.c:5253-5308 | moving on keeps every written word in place and the index in 1..623, copying the last word to the front at the end of a lap |
| Mersenne.AddKeys | src/main/jni/fairplay_jni/fairplay/code13.c:4496-4785 | the first mixing loop makes 624 steps of the key recurrence, a lap of 623 and one more, with every index in 1..623 |
| Mersenne.TakeIndices | src/main/jni/fairplay_jni/fairplay/code13.c:2059-2341 | the second loop makes 623 more steps from the index where the first stopped, and word 0 ends as 0x80000000 |
| Mersenne.Seed | src/main/jni/fairplay_jni/fairplay/code13.c:1872-2058 | the whole seeding, with the four drawn words going to key positions 3, 1, 2 and 0 |
| Mersenne.TwistFront | src/main/jni/fairplay_jni/fairplay/code13.c:4814-5073 | the first loop replaces words 0 to 226 by the next words of the recurrence |
| Mersenne.TwistBack | src/main/jni/fairplay_jni/fairplay/code13.c:1640-1870 | the second loop, which reads words the first has replaced, does the same for words 227 to 622 |
| Mersenne.Twist | src/main/jni/fairplay_jni/fairplay/code13.c:3853-3935 | for every table the three loops in place are 624 steps of the recurrence, the last one using the word 0 already replaced |
| Mersenne.Generator.NextWord | src/main/jni/fairplay_jni/fairplay/code13.c:3936-4161 | a drawn word is the tempered word at the index of the table after the twist; the index moves on, from past the end to 0, and the count from 0x1400 to 0 |
| Mersenne.Generator.NextOf | src/main/jni/fairplay_jni/fairplay/code13.c:3853-4026 | word r of a seeding is the tempered word number 624 * (r + 1) + r % 624 of the recurrence from the seeded table, because the table is twisted for each word |
| Mersenne.Run | src/main/jni/fairplay_jni/fairplay/code13.c:2690-2883 | every run, through any number of seedings: word n is word n % 5121 of seeding n / 5121 |
| Mersenne.Position | src/main/jni/fairplay_jni/fairplay/code13.c:3936-3971 | only for the first word of a seeding is that the place where the standard's engine would take it from |
| MersenneSpec.AdvanceByShifts | src/main/jni/fairplay_jni/fairplay/code13.c:4814-5073 | twisting any number of times moves 624 words along one unbounded sequence each time |
| MersenneSpec.NeverDies | src/main/jni/fairplay_jni/fairplay/code13.c:2300-2341 | after seeding no state of the whole run is zero in all the bits that matter, thanks to the word that seeding sets last |
| MersenneLaws.ScaleLaws | src/main/jni/fairplay_jni/fairplay/code13.c:1446-1609 | a seeding step counts up with its index, and an explicit inverse gives the word it came from |
| MersenneLaws.AddKeyLaws | src/main/jni/fairplay_jni/fairplay/code13.c:4598-4640 | a step of the first loop counts up with the key index and with the key word; from its result either of the two words it used is given back by an explicit formula from the other |
| MersenneLaws.NothingToAdd | src/main/jni/fairplay_jni/fairplay/code13.c:4598-4640 | with nothing to add and a previous word of 0, either kind of step leaves the word it replaces |
| MersenneLaws.TakeIndexLaws | src/main/jni/fairplay_jni/fairplay/code13.c:2059-2299 | a step of the second loop counts down with the index, and is undone in the same two ways |
| MersenneLaws.FoldedByParts | src/main/jni/fairplay_jni/fairplay/code13.c:4598-4604 | before it is multiplied a word has its two top bits added to its two lowest |
| MersenneLaws.KeyWords | src/main/jni/fairplay_jni/fairplay/code13.c:4496-4785 | the first five words written for the seed 19650218 and the key 123, 234, 345, 456 (hexadecimal), as numbers |
| MersenneLaws.LastWritten | src/main/jni/fairplay_jni/fairplay/code13.c:2059-2341 | the table keeps at each index the word that either loop writes there last |
| MersenneLaws.TemperXor | src/main/jni/fairplay_jni/fairplay/code13.c:3998-4026 | tempering treats every bit by itself |
| MersenneLaws.TemperBits | src/main/jni/fairplay_jni/fairplay/code13.c:3998-4026 | the tempered image of each of the 32 single bits |
| MersenneLaws.NextOfEven | src/main/jni/fairplay_jni/fairplay/code13.c:4814-4930 | the top bit of the oldest word and the rest of the next move down one place onto the middle word |
| MersenneLaws.NextOfOdd | src/main/jni/fairplay_jni/fairplay/code13.c:4814-4930 | when a bit falls out, 0x9908b0df is added as well |
| MersenneLaws.XForward | src/main/jni/fairplay_jni/fairplay/code13.c:4814-5073 | word n + 624 is made of words n, n + 1 and n + 397 |
| Arc4Random.Generator.AddRandom | src/main/jni/fairplay_jni/fairplay/code1.c:386-692 | 256 turns mix the given bytes into the table as RC4's key schedule does, from the index before the current one, and leave both indices equal |
| Arc4Random.Generator.NextByte | src/main/jni/fairplay_jni/fairplay/code1.c:738-826 | one key stream byte of RC4 and the table with two bytes exchanged |
| Arc4Random.Generator.GetWord | src/main/jni/fairplay_jni/fairplay/code1.c:722-1062 | a word is four key stream bytes, first on top; an empty count is stirred before, and four are taken from the count |
| Arc4Random.Generator.Stir | src/main/jni/fairplay_jni/fairplay/code1.c:321-360 | 128 fresh bytes are mixed in and 64 words dropped; the calls between the two cases end, since a full count is never stirred |
| Arc4Random.Generator.Fill | src/main/jni/fairplay_jni/fairplay/code1.c:1088-1185 | the stores go to n - 1 down to 0, each once, with ceil(n / 4) words; byte p is byte p % 4 of the word drawn for its group of four, and the bytes behind n are kept |
| Rc4.WholeRun | src/main/jni/fairplay_jni/fairplay/code1.c:722-1062 | before word n the source has been stirred exactly once for every 399952 words begun, and word n is the key stream's word at that distance from the latest stirring |
| Rc4.CountStays | src/main/jni/fairplay_jni/fairplay/code1.c:722-741 | in every run the count is a multiple of 4 from 0 up to 0x186A40 and is 0 exactly every 399952 words |
| Rc4.RunKeepsTable | src/main/jni/fairplay_jni/fairplay/code1.c:386-1062 | whatever is stirred in and drawn, the table only rearranges the bytes it started with |
| Rc4.BlankRun | src/main/jni/fairplay_jni/fairplay/code1.c:3-6 | from the static table, which starts as zeros, every word of every run is 0, whatever the table is stirred with |
| Rc4Laws.StepLaw | src/main/jni/fairplay_jni/fairplay/code1.c:738-826 | one step, by table positions modulo 256: where the two indices go, which two entries change places, and which entry is delivered |
| Rc4Laws.KeyStepLaw | src/main/jni/fairplay_jni/fairplay/code1.c:386-692 | one key byte mixed in, in the same terms |
| Rc4Laws.AddKeyLaw | src/main/jni/fairplay_jni/fairplay/code1.c:386-692 | mixing in visits each of the 256 entries once, from the index where it starts, and leaves both indices one before that; no bytes change nothing |
| Rc4Laws.WordLaw | src/main/jni/fairplay_jni/fairplay/code1.c:722-1062 | a word is written by the outputs of its four steps, the first on top |
| Arc4Random.Run | src/main/jni/fairplay_jni/fairplay/code1.c:722-1062 | a run of the generator object delivers the words of the closed form, all of them 0 from the program's own start |
| SeededRun.Collect | src/main/jni/fairplay_jni/fairplay/code13.c:1872-1936 | the five seed words are the next five words of the one generator, each for the place it is drawn for |
| SeededRun.BlankSeedsOneTable | src/main/jni/fairplay_jni/fairplay/code13.c:1872-2058 | so every seeding draws five zeros, at whatever point of the run and whatever other callers have drawn |
| SeededRun.Run | src/main/jni/fairplay_jni/fairplay/code13.c:2690-2883 | the program's word stream, with any draws of other callers in between and any entropy, is one fixed sequence that repeats after 5121 words |
| Decorations.DecorateInOrder | guides/google-code-prettify/prettify.js:7-8 | nested lexing gives starts that never decrease, begin at the base and stay inside the source |
| Decorations.DecoratePaints | guides/google-code-prettify/prettify.js:7-8 | every position gets the style of the leaf token that covers it, through any depth of embedded lexers |
| Decorations.DecorateJob | guides/google-code-prettify/prettify.js:7-8 | the pushing loop with its recursive calls makes that list |
| Painted.DecorateIsPaint | guides/google-code-prettify/prettify.js:7-8 | painting the text character by character, each in the style of its token, and decorating it show the same style everywhere |
| Painted.StyleShown | guides/google-code-prettify/prettify.js:16-17 | a decoration list shows the style of an entry from its start on until a later entry has begun |
| Painted.NothingShown | guides/google-code-prettify/prettify.js:16-17 | before the first entry has begun the list shows no style |
| Compaction.CompactionKeepsStyles | guides/google-code-prettify/prettify.js:16 | both passes together leave the style at every source position as it was, starts strictly increasing inside the source, and no two neighbours of one style |
| Compaction.FirstPass | guides/google-code-prettify/prettify.js:16 | the loop over the list with its end mark keeps of equal starts the last |
| Compaction.SecondPass | guides/google-code-prettify/prettify.js:16 | the loop in place keeps the first of each run of one style |
| Compaction.Compact | guides/google-code-prettify/prettify.js:16 | what the two loops leave at the front of the array is the compacted list |
| SpanWalk.Walk | guides/google-code-prettify/prettify.js:16-17 | the walk ends, and its pieces carry every character of every text node once, in order, with its node and its decoration; pieces are never empty and never come from a line-break element |
| SpanWalk.Turn | guides/google-code-prettify/prettify.js:16-17 | each turn ends at the nearer of the two boundaries and moves at least one pointer on, and both again stand on what covers the next position |
| SpanWalk.StyleOfIndex | guides/google-code-prettify/prettify.js:16-17 | the decoration the walk uses for a position is the one that styles it |
| SpanWalk.PiecesJoinToSource | guides/google-code-prettify/prettify.js:16-17 | without line-break elements the pieces join to the source |
| SpanWalk.Highlight | guides/google-code-prettify/prettify.js:15-17 | lexing, compaction and walk: every character is cut out once, in its own node, under a decoration of the style its leaf token has |
| CharRanges.FoldClass | guides/google-code-prettify/prettify.js:2-4 | the rewritten class holds exactly the code points of the class and of its letters in the other case, sorted, disjoint and not adjacent |
| CharRanges.MergeOneKeeps | guides/google-code-prettify/prettify.js:3 | one turn of the merge keeps the list separated and adds exactly the range |
| CharRanges.FoldedIsLeast | guides/google-code-prettify/prettify.js:2-3 | that set is the least superset of the class closed under swapping ASCII case |
| CharRanges.SeparatedIsCanonical | guides/google-code-prettify/prettify.js:3 | a separated list is determined by what it holds, so the rewriting does not depend on how the class was written |
| CharRanges.LetterPairs | guides/google-code-prettify/prettify.js:2-3 | which code points are letters, and that each goes to the same letter of the other case and back |
| WavReader.Reader.Open | src/main/jni/fdk-aac-master/wavreader.c:72-158 | for every file the header and position the loops leave are those of the walk, end-of-file reads included, and both loops end |
| WavReader.Reader.Chunks | src/main/jni/fdk-aac-master/wavreader.c:107-150 | the loop over the chunks of one RIFF chunk, with each way it can end |
| WavReader.Reader.ReadData | src/main/jni/fdk-aac-master/wavreader.c:182-192 | a read is clipped to the rest of the data chunk and to the rest of the file, and takes the clipped request from the length, without going below zero when not streamed |
| WavReader.ReadMany | src/main/jni/fdk-aac-master/wavreader.c:182-192 | over any sequence of reads the clipped requests and what is left add up to the length at the start, and the bytes join to one stretch of the file |
| WavReader.ReadBack | src/main/jni/fdk-aac-master/wavreader.c:72-192 | opening a file of chunks without pads and reading gives a prefix of the last data chunk, all of it once enough is asked for |
| WavReader.ReadPaddedBack | src/main/jni/fdk-aac-master/wavreader.c:72-192 | the same for a file with RIFF pad bytes in which only the last chunk may be odd |
| WavRoundTrip.RoundTrip | src/main/jni/fdk-aac-master/wavreader.c:72-158 | opening the encoding without pads of any list of well-formed chunks leaves the fields its chunks tell and the position of its data |
| WavRoundTrip.LastFmtDecides | src/main/jni/fdk-aac-master/wavreader.c:116-137 | the format fields are those of the last fmt chunk, the extensible format code included |
| WavFields.TagsSpelled | src/main/jni/fdk-aac-master/wavreader.c:96-138 | the four identifiers are the letters RIFF, WAVE, fmt and data |
| WavFields.Le2U16 | src/main/jni/fdk-aac-master/wavreader.c:59-64 | two bytes, low one first, are read as the number they write |
| WavFields.U16PastEnd | src/main/jni/fdk-aac-master/wavreader.c:59-64 | a 16-bit read that meets the end of the file keeps the byte it found below ones |
| WavFields.U32AcrossEnd | src/main/jni/fdk-aac-master/wavreader.c:50-57 | a 32-bit read that meets the end after two or three bytes keeps them below ones |
| WavFields.U32PastEnd | src/main/jni/fdk-aac-master/wavreader.c:50-57 | with one byte or none left a 32-bit read gives ones above it |
| WavFields.TagPastEnd | src/main/jni/fdk-aac-master/wavreader.c:41-48 | an identifier cut off by the end of the file is all ones |
| WavFields.FmtComesBack | src/main/jni/fdk-aac-master/wavreader.c:116-137 | a fmt chunk written from six chosen values, with anything behind them and any other chunks around it, opens to a header with exactly these values |
| WavFields.ExtensibleComesBack | src/main/jni/fdk-aac-master/wavreader.c:127-134 | the same for an extensible fmt chunk, whose format stands at place 24 |
| WavFields.WrittenFileOpens | src/main/jni/fdk-aac-master/wavreader.c:72-158 | a file written from six values and some samples opens to the header with them, at the samples, which are the rest of the file |
| WavFields.PlainBody | src/main/jni/fdk-aac-master/wavreader.c:121-126 | the sixteen bytes of an ordinary fmt body, one by one |
| WavFields.StreamOpens | src/main/jni/fdk-aac-master/wavreader.c:91-145 | a RIFF size of 0 or from 0x7fff0000 on, or an empty data chunk, makes the open return at the data as a stream, whatever stands there |
| WavFields.ShortFmtSaysNothing | src/main/jni/fdk-aac-master/wavreader.c:117-120 | a fmt chunk of less than 16 bytes leaves the header empty |
| WavRoundTrip.LastDataDecides | src/main/jni/fdk-aac-master/wavreader.c:138-146 | length and position are those of the last data chunk |
| WavRoundTrip.DataStandsThere | src/main/jni/fdk-aac-master/wavreader.c:138-157 | the bytes from that position on are the body of that chunk |
| WavRoundTrip.TurnBalances | src/main/jni/fdk-aac-master/wavreader.c:107-150 | on an untruncated chunk position and remaining length move by the same amount in every turn, apart from the break at a short extensible fmt chunk, which leaves 16 bytes too many |
| WavRoundTrip.WalkBalances | src/main/jni/fdk-aac-master/wavreader.c:107-154 | so the walk of an untruncated RIFF chunk ends at that chunk's end, or 16 bytes behind it if and only if it stopped at a short extensible fmt chunk |
| WavRoundTrip.ShortFmtOvershoots | src/main/jni/fdk-aac-master/wavreader.c:128-132 | a RIFF chunk with such a fmt chunk inside ends at 36 and the open goes on at 52, for any bytes behind it |
| WavPadded.PaddedRoundTrip | src/main/jni/fdk-aac-master/wavreader.c:107-154 | a padded file in which every chunk before the last is even opens to what its chunks say, the last pad included |
| WavPadded.ReadEarly | src/main/jni/fdk-aac-master/wavreader.c:109-115 | behind a pad the identifier is read as the true one divided by 256 and the size as its low byte with the low three bytes of the true size above it |
| WavPadded.WalkBehindPad | src/main/jni/fdk-aac-master/wavreader.c:107-150 | for every padded file whose first odd chunk is not the last: no field changes at the misread header, and the walk ends there or goes on at the place the misread size leads to |
| WavPadded.PadSwallows | src/main/jni/fdk-aac-master/wavreader.c:107-154 | when that size leaves no room for a chunk header, the open ends with what the chunks up to the odd one say |
| WavPadded.FoundIff | src/main/jni/fdk-aac-master/wavreader.c:107-157 | then the position is the data's if and only if no data chunk follows the odd one, and all is read right if and only if the chunks behind it tell the header nothing new |
| WavPadded.DataBehindPadIsLost | src/main/jni/fdk-aac-master/wavreader.c:107-157 | a last data chunk directly behind the first odd chunk is never found, for every size and content |
| WavPadded.FoundBesidePad | src/main/jni/fdk-aac-master/wavreader.c:107-157 | for every padded file whose first odd chunk is not the last, the open ends on a data position up to the pad or at least 12 bytes behind it |
| WavPadded.BodiesDecide | src/main/jni/fdk-aac-master/wavreader.c:107-157 | two files with the same identifiers and sizes, of which one is read right and the other is not |
| WavPadded.LastIsLost | src/main/jni/fdk-aac-master/wavreader.c:107-154 | one more chunk of less than 2^24 bytes behind the odd one is always lost: the open ends with what the chunks up to the odd one say |
| WavPadded.PadTakenUp | src/main/jni/fdk-aac-master/wavreader.c:147-149 | an empty chunk whose identifier ends in a byte of 1 takes up the pad, and the rest is read right |
| WavPadded.PadLosesData | src/main/jni/fdk-aac-master/wavreader.c:107-154 | a file of 32 bytes with a LIST chunk of one byte in front of the data opens to nothing |

## Left out

- The other code blocks (`fairplay/code*.c` besides code1.c and code13.c), and of code13.c everything besides seeding, twist and tempering: they rest on code98.h, which is not part of this model, or only wait for one another.
- fairplay/code106.c: the same AES in counter mode with other names.
- The masks that `v3100` and `v7` put on addresses and words: a masked word read or written is a plain array element, and the two words of a branch table are a choice.
- What follows a word of the twister: its use on a buffer. The count of words is taken to be 0 when the program starts; a memory image that starts it elsewhere would shift the first seeding.
- The collection of entropy in case 0 of `v2935`: its 128 bytes are a parameter for each stirring.
- The tables Td0 to Td4, and the literal tables of the source: the results hold for any S-box and any constants, and the examples use those of the standards, so a wrong entry in a table of the source would not show.
- SwarCipher.EncryptBlock: the ten rounds that the code writes out one after the other, with small differences in the order of lines, are calls of one method.
- Sha512.Transform: the 80 macro lines are a loop over i with the table of constants in place of the literals.
- StreamCipher.Decryptor.DecryptBlock: the structure is its 208 bytes in memory order; data and output are the same array or different ones, not overlapping at a distance, and the length is not negative. A carry that would leave the structure is outside its precondition.
- WavPadded.FoundIff: data chunks further behind than the chunk after the first odd one, when the misread size stays inside the file: WavPadded.WalkBehindPad says where the walk goes on, and WavPadded.BodiesDecide that kinds and sizes of the chunks do not decide what it finds.
- PairVerify.PairVerify3: input and output are the same array or different ones, not overlapping at a distance.
- Sha512.State.Final: only the structure is cleared in the model; the wiping of temporaries has no counterpart.
- Mersenne.Generator.NextWord: jumps through the dispatcher are loops and calls; the table, which the program addresses at a fixed place, is an array of 624 words.
- Arc4Random.Generator.AddRandom: the four turns of a round of the loop are four calls, and the buffer is a sequence.
- Regular expressions and the document tree of prettify.js: a source is a list of tokens, each with a style or an embedded source, and a text node is its start in the source.
- Decorations.DecorateJob: decorations are records, not alternating starts and styles in one array, and the cache of styles by token text is left out.
- CharRanges.FoldClass: escapes such as \d, negation and printing of a class are left out; its sort is an insertion sort in the order the code asks for.
- WavReader.Reader.Open: file positions are natural numbers, so a seek by a 32-bit `long` does not wrap; opening by name, closing and wav_get_header are left out.
- Reading from a WAV stream: modelled as the code has it; WavFields.StreamOpens says where the open stops, and nothing is claimed about the reads beyond single ones.
- AES_PairVerify2, AES_FpSetup, AES_AirplayStreamKeyDecrypt, the JNI wrappers, aac_interface.c and the jmdns classes: calls of what is modelled here, or of code that is not shown.
