/** The MD5 message digest of RFC 1321 and HMAC-MD5 of RFC 2104, as definitions on byte sequences. */
module Md5Spec {
  import opened Types

  const WORD := 0x1_0000_0000
  const LENGTH := 0x1_0000_0000_0000_0000

  /** The four words A, B, C and D. */
  datatype State = State(a: u32, b: u32, c: u32, d: u32)

  function Zeros(k: nat): (r: seq<u8>)
    ensures |r| == k
  {
    seq(k, i => 0)
  }

  /** One block of a message. */
  type Block = s: seq<u8> | |s| == 64 witness Zeros(64)

  /** A function that mixes a block into the state; `Compress` is that of MD5, and all that is said about
      splitting a message into blocks holds for any other. */
  type Mixer = (State, Block) -> State

  const INIT := State(0x67452301, 0xefcdab89, 0x98badcfe, 0x10325476)

  // ---- Little-endian words ----

  function WordBytes(w: u32): (r: seq<u8>)
    ensures |r| == 4
  {
    [w % 0x100, w / 0x100 % 0x100, w / 0x1_0000 % 0x100, w / 0x100_0000 % 0x100]
  }

  function Word(b0: u8, b1: u8, b2: u8, b3: u8): u32 {
    (b0 as int) + 0x100 * (b1 as int) + 0x1_0000 * (b2 as int) + 0x100_0000 * (b3 as int)
  }

  lemma WordRoundTrip(w: u32)
    ensures var s := WordBytes(w); Word(s[0], s[1], s[2], s[3]) == w
  {
    var x, y := w / 0x100, w / 0x1_0000;
    assert y == x / 0x100 && w / 0x100_0000 == y / 0x100;
    assert w == 0x100 * x + w % 0x100 && x == 0x100 * y + x % 0x100;
  }

  function EncodeWords(ws: seq<u32>): (r: seq<u8>)
    ensures |r| == 4 * |ws|
  {
    if ws == [] then [] else EncodeWords(ws[..|ws| - 1]) + WordBytes(ws[|ws| - 1])
  }

  function DecodeWords(s: seq<u8>): (r: seq<u32>)
    requires |s| % 4 == 0
    ensures |r| == |s| / 4
  {
    if s == [] then [] else DecodeWords(s[..|s| - 4]) + [Word(s[|s| - 4], s[|s| - 3], s[|s| - 2], s[|s| - 1])]
  }

  lemma {:induction false} DecodeEncode(ws: seq<u32>)
    ensures DecodeWords(EncodeWords(ws)) == ws
  {
    if ws != [] {
      var n := |ws| - 1;
      DecodeEncode(ws[..n]);
      var s := EncodeWords(ws);
      assert s[..|s| - 4] == EncodeWords(ws[..n]) && s[|s| - 4..] == WordBytes(ws[n]);
      WordRoundTrip(ws[n]);
      assert ws == ws[..n] + [ws[n]];
    }
  }

  // ---- The compression of one block (section 3.4 of RFC 1321) ----

  datatype BitOp = And | Or | Xor

  function Bit(op: BitOp, x: nat, y: nat): nat {
    match op
    case And => if x == 1 && y == 1 then 1 else 0
    case Or => if x == 1 || y == 1 then 1 else 0
    case Xor => if x == y then 0 else 1
  }

  function Pow2(n: nat): (r: nat)
    ensures r > 0
  {
    if n == 0 then 1 else 2 * Pow2(n - 1)
  }

  /** The operation on the low `n` bits of two numbers. */
  function Bits(op: BitOp, x: nat, y: nat, n: nat): (r: nat)
    ensures r < Pow2(n)
  {
    if n == 0 then 0 else Bit(op, x % 2, y % 2) + 2 * Bits(op, x / 2, y / 2, n - 1)
  }

  function Not(x: u32): u32 {
    WORD - 1 - x
  }

  function Mix(round: nat, x: u32, y: u32, z: u32): nat {
    if round == 0 then Bits(Or, Bits(And, x, y, 32), Bits(And, Not(x), z, 32), 32)
    else if round == 1 then Bits(Or, Bits(And, x, z, 32), Bits(And, y, Not(z), 32), 32)
    else if round == 2 then Bits(Xor, Bits(Xor, x, y, 32), z, 32)
    else Bits(Xor, y, Bits(Or, x, Not(z), 32), 32)
  }

  function RotateLeft(x: u32, n: nat): u32
    requires n <= 32
  {
    (x * Pow2(n) + x / Pow2(32 - n)) % WORD
  }

  /** The word of the block that step `k` of a round uses. */
  function Pick(round: nat, k: nat): (i: nat)
    ensures i < 16
  {
    if round == 0 then k % 16
    else if round == 1 then (1 + 5 * k) % 16
    else if round == 2 then (5 + 3 * k) % 16
    else 7 * k % 16
  }

  const SHIFTS: seq<seq<nat>> := [[7, 12, 17, 22], [5, 9, 14, 20], [4, 11, 16, 23], [6, 10, 15, 21]]

  const SINES: seq<seq<u32>> := [
    [0xd76aa478, 0xe8c7b756, 0x242070db, 0xc1bdceee, 0xf57c0faf, 0x4787c62a, 0xa8304613, 0xfd469501,
     0x698098d8, 0x8b44f7af, 0xffff5bb1, 0x895cd7be, 0x6b901122, 0xfd987193, 0xa679438e, 0x49b40821],
    [0xf61e2562, 0xc040b340, 0x265e5a51, 0xe9b6c7aa, 0xd62f105d, 0x02441453, 0xd8a1e681, 0xe7d3fbc8,
     0x21e1cde6, 0xc33707d6, 0xf4d50d87, 0x455a14ed, 0xa9e3e905, 0xfcefa3f8, 0x676f02d9, 0x8d2a4c8a],
    [0xfffa3942, 0x8771f681, 0x6d9d6122, 0xfde5380c, 0xa4beea44, 0x4bdecfa9, 0xf6bb4b60, 0xbebfbc70,
     0x289b7ec6, 0xeaa127fa, 0xd4ef3085, 0x04881d05, 0xd9d4d039, 0xe6db99e5, 0x1fa27cf8, 0xc4ac5665],
    [0xf4292244, 0x432aff97, 0xab9423a7, 0xfc93a039, 0x655b59c3, 0x8f0ccc92, 0xffeff47d, 0x85845dd1,
     0x6fa87e4f, 0xfe2ce6e0, 0xa3014314, 0x4e0811a1, 0xf7537e82, 0xbd3af235, 0x2ad7d2bb, 0xeb86d391]]

  function Plus(x: u32, y: u32): u32 {
    ((x as int) + (y as int)) % WORD
  }

  /** One step. The registers trade places, where the code names them in turn. */
  function Step(r: State, x: u32, round: nat, k: nat): State
    requires round < 4 && k < 16
  {
    State(r.d, Turned(round, r, x, SHIFTS[round][k % 4], SINES[round][k]), r.b, r.c)
  }

  /** The new value of the first register. */
  function Turned(round: nat, r: State, x: u32, s: nat, ac: u32): u32
    requires s <= 32
  {
    Plus(RotateLeft((r.a + Mix(round, r.b, r.c, r.d) + x + ac) % WORD, s), r.b)
  }

  /** The first `n` of the 64 steps. */
  function Steps(r: State, x: seq<u32>, n: nat): State
    requires |x| == 16 && n <= 4 * |x|
  {
    if n == 0 then r
    else
      var round, k := (n - 1) / 16, (n - 1) % 16;
      Step(Steps(r, x, n - 1), x[Pick(round, k)], round, k)
  }

  function PlusState(s: State, r: State): State {
    State(Plus(s.a, r.a), Plus(s.b, r.b), Plus(s.c, r.c), Plus(s.d, r.d))
  }

  /** All 64 steps on the sixteen words of a block, added to the state. */
  function MixWords(s: State, x: seq<u32>): State
    requires |x| == 16
  {
    PlusState(s, Steps(s, x, 4 * |x|))
  }

  function Compress(s: State, block: Block): State {
    MixWords(s, DecodeWords(block))
  }

  // ---- Messages ----

  /** All complete blocks of a message, folded into the state. */
  function Fold(f: Mixer, s: State, m: seq<u8>): State
    decreases |m|
  {
    if |m| < 64 then s else Fold(f, f(s, m[..64]), m[64..])
  }

  /** The bytes after the last complete block. */
  function Tail(m: seq<u8>): (r: seq<u8>)
    ensures |r| < 64
    decreases |m|
  {
    if |m| < 64 then m else Tail(m[64..])
  }

  lemma {:induction false} TailLength(m: seq<u8>)
    ensures |Tail(m)| == |m| % 64
    decreases |m|
  {
    if |m| >= 64 { TailLength(m[64..]); }
  }

  /** A piece that does not complete a block only extends the tail. */
  lemma {:induction false} ShortPiece(f: Mixer, s: State, m: seq<u8>, part: seq<u8>)
    requires |Tail(m)| + |part| < 64
    ensures Fold(f, s, m + part) == Fold(f, s, m) && Tail(m + part) == Tail(m) + part
    decreases |m|
  {
    if |m| >= 64 {
      ShortPiece(f, f(s, m[..64]), m[64..], part);
      assert (m + part)[..64] == m[..64] && (m + part)[64..] == m[64..] + part;
    }
  }

  /** A piece that just completes a block is mixed in together with the tail. */
  lemma {:induction false} NextBlock(f: Mixer, s: State, m: seq<u8>, part: seq<u8>)
    requires |Tail(m)| + |part| == 64
    ensures Fold(f, s, m + part) == f(Fold(f, s, m), Tail(m) + part) && Tail(m + part) == []
    decreases |m|
  {
    if |m| >= 64 {
      NextBlock(f, f(s, m[..64]), m[64..], part);
      assert (m + part)[..64] == m[..64] && (m + part)[64..] == m[64..] + part;
    } else {
      var block := m + part;
      assert block[..64] == block && block[64..] == [];
    }
  }

  /** The number of zero bytes of the padding. */
  function ZeroCount(n: nat): nat {
    (119 - n % 64) % 64
  }

  /** The padding is the shortest that leaves room for exactly the length field. */
  lemma ZeroCountIsLeast(n: nat, k: nat)
    requires (n + 1 + k) % 64 == 56
    ensures (n + 1 + ZeroCount(n)) % 64 == 56 && ZeroCount(n) <= k
  {
    var q, r := n / 64, n % 64;
    assert n + 1 + ZeroCount(n) == 64 * q + (if r < 56 then 56 else 120);
  }

  /** The two words count the bits of a message of `n` bytes, modulo 2^64. */
  predicate CountIs(low: u32, high: u32, n: nat) {
    low + WORD * high == 8 * n % LENGTH
  }

  /** The length field: the low-order word comes first. */
  function LengthBytes(n: nat): (r: seq<u8>)
    ensures |r| == 8
  {
    var bits := 8 * n % LENGTH;
    WordBytes(bits % WORD) + WordBytes(bits / WORD % WORD)
  }

  /** Sections 3.1 and 3.2: a one bit, zero bits, and the length. */
  function Padded(m: seq<u8>): (r: seq<u8>)
    ensures |r| == |m| + 1 + ZeroCount(|m|) + 8
  {
    m + ([0x80] + Zeros(ZeroCount(|m|))) + LengthBytes(|m|)
  }

  /** The padded message consists of complete blocks. */
  lemma PaddedIsWhole(m: seq<u8>)
    ensures |Padded(m)| % 64 == 0
  {
    var q, r := |m| / 64, |m| % 64;
    assert |Padded(m)| == 64 * (q + if r < 56 then 1 else 2);
  }

  function StateBytes(s: State): (r: seq<u8>)
    ensures |r| == 16
  {
    WordBytes(s.a) + WordBytes(s.b) + WordBytes(s.c) + WordBytes(s.d)
  }

  function Digest(f: Mixer, m: seq<u8>): (r: seq<u8>)
    ensures |r| == 16
  {
    StateBytes(Fold(f, INIT, Padded(m)))
  }

  // ---- HMAC (section 2 of RFC 2104) ----

  function XorByte(x: u8, y: u8): u8 {
    Bits(Xor, x, y, 8)
  }

  function XorAll(s: seq<u8>, y: u8): (r: seq<u8>)
    ensures |r| == |s|
  {
    seq(|s|, i requires 0 <= i < |s| => XorByte(s[i], y))
  }

  /** The key as one block: a long key is hashed first, and zeros are appended. */
  function BlockKey(f: Mixer, key: seq<u8>): (r: seq<u8>)
    ensures |r| == 64
  {
    var k := if |key| > 64 then Digest(f, key) else key;
    k + Zeros(64 - |k|)
  }

  function Hmac(f: Mixer, key: seq<u8>, text: seq<u8>): (r: seq<u8>)
    ensures |r| == 16
  {
    var k := BlockKey(f, key);
    Digest(f, XorAll(k, 0x5c) + Digest(f, XorAll(k, 0x36) + text))
  }
}

/** The streaming implementation: a context that is fed pieces of a message. */
module Md5 {
  import opened Types
  import opened Md5Spec

  /** `memcpy`. */
  method Copy(dst: array<u8>, at: nat, src: array<u8>, from: nat, n: nat)
    requires dst != src && at + n <= dst.Length && from + n <= src.Length
    modifies dst
    ensures dst[..] == old(dst[..at]) + src[from..from + n] + old(dst[at + n..])
  {
    for k := 0 to n
      invariant dst[..at] == old(dst[..at]) && dst[at + n..] == old(dst[at + n..])
      invariant dst[at..at + k] == src[from..from + k]
    {
      dst[at + k] := src[from + k];
    }
  }

  /** Words to bytes; `len` is a multiple of 4. */
  method Encode(output: array<u8>, input: seq<u32>, len: nat)
    requires len == 4 * |input| && len <= output.Length
    modifies output
    ensures output[..len] == EncodeWords(input) && output[len..] == old(output[len..])
  {
    var i, j := 0, 0;
    while j < len
      invariant j == 4 * i && i <= |input|
      invariant output[..j] == EncodeWords(input[..i]) && output[len..] == old(output[len..])
    {
      ghost var done := output[..j];
      output[j] := input[i] % 0x100;
      output[j + 1] := input[i] / 0x100 % 0x100;
      output[j + 2] := input[i] / 0x1_0000 % 0x100;
      output[j + 3] := input[i] / 0x100_0000 % 0x100;
      assert output[..j + 4] == done + WordBytes(input[i]);
      assert input[..i + 1][..i] == input[..i];
      i, j := i + 1, j + 4;
    }
    assert input[..|input|] == input;
  }

  /** Bytes to words; `len` is a multiple of 4. */
  method Decode(output: array<u32>, input: array<u8>, start: nat, len: nat)
    requires len % 4 == 0 && start + len <= input.Length && len / 4 <= output.Length
    modifies output
    ensures output[..len / 4] == DecodeWords(input[start..start + len])
  {
    ghost var read, n := input[start..start + len], len / 4;
    assert len == 4 * n;
    var i, j := 0, 0;
    while j < len
      invariant j == 4 * i && i <= n
      invariant forall k :: 0 <= k < i ==> output[k] == WordAt(read, k)
    {
      assert i < n;
      DecodeOne(output, i, input, start, read);
      i, j := i + 1, j + 4;
    }
    WordByWord(read, output[..n]);
  }

  /** The word `i`, from the four bytes at `start + 4 * i`. */
  method DecodeOne(output: array<u32>, i: nat, input: array<u8>, start: nat, ghost read: seq<u8>)
    requires i < output.Length && start + 4 * i + 4 <= start + |read| <= input.Length
    requires read == input[start..start + |read|]
    modifies output
    ensures output[i] == WordAt(read, i) && forall k :: 0 <= k < output.Length && k != i ==> output[k] == old(output[k])
  {
    var s := start + 4 * i;
    assert read[4 * i] == input[s] && read[4 * i + 1] == input[s + 1];
    assert read[4 * i + 2] == input[s + 2] && read[4 * i + 3] == input[s + 3];
    output[i] := Word(input[s], input[s + 1], input[s + 2], input[s + 3]);
  }

  function WordAt(s: seq<u8>, k: nat): u32
    requires 4 * k + 4 <= |s|
  {
    Word(s[4 * k], s[4 * k + 1], s[4 * k + 2], s[4 * k + 3])
  }

  lemma {:induction false} WordByWord(s: seq<u8>, ws: seq<u32>)
    requires |s| % 4 == 0 && |ws| == |s| / 4 && forall k :: 0 <= k < |ws| ==> ws[k] == WordAt(s, k)
    ensures ws == DecodeWords(s)
    decreases |s|
  {
    if s != [] {
      var m, n := |s| - 4, |ws| - 1;
      assert m == 4 * n;
      forall k | 0 <= k < n
        ensures ws[..n][k] == WordAt(s[..m], k)
      {
        assert ws[k] == WordAt(s, k);
      }
      WordByWord(s[..m], ws[..n]);
      assert ws[n] == WordAt(s, n);
      assert ws == ws[..n] + [ws[n]];
    }
  }

  /** `run` gives the registers after each of the 64 steps on the words `x`. */
  ghost predicate Runs(run: nat -> State, x: seq<u32>) {
    |x| == 16 && forall n: nat :: n < 64 ==> StepOf(run, x, n)
  }

  ghost predicate StepOf(run: nat -> State, x: seq<u32>, n: nat)
    requires |x| == 16 && n < 64
  {
    run(n + 1) == Step(run(n), x[Pick(n / 16, n % 16)], n / 16, n % 16)
  }

  ghost function RunFrom(start: State, x: seq<u32>): nat -> State
    requires |x| == 16
  {
    (n: nat) => if n <= 4 * |x| then Steps(start, x, n) else start
  }

  lemma StepsRun(start: State, x: seq<u32>)
    requires |x| == 16
    ensures Runs(RunFrom(start, x), x)
  {
    var run := RunFrom(start, x);
    forall n: nat | n < 64
      ensures StepOf(run, x, n)
    {
      assert run(n) == Steps(start, x, n) && run(n + 1) == Steps(start, x, n + 1);
    }
  }

  /** `MD5Transform` computes the compression function. */
  method Transform(state: State, block: array<u8>) returns (r: State)
    requires block.Length == 64
    ensures r == Compress(state, block[..])
  {
    var x := new u32[16];
    Decode(x, block, 0, 64);
    assert block[0..64] == block[..] && x[..] == x[..16];
    var a, b, c, d := state.a, state.b, state.c, state.d;
    ghost var run := RunFrom(state, x[..]);
    StepsRun(state, x[..]);
    a, b, c, d := Round1a(a, b, c, d, x[..], run);
    a, b, c, d := Round1b(a, b, c, d, x[..], run);
    a, b, c, d := Round2a(a, b, c, d, x[..], run);
    a, b, c, d := Round2b(a, b, c, d, x[..], run);
    a, b, c, d := Round3a(a, b, c, d, x[..], run);
    a, b, c, d := Round3b(a, b, c, d, x[..], run);
    a, b, c, d := Round4a(a, b, c, d, x[..], run);
    a, b, c, d := Round4b(a, b, c, d, x[..], run);
    r := State(Plus(state.a, a), Plus(state.b, b), Plus(state.c, c), Plus(state.d, d));
  }

  /** The macros FF, GG, HH and II: the new value of the register named first. */
  method Op(round: nat, a: u32, b: u32, c: u32, d: u32, word: u32, s: nat, ac: u32) returns (v: u32)
    requires s <= 32
    ensures v == Turned(round, State(a, b, c, d), word, s, ac)
  {
    v := (a + Mix(round, b, c, d) + word + ac) % WORD;
    v := RotateLeft(v, s);
    v := Plus(v, b);
  }

  /** The operation as step `k` of a round: the names move on by one place, so that the four registers together are
      those after it. */
  method StepOp(a: u32, b: u32, c: u32, d: u32, x: seq<u32>, i: nat, s: nat, ac: u32, round: nat, ghost k: nat,
                ghost run: nat -> State)
    returns (v: u32)
    requires round < 4 && k < 16 && Runs(run, x) && run(16 * round + k) == State(a, b, c, d)
    requires i == Pick(round, k) && s == SHIFTS[round][k % 4] && ac == SINES[round][k]
    ensures State(d, v, b, c) == run(16 * round + k + 1)
  {
    ghost var n := 16 * round + k;
    assert n / 16 == round && n % 16 == k;
    assert StepOf(run, x, n);
    v := Op(round, a, b, c, d, x[i], s, ac);
  }

  /** Round 1, steps 1 to 8. */
  method Round1a(a0: u32, b0: u32, c0: u32, d0: u32, x: seq<u32>, ghost run: nat -> State)
    returns (a: u32, b: u32, c: u32, d: u32)
    requires Runs(run, x) && State(a0, b0, c0, d0) == run(0)
    ensures State(a, b, c, d) == run(8)
  {
    a, b, c, d := a0, b0, c0, d0;
    a := StepOp(a, b, c, d, x, 0, 7, 0xd76aa478, 0, 0, run);
    d := StepOp(d, a, b, c, x, 1, 12, 0xe8c7b756, 0, 1, run);
    c := StepOp(c, d, a, b, x, 2, 17, 0x242070db, 0, 2, run);
    b := StepOp(b, c, d, a, x, 3, 22, 0xc1bdceee, 0, 3, run);
    a := StepOp(a, b, c, d, x, 4, 7, 0xf57c0faf, 0, 4, run);
    d := StepOp(d, a, b, c, x, 5, 12, 0x4787c62a, 0, 5, run);
    c := StepOp(c, d, a, b, x, 6, 17, 0xa8304613, 0, 6, run);
    b := StepOp(b, c, d, a, x, 7, 22, 0xfd469501, 0, 7, run);
  }

  /** Round 1, steps 9 to 16. */
  method Round1b(a0: u32, b0: u32, c0: u32, d0: u32, x: seq<u32>, ghost run: nat -> State)
    returns (a: u32, b: u32, c: u32, d: u32)
    requires Runs(run, x) && State(a0, b0, c0, d0) == run(8)
    ensures State(a, b, c, d) == run(16)
  {
    a, b, c, d := a0, b0, c0, d0;
    a := StepOp(a, b, c, d, x, 8, 7, 0x698098d8, 0, 8, run);
    d := StepOp(d, a, b, c, x, 9, 12, 0x8b44f7af, 0, 9, run);
    c := StepOp(c, d, a, b, x, 10, 17, 0xffff5bb1, 0, 10, run);
    b := StepOp(b, c, d, a, x, 11, 22, 0x895cd7be, 0, 11, run);
    a := StepOp(a, b, c, d, x, 12, 7, 0x6b901122, 0, 12, run);
    d := StepOp(d, a, b, c, x, 13, 12, 0xfd987193, 0, 13, run);
    c := StepOp(c, d, a, b, x, 14, 17, 0xa679438e, 0, 14, run);
    b := StepOp(b, c, d, a, x, 15, 22, 0x49b40821, 0, 15, run);
  }

  /** Round 2, steps 17 to 24. */
  method Round2a(a0: u32, b0: u32, c0: u32, d0: u32, x: seq<u32>, ghost run: nat -> State)
    returns (a: u32, b: u32, c: u32, d: u32)
    requires Runs(run, x) && State(a0, b0, c0, d0) == run(16)
    ensures State(a, b, c, d) == run(24)
  {
    a, b, c, d := a0, b0, c0, d0;
    a := StepOp(a, b, c, d, x, 1, 5, 0xf61e2562, 1, 0, run);
    d := StepOp(d, a, b, c, x, 6, 9, 0xc040b340, 1, 1, run);
    c := StepOp(c, d, a, b, x, 11, 14, 0x265e5a51, 1, 2, run);
    b := StepOp(b, c, d, a, x, 0, 20, 0xe9b6c7aa, 1, 3, run);
    a := StepOp(a, b, c, d, x, 5, 5, 0xd62f105d, 1, 4, run);
    d := StepOp(d, a, b, c, x, 10, 9, 0x2441453, 1, 5, run);
    c := StepOp(c, d, a, b, x, 15, 14, 0xd8a1e681, 1, 6, run);
    b := StepOp(b, c, d, a, x, 4, 20, 0xe7d3fbc8, 1, 7, run);
  }

  /** Round 2, steps 25 to 32. */
  method Round2b(a0: u32, b0: u32, c0: u32, d0: u32, x: seq<u32>, ghost run: nat -> State)
    returns (a: u32, b: u32, c: u32, d: u32)
    requires Runs(run, x) && State(a0, b0, c0, d0) == run(24)
    ensures State(a, b, c, d) == run(32)
  {
    a, b, c, d := a0, b0, c0, d0;
    a := StepOp(a, b, c, d, x, 9, 5, 0x21e1cde6, 1, 8, run);
    d := StepOp(d, a, b, c, x, 14, 9, 0xc33707d6, 1, 9, run);
    c := StepOp(c, d, a, b, x, 3, 14, 0xf4d50d87, 1, 10, run);
    b := StepOp(b, c, d, a, x, 8, 20, 0x455a14ed, 1, 11, run);
    a := StepOp(a, b, c, d, x, 13, 5, 0xa9e3e905, 1, 12, run);
    d := StepOp(d, a, b, c, x, 2, 9, 0xfcefa3f8, 1, 13, run);
    c := StepOp(c, d, a, b, x, 7, 14, 0x676f02d9, 1, 14, run);
    b := StepOp(b, c, d, a, x, 12, 20, 0x8d2a4c8a, 1, 15, run);
  }

  /** Round 3, steps 33 to 40. */
  method Round3a(a0: u32, b0: u32, c0: u32, d0: u32, x: seq<u32>, ghost run: nat -> State)
    returns (a: u32, b: u32, c: u32, d: u32)
    requires Runs(run, x) && State(a0, b0, c0, d0) == run(32)
    ensures State(a, b, c, d) == run(40)
  {
    a, b, c, d := a0, b0, c0, d0;
    a := StepOp(a, b, c, d, x, 5, 4, 0xfffa3942, 2, 0, run);
    d := StepOp(d, a, b, c, x, 8, 11, 0x8771f681, 2, 1, run);
    c := StepOp(c, d, a, b, x, 11, 16, 0x6d9d6122, 2, 2, run);
    b := StepOp(b, c, d, a, x, 14, 23, 0xfde5380c, 2, 3, run);
    a := StepOp(a, b, c, d, x, 1, 4, 0xa4beea44, 2, 4, run);
    d := StepOp(d, a, b, c, x, 4, 11, 0x4bdecfa9, 2, 5, run);
    c := StepOp(c, d, a, b, x, 7, 16, 0xf6bb4b60, 2, 6, run);
    b := StepOp(b, c, d, a, x, 10, 23, 0xbebfbc70, 2, 7, run);
  }

  /** Round 3, steps 41 to 48. */
  method Round3b(a0: u32, b0: u32, c0: u32, d0: u32, x: seq<u32>, ghost run: nat -> State)
    returns (a: u32, b: u32, c: u32, d: u32)
    requires Runs(run, x) && State(a0, b0, c0, d0) == run(40)
    ensures State(a, b, c, d) == run(48)
  {
    a, b, c, d := a0, b0, c0, d0;
    a := StepOp(a, b, c, d, x, 13, 4, 0x289b7ec6, 2, 8, run);
    d := StepOp(d, a, b, c, x, 0, 11, 0xeaa127fa, 2, 9, run);
    c := StepOp(c, d, a, b, x, 3, 16, 0xd4ef3085, 2, 10, run);
    b := StepOp(b, c, d, a, x, 6, 23, 0x4881d05, 2, 11, run);
    a := StepOp(a, b, c, d, x, 9, 4, 0xd9d4d039, 2, 12, run);
    d := StepOp(d, a, b, c, x, 12, 11, 0xe6db99e5, 2, 13, run);
    c := StepOp(c, d, a, b, x, 15, 16, 0x1fa27cf8, 2, 14, run);
    b := StepOp(b, c, d, a, x, 2, 23, 0xc4ac5665, 2, 15, run);
  }

  /** Round 4, steps 49 to 56. */
  method Round4a(a0: u32, b0: u32, c0: u32, d0: u32, x: seq<u32>, ghost run: nat -> State)
    returns (a: u32, b: u32, c: u32, d: u32)
    requires Runs(run, x) && State(a0, b0, c0, d0) == run(48)
    ensures State(a, b, c, d) == run(56)
  {
    a, b, c, d := a0, b0, c0, d0;
    a := StepOp(a, b, c, d, x, 0, 6, 0xf4292244, 3, 0, run);
    d := StepOp(d, a, b, c, x, 7, 10, 0x432aff97, 3, 1, run);
    c := StepOp(c, d, a, b, x, 14, 15, 0xab9423a7, 3, 2, run);
    b := StepOp(b, c, d, a, x, 5, 21, 0xfc93a039, 3, 3, run);
    a := StepOp(a, b, c, d, x, 12, 6, 0x655b59c3, 3, 4, run);
    d := StepOp(d, a, b, c, x, 3, 10, 0x8f0ccc92, 3, 5, run);
    c := StepOp(c, d, a, b, x, 10, 15, 0xffeff47d, 3, 6, run);
    b := StepOp(b, c, d, a, x, 1, 21, 0x85845dd1, 3, 7, run);
  }

  /** Round 4, steps 57 to 64. */
  method Round4b(a0: u32, b0: u32, c0: u32, d0: u32, x: seq<u32>, ghost run: nat -> State)
    returns (a: u32, b: u32, c: u32, d: u32)
    requires Runs(run, x) && State(a0, b0, c0, d0) == run(56)
    ensures State(a, b, c, d) == run(64)
  {
    a, b, c, d := a0, b0, c0, d0;
    a := StepOp(a, b, c, d, x, 8, 6, 0x6fa87e4f, 3, 8, run);
    d := StepOp(d, a, b, c, x, 15, 10, 0xfe2ce6e0, 3, 9, run);
    c := StepOp(c, d, a, b, x, 6, 15, 0xa3014314, 3, 10, run);
    b := StepOp(b, c, d, a, x, 13, 21, 0x4e0811a1, 3, 11, run);
    a := StepOp(a, b, c, d, x, 4, 6, 0xf7537e82, 3, 12, run);
    d := StepOp(d, a, b, c, x, 11, 10, 0xbd3af235, 3, 13, run);
    c := StepOp(c, d, a, b, x, 2, 15, 0x2ad7d2bb, 3, 14, run);
    b := StepOp(b, c, d, a, x, 9, 21, 0xeb86d391, 3, 15, run);
  }

  class Context {
    const f: Mixer
    var state: State
    /** The number of bits, modulo 2^64, as two words. */
    var low: u32
    var high: u32
    const buffer: array<u8>
    /** Everything fed to the context so far. */
    ghost var message: seq<u8>

    ghost predicate Valid()
      reads this, buffer
    {
      && buffer.Length == 64
      && state == Fold(f, INIT, message)
      && buffer[..|Tail(message)|] == Tail(message)
      && CountIs(low, high, |message|)
    }

    constructor (f: Mixer)
      ensures Valid() && this.f == f && fresh(buffer) && message == []
    {
      this.f := f;
      low, high := 0, 0;
      state := INIT;
      buffer := new u8[64];
      message := [];
    }

    /** `MD5Init` on a context that was used before. */
    method Init()
      requires buffer.Length == 64
      modifies this
      ensures Valid() && message == []
    {
      low, high := 0, 0;
      state := INIT;
      message := [];
    }

    /** The next block, 64 bytes of `block`, goes into the state. */
    method Absorb(block: array<u8>, at: nat)
      requires at + 64 <= block.Length
      modifies this`state
      ensures state == f(old(state), block[at..at + 64])
    {
      state := f(state, block[at..at + 64]);
    }

    /** The number of bytes, modulo 64. */
    method Index() returns (index: nat)
      requires CountIs(low, high, |message|)
      ensures index == |Tail(message)| < 64
    {
      LowBitsGiveIndex(|message|, low, high);
      TailLength(message);
      index := low / 8 % 64;
    }

    /** The running bit count; the addition carries into the second word. */
    method Count(len: u32)
      requires CountIs(low, high, |message|)
      modifies this`low, this`high
      ensures CountIs(low, high, |message| + len)
    {
      var bits := 8 * len % WORD;
      low := (low + bits) % WORD;
      if low < bits { high := (high + 1) % WORD; }
      high := (high + len / 0x2000_0000) % WORD;
      CountCarries(old(low), old(high), len);
      CountsAdd(|message|, len);
    }

    /** `MD5Update`. The buffered bytes and the input together are less than a word can count; otherwise the loop's `i +
        63` wraps around and the loop reads beyond the input (`OverrunIff`). */
    method Update(input: array<u8>, len: u32)
      requires Valid() && input != buffer && len <= input.Length && |Tail(message)| + len < WORD
      modifies this, buffer
      ensures Valid() && message == old(message) + input[..len]
    {
      ghost var m, part := message, input[..len];
      var index := Index();
      Count(len);
      var i: u32 := 0;
      if len >= 64 - index {
        Fill(input, index);
        i := AbsorbBlocks(input, len, 64 - index);
        index := 0;
      } else {
        assert |part| == len && |Tail(m)| == index;
        ShortPiece(f, INIT, m, part);
      }
      Keep(input, index, i, len);
      assert Tail(m + part) == buffer[..index + (len - i)];
      message := m + part;
    }

    /** Completes the buffered block with the beginning of the input. */
    method Fill(input: array<u8>, index: nat)
      requires buffer.Length == 64 && input != buffer && index < 64 <= input.Length + index
      requires state == Fold(f, INIT, message) && index == |Tail(message)| && buffer[..index] == Tail(message)
      modifies this`state, buffer
      ensures state == Fold(f, INIT, message + input[..64 - index]) && Tail(message + input[..64 - index]) == []
    {
      Copy(buffer, index, input, 0, 64 - index);
      assert buffer[0..64] == Tail(message) + input[..64 - index];
      Absorb(buffer, 0);
      NextBlock(f, INIT, message, input[..64 - index]);
    }

    /** The loop over the complete blocks of the input, from offset `start`. */
    method AbsorbBlocks(input: array<u8>, len: u32, start: u32) returns (i: u32)
      requires 0 < start <= 64 && start <= len <= input.Length && 64 - start + len < WORD
      requires Tail(message + input[..start]) == [] && state == Fold(f, INIT, message + input[..start])
      modifies this`state
      ensures i <= len && len - i < 64
      ensures state == Fold(f, INIT, message + input[..len]) && Tail(message + input[..len]) == input[i..len]
    {
      i := start;
      ghost var m, s := message, input[..];
      while (i + 63) % WORD < len
        invariant i <= len && (i - start) % 64 == 0 && Tail(m + s[..i]) == []
        invariant message == m && input[..] == s
        invariant state == Fold(f, INIT, m + s[..i])
      {
        NoWrap(start, i, len);
        Absorb(input, i);
        BlockOfInput(f, INIT, m, s, i);
        i := i + 64;
      }
      NoWrap(start, i, len);
      RestOfInput(f, INIT, m, s, i, len);
    }

    /** Buffers the rest of the input. */
    method Keep(input: array<u8>, index: nat, i: nat, len: nat)
      requires buffer.Length == 64 && input != buffer && i <= len <= input.Length && index + (len - i) < 64
      modifies buffer
      ensures buffer[..index + (len - i)] == old(buffer[..index]) + input[i..len]
    {
      Copy(buffer, index, input, i, len - i);
    }

    /** The length field for the message so far. */
    method SaveBits() returns (bits: array<u8>)
      requires CountIs(low, high, |message|)
      ensures fresh(bits) && bits[..] == LengthBytes(|message|)
    {
      bits := new u8[8];
      Encode(bits, [low, high], 8);
      TwoWords(low, high);
      LowBitsGiveIndex(|message|, low, high);
      assert bits[..] == bits[..8];
    }

    method StoreState(digest: array<u8>)
      requires digest.Length == 16
      modifies digest
      ensures digest[..] == StateBytes(state)
    {
      Encode(digest, [state.a, state.b, state.c, state.d], 16);
      FourWords(state);
      assert digest[..] == digest[..16];
    }

    /** `MD5Final`. */
    method Final(digest: array<u8>)
      requires Valid() && digest.Length == 16 && digest != buffer
      modifies this, buffer, digest
      ensures digest[..] == Digest(f, old(message)) && buffer.Length == 64
    {
      var bits := SaveBits();
      ghost var length := bits[..];
      var index := Index();
      TailLength(message);
      var padLen := if index < 56 then 56 - index else 120 - index;
      PadLength(|message|, padLen);
      var padding := MakePadding();
      Update(padding, padLen);
      Update(bits, 8);
      assert bits[..8] == length;
      StoreState(digest);
    }
  }

  lemma NoWrap(start: nat, i: nat, len: nat)
    requires 0 < start <= 64 && start <= i <= len && (i - start) % 64 == 0 && 64 - start + len < WORD
    ensures i + 63 < WORD
  {
    var k := (i - start) / 64;
    assert i == start + 64 * k;
  }

  /** The loop of `MD5Update` arrives at round `k`: its test held in all rounds before. */
  ghost predicate Arrives(start: nat, len: nat, k: nat) {
    forall j :: 0 <= j < k ==> Test(start, len, j)
  }

  predicate Test(start: nat, len: nat, j: nat) {
    (start + 64 * j + 63) % WORD < len
  }

  /** The loop reads beyond the input in some round if and only if the buffered bytes and the input together are too
      many for a word to count. The daemon digests 8192 octets under a key of 16, so none of its calls gets there. */
  lemma OverrunIff(index: nat, len: u32)
    requires index < 64 && len >= 64 - index
    ensures (exists k: nat :: Arrives(64 - index, len, k) && Test(64 - index, len, k) && 64 - index + 64 * k + 64 > len)
            <==> index + len >= WORD
  {
    var start := 64 - index;
    if index + len >= WORD {
      var k := (WORD - 64) / 64;
      assert start + 64 * k + 63 == WORD + (63 - index);
      forall j | 0 <= j < k
        ensures Test(start, len, j)
      {
        assert start + 64 * j + 63 <= start + 64 * (k - 1) + 63;
      }
      assert Arrives(start, len, k) && Test(start, len, k);
    } else {
      forall k: nat | Arrives(start, len, k) && Test(start, len, k)
        ensures start + 64 * k + 64 <= len
      {
        StaysInside(start, len, k);
      }
    }
  }

  lemma {:induction false} StaysInside(start: nat, len: nat, k: nat)
    requires 0 < start <= 64 && start <= len && 64 - start + len < WORD && Arrives(start, len, k) && Test(start, len, k)
    ensures start + 64 * k + 64 <= len
    decreases k
  {
    if k > 0 {
      assert Test(start, len, k - 1);
      StaysInside(start, len, k - 1);
    }
    var i := start + 64 * k;
    assert (i - start) % 64 == 0;
    NoWrap(start, i, len);
  }

  lemma PadLength(n: nat, padLen: nat)
    requires padLen == if n % 64 < 56 then 56 - n % 64 else 120 - n % 64
    ensures padLen == 1 + ZeroCount(n)
  {
  }

  /** The constant PADDING. */
  method MakePadding() returns (padding: array<u8>)
    ensures fresh(padding) && padding.Length == 64
    ensures forall n :: 0 < n <= 64 ==> padding[..n] == [0x80] + Zeros(n - 1)
  {
    padding := new u8[64](k => if k == 0 then 0x80 else 0);
  }

  lemma BlockOfInput(f: Mixer, s: State, m: seq<u8>, input: seq<u8>, i: nat)
    requires i + 64 <= |input| && Tail(m + input[..i]) == []
    ensures Fold(f, s, m + input[..i + 64]) == f(Fold(f, s, m + input[..i]), input[i..i + 64])
            && Tail(m + input[..i + 64]) == []
  {
    NextBlock(f, s, m + input[..i], input[i..i + 64]);
    assert m + input[..i] + input[i..i + 64] == m + input[..i + 64] && [] + input[i..i + 64] == input[i..i + 64];
  }

  lemma RestOfInput(f: Mixer, s: State, m: seq<u8>, input: seq<u8>, i: nat, len: nat)
    requires i <= len <= |input| && len - i < 64 && Tail(m + input[..i]) == []
    ensures Fold(f, s, m + input[..len]) == Fold(f, s, m + input[..i]) && Tail(m + input[..len]) == input[i..len]
  {
    ShortPiece(f, s, m + input[..i], input[i..len]);
    assert m + input[..i] + input[i..len] == m + input[..len] && [] + input[i..len] == input[i..len];
  }

  lemma CountsAdd(n: nat, len: nat)
    ensures (8 * n % LENGTH + 8 * len) % LENGTH == 8 * (n + len) % LENGTH
  {
  }

  lemma CountCarries(low: u32, high: u32, len: u32)
    ensures var bits := 8 * len % WORD;
            var l := (low + bits) % WORD;
            var h := if l < bits then (high + 1) % WORD else high;
            l + WORD * ((h + len / 0x2000_0000) % WORD) == (low + WORD * high + 8 * len) % LENGTH
  {
    var bits := 8 * len % WORD;
    var q := len / 0x2000_0000;
    assert 8 * len == WORD * q + bits;
    var l := (low + bits) % WORD;
    var carry := if l < bits then 1 else 0;
    assert low + bits == l + WORD * carry;
    var h := high + carry + q;
    assert low + WORD * high + 8 * len == l + WORD * h;
    TwoDigits(l, h);
  }

  lemma TwoDigits(l: u32, h: nat)
    ensures (l + WORD * h) % LENGTH == l + WORD * (h % WORD)
  {
    var q, r := h / WORD, h % WORD;
    assert l + WORD * h == LENGTH * q + (l + WORD * r);
  }

  lemma LowBitsGiveIndex(n: nat, low: u32, high: u32)
    requires low + WORD * high == 8 * n % LENGTH
    ensures low / 8 % 64 == n % 64
    ensures var bits := 8 * n % LENGTH; low == bits % WORD && high == bits / WORD % WORD
  {
    var k := 8 * n / LENGTH;
    var l := n - k * 0x2000_0000_0000_0000 - high * 0x2000_0000;
    assert low == 8 * l;
    RemainderOf(n, k * 0x80_0000_0000_0000 + high * 0x80_0000 + l / 64, l % 64);
  }

  lemma RemainderOf(n: int, q: int, r: int)
    requires n == 64 * q + r && 0 <= r < 64
    ensures n % 64 == r
  {
  }

  lemma TwoWords(x: u32, y: u32)
    ensures EncodeWords([x, y]) == WordBytes(x) + WordBytes(y)
  {
    assert [x, y][..1] == [x] && [x][..0] == [];
    assert EncodeWords([x]) == [] + WordBytes(x);
  }

  lemma FourWords(s: State)
    ensures EncodeWords([s.a, s.b, s.c, s.d]) == StateBytes(s)
  {
    TwoWords(s.a, s.b);
    assert [s.a, s.b, s.c][..2] == [s.a, s.b];
    assert [s.a, s.b, s.c, s.d][..3] == [s.a, s.b, s.c];
  }

  /** `hmac_md5`: equals HMAC for keys and texts of any length that an `int` can hold. */
  method HmacMd5(f: Mixer, text: array<u8>, textLen: nat, key: array<u8>, keyLen: nat, digest: array<u8>)
    requires textLen <= text.Length && textLen < 0x8000_0000 && keyLen <= key.Length && keyLen < 0x8000_0000
    requires digest.Length == 16 && digest != text
    modifies digest
    ensures digest[..] == Hmac(f, old(key[..keyLen]), text[..textLen])
  {
    var k, kLen := key, keyLen;
    if keyLen > 64 {
      k := HashKey(f, key, keyLen);
      kLen := 16;
    }
    var ipad, opad := StoreKey(k, kLen);
    ghost var block := BlockKey(f, key[..keyLen]);
    assert ipad[..64] == block && opad[..64] == block;
    XorPads(ipad, opad);
    var ctx := new Context(f);
    HashTwo(ctx, ipad, text, textLen, digest);
    ghost var inner := digest[..];
    HashTwo(ctx, opad, digest, 16, digest);
    assert inner[..16] == inner;
  }

  /** A long key is replaced by its digest. */
  method HashKey(f: Mixer, key: array<u8>, keyLen: nat) returns (tk: array<u8>)
    requires keyLen <= key.Length && keyLen < 0x8000_0000
    ensures fresh(tk) && tk[..] == Digest(f, key[..keyLen])
  {
    var ctx := new Context(f);
    tk := new u8[16];
    ctx.Update(key, keyLen);
    assert ctx.message == key[..keyLen];
    ctx.Final(tk);
  }

  /** The two pads start out as the key followed by zeros. */
  method StoreKey(k: array<u8>, kLen: nat) returns (ipad: array<u8>, opad: array<u8>)
    requires kLen <= k.Length && kLen <= 64
    ensures fresh(ipad) && fresh(opad) && ipad != opad && ipad.Length == opad.Length == 65
    ensures ipad[..64] == opad[..64] == k[..kLen] + Zeros(64 - kLen)
  {
    ipad := PaddedKey(k, kLen);
    opad := PaddedKey(k, kLen);
  }

  method PaddedKey(k: array<u8>, kLen: nat) returns (pad: array<u8>)
    requires kLen <= k.Length && kLen <= 64
    ensures fresh(pad) && pad.Length == 65 && pad[..64] == k[..kLen] + Zeros(64 - kLen)
  {
    pad := new u8[65](_ => 0);
    ghost var zeros := pad[..];
    Copy(pad, 0, k, 0, kLen);
    assert pad[..] == k[..kLen] + zeros[kLen..];
    assert pad[..64] == k[..kLen] + zeros[kLen..64] && zeros[kLen..64] == Zeros(64 - kLen);
  }

  /** One pass: a pad, then the data, which may be in the array that receives the digest. */
  method HashTwo(ctx: Context, pad: array<u8>, data: array<u8>, len: nat, digest: array<u8>)
    requires ctx.buffer.Length == 64 && pad.Length == 65 && len <= data.Length && len < 0x8000_0000
             && digest.Length == 16
    requires ctx.buffer != pad && ctx.buffer != data && ctx.buffer != digest
    modifies ctx, ctx.buffer, digest
    ensures digest[..] == Digest(ctx.f, old(pad[..64]) + old(data[..len]))
  {
    ctx.Init();
    ctx.Update(pad, 64);
    ctx.Update(data, len);
    assert ctx.message == pad[..64] + data[..len];
    ctx.Final(digest);
  }

  method XorPads(ipad: array<u8>, opad: array<u8>)
    requires ipad != opad && ipad.Length == opad.Length == 65
    modifies ipad, opad
    ensures ipad[..64] == XorAll(old(ipad[..64]), 0x36) && opad[..64] == XorAll(old(opad[..64]), 0x5c)
  {
    for i := 0 to 64
      invariant forall k :: 0 <= k < i ==>
                ipad[k] == XorByte(old(ipad[k]), 0x36) && opad[k] == XorByte(old(opad[k]), 0x5c)
      invariant forall k :: i <= k < 64 ==> ipad[k] == old(ipad[k]) && opad[k] == old(opad[k])
    {
      ipad[i], opad[i] := XorByte(ipad[i], 0x36), XorByte(opad[i], 0x5c);
    }
    assert ipad[..64] == XorAll(old(ipad[..64]), 0x36);
    assert opad[..64] == XorAll(old(opad[..64]), 0x5c);
  }
}
