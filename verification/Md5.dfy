/** MD5 as the authentication code computes it, against the definition in RFC 1321. */
module Md5 {
  import opened Options

  const TWO_32: int := 0x1_0000_0000

  // ---------------------------------------------------------------------------------------
  // RFC 1321: what the digest is
  // ---------------------------------------------------------------------------------------

  /** The sine table of section 3.4, by rounds. */
  const SINES1: seq<bv32> := [
    0xd76aa478, 0xe8c7b756, 0x242070db, 0xc1bdceee, 0xf57c0faf, 0x4787c62a, 0xa8304613, 0xfd469501,
    0x698098d8, 0x8b44f7af, 0xffff5bb1, 0x895cd7be, 0x6b901122, 0xfd987193, 0xa679438e, 0x49b40821]
  const SINES2: seq<bv32> := [
    0xf61e2562, 0xc040b340, 0x265e5a51, 0xe9b6c7aa, 0xd62f105d, 0x02441453, 0xd8a1e681, 0xe7d3fbc8,
    0x21e1cde6, 0xc33707d6, 0xf4d50d87, 0x455a14ed, 0xa9e3e905, 0xfcefa3f8, 0x676f02d9, 0x8d2a4c8a]
  const SINES3: seq<bv32> := [
    0xfffa3942, 0x8771f681, 0x6d9d6122, 0xfde5380c, 0xa4beea44, 0x4bdecfa9, 0xf6bb4b60, 0xbebfbc70,
    0x289b7ec6, 0xeaa127fa, 0xd4ef3085, 0x04881d05, 0xd9d4d039, 0xe6db99e5, 0x1fa27cf8, 0xc4ac5665]
  const SINES4: seq<bv32> := [
    0xf4292244, 0x432aff97, 0xab9423a7, 0xfc93a039, 0x655b59c3, 0x8f0ccc92, 0xffeff47d, 0x85845dd1,
    0x6fa87e4f, 0xfe2ce6e0, 0xa3014314, 0x4e0811a1, 0xf7537e82, 0xbd3af235, 0x2ad7d2bb, 0xeb86d391]

  function T(i: nat): bv32
    requires i < 64
  {
    if i < 16 then SINES1[i] else if i < 32 then SINES2[i - 16] else if i < 48 then SINES3[i - 32] else SINES4[i - 48]
  }

  /** The rotation amounts, by round and by step within a group of four. */
  function Shift(i: nat): (s: nat)
    requires i < 64
    ensures s < 32
  {
    var j := i % 4;
    if i < 16 then (if j == 0 then 7 else if j == 1 then 12 else if j == 2 then 17 else 22)
    else if i < 32 then (if j == 0 then 5 else if j == 1 then 9 else if j == 2 then 14 else 20)
    else if i < 48 then (if j == 0 then 4 else if j == 1 then 11 else if j == 2 then 16 else 23)
    else (if j == 0 then 6 else if j == 1 then 10 else if j == 2 then 15 else 21)
  }

  function F(x: bv32, y: bv32, z: bv32): bv32 { (x & y) | (!x & z) }
  function G(x: bv32, y: bv32, z: bv32): bv32 { (x & z) | (y & !z) }
  function H(x: bv32, y: bv32, z: bv32): bv32 { x ^ y ^ z }
  function I(x: bv32, y: bv32, z: bv32): bv32 { y ^ (x | !z) }

  /** Addition of 32-bit words, modulo 2^32. */
  function Plus(x: bv32, y: bv32): bv32 { x + y }

  function RotateLeft(x: bv32, n: nat): bv32
    requires n < 32
  {
    (x << n) | (x >> (32 - n))
  }

  datatype State = State(a: bv32, b: bv32, c: bv32, d: bv32)

  /** The operation of section 3.4 in step i: a = b + ((a + f(b,c,d) + X[k] + T[i]) <<< s), with the
      auxiliary function f of the round that the step belongs to. */
  function Operation(i: nat, a: bv32, b: bv32, c: bv32, d: bv32, x: bv32, s: nat, t: bv32): bv32
    requires s < 32
  {
    if i < 16 then b + RotateLeft(a + F(b, c, d) + x + t, s)
    else if i < 32 then b + RotateLeft(a + G(b, c, d) + x + t, s)
    else if i < 48 then b + RotateLeft(a + H(b, c, d) + x + t, s)
    else b + RotateLeft(a + I(b, c, d) + x + t, s)
  }

  /** The word of the block used in step i. */
  function WordIndex(i: nat): (k: nat)
    ensures k < 16
  {
    if i < 16 then i else if i < 32 then (5 * i + 1) % 16 else if i < 48 then (3 * i + 5) % 16 else (7 * i) % 16
  }

  /** One step [abcd k s i] of section 3.4, after which the four registers move round by one place. */
  function Step(x: seq<bv32>, i: nat, s: State): State
    requires |x| == 16 && i < 64
  {
    State(s.d, Operation(i, s.a, s.b, s.c, s.d, x[WordIndex(i)], Shift(i), T(i)), s.b, s.c)
  }

  /** Steps i up to but not including j. */
  function Steps(x: seq<bv32>, i: nat, j: nat, s: State): State
    requires |x| == 16 && i <= j <= 64
  {
    if i == j then s else Step(x, j - 1, Steps(x, i, j - 1, s))
  }

  /** Section 3.4: the four rounds on one block, added to the state they started from. */
  function Compress(x: seq<bv32>, s: State): State
    requires |x| == 16
  {
    var t := Steps(x, 0, 64, s);
    State(Plus(s.a, t.a), Plus(s.b, t.b), Plus(s.c, t.c), Plus(s.d, t.d))
  }

  /** Section 2: four bytes as a word, low-order byte first. */
  function Word(b: seq<bv8>): bv32
    requires |b| == 4
  {
    (b[3] as bv32 << 24) | (b[2] as bv32 << 16) | (b[1] as bv32 << 8) | (b[0] as bv32)
  }

  function Block(b: seq<bv8>): seq<bv32>
    requires |b| == 64
  {
    seq(16, j requires 0 <= j < 16 => Word(b[4 * j..4 * j + 4]))
  }

  function Digest(b: seq<bv8>, s: State): State
    requires |b| % 64 == 0
  {
    if |b| == 0 then s else Compress(Block(b[|b| - 64..]), Digest(b[..|b| - 64], s))
  }

  /** How many zero bytes follow the 0x80 so that eight bytes are missing to a multiple of 64. */
  ghost predicate PaddedTo(len: nat, padded: nat) {
    padded % 64 == 0 && len + 9 <= padded < len + 9 + 64
  }

  /** Byte q of a number written low-order byte first. */
  function ByteOf(n: nat, q: nat): bv8 {
    if q == 0 then (n % 256) as bv8 else ByteOf(n / 256, q - 1)
  }

  /** Sections 3.1 and 3.2: the message, a 1 bit, zeros, and the length in bits as a 64-bit number. */
  ghost predicate IsPadding(message: seq<bv8>, padded: seq<bv8>) {
    && PaddedTo(|message|, |padded|)
    && message + [0x80] <= padded
    && (forall i :: |message| < i < |padded| - 8 ==> padded[i] == 0)
    && (forall q :: 0 <= q < 8 ==> padded[|padded| - 8 + q] == ByteOf(8 * |message|, q))
  }

  const INITIAL := State(0x67452301, 0xEFCDAB89, 0x98BADCFE, 0x10325476)

  /** Section 3.5: the registers, low-order byte first. */
  function WordBytes(w: bv32): seq<bv8> {
    [(w & 0xff) as bv8, ((w >> 8) & 0xff) as bv8, ((w >> 16) & 0xff) as bv8, ((w >> 24) & 0xff) as bv8]
  }

  function Output(s: State): seq<bv8> {
    WordBytes(s.a) + WordBytes(s.b) + WordBytes(s.c) + WordBytes(s.d)
  }

  ghost predicate IsMd5(message: seq<bv8>, digest: seq<bv8>) {
    exists p :: IsPadding(message, p) && digest == Output(Digest(p, INITIAL))
  }

  // ---------------------------------------------------------------------------------------
  // md5.c: how it is computed
  // ---------------------------------------------------------------------------------------

  /** The four macros, with the sums in the order in which the source takes them. */
  function FF(a: bv32, b: bv32, c: bv32, d: bv32, x: bv32, s: nat, ac: bv32): bv32
    requires s < 32
  {
    RotateLeft(a + (F(b, c, d) + x + ac), s) + b
  }

  function GG(a: bv32, b: bv32, c: bv32, d: bv32, x: bv32, s: nat, ac: bv32): bv32
    requires s < 32
  {
    RotateLeft(a + (G(b, c, d) + x + ac), s) + b
  }

  function HH(a: bv32, b: bv32, c: bv32, d: bv32, x: bv32, s: nat, ac: bv32): bv32
    requires s < 32
  {
    RotateLeft(a + (H(b, c, d) + x + ac), s) + b
  }

  function II(a: bv32, b: bv32, c: bv32, d: bv32, x: bv32, s: nat, ac: bv32): bv32
    requires s < 32
  {
    RotateLeft(a + (I(b, c, d) + x + ac), s) + b
  }

  // The macros compute the operation of their round.

  lemma FFIs(a: bv32, b: bv32, c: bv32, d: bv32, x: bv32, s: nat, t: bv32)
    requires s < 32
    ensures FF(a, b, c, d, x, s, t) == b + RotateLeft(a + F(b, c, d) + x + t, s)
  {
    hide RotateLeft, F;
  }

  lemma FFIsOperation(i: nat, a: bv32, b: bv32, c: bv32, d: bv32, x: bv32, s: nat, t: bv32)
    requires s < 32 && 0 <= i < 16
    ensures Operation(i, a, b, c, d, x, s, t) == FF(a, b, c, d, x, s, t)
  {
    hide RotateLeft, F, FF;
    FFIs(a, b, c, d, x, s, t);
  }

  lemma GGIs(a: bv32, b: bv32, c: bv32, d: bv32, x: bv32, s: nat, t: bv32)
    requires s < 32
    ensures GG(a, b, c, d, x, s, t) == b + RotateLeft(a + G(b, c, d) + x + t, s)
  {
    hide RotateLeft, G;
  }

  lemma GGIsOperation(i: nat, a: bv32, b: bv32, c: bv32, d: bv32, x: bv32, s: nat, t: bv32)
    requires s < 32 && 16 <= i < 32
    ensures Operation(i, a, b, c, d, x, s, t) == GG(a, b, c, d, x, s, t)
  {
    hide RotateLeft, G, GG;
    GGIs(a, b, c, d, x, s, t);
  }

  lemma HHIs(a: bv32, b: bv32, c: bv32, d: bv32, x: bv32, s: nat, t: bv32)
    requires s < 32
    ensures HH(a, b, c, d, x, s, t) == b + RotateLeft(a + H(b, c, d) + x + t, s)
  {
    hide RotateLeft, H;
  }

  lemma HHIsOperation(i: nat, a: bv32, b: bv32, c: bv32, d: bv32, x: bv32, s: nat, t: bv32)
    requires s < 32 && 32 <= i < 48
    ensures Operation(i, a, b, c, d, x, s, t) == HH(a, b, c, d, x, s, t)
  {
    hide RotateLeft, H, HH;
    HHIs(a, b, c, d, x, s, t);
  }

  lemma IIIs(a: bv32, b: bv32, c: bv32, d: bv32, x: bv32, s: nat, t: bv32)
    requires s < 32
    ensures II(a, b, c, d, x, s, t) == b + RotateLeft(a + I(b, c, d) + x + t, s)
  {
    hide RotateLeft, I;
  }

  lemma IIIsOperation(i: nat, a: bv32, b: bv32, c: bv32, d: bv32, x: bv32, s: nat, t: bv32)
    requires s < 32 && 48 <= i < 64
    ensures Operation(i, a, b, c, d, x, s, t) == II(a, b, c, d, x, s, t)
  {
    hide RotateLeft, I, II;
    IIIs(a, b, c, d, x, s, t);
  }

  lemma NoSteps(x: seq<bv32>, i: nat, s: State) returns (t: State)
    requires |x| == 16 && i <= 64
    ensures t == s == Steps(x, i, i, s)
  {
    t := s;
  }

  lemma Advance1(x: seq<bv32>, j: nat, k: nat, n: nat, s: State, t: State) returns (u: State)
    requires |x| == 16 && 0 <= j < 16 && k == WordIndex(j) && n == Shift(j) && t == Steps(x, 0, j, s)
    ensures u == State(t.d, FF(t.a, t.b, t.c, t.d, x[k], n, T(j)), t.b, t.c) && u == Steps(x, 0, j + 1, s)
  {
    FFIsOperation(j, t.a, t.b, t.c, t.d, x[k], n, T(j));
    hide FF, GG, HH, II, T, Operation;
    u := Step(x, j, t);
  }

  lemma Schedule1()
    ensures WordIndex(0) == 0 && Shift(0) == 7 && WordIndex(1) == 1 && Shift(1) == 12 &&
            WordIndex(2) == 2 && Shift(2) == 17 && WordIndex(3) == 3 && Shift(3) == 22
    ensures WordIndex(4) == 4 && Shift(4) == 7 && WordIndex(5) == 5 && Shift(5) == 12 &&
            WordIndex(6) == 6 && Shift(6) == 17 && WordIndex(7) == 7 && Shift(7) == 22
    ensures WordIndex(8) == 8 && Shift(8) == 7 && WordIndex(9) == 9 && Shift(9) == 12 &&
            WordIndex(10) == 10 && Shift(10) == 17 && WordIndex(11) == 11 && Shift(11) == 22
    ensures WordIndex(12) == 12 && Shift(12) == 7 && WordIndex(13) == 13 && Shift(13) == 12 &&
            WordIndex(14) == 14 && Shift(14) == 17 && WordIndex(15) == 15 && Shift(15) == 22
  {
  }

  /** Round 1, unrolled as in the source. */
  method Round1(x: array<bv32>, a0: bv32, b0: bv32, c0: bv32, d0: bv32) returns (a: bv32, b: bv32, c: bv32, d: bv32)
    requires x.Length == 16
    ensures State(a, b, c, d) == Steps(x[..], 0, 16, State(a0, b0, c0, d0))
  {
    hide FF, GG, HH, II, T, Steps, WordIndex, Shift;
    a, b, c, d := a0, b0, c0, d0;
    ghost var w, s := x[..], State(a, b, c, d);
    ghost var t := NoSteps(w, 0, s);
    Schedule1();
    a := FF(a, b, c, d, x[0], 7, T(0));
    t := Advance1(w, 0, 0, 7, s, t);
    d := FF(d, a, b, c, x[1], 12, T(1));
    t := Advance1(w, 1, 1, 12, s, t);
    c := FF(c, d, a, b, x[2], 17, T(2));
    t := Advance1(w, 2, 2, 17, s, t);
    b := FF(b, c, d, a, x[3], 22, T(3));
    t := Advance1(w, 3, 3, 22, s, t);
    a := FF(a, b, c, d, x[4], 7, T(4));
    t := Advance1(w, 4, 4, 7, s, t);
    d := FF(d, a, b, c, x[5], 12, T(5));
    t := Advance1(w, 5, 5, 12, s, t);
    c := FF(c, d, a, b, x[6], 17, T(6));
    t := Advance1(w, 6, 6, 17, s, t);
    b := FF(b, c, d, a, x[7], 22, T(7));
    t := Advance1(w, 7, 7, 22, s, t);
    a := FF(a, b, c, d, x[8], 7, T(8));
    t := Advance1(w, 8, 8, 7, s, t);
    d := FF(d, a, b, c, x[9], 12, T(9));
    t := Advance1(w, 9, 9, 12, s, t);
    c := FF(c, d, a, b, x[10], 17, T(10));
    t := Advance1(w, 10, 10, 17, s, t);
    b := FF(b, c, d, a, x[11], 22, T(11));
    t := Advance1(w, 11, 11, 22, s, t);
    a := FF(a, b, c, d, x[12], 7, T(12));
    t := Advance1(w, 12, 12, 7, s, t);
    d := FF(d, a, b, c, x[13], 12, T(13));
    t := Advance1(w, 13, 13, 12, s, t);
    c := FF(c, d, a, b, x[14], 17, T(14));
    t := Advance1(w, 14, 14, 17, s, t);
    b := FF(b, c, d, a, x[15], 22, T(15));
    t := Advance1(w, 15, 15, 22, s, t);
  }

  lemma Advance2(x: seq<bv32>, j: nat, k: nat, n: nat, s: State, t: State) returns (u: State)
    requires |x| == 16 && 16 <= j < 32 && k == WordIndex(j) && n == Shift(j) && t == Steps(x, 16, j, s)
    ensures u == State(t.d, GG(t.a, t.b, t.c, t.d, x[k], n, T(j)), t.b, t.c) && u == Steps(x, 16, j + 1, s)
  {
    GGIsOperation(j, t.a, t.b, t.c, t.d, x[k], n, T(j));
    hide FF, GG, HH, II, T, Operation;
    u := Step(x, j, t);
  }

  lemma Schedule2()
    ensures WordIndex(16) == 1 && Shift(16) == 5 && WordIndex(17) == 6 && Shift(17) == 9 &&
            WordIndex(18) == 11 && Shift(18) == 14 && WordIndex(19) == 0 && Shift(19) == 20
    ensures WordIndex(20) == 5 && Shift(20) == 5 && WordIndex(21) == 10 && Shift(21) == 9 &&
            WordIndex(22) == 15 && Shift(22) == 14 && WordIndex(23) == 4 && Shift(23) == 20
    ensures WordIndex(24) == 9 && Shift(24) == 5 && WordIndex(25) == 14 && Shift(25) == 9 &&
            WordIndex(26) == 3 && Shift(26) == 14 && WordIndex(27) == 8 && Shift(27) == 20
    ensures WordIndex(28) == 13 && Shift(28) == 5 && WordIndex(29) == 2 && Shift(29) == 9 &&
            WordIndex(30) == 7 && Shift(30) == 14 && WordIndex(31) == 12 && Shift(31) == 20
  {
  }

  /** Round 2, unrolled as in the source. */
  method Round2(x: array<bv32>, a0: bv32, b0: bv32, c0: bv32, d0: bv32) returns (a: bv32, b: bv32, c: bv32, d: bv32)
    requires x.Length == 16
    ensures State(a, b, c, d) == Steps(x[..], 16, 32, State(a0, b0, c0, d0))
  {
    hide FF, GG, HH, II, T, Steps, WordIndex, Shift;
    a, b, c, d := a0, b0, c0, d0;
    ghost var w, s := x[..], State(a, b, c, d);
    ghost var t := NoSteps(w, 16, s);
    Schedule2();
    a := GG(a, b, c, d, x[1], 5, T(16));
    t := Advance2(w, 16, 1, 5, s, t);
    d := GG(d, a, b, c, x[6], 9, T(17));
    t := Advance2(w, 17, 6, 9, s, t);
    c := GG(c, d, a, b, x[11], 14, T(18));
    t := Advance2(w, 18, 11, 14, s, t);
    b := GG(b, c, d, a, x[0], 20, T(19));
    t := Advance2(w, 19, 0, 20, s, t);
    a := GG(a, b, c, d, x[5], 5, T(20));
    t := Advance2(w, 20, 5, 5, s, t);
    d := GG(d, a, b, c, x[10], 9, T(21));
    t := Advance2(w, 21, 10, 9, s, t);
    c := GG(c, d, a, b, x[15], 14, T(22));
    t := Advance2(w, 22, 15, 14, s, t);
    b := GG(b, c, d, a, x[4], 20, T(23));
    t := Advance2(w, 23, 4, 20, s, t);
    a := GG(a, b, c, d, x[9], 5, T(24));
    t := Advance2(w, 24, 9, 5, s, t);
    d := GG(d, a, b, c, x[14], 9, T(25));
    t := Advance2(w, 25, 14, 9, s, t);
    c := GG(c, d, a, b, x[3], 14, T(26));
    t := Advance2(w, 26, 3, 14, s, t);
    b := GG(b, c, d, a, x[8], 20, T(27));
    t := Advance2(w, 27, 8, 20, s, t);
    a := GG(a, b, c, d, x[13], 5, T(28));
    t := Advance2(w, 28, 13, 5, s, t);
    d := GG(d, a, b, c, x[2], 9, T(29));
    t := Advance2(w, 29, 2, 9, s, t);
    c := GG(c, d, a, b, x[7], 14, T(30));
    t := Advance2(w, 30, 7, 14, s, t);
    b := GG(b, c, d, a, x[12], 20, T(31));
    t := Advance2(w, 31, 12, 20, s, t);
  }

  lemma Advance3(x: seq<bv32>, j: nat, k: nat, n: nat, s: State, t: State) returns (u: State)
    requires |x| == 16 && 32 <= j < 48 && k == WordIndex(j) && n == Shift(j) && t == Steps(x, 32, j, s)
    ensures u == State(t.d, HH(t.a, t.b, t.c, t.d, x[k], n, T(j)), t.b, t.c) && u == Steps(x, 32, j + 1, s)
  {
    HHIsOperation(j, t.a, t.b, t.c, t.d, x[k], n, T(j));
    hide FF, GG, HH, II, T, Operation;
    u := Step(x, j, t);
  }

  lemma Schedule3()
    ensures WordIndex(32) == 5 && Shift(32) == 4 && WordIndex(33) == 8 && Shift(33) == 11 &&
            WordIndex(34) == 11 && Shift(34) == 16 && WordIndex(35) == 14 && Shift(35) == 23
    ensures WordIndex(36) == 1 && Shift(36) == 4 && WordIndex(37) == 4 && Shift(37) == 11 &&
            WordIndex(38) == 7 && Shift(38) == 16 && WordIndex(39) == 10 && Shift(39) == 23
    ensures WordIndex(40) == 13 && Shift(40) == 4 && WordIndex(41) == 0 && Shift(41) == 11 &&
            WordIndex(42) == 3 && Shift(42) == 16 && WordIndex(43) == 6 && Shift(43) == 23
    ensures WordIndex(44) == 9 && Shift(44) == 4 && WordIndex(45) == 12 && Shift(45) == 11 &&
            WordIndex(46) == 15 && Shift(46) == 16 && WordIndex(47) == 2 && Shift(47) == 23
  {
  }

  /** Round 3, unrolled as in the source. */
  method Round3(x: array<bv32>, a0: bv32, b0: bv32, c0: bv32, d0: bv32) returns (a: bv32, b: bv32, c: bv32, d: bv32)
    requires x.Length == 16
    ensures State(a, b, c, d) == Steps(x[..], 32, 48, State(a0, b0, c0, d0))
  {
    hide FF, GG, HH, II, T, Steps, WordIndex, Shift;
    a, b, c, d := a0, b0, c0, d0;
    ghost var w, s := x[..], State(a, b, c, d);
    ghost var t := NoSteps(w, 32, s);
    Schedule3();
    a := HH(a, b, c, d, x[5], 4, T(32));
    t := Advance3(w, 32, 5, 4, s, t);
    d := HH(d, a, b, c, x[8], 11, T(33));
    t := Advance3(w, 33, 8, 11, s, t);
    c := HH(c, d, a, b, x[11], 16, T(34));
    t := Advance3(w, 34, 11, 16, s, t);
    b := HH(b, c, d, a, x[14], 23, T(35));
    t := Advance3(w, 35, 14, 23, s, t);
    a := HH(a, b, c, d, x[1], 4, T(36));
    t := Advance3(w, 36, 1, 4, s, t);
    d := HH(d, a, b, c, x[4], 11, T(37));
    t := Advance3(w, 37, 4, 11, s, t);
    c := HH(c, d, a, b, x[7], 16, T(38));
    t := Advance3(w, 38, 7, 16, s, t);
    b := HH(b, c, d, a, x[10], 23, T(39));
    t := Advance3(w, 39, 10, 23, s, t);
    a := HH(a, b, c, d, x[13], 4, T(40));
    t := Advance3(w, 40, 13, 4, s, t);
    d := HH(d, a, b, c, x[0], 11, T(41));
    t := Advance3(w, 41, 0, 11, s, t);
    c := HH(c, d, a, b, x[3], 16, T(42));
    t := Advance3(w, 42, 3, 16, s, t);
    b := HH(b, c, d, a, x[6], 23, T(43));
    t := Advance3(w, 43, 6, 23, s, t);
    a := HH(a, b, c, d, x[9], 4, T(44));
    t := Advance3(w, 44, 9, 4, s, t);
    d := HH(d, a, b, c, x[12], 11, T(45));
    t := Advance3(w, 45, 12, 11, s, t);
    c := HH(c, d, a, b, x[15], 16, T(46));
    t := Advance3(w, 46, 15, 16, s, t);
    b := HH(b, c, d, a, x[2], 23, T(47));
    t := Advance3(w, 47, 2, 23, s, t);
  }

  lemma Advance4(x: seq<bv32>, j: nat, k: nat, n: nat, s: State, t: State) returns (u: State)
    requires |x| == 16 && 48 <= j < 64 && k == WordIndex(j) && n == Shift(j) && t == Steps(x, 48, j, s)
    ensures u == State(t.d, II(t.a, t.b, t.c, t.d, x[k], n, T(j)), t.b, t.c) && u == Steps(x, 48, j + 1, s)
  {
    IIIsOperation(j, t.a, t.b, t.c, t.d, x[k], n, T(j));
    hide FF, GG, HH, II, T, Operation;
    u := Step(x, j, t);
  }

  lemma Schedule4()
    ensures WordIndex(48) == 0 && Shift(48) == 6 && WordIndex(49) == 7 && Shift(49) == 10 &&
            WordIndex(50) == 14 && Shift(50) == 15 && WordIndex(51) == 5 && Shift(51) == 21
    ensures WordIndex(52) == 12 && Shift(52) == 6 && WordIndex(53) == 3 && Shift(53) == 10 &&
            WordIndex(54) == 10 && Shift(54) == 15 && WordIndex(55) == 1 && Shift(55) == 21
    ensures WordIndex(56) == 8 && Shift(56) == 6 && WordIndex(57) == 15 && Shift(57) == 10 &&
            WordIndex(58) == 6 && Shift(58) == 15 && WordIndex(59) == 13 && Shift(59) == 21
    ensures WordIndex(60) == 4 && Shift(60) == 6 && WordIndex(61) == 11 && Shift(61) == 10 &&
            WordIndex(62) == 2 && Shift(62) == 15 && WordIndex(63) == 9 && Shift(63) == 21
  {
  }

  /** Round 4, unrolled as in the source. */
  method Round4(x: array<bv32>, a0: bv32, b0: bv32, c0: bv32, d0: bv32) returns (a: bv32, b: bv32, c: bv32, d: bv32)
    requires x.Length == 16
    ensures State(a, b, c, d) == Steps(x[..], 48, 64, State(a0, b0, c0, d0))
  {
    hide FF, GG, HH, II, T, Steps, WordIndex, Shift;
    a, b, c, d := a0, b0, c0, d0;
    ghost var w, s := x[..], State(a, b, c, d);
    ghost var t := NoSteps(w, 48, s);
    Schedule4();
    a := II(a, b, c, d, x[0], 6, T(48));
    t := Advance4(w, 48, 0, 6, s, t);
    d := II(d, a, b, c, x[7], 10, T(49));
    t := Advance4(w, 49, 7, 10, s, t);
    c := II(c, d, a, b, x[14], 15, T(50));
    t := Advance4(w, 50, 14, 15, s, t);
    b := II(b, c, d, a, x[5], 21, T(51));
    t := Advance4(w, 51, 5, 21, s, t);
    a := II(a, b, c, d, x[12], 6, T(52));
    t := Advance4(w, 52, 12, 6, s, t);
    d := II(d, a, b, c, x[3], 10, T(53));
    t := Advance4(w, 53, 3, 10, s, t);
    c := II(c, d, a, b, x[10], 15, T(54));
    t := Advance4(w, 54, 10, 15, s, t);
    b := II(b, c, d, a, x[1], 21, T(55));
    t := Advance4(w, 55, 1, 21, s, t);
    a := II(a, b, c, d, x[8], 6, T(56));
    t := Advance4(w, 56, 8, 6, s, t);
    d := II(d, a, b, c, x[15], 10, T(57));
    t := Advance4(w, 57, 15, 10, s, t);
    c := II(c, d, a, b, x[6], 15, T(58));
    t := Advance4(w, 58, 6, 15, s, t);
    b := II(b, c, d, a, x[13], 21, T(59));
    t := Advance4(w, 59, 13, 21, s, t);
    a := II(a, b, c, d, x[4], 6, T(60));
    t := Advance4(w, 60, 4, 6, s, t);
    d := II(d, a, b, c, x[11], 10, T(61));
    t := Advance4(w, 61, 11, 10, s, t);
    c := II(c, d, a, b, x[2], 15, T(62));
    t := Advance4(w, 62, 2, 15, s, t);
    b := II(b, c, d, a, x[9], 21, T(63));
    t := Advance4(w, 63, 9, 21, s, t);
  }

  lemma {:induction false} StepsCompose(x: seq<bv32>, i: nat, j: nat, k: nat, s: State)
    requires |x| == 16 && i <= j <= k <= 64
    ensures Steps(x, j, k, Steps(x, i, j, s)) == Steps(x, i, k, s)
  {
    hide Operation, T;
    if j < k {
      StepsCompose(x, i, j, k - 1, s);
    }
  }

  lemma CompressIs(x: seq<bv32>, s: State)
    requires |x| == 16
    ensures var t := Steps(x, 0, 64, s);
            Compress(x, s) == State(Plus(s.a, t.a), Plus(s.b, t.b), Plus(s.c, t.c), Plus(s.d, t.d))
  {
    hide Steps, Plus;
  }

  /** doTheRounds: mixes one block into the state in place. */
  method DoTheRounds(x: array<bv32>, state: array<bv32>)
    requires x.Length == 16 && state.Length == 4 && x != state
    modifies state
    ensures State(state[0], state[1], state[2], state[3]) ==
            Compress(x[..], old(State(state[0], state[1], state[2], state[3])))
  {
    hide *;
    var a, b, c, d := state[0], state[1], state[2], state[3];
    ghost var s := State(a, b, c, d);
    a, b, c, d := Round1(x, a, b, c, d);
    a, b, c, d := Round2(x, a, b, c, d);
    StepsCompose(x[..], 0, 16, 32, s);
    a, b, c, d := Round3(x, a, b, c, d);
    StepsCompose(x[..], 0, 32, 48, s);
    a, b, c, d := Round4(x, a, b, c, d);
    StepsCompose(x[..], 0, 48, 64, s);
    CompressIs(x[..], s);
    state[0] := Plus(state[0], a);
    state[1] := Plus(state[1], b);
    state[2] := Plus(state[2], c);
    state[3] := Plus(state[3], d);
  }

  /** The length of the padded copy, in the uint32 arithmetic of the source. */
  function NewLen448(len: nat): int {
    var n := (len + 64 - len % 64 - 8) % TWO_32;
    if n <= len then (n + 64) % TWO_32 else n
  }

  lemma NewLenIsPadded(len: nat)
    requires len + 72 < TWO_32
    ensures PaddedTo(len, NewLen448(len) + 8)
  {
  }

  // Byte q + k of n is byte q of n shifted right by k bytes.
  lemma {:induction false} ShiftBytes(n: nat, q: nat)
    ensures ByteOf(n, q + 1) == ByteOf(n / 256, q)
  {
  }

  lemma FirstByte(n: nat)
    ensures ByteOf(n, 0) == (n % 256) as bv8
  {
  }

  // The low four bytes of a number do not depend on what lies above them.
  lemma {:induction false} LowBytes(high: nat, low: nat, q: nat)
    requires low < TWO_32 && q < 4
    ensures ByteOf(high * TWO_32 + low, q) == ByteOf(low, q)
    ensures ByteOf(high * TWO_32 + low, q + 4) == ByteOf(high, q)
  {
    var n := high * TWO_32 + low;
    assert n / 256 == high * 0x100_0000 + low / 256 && n % 256 == low % 256;
    assert n / 256 / 256 == high * 0x1_0000 + low / 256 / 256;
    assert n / 256 / 256 / 256 == high * 0x100 + low / 256 / 256 / 256;
    assert n / 256 / 256 / 256 / 256 == high;
    ShiftBytes(n, q + 3);
    ShiftBytes(n / 256, q + 2);
    ShiftBytes(n / 256 / 256, q + 1);
    ShiftBytes(n / 256 / 256 / 256, q);
    if q > 0 {
      ShiftBytes(n, q - 1);
      ShiftBytes(low, q - 1);
      if q > 1 {
        ShiftBytes(n / 256, q - 2);
        ShiftBytes(low / 256, q - 2);
        if q > 2 {
          ShiftBytes(n / 256 / 256, q - 3);
          ShiftBytes(low / 256 / 256, q - 3);
        }
      }
    }
  }

  /** Writes a 32-bit number at offset q, low-order byte first, by masking and shifting. */
  method PutWord(ret: array<bv8>, q: nat, n: nat)
    requires q + 4 <= ret.Length && n < TWO_32
    modifies ret
    ensures forall k :: 0 <= k < 4 ==> ret[q + k] == ByteOf(n, k)
    ensures forall i :: 0 <= i < ret.Length && !(q <= i < q + 4) ==> ret[i] == old(ret[i])
  {
    hide ByteOf;
    var rest := n;
    for k := 0 to 4
      invariant rest >= 0 && forall j :: 0 <= j < 4 - k ==> ByteOf(n, k + j) == ByteOf(rest, j)
      invariant forall j :: 0 <= j < k ==> ret[q + j] == ByteOf(n, j)
      invariant forall i :: 0 <= i < ret.Length && !(q <= i < q + 4) ==> ret[i] == old(ret[i])
    {
      FirstByte(rest);
      assert ByteOf(n, k + 0) == ByteOf(rest, 0);
      ret[q + k] := (rest % 256) as bv8;
      forall j | 0 <= j < 4 - k - 1 ensures ByteOf(n, k + 1 + j) == ByteOf(rest / 256, j) {
        assert ByteOf(n, k + (j + 1)) == ByteOf(rest, j + 1);
        ShiftBytes(rest, j);
      }
      rest := rest / 256;
    }
  }

  // The copy, the 0x80 and the zeros.
  method PadWithZeros(message: seq<bv8>, newLen448: nat) returns (ret: array<bv8>)
    requires |message| < newLen448
    ensures fresh(ret) && ret.Length == newLen448 + 8 && ret[..|message| + 1] == message + [0x80]
    ensures forall i :: |message| < i < newLen448 ==> ret[i] == 0
  {
    var len := |message|;
    ret := new bv8[newLen448 + 8];
    for i := 0 to len
      invariant ret[..i] == message[..i]
    {
      ret[i] := message[i];
    }
    ret[len] := 0x80;
    for q := len + 1 to newLen448
      invariant ret[..len + 1] == message + [0x80]
      invariant forall i :: len < i < q ==> ret[i] == 0
    {
      ret[q] := 0;
    }
  }

  lemma BitCountSplits(len: nat)
    requires len < TWO_32
    ensures 8 * len == (len / 0x2000_0000) * TWO_32 + len * 8 % TWO_32
  {
  }

  lemma BitCountBytes(len: nat, q: nat)
    requires len < TWO_32 && q < 8
    ensures ByteOf(8 * len, q) == if q < 4 then ByteOf(len * 8 % TWO_32, q) else ByteOf(len / 0x2000_0000, q - 4)
  {
    hide ByteOf;
    BitCountSplits(len);
    LowBytes(len / 0x2000_0000, len * 8 % TWO_32, if q < 4 then q else q - 4);
  }

  /** createPaddedCopyWithLength, for any message whose padded length fits 32 bits: a null message counts
      as empty. */
  method CreatePaddedCopyWithLength(b: Option<seq<bv8>>) returns (ret: array<bv8>)
    requires b.Some? ==> |b.value| + 72 < TWO_32
    ensures fresh(ret) && IsPadding(if b.Some? then b.value else [], ret[..])
  {
    var message := if b.Some? then b.value else [];
    var len := |message|;
    var newLen448 := NewLen448(len);
    NewLenIsPadded(len);
    hide ByteOf, NewLen448;
    ret := PadWithZeros(message, newLen448);
    ghost var before := ret[..];
    // The 64-bit bit count, split into two words.
    var low, high := len * 8 % TWO_32, len / 0x2000_0000;
    PutWord(ret, newLen448, low);
    PutWord(ret, newLen448 + 4, high);
    assert forall i :: 0 <= i < newLen448 ==> ret[i] == before[i];
    assert ret[..len + 1] == before[..len + 1];
    forall q | 0 <= q < 8 ensures ret[newLen448 + q] == ByteOf(8 * len, q) {
      BitCountBytes(len, q);
      assert q >= 4 ==> ret[newLen448 + 4 + (q - 4)] == ByteOf(high, q - 4);
    }
  }

  /** The block loop's guard in uint32 arithmetic: for a length that is a multiple of 64 the loop stops
      at the end of the buffer exactly when the length is at most 2^32 - 128. */
  lemma BlockLoopStopsIff(l: nat)
    requires l % 64 == 0 && l < TWO_32
    ensures (l + 64) % TWO_32 > l <==> l <= TWO_32 - 128
  {
  }

  lemma WordByShifting(b0: bv32, b1: bv32, b2: bv32, b3: bv32)
    ensures (((((((b3 << 8) | b2) << 8) | b1) << 8) | b0)) == (b3 << 24) | (b2 << 16) | (b1 << 8) | b0
  {
  }

  lemma BytesByShifting(w: bv32)
    ensures ((w >> 8) >> 8) == w >> 16 && (((w >> 8) >> 8) >> 8) == w >> 24
  {
  }

  /** Four bytes of the padded buffer, the last one first, shifted into a word. */
  method ReadWord(input: array<bv8>, k0: nat) returns (w: bv32, k: nat)
    requires 3 <= k0 < input.Length
    ensures w == Word(input[k0 - 3..k0 + 1]) && k == k0 + 4
  {
    k := k0;
    w := input[k] as bv32;
    k := k - 1;
    w := w << 8;
    w := w | (input[k] as bv32);
    k := k - 1;
    w := w << 8;
    w := w | (input[k] as bv32);
    k := k - 1;
    w := w << 8;
    w := w | (input[k] as bv32);
    WordByShifting(input[k0 - 3] as bv32, input[k0 - 2] as bv32, input[k0 - 1] as bv32, input[k0] as bv32);
    k := k + 7;
  }

  method FillWorkBuff(input: array<bv8>, i: nat, work: array<bv32>)
    requires i + 64 <= input.Length && work.Length == 16
    modifies work
    ensures work[..] == Block(input[i..i + 64])
  {
    hide Word;
    var k := i + 3;
    for j := 0 to 16
      invariant k == i + 4 * j + 3
      invariant forall m :: 0 <= m < j ==> work[m] == Word(input[i..i + 64][4 * m..4 * m + 4])
    {
      assert input[i..i + 64][4 * j..4 * j + 4] == input[k - 3..k + 1];
      work[j], k := ReadWord(input, k);
    }
  }

  /** The bytes of one register, shifted out low-order byte first. */
  method RegisterBytes(w: bv32) returns (s: seq<bv8>)
    ensures s == WordBytes(w)
  {
    var k := w;
    s := [(k & 0xff) as bv8];
    k := k >> 8;
    s := s + [(k & 0xff) as bv8];
    k := k >> 8;
    s := s + [(k & 0xff) as bv8];
    k := k >> 8;
    s := s + [(k & 0xff) as bv8];
    BytesByShifting(w);
  }

  /** The block loop, with its index in uint32 arithmetic. */
  method DigestBlocks(input: array<bv8>, state: array<bv32>)
    requires state.Length == 4 && input.Length % 64 == 0 && input.Length <= TWO_32 - 128
    modifies state
    ensures State(state[0], state[1], state[2], state[3]) ==
            Digest(input[..], old(State(state[0], state[1], state[2], state[3])))
  {
    hide Compress, Block;
    ghost var p, s := input[..], State(state[0], state[1], state[2], state[3]);
    var work := new bv32[16];
    var i := 0;
    while true
      invariant i % 64 == 0 && i <= input.Length
      invariant State(state[0], state[1], state[2], state[3]) == Digest(p[..i], s)
      decreases input.Length - i
    {
      var newI := (i + 16 * 4) % TWO_32;
      if newI > input.Length { break; }
      FillWorkBuff(input, i, work);
      DoTheRounds(work, state);
      assert p[..newI][..i] == p[..i] && p[..newI][i..] == p[i..i + 64];
      i := newI;
    }
    assert p[..i] == p;
  }

  /** calculateDigestFromBuffer computes the digest RFC 1321 prescribes. */
  method CalculateDigestFromBuffer(b: Option<seq<bv8>>) returns (sum: seq<bv8>)
    requires b.Some? ==> |b.value| + 72 < TWO_32 - 64
    ensures IsMd5(if b.Some? then b.value else [], sum)
  {
    hide IsPadding, Digest, WordBytes;
    var state := new bv32[4];
    state[0], state[1], state[2], state[3] := 0x67452301, 0xEFCDAB89, 0x98BADCFE, 0x10325476;
    var input := CreatePaddedCopyWithLength(b);
    PaddedLength(if b.Some? then b.value else [], input[..]);
    DigestBlocks(input, state);
    var s0 := RegisterBytes(state[0]);
    var s1 := RegisterBytes(state[1]);
    var s2 := RegisterBytes(state[2]);
    var s3 := RegisterBytes(state[3]);
    sum := s0 + s1 + s2 + s3;
  }

  lemma PaddedLength(message: seq<bv8>, p: seq<bv8>)
    requires IsPadding(message, p)
    ensures |p| % 64 == 0 && |message| + 9 <= |p| < |message| + 73
  {
  }

  lemma PaddingIsUnique(message: seq<bv8>, p: seq<bv8>, q: seq<bv8>)
    requires IsPadding(message, p) && IsPadding(message, q)
    ensures p == q
  {
    hide ByteOf;
    assert |p| == |q|;
    forall i | 0 <= i < |p| ensures p[i] == q[i] {
      if i <= |message| {
        assert (message + [0x80])[i] == p[i] == q[i];
      } else if i >= |p| - 8 {
        var k := i - (|p| - 8);
        assert p[|p| - 8 + k] == ByteOf(8 * |message|, k);
        assert q[|q| - 8 + k] == ByteOf(8 * |message|, k);
      }
    }
  }

  /** A message has one padding, so MD5 is a function of the message. */
  lemma DigestIsUnique(message: seq<bv8>, d: seq<bv8>, e: seq<bv8>)
    requires IsMd5(message, d) && IsMd5(message, e)
    ensures d == e
  {
    hide ByteOf, Digest, Output;
    var p :| IsPadding(message, p) && d == Output(Digest(p, INITIAL));
    var q :| IsPadding(message, q) && e == Output(Digest(q, INITIAL));
    PaddingIsUnique(message, p, q);
  }

  // ---------------------------------------------------------------------------------------
  // Hexadecimal form
  // ---------------------------------------------------------------------------------------

  const HEX := "0123456789abcdef"

  /** The two digits of a byte, high-order one first. */
  function HexOf(b: bv8): string {
    [HEX[(b >> 4) as nat], HEX[(b & 0x0F) as nat]]
  }

  lemma ByteFromHex(b: bv8, c: bv8)
    requires HexOf(b) == HexOf(c)
    ensures b == c
  {
    var h: nat, l: nat := (b >> 4) as nat, (b & 0x0F) as nat;
    assert h == (c >> 4) as nat;
    assert l == (c & 0x0F) as nat;
  }

  /** The digits of all bytes in turn. */
  function Hex(b: seq<bv8>): (s: string)
    ensures |s| == 2 * |b| && forall q :: 0 <= q < |b| ==> [s[2 * q], s[2 * q + 1]] == HexOf(b[q])
  {
    if b == [] then []
    else
      hide HexOf;
      var n := |b| - 1;
      Hex(b[..n]) + HexOf(b[n])
  }

  lemma HexNext(b: seq<bv8>, q: nat)
    requires q < |b|
    ensures Hex(b[..q + 1]) == Hex(b[..q]) + [HEX[(b[q] >> 4) as nat]] + [HEX[(b[q] & 0x0F) as nat]]
  {
    assert b[..q + 1][..q] == b[..q];
    assert Hex(b[..q + 1]) == Hex(b[..q]) + HexOf(b[q]);
  }

  /** The hexadecimal form of a digest, or of any other bytes, loses nothing. */
  lemma HexIsInjective(b: seq<bv8>, c: seq<bv8>)
    requires Hex(b) == Hex(c)
    ensures b == c
  {
    hide HexOf;
    assert |b| == |c|;
    forall q | 0 <= q < |b| ensures b[q] == c[q] {
      ByteFromHex(b[q], c[q]);
    }
  }

  lemma HighNibble(b: bv8)
    ensures (b >> 4) & 0x0F == b >> 4
  {
  }

  method BytesToHex(b: seq<bv8>) returns (s: string)
    requires |b| == 16
    ensures s == Hex(b)
  {
    s := "";
    for q := 0 to 16
      invariant s == Hex(b[..q])
    {
      HighNibble(b[q]);
      HexNext(b, q);
      hide Hex;
      s := s + [HEX[((b[q] >> 4) & 0x0F) as nat]];
      s := s + [HEX[(b[q] & 0x0F) as nat]];
    }
    assert b[..16] == b;
  }
}
