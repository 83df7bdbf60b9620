/** What the definition of MD5 amounts to: its auxiliary functions bit by bit, its words byte by byte, its blocks in
    order, and its constants by the digest of the empty message. */
module Md5Facts {
  import opened Options
  import opened Md5

  // ---------------------------------------------------------------------------------------
  // The auxiliary functions
  // ---------------------------------------------------------------------------------------

  // In each of these m marks some of the bits, and the claim is about those bits.

  /** If X then Y else Z. */
  lemma FSelects(x: bv32, y: bv32, z: bv32, m: bv32)
    ensures x & m == m ==> F(x, y, z) & m == y & m
    ensures x & m == 0 ==> F(x, y, z) & m == z & m
  {
  }

  /** If Z then X else Y. */
  lemma GSelects(x: bv32, y: bv32, z: bv32, m: bv32)
    ensures z & m == m ==> G(x, y, z) & m == x & m
    ensures z & m == 0 ==> G(x, y, z) & m == y & m
  {
  }

  /** The parity: Z where X and Y agree, and the contrary of Z where they do not. */
  lemma HIsParity(x: bv32, y: bv32, z: bv32, m: bv32)
    ensures x & m == y & m ==> H(x, y, z) & m == z & m
    ensures x & m == !y & m ==> H(x, y, z) & m == !z & m
  {
  }

  /** The contrary of Y where X or not Z, and Y elsewhere. */
  lemma IFlips(x: bv32, y: bv32, z: bv32, m: bv32)
    ensures x & m == m || z & m == 0 ==> I(x, y, z) & m == !y & m
    ensures x & m == 0 && z & m == m ==> I(x, y, z) & m == y & m
  {
  }

  // ---------------------------------------------------------------------------------------
  // Bytes, words and blocks
  // ---------------------------------------------------------------------------------------

  lemma BytesOfWord(b0: bv8, b1: bv8, b2: bv8, b3: bv8)
    ensures WordBytes((b3 as bv32 << 24) | (b2 as bv32 << 16) | (b1 as bv32 << 8) | (b0 as bv32)) == [b0, b1, b2, b3]
  {
  }

  /** Four bytes make a word that is written as the same four bytes. */
  lemma WordRoundTrip(b: seq<bv8>)
    requires |b| == 4
    ensures WordBytes(Word(b)) == b
  {
    BytesOfWord(b[0], b[1], b[2], b[3]);
  }

  /** The words of a block are its bytes, four at a time and in order. */
  lemma BlockRoundTrip(b: seq<bv8>, k: nat)
    requires |b| == 64 && k < 64
    ensures WordBytes(Block(b)[k / 4])[k % 4] == b[k]
  {
    var j := k / 4;
    WordRoundTrip(b[4 * j..4 * j + 4]);
    hide WordBytes, Word;
    assert b[4 * j..4 * j + 4][k % 4] == b[k];
  }

  /** The length is written low-order byte first. */
  lemma LengthBytes(n: nat)
    ensures ByteOf(n, 0) == (n % 0x100) as bv8 && ByteOf(n, 1) == (n / 0x100 % 0x100) as bv8
    ensures ByteOf(n, 2) == (n / 0x1_0000 % 0x100) as bv8 && ByteOf(n, 3) == (n / 0x100_0000 % 0x100) as bv8
  {
    var n1, n2, n3 := n / 0x100, n / 0x1_0000, n / 0x100_0000;
    assert n1 / 256 == n2 && n2 / 256 == n3;
    ShiftBytes(n, 0);
    ShiftBytes(n, 1);
    ShiftBytes(n, 2);
    ShiftBytes(n1, 0);
    ShiftBytes(n1, 1);
    ShiftBytes(n2, 0);
    FirstByte(n);
    FirstByte(n1);
    FirstByte(n2);
    FirstByte(n3);
    hide ByteOf;
  }

  /** Section 3.1: at least one byte and at most a block of padding go before the length, which then ends a
      block; section 3.2: the length counts bits. */
  lemma PaddingIs(message: seq<bv8>, p: seq<bv8>)
    requires IsPadding(message, p)
    ensures |p| % 64 == 0 && 1 <= |p| - 8 - |message| <= 64
    ensures p[..|message|] == message && p[|message|] == 0x80
    ensures var n := 8 * |message|;
            p[|p| - 8] == (n % 0x100) as bv8 && p[|p| - 7] == (n / 0x100 % 0x100) as bv8 &&
            p[|p| - 6] == (n / 0x1_0000 % 0x100) as bv8 && p[|p| - 5] == (n / 0x100_0000 % 0x100) as bv8
  {
    LengthBytes(8 * |message|);
    hide ByteOf;
    var n := |p| - 8;
    assert p[n + 0] == ByteOf(8 * |message|, 0) && p[n + 1] == ByteOf(8 * |message|, 1);
    assert p[n + 2] == ByteOf(8 * |message|, 2) && p[n + 3] == ByteOf(8 * |message|, 3);
    assert (message + [0x80])[|message|] == 0x80;
  }

  /** Blocks are taken in order, each from the state that the one before it has left. */
  lemma {:induction false} DigestContinues(a: seq<bv8>, b: seq<bv8>, s: State)
    requires |a| % 64 == 0 && |b| % 64 == 0
    ensures Digest(a + b, s) == Digest(b, Digest(a, s))
    ensures |b| == 64 ==> Digest(b, s) == Compress(Block(b), s)
    decreases |b|
  {
    hide Compress, Block;
    if b == [] {
      assert a + b == a;
    } else {
      var n := |b| - 64;
      DigestContinues(a, b[..n], s);
      assert (a + b)[..|a| + n] == a + b[..n];
      assert (a + b)[|a| + n..] == b[n..];
      if n == 0 {
        assert b[n..] == b && b[..n] == [];
      }
    }
  }

  // ---------------------------------------------------------------------------------------
  // The empty message
  // ---------------------------------------------------------------------------------------

  const EMPTY: seq<bv32> := [
    0x00000080, 0x00000000, 0x00000000, 0x00000000, 0x00000000, 0x00000000, 0x00000000, 0x00000000,
    0x00000000, 0x00000000, 0x00000000, 0x00000000, 0x00000000, 0x00000000, 0x00000000, 0x00000000]

  lemma EmptyWords()
    ensures |EMPTY| == 16
    ensures EMPTY[0] == 0x00000080 && EMPTY[1] == 0x00000000 && EMPTY[2] == 0x00000000 && EMPTY[3] == 0x00000000
    ensures EMPTY[4] == 0x00000000 && EMPTY[5] == 0x00000000 && EMPTY[6] == 0x00000000 && EMPTY[7] == 0x00000000
    ensures EMPTY[8] == 0x00000000 && EMPTY[9] == 0x00000000 && EMPTY[10] == 0x00000000 && EMPTY[11] == 0x00000000
    ensures EMPTY[12] == 0x00000000 && EMPTY[13] == 0x00000000 && EMPTY[14] == 0x00000000 && EMPTY[15] == 0x00000000
  {
  }

  lemma Sines1()
    ensures T(0) == 0xd76aa478 && T(1) == 0xe8c7b756 && T(2) == 0x242070db && T(3) == 0xc1bdceee
    ensures T(4) == 0xf57c0faf && T(5) == 0x4787c62a && T(6) == 0xa8304613 && T(7) == 0xfd469501
    ensures T(8) == 0x698098d8 && T(9) == 0x8b44f7af && T(10) == 0xffff5bb1 && T(11) == 0x895cd7be
    ensures T(12) == 0x6b901122 && T(13) == 0xfd987193 && T(14) == 0xa679438e && T(15) == 0x49b40821
  {
  }

  lemma Sines2()
    ensures T(16) == 0xf61e2562 && T(17) == 0xc040b340 && T(18) == 0x265e5a51 && T(19) == 0xe9b6c7aa
    ensures T(20) == 0xd62f105d && T(21) == 0x02441453 && T(22) == 0xd8a1e681 && T(23) == 0xe7d3fbc8
    ensures T(24) == 0x21e1cde6 && T(25) == 0xc33707d6 && T(26) == 0xf4d50d87 && T(27) == 0x455a14ed
    ensures T(28) == 0xa9e3e905 && T(29) == 0xfcefa3f8 && T(30) == 0x676f02d9 && T(31) == 0x8d2a4c8a
  {
  }

  lemma Sines3()
    ensures T(32) == 0xfffa3942 && T(33) == 0x8771f681 && T(34) == 0x6d9d6122 && T(35) == 0xfde5380c
    ensures T(36) == 0xa4beea44 && T(37) == 0x4bdecfa9 && T(38) == 0xf6bb4b60 && T(39) == 0xbebfbc70
    ensures T(40) == 0x289b7ec6 && T(41) == 0xeaa127fa && T(42) == 0xd4ef3085 && T(43) == 0x04881d05
    ensures T(44) == 0xd9d4d039 && T(45) == 0xe6db99e5 && T(46) == 0x1fa27cf8 && T(47) == 0xc4ac5665
  {
  }

  lemma Sines4()
    ensures T(48) == 0xf4292244 && T(49) == 0x432aff97 && T(50) == 0xab9423a7 && T(51) == 0xfc93a039
    ensures T(52) == 0x655b59c3 && T(53) == 0x8f0ccc92 && T(54) == 0xffeff47d && T(55) == 0x85845dd1
    ensures T(56) == 0x6fa87e4f && T(57) == 0xfe2ce6e0 && T(58) == 0xa3014314 && T(59) == 0x4e0811a1
    ensures T(60) == 0xf7537e82 && T(61) == 0xbd3af235 && T(62) == 0x2ad7d2bb && T(63) == 0xeb86d391
  {
  }

  /** Four steps of round 1, in which each register is replaced once. */
  lemma Four1(x: seq<bv32>, j: nat, s: State) returns (a: bv32, b: bv32, c: bv32, d: bv32)
    requires |x| == 16 && 0 <= j <= 12 && j % 4 == 0
    ensures a == FF(s.a, s.b, s.c, s.d, x[WordIndex(j)], 7, T(j))
    ensures d == FF(s.d, a, s.b, s.c, x[WordIndex(j + 1)], 12, T(j + 1))
    ensures c == FF(s.c, d, a, s.b, x[WordIndex(j + 2)], 17, T(j + 2))
    ensures b == FF(s.b, c, d, a, x[WordIndex(j + 3)], 22, T(j + 3))
    ensures Steps(x, j, j + 4, s) == State(a, b, c, d)
  {
    hide FF, T, WordIndex, Operation;
    a := FF(s.a, s.b, s.c, s.d, x[WordIndex(j)], 7, T(j));
    d := FF(s.d, a, s.b, s.c, x[WordIndex(j + 1)], 12, T(j + 1));
    c := FF(s.c, d, a, s.b, x[WordIndex(j + 2)], 17, T(j + 2));
    b := FF(s.b, c, d, a, x[WordIndex(j + 3)], 22, T(j + 3));
    FFIsOperation(j, s.a, s.b, s.c, s.d, x[WordIndex(j)], 7, T(j));
    FFIsOperation(j + 1, s.d, a, s.b, s.c, x[WordIndex(j + 1)], 12, T(j + 1));
    FFIsOperation(j + 2, s.c, d, a, s.b, x[WordIndex(j + 2)], 17, T(j + 2));
    FFIsOperation(j + 3, s.b, c, d, a, x[WordIndex(j + 3)], 22, T(j + 3));
    assert Steps(x, j, j + 1, s) == Step(x, j, Steps(x, j, j, s));
    assert Steps(x, j, j + 2, s) == Step(x, j + 1, Steps(x, j, j + 1, s));
    assert Steps(x, j, j + 3, s) == Step(x, j + 2, Steps(x, j, j + 2, s));
    assert Steps(x, j, j + 4, s) == Step(x, j + 3, Steps(x, j, j + 3, s));
  }

  /** Four steps of round 2, in which each register is replaced once. */
  lemma Four2(x: seq<bv32>, j: nat, s: State) returns (a: bv32, b: bv32, c: bv32, d: bv32)
    requires |x| == 16 && 16 <= j <= 28 && j % 4 == 0
    ensures a == GG(s.a, s.b, s.c, s.d, x[WordIndex(j)], 5, T(j))
    ensures d == GG(s.d, a, s.b, s.c, x[WordIndex(j + 1)], 9, T(j + 1))
    ensures c == GG(s.c, d, a, s.b, x[WordIndex(j + 2)], 14, T(j + 2))
    ensures b == GG(s.b, c, d, a, x[WordIndex(j + 3)], 20, T(j + 3))
    ensures Steps(x, j, j + 4, s) == State(a, b, c, d)
  {
    hide GG, T, WordIndex, Operation;
    a := GG(s.a, s.b, s.c, s.d, x[WordIndex(j)], 5, T(j));
    d := GG(s.d, a, s.b, s.c, x[WordIndex(j + 1)], 9, T(j + 1));
    c := GG(s.c, d, a, s.b, x[WordIndex(j + 2)], 14, T(j + 2));
    b := GG(s.b, c, d, a, x[WordIndex(j + 3)], 20, T(j + 3));
    GGIsOperation(j, s.a, s.b, s.c, s.d, x[WordIndex(j)], 5, T(j));
    GGIsOperation(j + 1, s.d, a, s.b, s.c, x[WordIndex(j + 1)], 9, T(j + 1));
    GGIsOperation(j + 2, s.c, d, a, s.b, x[WordIndex(j + 2)], 14, T(j + 2));
    GGIsOperation(j + 3, s.b, c, d, a, x[WordIndex(j + 3)], 20, T(j + 3));
    assert Steps(x, j, j + 1, s) == Step(x, j, Steps(x, j, j, s));
    assert Steps(x, j, j + 2, s) == Step(x, j + 1, Steps(x, j, j + 1, s));
    assert Steps(x, j, j + 3, s) == Step(x, j + 2, Steps(x, j, j + 2, s));
    assert Steps(x, j, j + 4, s) == Step(x, j + 3, Steps(x, j, j + 3, s));
  }

  /** Four steps of round 3, in which each register is replaced once. */
  lemma Four3(x: seq<bv32>, j: nat, s: State) returns (a: bv32, b: bv32, c: bv32, d: bv32)
    requires |x| == 16 && 32 <= j <= 44 && j % 4 == 0
    ensures a == HH(s.a, s.b, s.c, s.d, x[WordIndex(j)], 4, T(j))
    ensures d == HH(s.d, a, s.b, s.c, x[WordIndex(j + 1)], 11, T(j + 1))
    ensures c == HH(s.c, d, a, s.b, x[WordIndex(j + 2)], 16, T(j + 2))
    ensures b == HH(s.b, c, d, a, x[WordIndex(j + 3)], 23, T(j + 3))
    ensures Steps(x, j, j + 4, s) == State(a, b, c, d)
  {
    hide HH, T, WordIndex, Operation;
    a := HH(s.a, s.b, s.c, s.d, x[WordIndex(j)], 4, T(j));
    d := HH(s.d, a, s.b, s.c, x[WordIndex(j + 1)], 11, T(j + 1));
    c := HH(s.c, d, a, s.b, x[WordIndex(j + 2)], 16, T(j + 2));
    b := HH(s.b, c, d, a, x[WordIndex(j + 3)], 23, T(j + 3));
    HHIsOperation(j, s.a, s.b, s.c, s.d, x[WordIndex(j)], 4, T(j));
    HHIsOperation(j + 1, s.d, a, s.b, s.c, x[WordIndex(j + 1)], 11, T(j + 1));
    HHIsOperation(j + 2, s.c, d, a, s.b, x[WordIndex(j + 2)], 16, T(j + 2));
    HHIsOperation(j + 3, s.b, c, d, a, x[WordIndex(j + 3)], 23, T(j + 3));
    assert Steps(x, j, j + 1, s) == Step(x, j, Steps(x, j, j, s));
    assert Steps(x, j, j + 2, s) == Step(x, j + 1, Steps(x, j, j + 1, s));
    assert Steps(x, j, j + 3, s) == Step(x, j + 2, Steps(x, j, j + 2, s));
    assert Steps(x, j, j + 4, s) == Step(x, j + 3, Steps(x, j, j + 3, s));
  }

  /** Four steps of round 4, in which each register is replaced once. */
  lemma Four4(x: seq<bv32>, j: nat, s: State) returns (a: bv32, b: bv32, c: bv32, d: bv32)
    requires |x| == 16 && 48 <= j <= 60 && j % 4 == 0
    ensures a == II(s.a, s.b, s.c, s.d, x[WordIndex(j)], 6, T(j))
    ensures d == II(s.d, a, s.b, s.c, x[WordIndex(j + 1)], 10, T(j + 1))
    ensures c == II(s.c, d, a, s.b, x[WordIndex(j + 2)], 15, T(j + 2))
    ensures b == II(s.b, c, d, a, x[WordIndex(j + 3)], 21, T(j + 3))
    ensures Steps(x, j, j + 4, s) == State(a, b, c, d)
  {
    hide II, T, WordIndex, Operation;
    a := II(s.a, s.b, s.c, s.d, x[WordIndex(j)], 6, T(j));
    d := II(s.d, a, s.b, s.c, x[WordIndex(j + 1)], 10, T(j + 1));
    c := II(s.c, d, a, s.b, x[WordIndex(j + 2)], 15, T(j + 2));
    b := II(s.b, c, d, a, x[WordIndex(j + 3)], 21, T(j + 3));
    IIIsOperation(j, s.a, s.b, s.c, s.d, x[WordIndex(j)], 6, T(j));
    IIIsOperation(j + 1, s.d, a, s.b, s.c, x[WordIndex(j + 1)], 10, T(j + 1));
    IIIsOperation(j + 2, s.c, d, a, s.b, x[WordIndex(j + 2)], 15, T(j + 2));
    IIIsOperation(j + 3, s.b, c, d, a, x[WordIndex(j + 3)], 21, T(j + 3));
    assert Steps(x, j, j + 1, s) == Step(x, j, Steps(x, j, j, s));
    assert Steps(x, j, j + 2, s) == Step(x, j + 1, Steps(x, j, j + 1, s));
    assert Steps(x, j, j + 3, s) == Step(x, j + 2, Steps(x, j, j + 2, s));
    assert Steps(x, j, j + 4, s) == Step(x, j + 3, Steps(x, j, j + 3, s));
  }

  lemma EmptyFirst()
    ensures FF(0x67452301, 0xefcdab89, 0x98badcfe, 0x10325476, 0x80, 7, 0xd76aa478) == 0xa5202774
    ensures FF(0x10325476, 0xa5202774, 0xefcdab89, 0x98badcfe, 0, 12, 0xe8c7b756) == 0xf59592dd
    ensures FF(0x98badcfe, 0xf59592dd, 0xa5202774, 0xefcdab89, 0, 17, 0x242070db) == 0xe7f06b23
    ensures FF(0xefcdab89, 0xe7f06b23, 0xf59592dd, 0xa5202774, 0, 22, 0xc1bdceee) == 0x1b163203
  {
  }

  lemma EmptyTo4()
    ensures Steps(EMPTY, 0, 4, State(0x67452301, 0xefcdab89, 0x98badcfe, 0x10325476)) ==
            State(0xa5202774, 0x1b163203, 0xe7f06b23, 0xf59592dd)
  {
    EmptyWords();
    Schedule1();
    Sines1();
    EmptyFirst();
    hide Steps, Step, WordIndex, Shift, T, FF;
    var a, b, c, d := Four1(EMPTY, 0, State(0x67452301, 0xefcdab89, 0x98badcfe, 0x10325476));
    assert a == 0xa5202774;
    assert d == 0xf59592dd;
    assert c == 0xe7f06b23;
    assert b == 0x1b163203;
  }

  lemma EmptyTo8()
    ensures Steps(EMPTY, 0, 8, State(0x67452301, 0xefcdab89, 0x98badcfe, 0x10325476)) ==
            State(0x32033344, 0x9bc13ce9, 0xf5b158db, 0x2f35d494)
  {
    EmptyTo4();
    EmptyWords();
    Schedule1();
    Sines1();
    hide Steps, Step, WordIndex, Shift, T;
    var a, b, c, d := Four1(EMPTY, 4, State(0xa5202774, 0x1b163203, 0xe7f06b23, 0xf59592dd));
    assert a == 0x32033344;
    assert d == 0x2f35d494;
    assert c == 0xf5b158db;
    assert b == 0x9bc13ce9;
    StepsCompose(EMPTY, 0, 4, 8, State(0x67452301, 0xefcdab89, 0x98badcfe, 0x10325476));
  }

  lemma EmptyTo16()
    ensures Steps(EMPTY, 0, 16, State(0x67452301, 0xefcdab89, 0x98badcfe, 0x10325476)) ==
            State(0xf56c7cf1, 0xd6819c6a, 0x5aa53f75, 0x374943a7)
  {
    EmptyTo8();
    EmptyWords();
    Schedule1();
    Sines1();
    hide Steps, Step, WordIndex, Shift, T;
    var a, b, c, d := Four1(EMPTY, 8, State(0x32033344, 0x9bc13ce9, 0xf5b158db, 0x2f35d494));
    assert a == 0x3893b991;
    assert d == 0xfce4a312;
    assert c == 0xe1ef0576;
    assert b == 0x70768a29;
    StepsCompose(EMPTY, 0, 8, 12, State(0x67452301, 0xefcdab89, 0x98badcfe, 0x10325476));
    a, b, c, d := Four1(EMPTY, 12, State(0x3893b991, 0x70768a29, 0xe1ef0576, 0xfce4a312));
    assert a == 0xf56c7cf1;
    assert d == 0x374943a7;
    assert c == 0x5aa53f75;
    assert b == 0xd6819c6a;
    StepsCompose(EMPTY, 0, 12, 16, State(0x67452301, 0xefcdab89, 0x98badcfe, 0x10325476));
  }

  lemma EmptyTo24()
    ensures Steps(EMPTY, 0, 24, State(0x67452301, 0xefcdab89, 0x98badcfe, 0x10325476)) ==
            State(0x3d1e3e6c, 0xe422531a, 0xeb41643e, 0x68b7b3e3)
  {
    EmptyTo16();
    EmptyWords();
    Schedule2();
    Sines2();
    hide Steps, Step, WordIndex, Shift, T;
    var a, b, c, d := Four2(EMPTY, 16, State(0xf56c7cf1, 0xd6819c6a, 0x5aa53f75, 0x374943a7));
    assert a == 0x1c7d7513;
    assert d == 0x7bd57a3a;
    assert c == 0xc095f13a;
    assert b == 0xbd782e17;
    StepsCompose(EMPTY, 0, 16, 20, State(0x67452301, 0xefcdab89, 0x98badcfe, 0x10325476));
    a, b, c, d := Four2(EMPTY, 20, State(0x1c7d7513, 0xbd782e17, 0xc095f13a, 0x7bd57a3a));
    assert a == 0x3d1e3e6c;
    assert d == 0x68b7b3e3;
    assert c == 0xeb41643e;
    assert b == 0xe422531a;
    StepsCompose(EMPTY, 0, 20, 24, State(0x67452301, 0xefcdab89, 0x98badcfe, 0x10325476));
  }

  lemma EmptyTo32()
    ensures Steps(EMPTY, 0, 32, State(0x67452301, 0xefcdab89, 0x98badcfe, 0x10325476)) ==
            State(0x13707036, 0xa2205f1f, 0x1c31c384, 0xae7813db)
  {
    EmptyTo24();
    EmptyWords();
    Schedule2();
    Sines2();
    hide Steps, Step, WordIndex, Shift, T;
    var a, b, c, d := Four2(EMPTY, 24, State(0x3d1e3e6c, 0xe422531a, 0xeb41643e, 0x68b7b3e3));
    assert a == 0x306ec122;
    assert d == 0xd28c77c2;
    assert c == 0xa3c663da;
    assert b == 0xa0572807;
    StepsCompose(EMPTY, 0, 24, 28, State(0x67452301, 0xefcdab89, 0x98badcfe, 0x10325476));
    a, b, c, d := Four2(EMPTY, 28, State(0x306ec122, 0xa0572807, 0xa3c663da, 0xd28c77c2));
    assert a == 0x13707036;
    assert d == 0xae7813db;
    assert c == 0x1c31c384;
    assert b == 0xa2205f1f;
    StepsCompose(EMPTY, 0, 28, 32, State(0x67452301, 0xefcdab89, 0x98badcfe, 0x10325476));
  }

  lemma EmptyTo40()
    ensures Steps(EMPTY, 0, 40, State(0x67452301, 0xefcdab89, 0x98badcfe, 0x10325476)) ==
            State(0x5f7a9b2e, 0xc5dc8c15, 0x91ca4cb7, 0xabc34e16)
  {
    EmptyTo32();
    EmptyWords();
    Schedule3();
    Sines3();
    hide Steps, Step, WordIndex, Shift, T;
    var a, b, c, d := Four3(EMPTY, 32, State(0x13707036, 0xa2205f1f, 0x1c31c384, 0xae7813db));
    assert a == 0xdf63eaa1;
    assert d == 0xc3689f5b;
    assert c == 0x12f3e755;
    assert b == 0x004b6669;
    StepsCompose(EMPTY, 0, 32, 36, State(0x67452301, 0xefcdab89, 0x98badcfe, 0x10325476));
    a, b, c, d := Four3(EMPTY, 36, State(0xdf63eaa1, 0x004b6669, 0x12f3e755, 0xc3689f5b));
    assert a == 0x5f7a9b2e;
    assert d == 0xabc34e16;
    assert c == 0x91ca4cb7;
    assert b == 0xc5dc8c15;
    StepsCompose(EMPTY, 0, 36, 40, State(0x67452301, 0xefcdab89, 0x98badcfe, 0x10325476));
  }

  lemma EmptyTo48()
    ensures Steps(EMPTY, 0, 48, State(0x67452301, 0xefcdab89, 0x98badcfe, 0x10325476)) ==
            State(0x3f55edfd, 0xca7d2dbd, 0x68d84ea2, 0x22a31f54)
  {
    EmptyTo40();
    EmptyWords();
    Schedule3();
    Sines3();
    hide Steps, Step, WordIndex, Shift, T;
    var a, b, c, d := Four3(EMPTY, 40, State(0x5f7a9b2e, 0xc5dc8c15, 0x91ca4cb7, 0xabc34e16));
    assert a == 0x4497169d;
    assert d == 0x76fd93d4;
    assert c == 0xfd95f243;
    assert b == 0x0fe32453;
    StepsCompose(EMPTY, 0, 40, 44, State(0x67452301, 0xefcdab89, 0x98badcfe, 0x10325476));
    a, b, c, d := Four3(EMPTY, 44, State(0x4497169d, 0x0fe32453, 0xfd95f243, 0x76fd93d4));
    assert a == 0x3f55edfd;
    assert d == 0x22a31f54;
    assert c == 0x68d84ea2;
    assert b == 0xca7d2dbd;
    StepsCompose(EMPTY, 0, 44, 48, State(0x67452301, 0xefcdab89, 0x98badcfe, 0x10325476));
  }

  lemma EmptyTo56()
    ensures Steps(EMPTY, 0, 56, State(0x67452301, 0xefcdab89, 0x98badcfe, 0x10325476)) ==
            State(0x5625a114, 0x1e77fa61, 0x392ad0d0, 0x3450f42b)
  {
    EmptyTo48();
    EmptyWords();
    Schedule4();
    Sines4();
    hide Steps, Step, WordIndex, Shift, T;
    var a, b, c, d := Four4(EMPTY, 48, State(0x3f55edfd, 0xca7d2dbd, 0x68d84ea2, 0x22a31f54));
    assert a == 0x93aa2577;
    assert d == 0x1688dc85;
    assert c == 0xcd85b8cb;
    assert b == 0x561e0689;
    StepsCompose(EMPTY, 0, 48, 52, State(0x67452301, 0xefcdab89, 0x98badcfe, 0x10325476));
    a, b, c, d := Four4(EMPTY, 52, State(0x93aa2577, 0x561e0689, 0xcd85b8cb, 0x1688dc85));
    assert a == 0x5625a114;
    assert d == 0x3450f42b;
    assert c == 0x392ad0d0;
    assert b == 0x1e77fa61;
    StepsCompose(EMPTY, 0, 52, 56, State(0x67452301, 0xefcdab89, 0x98badcfe, 0x10325476));
  }

  lemma EmptyTo64()
    ensures Steps(EMPTY, 0, 64, State(0x67452301, 0xefcdab89, 0x98badcfe, 0x10325476)) ==
            State(0x7246fad3, 0x14e45506, 0xff4ea3eb, 0x6e10a476)
  {
    EmptyTo56();
    EmptyWords();
    Schedule4();
    Sines4();
    hide Steps, Step, WordIndex, Shift, T;
    var a, b, c, d := Four4(EMPTY, 56, State(0x5625a114, 0x1e77fa61, 0x392ad0d0, 0x3450f42b));
    assert a == 0x474a9c8c;
    assert d == 0xdfce00bc;
    assert c == 0x36594b14;
    assert b == 0x30130182;
    StepsCompose(EMPTY, 0, 56, 60, State(0x67452301, 0xefcdab89, 0x98badcfe, 0x10325476));
    a, b, c, d := Four4(EMPTY, 60, State(0x474a9c8c, 0x30130182, 0x36594b14, 0xdfce00bc));
    assert a == 0x7246fad3;
    assert d == 0x6e10a476;
    assert c == 0xff4ea3eb;
    assert b == 0x14e45506;
    StepsCompose(EMPTY, 0, 60, 64, State(0x67452301, 0xefcdab89, 0x98badcfe, 0x10325476));
  }

  lemma EmptyCompressed()
    ensures Compress(EMPTY, INITIAL) == State(0xd98c1dd4, 0x04b2008f, 0x980980e9, 0x7e42f8ec)
  {
    EmptyWords();
    var s := State(0x67452301, 0xefcdab89, 0x98badcfe, 0x10325476);
    assert INITIAL == s;
    CompressIs(EMPTY, s);
    EmptyTo64();
    hide Compress, Steps;
  }

  /** The padding of the empty message, as a block of words. */
  lemma EmptyPadded(p: seq<bv8>)
    requires p == [0x80] + seq(63, _ => 0)
    ensures IsPadding([], p) && Block(p) == EMPTY
  {
    assert p[0] == 0x80 && forall i :: 1 <= i < 64 ==> p[i] == 0;
    assert [] + [0x80] <= p;
    EmptyWords();
    forall j | 0 <= j < 16 ensures Block(p)[j] == EMPTY[j] {
      var b := p[4 * j..4 * j + 4];
      assert b == if j == 0 then [0x80, 0, 0, 0] else [0, 0, 0, 0];
    }
    forall q | 0 <= q < 8 ensures ByteOf(0, q) == 0 { NoBytes(q); }
  }

  lemma {:induction false} NoBytes(q: nat)
    ensures ByteOf(0, q) == 0
  {
    if q > 0 { NoBytes(q - 1); }
  }

  lemma EmptyState(p: seq<bv8>)
    requires |p| == 64 && Block(p) == EMPTY
    ensures Digest(p, INITIAL) == State(0xd98c1dd4, 0x04b2008f, 0x980980e9, 0x7e42f8ec)
  {
    DigestContinues([], p, INITIAL);
    EmptyCompressed();
    hide *;
  }

  lemma EmptyRegisters()
    ensures WordBytes(0xd98c1dd4) == [0xd4, 0x1d, 0x8c, 0xd9] && WordBytes(0x04b2008f) == [0x8f, 0x00, 0xb2, 0x04]
    ensures WordBytes(0x980980e9) == [0xe9, 0x80, 0x09, 0x98] && WordBytes(0x7e42f8ec) == [0xec, 0xf8, 0x42, 0x7e]
  {
  }

  lemma Joined(a: seq<bv8>, b: seq<bv8>, c: seq<bv8>, d: seq<bv8>)
    requires a == [0xd4, 0x1d, 0x8c, 0xd9] && b == [0x8f, 0x00, 0xb2, 0x04]
    requires c == [0xe9, 0x80, 0x09, 0x98] && d == [0xec, 0xf8, 0x42, 0x7e]
    ensures a + b + c + d ==
            [0xd4, 0x1d, 0x8c, 0xd9, 0x8f, 0x00, 0xb2, 0x04, 0xe9, 0x80, 0x09, 0x98, 0xec, 0xf8, 0x42, 0x7e]
  {
  }

  lemma EmptyOutput(s: State)
    requires s == State(0xd98c1dd4, 0x04b2008f, 0x980980e9, 0x7e42f8ec)
    ensures Output(s) ==
            [0xd4, 0x1d, 0x8c, 0xd9, 0x8f, 0x00, 0xb2, 0x04, 0xe9, 0x80, 0x09, 0x98, 0xec, 0xf8, 0x42, 0x7e]
  {
    EmptyRegisters();
    Joined(WordBytes(s.a), WordBytes(s.b), WordBytes(s.c), WordBytes(s.d));
    hide WordBytes;
  }

  /** The digest of the empty message is the one in the test suite of the RFC (section A.5), which depends on all 64
      constants and rotations. */
  lemma EmptyDigest(d: seq<bv8>)
    ensures IsMd5([], d) <==>
            d == [0xd4, 0x1d, 0x8c, 0xd9, 0x8f, 0x00, 0xb2, 0x04, 0xe9, 0x80, 0x09, 0x98, 0xec, 0xf8, 0x42, 0x7e]
  {
    var p: seq<bv8> := [0x80] + seq(63, _ => 0);
    EmptyPadded(p);
    EmptyState(p);
    EmptyOutput(Digest(p, INITIAL));
    hide Digest, IsPadding, Block, Compress, Output;
    var e := Output(Digest(p, INITIAL));
    assert IsMd5([], e);
    if IsMd5([], d) { DigestIsUnique([], d, e); }
  }

  // ---------------------------------------------------------------------------------------
  // Hexadecimal digits
  // ---------------------------------------------------------------------------------------

  /** The value of a digit in small letters. */
  function DigitValue(c: char): int {
    if '0' <= c <= '9' then c as int - '0' as int else if 'a' <= c <= 'f' then c as int - 'a' as int + 10 else -1
  }

  /** A byte is written as two digits that are worth it. */
  lemma HexReads(b: bv8)
    ensures |HexOf(b)| == 2 && DigitValue(HexOf(b)[0]) in DIGITS && DigitValue(HexOf(b)[1]) in DIGITS
    ensures 16 * DigitValue(HexOf(b)[0]) + DigitValue(HexOf(b)[1]) == b as int
  {
    NibblesWeigh(b);
    DigitsRead((b >> 4) as nat);
    DigitsRead((b & 0x0F) as nat);
  }

  const DIGITS := set v | 0 <= v < 16

  lemma NibblesWeigh(b: bv8)
    ensures (b >> 4) as nat < 16 && (b & 0x0F) as nat < 16 && 16 * ((b >> 4) as nat) + (b & 0x0F) as nat == b as nat
  {
  }

  lemma DigitsRead(v: nat)
    requires v < 16
    ensures DigitValue(HEX[v]) == v
  {
  }
}
