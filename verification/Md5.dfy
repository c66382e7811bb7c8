/** MD5 as in RFC 1321, computed over a message that arrives in pieces. */
module Md5 {

  type Byte = b: int | 0 <= b < 0x100
  type Word = w: int | 0 <= w < 0x1_0000_0000

  // ----- the compression function, sections 3.3 and 3.4 of RFC 1321 -----

  datatype Regs = Regs(a: Word, b: Word, c: Word, d: Word)

  const INIT := Regs(0x67452301, 0xefcdab89, 0x98badcfe, 0x10325476)

  /** Which word of the block step i adds. */
  function Place(i: nat): (k: nat)
    requires i < 64
    ensures k < 16
  {
    if i < 16 then i else if i < 32 then (5 * i + 1) % 16 else if i < 48 then (3 * i + 5) % 16 else 7 * i % 16
  }

  /** How far step i rotates. */
  function Rotation(i: nat): (s: nat)
    requires i < 64
    ensures s <= 32
  {
    var k := i % 4;
    if i < 16 then (if k == 0 then 7 else if k == 1 then 12 else if k == 2 then 17 else 22)
    else if i < 32 then (if k == 0 then 5 else if k == 1 then 9 else if k == 2 then 14 else 20)
    else if i < 48 then (if k == 0 then 4 else if k == 1 then 11 else if k == 2 then 16 else 23)
    else (if k == 0 then 6 else if k == 1 then 10 else if k == 2 then 15 else 21)
  }

  /** The constant of step i, the whole part of 2 to the 32 times the sine of i + 1, without its sign. */
  function T(i: nat): Word
    requires i < 64
  {
    match i
    case 0 => 0xd76aa478 case 1 => 0xe8c7b756 case 2 => 0x242070db case 3 => 0xc1bdceee
    case 4 => 0xf57c0faf case 5 => 0x4787c62a case 6 => 0xa8304613 case 7 => 0xfd469501
    case 8 => 0x698098d8 case 9 => 0x8b44f7af case 10 => 0xffff5bb1 case 11 => 0x895cd7be
    case 12 => 0x6b901122 case 13 => 0xfd987193 case 14 => 0xa679438e case 15 => 0x49b40821
    case 16 => 0xf61e2562 case 17 => 0xc040b340 case 18 => 0x265e5a51 case 19 => 0xe9b6c7aa
    case 20 => 0xd62f105d case 21 => 0x02441453 case 22 => 0xd8a1e681 case 23 => 0xe7d3fbc8
    case 24 => 0x21e1cde6 case 25 => 0xc33707d6 case 26 => 0xf4d50d87 case 27 => 0x455a14ed
    case 28 => 0xa9e3e905 case 29 => 0xfcefa3f8 case 30 => 0x676f02d9 case 31 => 0x8d2a4c8a
    case 32 => 0xfffa3942 case 33 => 0x8771f681 case 34 => 0x6d9d6122 case 35 => 0xfde5380c
    case 36 => 0xa4beea44 case 37 => 0x4bdecfa9 case 38 => 0xf6bb4b60 case 39 => 0xbebfbc70
    case 40 => 0x289b7ec6 case 41 => 0xeaa127fa case 42 => 0xd4ef3085 case 43 => 0x04881d05
    case 44 => 0xd9d4d039 case 45 => 0xe6db99e5 case 46 => 0x1fa27cf8 case 47 => 0xc4ac5665
    case 48 => 0xf4292244 case 49 => 0x432aff97 case 50 => 0xab9423a7 case 51 => 0xfc93a039
    case 52 => 0x655b59c3 case 53 => 0x8f0ccc92 case 54 => 0xffeff47d case 55 => 0x85845dd1
    case 56 => 0x6fa87e4f case 57 => 0xfe2ce6e0 case 58 => 0xa3014314 case 59 => 0x4e0811a1
    case 60 => 0xf7537e82 case 61 => 0xbd3af235 case 62 => 0x2ad7d2bb case _ => 0xeb86d391
  }

  /** All bits turned round. */
  function Complement(w: Word): Word {
    0xffff_ffff - w
  }

  function Plus(x: Word, y: Word): Word {
    (x as int + y as int) % 0x1_0000_0000
  }

  function RotateLeft(x: Word, n: nat): Word
    requires n <= 32
  {
    RotateBits(x as bv32, n) as int
  }

  function RotateBits(x: bv32, n: nat): bv32
    requires n <= 32
  {
    (x << n) | (x >> (32 - n))
  }

  /** F, G, H and I, one for each round. */
  function Mix(round: nat, x: Word, y: Word, z: Word): Word {
    MixBits(round, x as bv32, y as bv32, z as bv32) as int
  }

  function MixBits(round: nat, x: bv32, y: bv32, z: bv32): bv32 {
    if round == 0 then (x & y) | (!x & z)
    else if round == 1 then (x & z) | (y & !z)
    else if round == 2 then x ^ y ^ z
    else y ^ (x | !z)
  }

  lemma BackAndForth(v: bv32)
    ensures (v as int) as bv32 == v
  {
  }

  /** Rotation and mixing of words are those of their bits. */
  lemma OnBits(x: Word, y: Word, z: Word, round: nat, n: nat)
    requires n <= 32
    ensures RotateLeft(x, n) as bv32 == RotateBits(x as bv32, n)
    ensures Mix(round, x, y, z) as bv32 == MixBits(round, x as bv32, y as bv32, z as bv32)
  {
    hide RotateBits, MixBits;
    BackAndForth(RotateBits(x as bv32, n));
    BackAndForth(MixBits(round, x as bv32, y as bv32, z as bv32));
  }

  /** The rotations of the four rounds bring every bit that much to the left, round the end. */
  lemma Rotates(v: bv32)
    ensures RotateBits(v, 7) == v.RotateLeft(7) && RotateBits(v, 12) == v.RotateLeft(12) && RotateBits(v, 17) == v.RotateLeft(17) && RotateBits(v, 22) == v.RotateLeft(22)
    ensures RotateBits(v, 5) == v.RotateLeft(5) && RotateBits(v, 9) == v.RotateLeft(9) && RotateBits(v, 14) == v.RotateLeft(14) && RotateBits(v, 20) == v.RotateLeft(20)
    ensures RotateBits(v, 4) == v.RotateLeft(4) && RotateBits(v, 11) == v.RotateLeft(11) && RotateBits(v, 16) == v.RotateLeft(16) && RotateBits(v, 23) == v.RotateLeft(23)
    ensures RotateBits(v, 6) == v.RotateLeft(6) && RotateBits(v, 10) == v.RotateLeft(10) && RotateBits(v, 15) == v.RotateLeft(15) && RotateBits(v, 21) == v.RotateLeft(21)
  {
  }

  // What each round's function does to single bits: F takes y where x is set and z elsewhere, G takes x where
  // z is set and y elsewhere, H is the parity, and I is the difference of x and y where z is set and the
  // opposite of y elsewhere.

  lemma FirstMix(x: bv32, y: bv32, z: bv32)
    ensures MixBits(0, x, y, z) & x == y & x && MixBits(0, x, y, z) & !x == z & !x
  {
  }

  lemma SecondMix(x: bv32, y: bv32, z: bv32)
    ensures MixBits(1, x, y, z) & z == x & z && MixBits(1, x, y, z) & !z == y & !z
  {
  }

  lemma ThirdMix(x: bv32, y: bv32, z: bv32)
    ensures MixBits(2, x, y, z) ^ x == y ^ z
  {
  }

  lemma FourthMix(x: bv32, y: bv32, z: bv32)
    ensures MixBits(3, x, y, z) & z == (x ^ y) & z && MixBits(3, x, y, z) & !z == !y & !z
  {
  }

  /** b + ((a + f(b, c, d) + x + t) rotated left by s) */
  function Set(round: nat, a: Word, b: Word, c: Word, d: Word, x: Word, s: nat, t: Word): Word
    requires s <= 32
  {
    hide RotateLeft, Mix, Plus;
    Plus(RotateLeft(Plus(Plus(Plus(a, Mix(round, b, c, d)), x), t), s), b)
  }

  /** One operation is b plus a rotated sum of four, all modulo two to the 32. */
  lemma SetSums(round: nat, a: Word, b: Word, c: Word, d: Word, x: Word, s: nat, t: Word)
    requires s <= 32
    ensures var sum := (a as int + Mix(round, b, c, d) as int + x as int + t as int) % 0x1_0000_0000;
            Set(round, a, b, c, d, x, s, t) == (b as int + RotateLeft(sum, s) as int) % 0x1_0000_0000
  {
    hide RotateLeft, Mix, Plus;
    SumOfFour(a, Mix(round, b, c, d), x, t);
    SumOfTwo(b, RotateLeft(Plus(Plus(Plus(a, Mix(round, b, c, d)), x), t), s));
  }

  lemma SumOfTwo(x: Word, y: Word)
    ensures Plus(y, x) == (x as int + y as int) % 0x1_0000_0000
  {
  }

  lemma SumOfFour(a: Word, f: Word, x: Word, t: Word)
    ensures Plus(Plus(Plus(a, f), x), t) == (a as int + f as int + x as int + t as int) % 0x1_0000_0000
  {
    SumOfTwo(f, a);
    hide Plus;
    AddWords(a as int + f as int, x);
    AddWords(a as int + f as int + x as int, t);
  }

  /** The operation of step i. */
  function Update(i: nat, a: Word, b: Word, c: Word, d: Word, x: Word): Word
    requires i < 64
  {
    hide Set, Rotation, T;
    Set(i / 16, a, b, c, d, x, Rotation(i), T(i))
  }

  /** Word k of a block, low byte first. */
  function WordAt(block: seq<Byte>, k: nat): Word
    requires |block| == 64 && k < 16
  {
    block[4 * k] as int + 0x100 * block[4 * k + 1] as int + 0x1_0000 * block[4 * k + 2] as int + 0x100_0000 * block[4 * k + 3] as int
  }

  /** The registers after n steps; each step renames them once around. */
  function Steps(h: Regs, block: seq<Byte>, n: nat): Regs
    requires |block| == 64 && n <= 64
  {
    hide Update, Place, WordAt;
    if n == 0 then h else
    var q := Steps(h, block, n - 1);
    Regs(q.d, Update(n - 1, q.a, q.b, q.c, q.d, WordAt(block, Place(n - 1))), q.b, q.c)
  }

  /** x holds the words of the block. */
  ghost predicate Words16(x: seq<Word>, block: seq<Byte>) {
    |block| == 64 && |x| == 16 && forall k :: 0 <= k < 16 ==> x[k] == WordAt(block, k)
  }

  lemma StepsNone(h: Regs, block: seq<Byte>)
    requires |block| == 64
    ensures Steps(h, block, 0) == h
  {
  }

  function Compress(h: Regs, block: seq<Byte>): Regs
    requires |block| == 64
  {
    hide Steps, Plus;
    var q := Steps(h, block, 64);
    Regs(Plus(h.a, q.a), Plus(h.b, q.b), Plus(h.c, q.c), Plus(h.d, q.d))
  }

  // ----- the message -----

  /** The registers after all full blocks of m. */
  function Absorb(h: Regs, m: seq<Byte>): Regs
    decreases |m|
  {
    hide Compress;
    if |m| < 64 then h else Absorb(Compress(h, m[..64]), m[64..])
  }

  /** What is left of m behind its last full block. */
  function Tail(m: seq<Byte>): (t: seq<Byte>)
    ensures |t| == |m| % 64
  {
    if |m| < 64 then m else Tail(m[64..])
  }

  /** The 64-bit length, low byte first. */
  function LengthBytes(bits: nat): (d: seq<Byte>)
    ensures |d| == 8
  {
    WordBytes(Low(bits)) + WordBytes(High(bits))
  }

  function Low(n: nat): Word {
    n % 0x1_0000_0000
  }

  function High(n: nat): Word {
    n / 0x1_0000_0000 % 0x1_0000_0000
  }

  function WordBytes(w: Word): (d: seq<Byte>)
    ensures |d| == 4
  {
    [ByteOf(w, 0), ByteOf(w, 1), ByteOf(w, 2), ByteOf(w, 3)]
  }

  /** Byte k of a word, counted from the low end. */
  function ByteOf(w: Word, k: nat): Byte {
    (if k == 0 then w else if k == 1 then w / 0x100 else if k == 2 then w / 0x1_0000 else w / 0x100_0000) % 0x100
  }

  /** How many bytes of padding n bytes get: at least one, until 56 bytes of the last block are full. */
  function PadLength(n: nat): nat {
    if n % 64 < 56 then 56 - n % 64 else 120 - n % 64
  }

  function Padding(n: nat): (p: seq<Byte>)
    requires n > 0
    ensures |p| == n
  {
    [0x80] + seq(n - 1, i => 0)
  }

  /** The padded message of sections 3.1 and 3.2 of RFC 1321. */
  function Padded(m: seq<Byte>): (p: seq<Byte>) {
    m + Padding(PadLength(|m|)) + LengthBytes(8 * |m|)
  }

  /** The digest of section 3.5 of RFC 1321. */
  function Digest(m: seq<Byte>): (d: seq<Byte>)
    ensures |d| == 16
  {
    var h := Absorb(INIT, Padded(m));
    WordBytes(h.a) + WordBytes(h.b) + WordBytes(h.c) + WordBytes(h.d)
  }

  // ----- bytes read as numbers -----

  /** Bytes as a number, the low one first. */
  function Number(d: seq<Byte>): nat {
    if d == [] then 0 else d[0] as int + 0x100 * Number(d[1..])
  }

  lemma NumberOfFour(d: seq<Byte>)
    requires |d| == 4
    ensures Number(d) == d[0] as int + 0x100 * d[1] as int + 0x1_0000 * d[2] as int + 0x100_0000 * d[3] as int
  {
    assert d[1..][1..] == d[2..] && d[2..][1..] == d[3..] && d[3..][1..] == [];
    assert Number(d[3..]) == d[3] as int && Number(d[2..]) == d[2] as int + 0x100 * d[3] as int;
    assert Number(d[1..]) == d[1] as int + 0x100 * Number(d[2..]);
  }

  lemma {:induction false} NumberJoin(a: seq<Byte>, b: seq<Byte>)
    requires |a| == 4
    ensures Number(a + b) == Number(a) + 0x1_0000_0000 * Number(b)
  {
    var t := a + b;
    assert t[1..][1..] == t[2..] && t[2..][1..] == t[3..] && t[3..][1..] == b;
    assert Number(t[3..]) == a[3] as int + 0x100 * Number(b) && Number(t[2..]) == a[2] as int + 0x100 * Number(t[3..]);
    assert Number(t[1..]) == a[1] as int + 0x100 * Number(t[2..]);
    NumberOfFour(a);
  }

  /** The words of a block are its bytes, four at a time, read with the low one first. */
  lemma WordRead(block: seq<Byte>, k: nat)
    requires |block| == 64 && k < 16
    ensures WordAt(block, k) == Number(block[4 * k..4 * k + 4])
  {
    NumberOfFour(block[4 * k..4 * k + 4]);
  }

  /** A word written down as bytes reads as that word. */
  lemma WordWritten(w: Word)
    ensures Number(WordBytes(w)) == w
  {
    NumberOfFour(WordBytes(w));
    hide Number;
    var (p, q, r) := (w / 0x100, w / 0x1_0000, w / 0x100_0000);
    assert w == 0x100 * p + w % 0x100 && p / 0x100 == q && q / 0x100 == r && r % 0x100 == r;
    assert p == 0x100 * q + p % 0x100 && q == 0x100 * r + q % 0x100;
  }

  /** The length written down as bytes reads as the length modulo two to the 64. */
  lemma LengthWritten(bits: nat)
    ensures Number(LengthBytes(bits)) == bits % 0x1_0000_0000_0000_0000
  {
    hide WordBytes, Low, High;
    NumberJoin(WordBytes(Low(bits)), WordBytes(High(bits)));
    WordWritten(Low(bits));
    WordWritten(High(bits));
    TwoWords(bits);
  }

  lemma TwoWords(n: nat)
    ensures Low(n) as int + 0x1_0000_0000 * High(n) as int == n % 0x1_0000_0000_0000_0000
  {
    var q, l := n / 0x1_0000_0000, n % 0x1_0000_0000;
    var t, h := q / 0x1_0000_0000, q % 0x1_0000_0000;
    assert n == 0x1_0000_0000_0000_0000 * t + (0x1_0000_0000 * h + l);
  }

  /** The padded message: the message, one set bit, as few clear ones as make whole blocks, and its length in
      bits modulo two to the 64, low byte first. */
  lemma PaddedText(m: seq<Byte>)
    ensures var p := Padded(m);
            && |p| % 64 == 0 && |m| + 9 <= |p| <= |m| + 72
            && p[..|m|] == m && p[|m|] == 0x80 && (forall i :: |m| < i < |p| - 8 ==> p[i] == 0)
            && Number(p[|p| - 8..]) == 8 * |m| % 0x1_0000_0000_0000_0000
  {
    hide LengthBytes, PadLength, Number;
    PadReaches(|m|, 1);
    PaddedEnds(m);
    LengthWritten(8 * |m|);
    var p := Padded(m);
    assert p[|p| - 8..] == LengthBytes(8 * |m|);
    assert p[..|m|] == m;
  }

  /** The digest is the four registers in turn, each with its low byte first. */
  lemma DigestRead(m: seq<Byte>)
    ensures var d, h := Digest(m), Absorb(INIT, Padded(m));
            Number(d[..4]) == h.a && Number(d[4..8]) == h.b && Number(d[8..12]) == h.c && Number(d[12..]) == h.d
  {
    hide WordBytes, Absorb, Padded, Number;
    var d, h := Digest(m), Absorb(INIT, Padded(m));
    WordWritten(h.a);
    WordWritten(h.b);
    WordWritten(h.c);
    WordWritten(h.d);
    assert d[..4] == WordBytes(h.a) && d[4..8] == WordBytes(h.b) && d[8..12] == WordBytes(h.c) && d[12..] == WordBytes(h.d);
  }

  // ----- pieces -----

  /** Everything about a message can be computed piece by piece: full blocks go into the registers, and
      what is left waits for the next piece. */
  lemma {:induction false} Pieces(h: Regs, m: seq<Byte>, more: seq<Byte>)
    ensures Absorb(h, m + more) == Absorb(Absorb(h, m), Tail(m) + more)
    ensures Tail(m + more) == Tail(Tail(m) + more)
    decreases |m|
  {
    hide Compress;
    if |m| >= 64 {
      Pieces(Compress(h, m[..64]), m[64..], more);
      assert (m + more)[..64] == m[..64] && (m + more)[64..] == m[64..] + more;
    }
  }

  /** The padding fills the last block up to 56 bytes, and is the shortest that does. */
  lemma PadReaches(n: nat, p: nat)
    requires p >= 1
    ensures 1 <= PadLength(n) <= 64 && (n + PadLength(n)) % 64 == 56
    ensures (n + p) % 64 == 56 ==> PadLength(n) <= p
  {
  }

  /** The formula of the code for the same length, from the low word of the bit count. */
  lemma PadFormula(n: nat)
    ensures (55 - Low(8 * n) / 8) % 64 + 1 == PadLength(n)
  {
    OffsetIs(n);
  }

  /** The state of section 3.3 of RFC 1321 with the length so far and the bytes that wait for a full block. */
  class State {
    var count0: Word
    var count1: Word
    var abcd: Regs
    var buf: array<Byte>
    ghost var message: seq<Byte>

    ghost predicate Valid()
      reads this, buf
    {
      && buf.Length == 64
      && count0 == Low(8 * |message|) && count1 == High(8 * |message|)
      && abcd == Absorb(INIT, message)
      && buf[..|Tail(message)|] == Tail(message)
    }

    constructor ()
      ensures Valid() && message == [] && fresh(buf)
    {
      count0, count1, buf := 0, 0, new Byte[64];
      abcd := Regs(0x67452301, Complement(0x10325476), Complement(0x67452301), 0x10325476);
      message := [];
    }

    /** The block that starts at `at` in data. */
    method Process(data: array<Byte>, at: nat)
      requires at + 64 <= data.Length
      modifies this`abcd
      ensures abcd == Compress(old(abcd), data[at..at + 64])
    {
      hide Steps, WordAt, Plus;
      var block := data[at..at + 64];
      var x := seq(16, k requires 0 <= k < 16 => WordAt(block, k));
      StepsNone(abcd, block);
      var q := Round1(abcd, x, abcd, block);
      q := Round2(q, x, abcd, block);
      q := Round3(q, x, abcd, block);
      q := Round4(q, x, abcd, block);
      abcd := Regs(Plus(abcd.a, q.a), Plus(abcd.b, q.b), Plus(abcd.c, q.c), Plus(abcd.d, q.d));
    }

    static method Round1(q: Regs, x: seq<Word>, ghost h: Regs, ghost block: seq<Byte>) returns (p: Regs)
      requires Words16(x, block) && q == Steps(h, block, 0)
      ensures p == Steps(h, block, 16)
    {
      hide Set, WordAt, Steps;
      var a, b, c, d := q.a, q.b, q.c, q.d;
      FourSteps(h, block, 0);
      a := Set(0, a, b, c, d, x[0], 7, Complement(0x28955b87));
      d := Set(0, d, a, b, c, x[1], 12, Complement(0x173848a9));
      c := Set(0, c, d, a, b, x[2], 17, 0x242070db);
      b := Set(0, b, c, d, a, x[3], 22, Complement(0x3e423111));
      assert Regs(a, b, c, d) == Steps(h, block, 4);
      FourSteps(h, block, 4);
      a := Set(0, a, b, c, d, x[4], 7, Complement(0x0a83f050));
      d := Set(0, d, a, b, c, x[5], 12, 0x4787c62a);
      c := Set(0, c, d, a, b, x[6], 17, Complement(0x57cfb9ec));
      b := Set(0, b, c, d, a, x[7], 22, Complement(0x02b96afe));
      assert Regs(a, b, c, d) == Steps(h, block, 8);
      FourSteps(h, block, 8);
      a := Set(0, a, b, c, d, x[8], 7, 0x698098d8);
      d := Set(0, d, a, b, c, x[9], 12, Complement(0x74bb0850));
      c := Set(0, c, d, a, b, x[10], 17, Complement(0x0000a44e));
      b := Set(0, b, c, d, a, x[11], 22, Complement(0x76a32841));
      assert Regs(a, b, c, d) == Steps(h, block, 12);
      FourSteps(h, block, 12);
      a := Set(0, a, b, c, d, x[12], 7, 0x6b901122);
      d := Set(0, d, a, b, c, x[13], 12, Complement(0x02678e6c));
      c := Set(0, c, d, a, b, x[14], 17, Complement(0x5986bc71));
      b := Set(0, b, c, d, a, x[15], 22, 0x49b40821);
      p := Regs(a, b, c, d);
    }

    static method Round2(q: Regs, x: seq<Word>, ghost h: Regs, ghost block: seq<Byte>) returns (p: Regs)
      requires Words16(x, block) && q == Steps(h, block, 16)
      ensures p == Steps(h, block, 32)
    {
      hide Set, WordAt, Steps;
      var a, b, c, d := q.a, q.b, q.c, q.d;
      FourSteps(h, block, 16);
      a := Set(1, a, b, c, d, x[1], 5, Complement(0x09e1da9d));
      d := Set(1, d, a, b, c, x[6], 9, Complement(0x3fbf4cbf));
      c := Set(1, c, d, a, b, x[11], 14, 0x265e5a51);
      b := Set(1, b, c, d, a, x[0], 20, Complement(0x16493855));
      assert Regs(a, b, c, d) == Steps(h, block, 20);
      FourSteps(h, block, 20);
      a := Set(1, a, b, c, d, x[5], 5, Complement(0x29d0efa2));
      d := Set(1, d, a, b, c, x[10], 9, 0x02441453);
      c := Set(1, c, d, a, b, x[15], 14, Complement(0x275e197e));
      b := Set(1, b, c, d, a, x[4], 20, Complement(0x182c0437));
      assert Regs(a, b, c, d) == Steps(h, block, 24);
      FourSteps(h, block, 24);
      a := Set(1, a, b, c, d, x[9], 5, 0x21e1cde6);
      d := Set(1, d, a, b, c, x[14], 9, Complement(0x3cc8f829));
      c := Set(1, c, d, a, b, x[3], 14, Complement(0x0b2af278));
      b := Set(1, b, c, d, a, x[8], 20, 0x455a14ed);
      assert Regs(a, b, c, d) == Steps(h, block, 28);
      FourSteps(h, block, 28);
      a := Set(1, a, b, c, d, x[13], 5, Complement(0x561c16fa));
      d := Set(1, d, a, b, c, x[2], 9, Complement(0x03105c07));
      c := Set(1, c, d, a, b, x[7], 14, 0x676f02d9);
      b := Set(1, b, c, d, a, x[12], 20, Complement(0x72d5b375));
      p := Regs(a, b, c, d);
    }

    static method Round3(q: Regs, x: seq<Word>, ghost h: Regs, ghost block: seq<Byte>) returns (p: Regs)
      requires Words16(x, block) && q == Steps(h, block, 32)
      ensures p == Steps(h, block, 48)
    {
      hide Set, WordAt, Steps;
      var a, b, c, d := q.a, q.b, q.c, q.d;
      FourSteps(h, block, 32);
      a := Set(2, a, b, c, d, x[5], 4, Complement(0x0005c6bd));
      d := Set(2, d, a, b, c, x[8], 11, Complement(0x788e097e));
      c := Set(2, c, d, a, b, x[11], 16, 0x6d9d6122);
      b := Set(2, b, c, d, a, x[14], 23, Complement(0x021ac7f3));
      assert Regs(a, b, c, d) == Steps(h, block, 36);
      FourSteps(h, block, 36);
      a := Set(2, a, b, c, d, x[1], 4, Complement(0x5b4115bb));
      d := Set(2, d, a, b, c, x[4], 11, 0x4bdecfa9);
      c := Set(2, c, d, a, b, x[7], 16, Complement(0x0944b49f));
      b := Set(2, b, c, d, a, x[10], 23, Complement(0x4140438f));
      assert Regs(a, b, c, d) == Steps(h, block, 40);
      FourSteps(h, block, 40);
      a := Set(2, a, b, c, d, x[13], 4, 0x289b7ec6);
      d := Set(2, d, a, b, c, x[0], 11, Complement(0x155ed805));
      c := Set(2, c, d, a, b, x[3], 16, Complement(0x2b10cf7a));
      b := Set(2, b, c, d, a, x[6], 23, 0x04881d05);
      assert Regs(a, b, c, d) == Steps(h, block, 44);
      FourSteps(h, block, 44);
      a := Set(2, a, b, c, d, x[9], 4, Complement(0x262b2fc6));
      d := Set(2, d, a, b, c, x[12], 11, Complement(0x1924661a));
      c := Set(2, c, d, a, b, x[15], 16, 0x1fa27cf8);
      b := Set(2, b, c, d, a, x[2], 23, Complement(0x3b53a99a));
      p := Regs(a, b, c, d);
    }

    static method Round4(q: Regs, x: seq<Word>, ghost h: Regs, ghost block: seq<Byte>) returns (p: Regs)
      requires Words16(x, block) && q == Steps(h, block, 48)
      ensures p == Steps(h, block, 64)
    {
      hide Set, WordAt, Steps;
      var a, b, c, d := q.a, q.b, q.c, q.d;
      FourSteps(h, block, 48);
      a := Set(3, a, b, c, d, x[0], 6, Complement(0x0bd6ddbb));
      d := Set(3, d, a, b, c, x[7], 10, 0x432aff97);
      c := Set(3, c, d, a, b, x[14], 15, Complement(0x546bdc58));
      b := Set(3, b, c, d, a, x[5], 21, Complement(0x036c5fc6));
      assert Regs(a, b, c, d) == Steps(h, block, 52);
      FourSteps(h, block, 52);
      a := Set(3, a, b, c, d, x[12], 6, 0x655b59c3);
      d := Set(3, d, a, b, c, x[3], 10, Complement(0x70f3336d));
      c := Set(3, c, d, a, b, x[10], 15, Complement(0x00100b82));
      b := Set(3, b, c, d, a, x[1], 21, Complement(0x7a7ba22e));
      assert Regs(a, b, c, d) == Steps(h, block, 56);
      FourSteps(h, block, 56);
      a := Set(3, a, b, c, d, x[8], 6, 0x6fa87e4f);
      d := Set(3, d, a, b, c, x[15], 10, Complement(0x01d3191f));
      c := Set(3, c, d, a, b, x[6], 15, Complement(0x5cfebceb));
      b := Set(3, b, c, d, a, x[13], 21, 0x4e0811a1);
      assert Regs(a, b, c, d) == Steps(h, block, 60);
      FourSteps(h, block, 60);
      a := Set(3, a, b, c, d, x[4], 6, Complement(0x08ac817d));
      d := Set(3, d, a, b, c, x[11], 10, Complement(0x42c50dca));
      c := Set(3, c, d, a, b, x[2], 15, 0x2ad7d2bb);
      b := Set(3, b, c, d, a, x[9], 21, Complement(0x14792c6e));
      p := Regs(a, b, c, d);
    }

    /** The first nbytes bytes of data; none if nbytes is not positive. */
    method Append(data: array<Byte>, nbytes: int)
      requires Valid() && data != buf && nbytes <= data.Length && nbytes < 0x8000_0000
      modifies this, buf
      ensures Valid() && buf == old(buf)
      ensures message == old(message) + (if nbytes <= 0 then [] else data[..nbytes])
    {
      var p, left := 0, nbytes;
      hide Absorb, Low, High, Compress;
      var offset := count0 / 8 % 64;
      OffsetIs(|message|);
      if nbytes <= 0 { return; }
      var nbits := Low(8 * nbytes);
      ghost var all, h := Tail(message) + data[..nbytes], abcd;
      Pieces(INIT, message, data[..nbytes]);
      AddLength(nbytes, nbits, 8 * |message|);
      message := message + data[..nbytes];
      if offset != 0 {
        var copy := if offset + nbytes > 64 then 64 - offset else nbytes;
        Copy(data, 0, offset, copy);
        assert buf[..offset + copy] == all[..offset + copy];
        AbsorbFirst(h, all);
        if offset + copy < 64 { return; }
        assert buf[0..64] == all[..64] && all[64..] == data[copy..nbytes];
        p := p + copy;
        left := left - copy;
        Process(buf, 0);
      } else {
        assert all == data[..nbytes];
      }
      Blocks(data, p, nbytes, h, all);
    }

    /** The digest of the message; the padding and the length become part of it, and nothing is left over. */
    method Finish() returns (digest: array<Byte>)
      requires Valid()
      modifies this, buf
      ensures fresh(digest) && digest[..] == Digest(old(message))
      ensures Valid() && message == Padded(old(message)) && Tail(message) == []
    {
      hide Absorb, Low, High, ByteOf, PadLength, WordBytes, Padding;
      ghost var m := message;
      var data := SaveLength();
      PadFormula(|m|);
      PadReaches(|m|, 1);
      var pad := new Byte[64](i => if i == 0 then 0x80 else 0);
      PaddingIs(pad[..], PadLength(|m|));
      Append(pad, (55 - count0 / 8) % 64 + 1);
      assert data[..8] == data[..];
      Append(data, 8);
      PaddedEnds(m);
      digest := Registers();
    }

    /** The length before padding. */
    method SaveLength() returns (data: array<Byte>)
      ensures fresh(data) && data[..] == WordBytes(count0) + WordBytes(count1)
    {
      hide ByteOf;
      data := new Byte[8];
      for i := 0 to 8
        invariant fresh(data) && data.Length == 8
        invariant forall k :: 0 <= k < i ==> data[k] == ByteOf(if k < 4 then count0 else count1, k % 4)
      {
        data[i] := ByteOf(if i < 4 then count0 else count1, i % 4);
      }
    }

    method Registers() returns (digest: array<Byte>)
      ensures fresh(digest) && digest[..] == WordBytes(abcd.a) + WordBytes(abcd.b) + WordBytes(abcd.c) + WordBytes(abcd.d)
    {
      hide ByteOf;
      digest := new Byte[16];
      for i := 0 to 16
        invariant fresh(digest) && digest.Length == 16
        invariant forall k :: 0 <= k < i ==> digest[k] == ByteOf(Reg(abcd, k / 4), k % 4)
      {
        digest[i] := ByteOf(Reg(abcd, i / 4), i % 4);
      }
    }

    /** The message length in bits, in two words; it was `bits` so far. */
    method AddLength(nbytes: nat, nbits: Word, ghost bits: nat)
      requires nbits == Low(8 * nbytes) && nbytes < 0x8000_0000 && count0 == Low(bits) && count1 == High(bits)
      modifies this`count0, this`count1
      ensures count0 == Low(bits + 8 * nbytes) && count1 == High(bits + 8 * nbytes)
    {
      Carry(bits, nbytes);
      hide Low, High;
      count1 := Plus(count1, nbytes / 0x2000_0000);
      count0 := Plus(count0, nbits);
      if count0 < nbits { count1 := Plus(count1, 1); }
    }

    /** The full blocks from p on, and the copy of what is left. */
    method Blocks(data: array<Byte>, start: nat, nbytes: nat, ghost h: Regs, ghost all: seq<Byte>)
      requires data != buf && buf.Length == 64 && start <= nbytes <= data.Length
      requires Absorb(abcd, data[start..nbytes]) == Absorb(h, all) && Tail(data[start..nbytes]) == Tail(all)
      modifies this`abcd, buf
      ensures abcd == Absorb(h, all) && buf[..|Tail(all)|] == Tail(all)
    {
      hide Compress;
      var p, left := start, nbytes - start;
      while left >= 64
        invariant p + left == nbytes && left >= 0 && buf == old(buf)
        invariant Absorb(abcd, data[p..nbytes]) == Absorb(h, all) && Tail(data[p..nbytes]) == Tail(all)
      {
        SliceOfSlice(data[..], p, nbytes);
        assert data[..][p..nbytes] == data[p..nbytes] && data[..][p..p + 64] == data[p..p + 64] && data[..][p + 64..nbytes] == data[p + 64..nbytes];
        Process(data, p);
        p := p + 64;
        left := left - 64;
      }
      if left > 0 { Copy(data, p, 0, left); }
    }

    /** memcpy of n bytes, from place p of data to place `at` of the buffer. */
    method Copy(data: array<Byte>, p: nat, at: nat, n: nat)
      requires data != buf && p + n <= data.Length && at + n <= buf.Length
      modifies buf
      ensures buf[..at + n] == old(buf[..at]) + data[p..p + n]
    {
      forall i | 0 <= i < n { buf[at + i] := data[p + i]; }
    }
  }

  lemma Carry(bits: nat, nbytes: nat)
    requires nbytes < 0x8000_0000
    ensures var nbits := Low(8 * nbytes);
            var sum := Plus(Low(bits), nbits);
            && Low(bits + 8 * nbytes) == sum
            && High(bits + 8 * nbytes)
               == if sum < nbits then Plus(Plus(High(bits), nbytes / 0x2000_0000), 1) else Plus(High(bits), nbytes / 0x2000_0000)
  {
    var h, l := bits / 0x1_0000_0000, bits % 0x1_0000_0000;
    var q, r := nbytes / 0x2000_0000, nbytes % 0x2000_0000 * 8;
    assert bits == h * 0x1_0000_0000 + l && 8 * nbytes == q * 0x1_0000_0000 + r;
    Words(h, l);
    Words(q, r);
    hide Low, High, Plus;
    AddWords(h, q);
    AddWords(h + q, 1);
    SumWords(l, r);
    if l + r < 0x1_0000_0000 {
      Words(h + q, l + r);
    } else {
      Words(h + q + 1, l + r - 0x1_0000_0000);
    }
  }

  lemma AddWords(h: nat, q: Word)
    ensures Plus(h % 0x1_0000_0000, q) == (h + q as int) % 0x1_0000_0000
  {
  }

  lemma SumWords(l: Word, r: Word)
    ensures Plus(l, r) == if l as int + r as int < 0x1_0000_0000 then l as int + r as int else l as int + r as int - 0x1_0000_0000
  {
  }

  lemma Words(h: nat, l: Word)
    ensures var n := h * 0x1_0000_0000 + l; Low(n) == l && High(n) == h % 0x1_0000_0000
  {
  }

  lemma AbsorbFirst(h: Regs, m: seq<Byte>)
    ensures |m| < 64 ==> Absorb(h, m) == h && Tail(m) == m
    ensures |m| >= 64 ==> Absorb(h, m) == Absorb(Compress(h, m[..64]), m[64..]) && Tail(m) == Tail(m[64..])
  {
    hide Compress;
  }

  lemma OffsetIs(n: nat)
    ensures Low(8 * n) / 8 % 64 == n % 64
  {
    var q := 8 * n / 0x1_0000_0000;
    var m := n - q * 0x2000_0000;
    assert Low(8 * n) == 8 * n - q * 0x1_0000_0000 == 8 * m;
    assert 8 * m / 8 == m;
    assert n == 64 * (q * 0x80_0000) + m;
    ModBlocks(q * 0x80_0000, m);
  }

  /** Whole blocks do not count. */
  lemma ModBlocks(a: nat, m: int)
    ensures (64 * a + m) % 64 == m % 64
  {
  }

  lemma SliceOfSlice(s: seq<Byte>, p: nat, n: nat)
    requires p + 64 <= n <= |s|
    ensures s[p..n][..64] == s[p..p + 64] && s[p..n][64..] == s[p + 64..n]
  {
  }

  function Reg(h: Regs, i: nat): Word {
    if i == 0 then h.a else if i == 1 then h.b else if i == 2 then h.c else h.d
  }

  lemma PaddingIs(pad: seq<Byte>, n: nat)
    requires |pad| == 64 && pad[0] == 0x80 && forall i :: 0 < i < 64 ==> pad[i] == 0
    requires 1 <= n <= 64
    ensures pad[..n] == Padding(n)
  {
  }

  lemma PaddedEnds(m: seq<Byte>)
    ensures |Padded(m)| % 64 == 0
  {
    PadReaches(|m|, 1);
    hide PadLength;
    var n := |m| + PadLength(|m|);
    assert n % 64 == 56;
    assert (n + 8) % 64 == 0;
  }

  lemma FourSteps(h: Regs, block: seq<Byte>, n: nat)
    requires |block| == 64 && n + 4 <= 64
    ensures var q := Steps(h, block, n);
            var a := Update(n, q.a, q.b, q.c, q.d, WordAt(block, Place(n)));
            var d := Update(n + 1, q.d, a, q.b, q.c, WordAt(block, Place(n + 1)));
            var c := Update(n + 2, q.c, d, a, q.b, WordAt(block, Place(n + 2)));
            var b := Update(n + 3, q.b, c, d, a, WordAt(block, Place(n + 3)));
            Steps(h, block, n + 4) == Regs(a, b, c, d)
  {
    hide Update, Place, WordAt;
    assert Steps(h, block, n + 1).d == Steps(h, block, n).c;
    assert Steps(h, block, n + 3).a == Steps(h, block, n + 2).d;
  }
}
