/** Base64 as in section 4 of RFC 4648, with the lazily built decoding table of the C code. */
module Base64 {
  import opened Values

  /** Bytes, and the characters of the encoded text by their ASCII codes. */
  type Byte = b: int | 0 <= b < 256

  /** An entry of the decoding table, a signed char. */
  type Entry = e: int | -128 <= e < 128

  const PAD: Byte := 61

  // ----- the reference encoding -----

  /** The alphabet: A to Z, a to z, 0 to 9, plus and slash. */
  function Char(sextet: int): (c: Byte)
    requires 0 <= sextet < 64
    ensures c != PAD
  {
    if sextet < 26 then 65 + sextet
    else if sextet < 52 then 97 + (sextet - 26)
    else if sextet < 62 then 48 + (sextet - 52)
    else if sextet == 62 then 43 else 47
  }

  function FromBytes(a: Byte, b: Byte, c: Byte): (triple: int)
    ensures 0 <= triple < 0x100_0000
  {
    a as int * 0x1_0000 + b as int * 0x100 + c as int
  }

  /** The four sextets of 24 bits. */
  function Sextets(triple: int): (q: (int, int, int, int))
    requires 0 <= triple < 0x100_0000
    ensures 0 <= q.0 < 64 && 0 <= q.1 < 64 && 0 <= q.2 < 64 && 0 <= q.3 < 64
  {
    (triple / 0x4_0000, triple / 0x1000 % 64, triple / 64 % 64, triple % 64)
  }

  /** The four characters of 24 bits. */
  function Quad(a: Byte, b: Byte, c: Byte): (q: seq<Byte>)
    ensures |q| == 4
  {
    var s := Sextets(FromBytes(a, b, c));
    [Char(s.0), Char(s.1), Char(s.2), Char(s.3)]
  }

  /** How many groups n bytes make. */
  function Groups(n: nat): (g: nat)
    ensures g > 0 <==> n > 0
  {
    if n == 0 then 0 else if n <= 3 then 1 else 1 + Groups(n - 3)
  }

  /** Groups of three bytes; a short last group is filled with zero bits and padded. */
  function Encoded(d: seq<Byte>): (t: seq<Byte>)
    ensures |t| == 4 * Groups(|d|)
  {
    hide Quad;
    if |d| == 0 then []
    else if |d| == 1 then Quad(d[0], 0, 0)[..2] + [PAD, PAD]
    else if |d| == 2 then Quad(d[0], d[1], 0)[..3] + [PAD]
    else Quad(d[0], d[1], d[2]) + Encoded(d[3..])
  }

  // ----- what the decoder computes -----

  /** The table maps every character of the alphabet to its place; the rest of it is never set. */
  ghost predicate Built(table: seq<Entry>) {
    |table| == 256 && forall i :: 0 <= i < 64 ==> table[Char(i)] == i
  }

  /** A table entry as an unsigned 32-bit number. */
  function Sextet(table: seq<Entry>, c: Byte): (s: int)
    requires |table| == 256
    ensures 0 <= s < 0x1_0000_0000
  {
    if c == PAD then 0 else table[c] as int % 0x1_0000_0000
  }

  /** Four sextets put together, computed modulo two to the 32. */
  function FromSextets(w: int, x: int, y: int, z: int): (triple: int)
    ensures 0 <= triple < 0x1_0000_0000
  {
    (w * 0x4_0000 + x * 0x1000 + y * 64 + z) % 0x1_0000_0000
  }

  function Bytes(triple: int): (d: seq<Byte>)
    ensures |d| == 3
  {
    [triple / 0x1_0000 % 256, triple / 0x100 % 256, triple % 256]
  }

  /** The three bytes of four characters. */
  function Triple(table: seq<Entry>, t: seq<Byte>): (d: seq<Byte>)
    requires |table| == 256 && |t| >= 4
    ensures |d| == 3
  {
    Bytes(FromSextets(Sextet(table, t[0]), Sextet(table, t[1]), Sextet(table, t[2]), Sextet(table, t[3])))
  }

  /** How many groups of four n characters make. */
  function Quads(n: nat): nat {
    if n < 4 then 0 else 1 + Quads(n - 4)
  }

  lemma {:induction false} QuadsOf(n: nat)
    ensures Quads(n) == n / 4 && (n > 0 && n % 4 == 0 ==> Quads(n) > 0)
  {
    if n >= 4 { QuadsOf(n - 4); }
  }

  lemma {:induction false} QuadsTimes(g: nat)
    ensures Quads(4 * g) == g
  {
    if g > 0 { QuadsTimes(g - 1); }
  }

  /** The bytes of all groups of four characters. */
  function Triples(table: seq<Entry>, t: seq<Byte>): (d: seq<Byte>)
    requires |table| == 256
    ensures |d| == 3 * Quads(|t|)
  {
    hide Triple;
    if |t| < 4 then [] else Triple(table, t) + Triples(table, t[4..])
  }

  function Pads(t: seq<Byte>): (n: nat)
    requires |t| >= 2
    ensures n <= 2
  {
    (if t[|t| - 1] == PAD then 1 else 0) + (if t[|t| - 2] == PAD then 1 else 0)
  }

  /** The decoder's result; None for a length that is not divisible by four.  The empty text is left
      out, the decoder reads in front of it. */
  function Decoded(table: seq<Entry>, t: seq<Byte>): (d: Option<seq<Byte>>)
    requires |table| == 256 && t != []
    ensures d.Some? <==> |t| % 4 == 0
    ensures d.Some? ==> |d.value| == 3 * Quads(|t|) - Pads(t)
  {
    hide Triple;
    if |t| % 4 != 0 then None else
    QuadsOf(|t|);
    Some(Triples(table, t)[..3 * Quads(|t|) - Pads(t)])
  }

  // ----- round trips -----

  // Arithmetic: 24 bits as three bytes, as two halves of 12 bits, and as four sextets.

  lemma BytesOfBytes(a: Byte, b: Byte, c: Byte)
    ensures Bytes(FromBytes(a, b, c)) == [a, b, c]
  {
    var triple := FromBytes(a, b, c);
    assert triple / 0x1_0000 == a;
    assert triple / 0x100 == a as int * 0x100 + b as int;
  }

  lemma Halves(high: int, low: int)
    requires 0 <= high < 0x1000 && 0 <= low < 0x1000
    ensures Sextets(high * 0x1000 + low) == (high / 64, high % 64, low / 64, low % 64)
  {
    var triple := high * 0x1000 + low;
    assert triple / 0x4_0000 == high / 64;
    assert triple / 64 == high * 64 + low / 64;
  }

  lemma SplitHalves(triple: int) returns (high: int, low: int)
    requires 0 <= triple < 0x100_0000
    ensures 0 <= high < 0x1000 && 0 <= low < 0x1000 && triple == high * 0x1000 + low
  {
    high, low := triple / 0x1000, triple % 0x1000;
  }

  lemma FromHalves(w: int, x: int, y: int, z: int)
    requires 0 <= w < 64 && 0 <= x < 64 && 0 <= y < 64 && 0 <= z < 64
    ensures FromSextets(w, x, y, z) == (w * 64 + x) * 0x1000 + (y * 64 + z) < 0x100_0000
  {
    var sum := (w * 64 + x) * 0x1000 + (y * 64 + z);
    assert w * 0x4_0000 + x * 0x1000 + y * 64 + z == sum;
    assert 0 <= sum < 0x100_0000;
  }

  lemma JoinSextets(triple: int)
    requires 0 <= triple < 0x100_0000
    ensures var s := Sextets(triple); FromSextets(s.0, s.1, s.2, s.3) == triple
  {
    hide Sextets, FromSextets;
    var high, low := SplitHalves(triple);
    Halves(high, low);
    FromHalves(high / 64, high % 64, low / 64, low % 64);
  }

  lemma SplitSextets(w: int, x: int, y: int, z: int)
    requires 0 <= w < 64 && 0 <= x < 64 && 0 <= y < 64 && 0 <= z < 64
    ensures var triple := FromSextets(w, x, y, z);
            triple < 0x100_0000 && Sextets(triple) == (w, x, y, z)
  {
    hide Sextets, FromSextets;
    FromHalves(w, x, y, z);
    Halves(w * 64 + x, y * 64 + z);
  }

  /** Zero bytes at the end leave zero bits in the sextets. */
  lemma ZeroSextets(a: Byte, b: Byte, c: Byte)
    ensures var s := Sextets(FromBytes(a, b, c));
            (c == 0 ==> s.3 == 0 && s.2 % 4 == 0) && (b == 0 && c == 0 ==> s.2 == 0 && s.1 % 16 == 0)
  {
    hide Sextets;
    var high, low := a as int * 16 + b as int / 16, b as int % 16 * 256 + c as int;
    assert FromBytes(a, b, c) == high * 0x1000 + low;
    Halves(high, low);
  }

  /** Zero bits at the end of the sextets leave zero bytes. */
  lemma LowBytes(w: int, x: int, y: int, z: int)
    requires 0 <= w < 64 && 0 <= x < 64 && 0 <= y < 64 && 0 <= z < 64
    ensures var d := Bytes(FromSextets(w, x, y, z));
            (z == 0 && y % 4 == 0 ==> d[2] == 0) && (z == 0 && y == 0 && x % 16 == 0 ==> d[1] == 0)
  {
    hide Bytes, FromSextets;
    FromHalves(w, x, y, z);
    var a, b, c := w * 4 + x / 16, x % 16 * 16 + y / 4, y % 4 * 64 + z;
    assert (w * 64 + x) * 0x1000 + (y * 64 + z) == FromBytes(a, b, c);
    BytesOfBytes(a, b, c);
  }

  lemma QuadTriple(table: seq<Entry>, a: Byte, b: Byte, c: Byte)
    requires Built(table)
    ensures Triple(table, Quad(a, b, c)) == [a, b, c]
    ensures c == 0 ==> Triple(table, Quad(a, b, c)[..3] + [PAD]) == [a, b, c]
    ensures b == 0 && c == 0 ==> Triple(table, Quad(a, b, c)[..2] + [PAD, PAD]) == [a, b, c]
  {
    hide Char, FromBytes, Sextets, FromSextets, Bytes;
    BytesOfBytes(a, b, c);
    JoinSextets(FromBytes(a, b, c));
    ZeroSextets(a, b, c);
  }

  lemma FirstQuad(table: seq<Entry>, q: seq<Byte>, t: seq<Byte>)
    requires |table| == 256 && |q| == 4 && |t| % 4 == 0 && t != []
    ensures Decoded(table, q + t) == Some(Triple(table, q) + Decoded(table, t).value)
  {
    hide Triple;
    var all := q + t;
    assert all[4..] == t && all[..4] == q;
    TripleOfPrefix(table, all, q);
    assert Quads(|all|) == 1 + Quads(|t|);
    QuadsOf(|t|);
    assert Pads(all) == Pads(t);
    var n := 3 * Quads(|t|) - Pads(t);
    var first, rest := Triple(table, q), Triples(table, t);
    assert (first + rest)[..3 + n] == first + rest[..n];
  }

  lemma QuadWithoutPad(a: Byte, b: Byte, c: Byte)
    ensures var q := Quad(a, b, c); q[0] != PAD && q[1] != PAD && q[2] != PAD && q[3] != PAD
  {
  }

  lemma SingleGroup(table: seq<Entry>, t: seq<Byte>)
    requires |table| == 256 && |t| == 4
    ensures Decoded(table, t) == Some(Triple(table, t)[..3 - Pads(t)])
  {
    hide Triple;
    assert t[4..] == [];
    assert Triples(table, t) == Triple(table, t);
  }

  /** Decoding the encoder's output gives the bytes back, for every number of bytes but none. */
  lemma {:induction false} RoundTrip(table: seq<Entry>, d: seq<Byte>)
    requires Built(table) && d != []
    ensures Decoded(table, Encoded(d)) == Some(d)
  {
    hide Quad, Triple, Decoded;
    var t := Encoded(d);
    var b, c := if |d| > 1 then d[1] else 0, if |d| > 2 then d[2] else 0;
    QuadTriple(table, d[0], b, c);
    QuadWithoutPad(d[0], b, c);
    if |d| < 3 {
      SingleGroup(table, t);
      assert |d| == 2 ==> t[2] == Quad(d[0], b, 0)[2];
      assert |t| == 4 && Pads(t) == 3 - |d|;
      assert Triple(table, t) == [d[0], b, 0];
      assert [d[0], b, 0][..|d|] == d;
    } else if |d| == 3 {
      assert Encoded(d[3..]) == [] && t == Quad(d[0], d[1], d[2]);
      SingleGroup(table, t);
      assert Pads(t) == 0 && [d[0], d[1], d[2]][..3] == d;
    } else {
      RoundTrip(table, d[3..]);
      FirstQuad(table, Quad(d[0], d[1], d[2]), Encoded(d[3..]));
      assert t == Quad(d[0], d[1], d[2]) + Encoded(d[3..]);
      assert [d[0], d[1], d[2]] + d[3..] == d;
    }
  }

  // ----- the characters of the encoding -----

  /** Table 1 of RFC 4648. */
  function Table1(k: int): char
    requires 0 <= k < 64
  {
    match k
    case 0 => 'A' case 1 => 'B' case 2 => 'C' case 3 => 'D' case 4 => 'E' case 5 => 'F' case 6 => 'G' case 7 => 'H'
    case 8 => 'I' case 9 => 'J' case 10 => 'K' case 11 => 'L' case 12 => 'M' case 13 => 'N' case 14 => 'O' case 15 => 'P'
    case 16 => 'Q' case 17 => 'R' case 18 => 'S' case 19 => 'T' case 20 => 'U' case 21 => 'V' case 22 => 'W' case 23 => 'X'
    case 24 => 'Y' case 25 => 'Z' case 26 => 'a' case 27 => 'b' case 28 => 'c' case 29 => 'd' case 30 => 'e' case 31 => 'f'
    case 32 => 'g' case 33 => 'h' case 34 => 'i' case 35 => 'j' case 36 => 'k' case 37 => 'l' case 38 => 'm' case 39 => 'n'
    case 40 => 'o' case 41 => 'p' case 42 => 'q' case 43 => 'r' case 44 => 's' case 45 => 't' case 46 => 'u' case 47 => 'v'
    case 48 => 'w' case 49 => 'x' case 50 => 'y' case 51 => 'z' case 52 => '0' case 53 => '1' case 54 => '2' case 55 => '3'
    case 56 => '4' case 57 => '5' case 58 => '6' case 59 => '7' case 60 => '8' case 61 => '9' case 62 => '+' case _ => '/'
  }

  /** The character of the encoded text at a place. */
  function CharAt(t: seq<Byte>, i: nat): char
    requires i < |t|
  {
    t[i] as char
  }

  lemma InTable(k: int)
    requires 0 <= k < 64
    ensures Char(k) as char == Table1(k)
  {
    assert Char(k) == Table1(k) as int;
  }

  /** What the encoder writes for each whole group of three bytes: the characters that stand in the table
      for the bits of its bytes, six at a time from the high end. */
  lemma {:induction false} GroupText(d: seq<Byte>, g: nat)
    requires 3 * g + 3 <= |d|
    ensures 4 * g + 4 <= |Encoded(d)|
    ensures var (a, b, c) := (d[3 * g], d[3 * g + 1], d[3 * g + 2]);
            && CharAt(Encoded(d), 4 * g) == Table1(a / 4)
            && CharAt(Encoded(d), 4 * g + 1) == Table1(a % 4 * 16 + b / 16)
            && CharAt(Encoded(d), 4 * g + 2) == Table1(b % 16 * 4 + c / 64)
            && CharAt(Encoded(d), 4 * g + 3) == Table1(c % 64)
  {
    hide Quad, Groups, Table1;
    if g > 0 {
      GroupText(d[3..], g - 1);
    } else {
      QuadText(d[0], d[1], d[2]);
    }
  }

  /** What it writes for one or two bytes that are left over behind n groups: zero bits fill the last character,
      and equals signs the group. */
  lemma {:induction false} RestText(d: seq<Byte>, n: nat)
    requires 3 * n <= |d| < 3 * n + 3
    ensures |Encoded(d)| == if |d| == 3 * n then 4 * n else 4 * n + 4
    ensures |d| == 3 * n + 1 ==>
              var (t, a) := (Encoded(d), d[3 * n]);
              && CharAt(t, 4 * n) == Table1(a / 4) && CharAt(t, 4 * n + 1) == Table1(a % 4 * 16)
              && CharAt(t, 4 * n + 2) == '=' && CharAt(t, 4 * n + 3) == '='
    ensures |d| == 3 * n + 2 ==>
              var (t, a, b) := (Encoded(d), d[3 * n], d[3 * n + 1]);
              && CharAt(t, 4 * n) == Table1(a / 4) && CharAt(t, 4 * n + 1) == Table1(a % 4 * 16 + b / 16)
              && CharAt(t, 4 * n + 2) == Table1(b % 16 * 4) && CharAt(t, 4 * n + 3) == '='
  {
    hide Quad, Groups, Table1;
    if n > 0 {
      RestText(d[3..], n - 1);
    } else if d != [] {
      QuadText(d[0], if |d| == 2 then d[1] else 0, 0);
    }
  }

  lemma QuadText(a: Byte, b: Byte, c: Byte)
    ensures var q := Quad(a, b, c);
            && CharAt(q, 0) == Table1(a / 4) && CharAt(q, 1) == Table1(a % 4 * 16 + b / 16)
            && CharAt(q, 2) == Table1(b % 16 * 4 + c / 64) && CharAt(q, 3) == Table1(c % 64)
  {
    hide Char, Table1, Sextets;
    var high, low := a as int * 16 + b as int / 16, b as int % 16 * 256 + c as int;
    assert FromBytes(a, b, c) == high * 0x1000 + low;
    Halves(high, low);
    assert high / 64 == a / 4 && high % 64 == a as int % 4 * 16 + b as int / 16;
    assert low / 64 == b as int % 16 * 4 + c as int / 64 && low % 64 == c % 64;
    InTable(a as int / 4);
    InTable(a as int % 4 * 16 + b as int / 16);
    InTable(b as int % 16 * 4 + c as int / 64);
    InTable(c as int % 64);
  }

  predicate IsSymbol(c: Byte) {
    65 <= c <= 90 || 97 <= c <= 122 || 48 <= c <= 57 || c == 43 || c == 47
  }

  function Value(c: Byte): (v: int)
    requires IsSymbol(c)
    ensures 0 <= v < 64 && Char(v) == c
  {
    if 65 <= c <= 90 then c - 65
    else if 97 <= c then c - 97 + 26
    else if 48 <= c then c - 48 + 52
    else if c == 43 then 62 else 63
  }

  /** Text of the form that section 4 of RFC 4648 prescribes: groups of four characters, padding only at
      the very end, and no bits set beyond the last byte. */
  predicate Canonical(t: seq<Byte>) {
    |t| >= 4 && |t| % 4 == 0 && IsSymbol(t[0]) && IsSymbol(t[1]) &&
    if |t| > 4 then IsSymbol(t[2]) && IsSymbol(t[3]) && Canonical(t[4..])
    else if t[3] != PAD then IsSymbol(t[2]) && IsSymbol(t[3])
    else if t[2] != PAD then IsSymbol(t[2]) && Value(t[2]) % 4 == 0
    else Value(t[1]) % 16 == 0
  }

  lemma QuadSymbols(a: Byte, b: Byte, c: Byte)
    ensures forall i :: 0 <= i < 4 ==> IsSymbol(Quad(a, b, c)[i])
    ensures c == 0 ==> Value(Quad(a, b, c)[2]) % 4 == 0
    ensures b == 0 && c == 0 ==> Value(Quad(a, b, c)[1]) % 16 == 0
  {
    hide Char, IsSymbol, Value, FromBytes, Sextets;
    var s := Sextets(FromBytes(a, b, c));
    ValueChar(s.0);
    ValueChar(s.1);
    ValueChar(s.2);
    ValueChar(s.3);
    ZeroSextets(a, b, c);
  }

  lemma ValueChar(v: int)
    requires 0 <= v < 64
    ensures IsSymbol(Char(v)) && Value(Char(v)) == v
  {
  }

  /** The encoder's output is canonical. */
  lemma {:induction false} EncodedCanonical(d: seq<Byte>)
    requires d != []
    ensures Canonical(Encoded(d))
  {
    hide Quad, IsSymbol, Value, Char;
    QuadSymbols(d[0], if |d| > 1 then d[1] else 0, if |d| > 2 then d[2] else 0);
    if |d| == 3 {
      assert d[3..] == [] && Encoded(d) == Quad(d[0], d[1], d[2]);
      QuadWithoutPad(d[0], d[1], d[2]);
    } else if |d| > 3 {
      EncodedCanonical(d[3..]);
      assert Encoded(d)[4..] == Encoded(d[3..]);
    }
  }

  lemma JoinBytes(triple: int)
    requires 0 <= triple < 0x100_0000
    ensures var d := Bytes(triple); FromBytes(d[0], d[1], d[2]) == triple
  {
    var high, low := triple / 0x100, triple % 0x100;
    assert triple == high * 0x100 + low;
    assert triple / 0x1_0000 == high / 0x100;
    assert high / 0x100 < 0x100;
  }

  lemma SymbolSextet(table: seq<Entry>, c: Byte)
    requires Built(table) && IsSymbol(c)
    ensures c != PAD && Sextet(table, c) == Value(c)
  {
    var v := Value(c);
    assert Char(v) == c && table[Char(v)] == v;
  }

  /** Encoding a group's bytes gives the group back. */
  lemma TripleQuad(table: seq<Entry>, t: seq<Byte>)
    requires Built(table) && |t| >= 4 && IsSymbol(t[0]) && IsSymbol(t[1])
    requires IsSymbol(t[2]) || t[2] == PAD
    requires IsSymbol(t[3]) || t[3] == PAD
    ensures var d := Triple(table, t);
            var q := Quad(d[0], d[1], d[2]);
            && q[0] == t[0] && q[1] == t[1] && (IsSymbol(t[2]) ==> q[2] == t[2]) && (IsSymbol(t[3]) ==> q[3] == t[3])
            && (t[3] == PAD && t[2] != PAD && Value(t[2]) % 4 == 0 ==> d[2] == 0)
            && (t[3] == PAD && t[2] == PAD && Value(t[1]) % 16 == 0 ==> d[1] == 0 && d[2] == 0)
  {
    hide Built, Char, IsSymbol, Value, Sextet, FromSextets, FromBytes, Bytes, Sextets;
    var w, x := Value(t[0]), Value(t[1]);
    var y, z := if t[2] == PAD then 0 else Value(t[2]), if t[3] == PAD then 0 else Value(t[3]);
    SymbolSextet(table, t[0]);
    SymbolSextet(table, t[1]);
    if t[2] != PAD { SymbolSextet(table, t[2]); }
    if t[3] != PAD { SymbolSextet(table, t[3]); }
    PadSextet(table);
    SplitSextets(w, x, y, z);
    LowBytes(w, x, y, z);
    JoinBytes(FromSextets(w, x, y, z));
  }

  lemma PadSextet(table: seq<Entry>)
    requires Built(table)
    ensures Sextet(table, PAD) == 0 && !IsSymbol(PAD)
  {
  }

  /** Encoding what a canonical text decodes to gives that text back. */
  lemma {:induction false} CanonicalRoundTrip(table: seq<Entry>, t: seq<Byte>)
    requires Built(table) && Canonical(t)
    ensures Decoded(table, t).Some? && Encoded(Decoded(table, t).value) == t
  {
    hide Quad, Triple, IsSymbol, Value, Char;
    TripleQuad(table, t);
    var d := Triple(table, t);
    if |t| > 4 {
      var q, rest := t[..4], t[4..];
      CanonicalRoundTrip(table, rest);
      assert t == q + rest;
      assert Triple(table, q) == d by { TripleOfPrefix(table, t, q); }
      FirstQuad(table, q, rest);
      var all := Decoded(table, t).value;
      assert all[3..] == Decoded(table, rest).value;
      assert Quad(d[0], d[1], d[2]) == q;
    } else {
      SingleGroup(table, t);
      PadSextet(table);
      if t[3] != PAD { assert d[3..] == []; }
    }
  }

  lemma TripleOfPrefix(table: seq<Entry>, t: seq<Byte>, q: seq<Byte>)
    requires |table| == 256 && |q| == 4 && q <= t
    ensures Triple(table, t) == Triple(table, q)
  {
  }

  /** Which texts survive decoding and encoding: exactly the canonical ones.  (Nothing is rejected but
      a wrong length: other characters decode to whatever the table happens to hold.) */
  lemma SurvivesExactly(table: seq<Entry>, t: seq<Byte>)
    requires Built(table) && t != []
    ensures (Decoded(table, t).Some? && Encoded(Decoded(table, t).value) == t) <==> Canonical(t)
  {
    hide Decoded, Encoded, Canonical;
    if Canonical(t) { CanonicalRoundTrip(table, t); }
    if Decoded(table, t).Some? { EncodedCanonical(Decoded(table, t).value); }
  }

  // ----- the codec -----

  function At(d: seq<Byte>, i: nat): Byte {
    if i < |d| then d[i] else 0
  }

  /** The groups before they are padded: missing bytes are zero. */
  function Filled(d: seq<Byte>): (t: seq<Byte>)
    ensures |t| == 4 * Groups(|d|)
    decreases |d|
  {
    hide Quad;
    if d == [] then [] else Quad(d[0], At(d, 1), At(d, 2)) + Filled(Rest(d))
  }

  function Rest(d: seq<Byte>): seq<Byte> {
    if |d| < 3 then [] else d[3..]
  }

  function ModTable(n: nat): (p: nat)
    ensures p <= 2
  {
    if n % 3 == 0 then 0 else if n % 3 == 1 then 2 else 1
  }

  lemma ModStep(n: nat)
    requires n >= 3
    ensures ModTable(n - 3) == ModTable(n)
  {
  }

  function Repeat(n: nat): (p: seq<Byte>)
    ensures |p| == n
  {
    seq(n, i => PAD)
  }

  lemma {:induction false} GroupsOf(n: nat)
    ensures Groups(n) == (n + 2) / 3 && Groups(n) * 4 >= ModTable(n)
  {
    if n >= 3 { GroupsOf(n - 3); }
  }

  lemma ModSmall()
    ensures ModTable(0) == 0 && ModTable(1) == 2 && ModTable(2) == 1
  {
  }

  lemma PadBehind(q: seq<Byte>, t: seq<Byte>, p: nat)
    requires p <= |t|
    ensures (q + t)[..|q + t| - p] == q + t[..|t| - p]
  {
  }

  /** Writing the padding over the last characters completes the encoding. */
  lemma {:induction false} PadFilled(d: seq<Byte>)
    ensures ModTable(|d|) <= |Filled(d)|
    ensures Encoded(d) == Filled(d)[..|Filled(d)| - ModTable(|d|)] + Repeat(ModTable(|d|))
  {
    hide Quad, ModTable, Groups;
    GroupsOf(|d|);
    ModSmall();
    if |d| == 1 {
      assert Filled(d) == Quad(d[0], 0, 0) && Repeat(2) == [PAD, PAD];
    } else if |d| == 2 {
      assert Filled(d) == Quad(d[0], d[1], 0) && Repeat(1) == [PAD];
    } else if |d| >= 3 {
      PadFilled(d[3..]);
      ModStep(|d|);
      PadBehind(Quad(d[0], d[1], d[2]), Filled(d[3..]), ModTable(|d|));
    }
  }

  /** The decoder with its table, which is NULL until it is first needed. */
  class Codec {
    var decodingTable: array?<Entry>

    ghost predicate Valid()
      reads this, decodingTable
    {
      decodingTable != null ==> Built(decodingTable[..])
    }

    constructor ()
      ensures Valid() && decodingTable == null
    {
      decodingTable := null;
    }

    method BuildDecodingTable()
      modifies this
      ensures decodingTable != null && fresh(decodingTable) && Valid()
    {
      var table := new Entry[256];
      decodingTable := table;
      for i := 0 to 64
        invariant decodingTable == table && fresh(table)
        invariant forall k :: 0 <= k < i ==> table[Char(k)] == k
      {
        CharsDiffer(i);
        table[Char(i)] := i;
      }
    }

    /** A fresh zero-terminated text. */
    static method Encode(data: array<Byte>) returns (encoded: array<Byte>)
      ensures fresh(encoded) && encoded[..] == Encoded(data[..]) + [0]
    {
      hide Groups, Filled, Encoded, ModTable, Repeat;
      GroupsOf(data.Length);
      var outputLength := 4 * ((data.Length + 2) / 3) + 1;
      encoded := new Byte[outputLength];
      encoded[outputLength - 1] := 0;
      WriteGroups(data, encoded);
      PadFilled(data[..]);
      WritePads(encoded, ModTable(data.Length));
    }

    /** The loop that overwrites the last characters before the terminator. */
    static method WritePads(encoded: array<Byte>, n: nat)
      requires n < encoded.Length
      modifies encoded
      ensures encoded[..] == old(encoded[..encoded.Length - 1 - n]) + Repeat(n) + old(encoded[encoded.Length - 1..])
    {
      for k := 0 to n
        invariant forall q :: 0 <= q < encoded.Length ==>
                    encoded[q] == if encoded.Length - 1 - k <= q < encoded.Length - 1 then PAD else old(encoded[q])
      {
        encoded[encoded.Length - 1 - k - 1] := PAD;
      }
    }

    /** The loop over groups: everything but the padding. */
    static method WriteGroups(data: array<Byte>, encoded: array<Byte>)
      requires encoded != data && encoded.Length == 4 * Groups(data.Length) + 1
      modifies encoded
      ensures encoded[..encoded.Length - 1] == Filled(data[..])
      ensures encoded[encoded.Length - 1] == old(encoded[encoded.Length - 1])
    {
      hide Groups, Filled, Quad, Char, FromBytes;
      var i, j := 0, 0;
      while i < data.Length
        invariant 0 <= i <= data.Length && 0 <= j == 4 * (Groups(data.Length) - Groups(data.Length - i))
        invariant encoded[encoded.Length - 1] == old(encoded[encoded.Length - 1])
        invariant encoded[..j] + Filled(data[i..]) == Filled(data[..])
      {
        ghost var rest, done := data[i..], encoded[..j];
        var a, b, c: Byte := data[i], 0, 0;
        i := i + 1;
        if i < data.Length { b := data[i]; i := i + 1; }
        if i < data.Length { c := data[i]; i := i + 1; }
        assert b == At(rest, 1) && c == At(rest, 2) && data[i..] == Rest(rest);
        var triple := FromBytes(a, b, c);
        QuadChars(a, b, c);
        encoded[j] := Char(triple / 0x4_0000 % 64);
        encoded[j + 1] := Char(triple / 0x1000 % 64);
        encoded[j + 2] := Char(triple / 64 % 64);
        encoded[j + 3] := Char(triple % 64);
        j := j + 4;
        FilledStep(rest, done, encoded[..j]);
      }
    }

    /** Null for a length that is not divisible by four. */
    method Decode(data: array<Byte>) returns (decoded: array?<Byte>)
      requires Valid() && data.Length > 0
      modifies this
      ensures Valid() && decodingTable != null
      ensures old(decodingTable) != null ==> decodingTable == old(decodingTable)
      ensures (decoded == null) == Decoded(decodingTable[..], data[..]).None?
      ensures decoded != null ==> fresh(decoded) && decoded[..] == Decoded(decodingTable[..], data[..]).value
    {
      hide Triples, Triple, Char, Pads, Quads;
      if decodingTable == null { BuildDecodingTable(); }
      var n := data.Length;
      if n % 4 != 0 { return null; }
      QuadsOf(n);
      var outputLength := n / 4 * 3;
      if data[n - 1] == PAD { outputLength := outputLength - 1; }
      if data[n - 2] == PAD { outputLength := outputLength - 1; }
      PadsOf(data[..]);
      decoded := new Byte[outputLength];
      ReadGroups(data, decoded);
    }

    function SextetOf(c: Byte): (s: int)
      requires decodingTable != null && decodingTable.Length == 256
      reads this, decodingTable
      ensures s == Sextet(decodingTable[..], c)
    {
      if c == PAD then 0 else decodingTable[c] as int % 0x1_0000_0000
    }

    /** The loop over groups, as far as there is room for their bytes. */
    method ReadGroups(data: array<Byte>, decoded: array<Byte>)
      requires decodingTable != null && decodingTable.Length == 256 && data.Length % 4 == 0
      requires decoded != data && (decoded as object) != decodingTable && (decoded as object) != this
      requires 0 <= 3 * Quads(data.Length) - decoded.Length < 3
      modifies decoded
      ensures decoded[..] == Triples(decodingTable[..], data[..])[..decoded.Length]
    {
      hide Triples, Triple, FromSextets, Char, Bytes, Sextet, Built, Quads;
      ghost var text, table, done, g := data[..], decodingTable[..], [], 0;
      assert text[0..] == text;
      var i, j := 0, 0;
      while i < data.Length
        invariant 0 <= i == 4 * g <= data.Length && |done| == 3 * g && j == MinOf(3 * g, decoded.Length)
        invariant Triples(table, text) == done + Triples(table, text[i..])
        invariant forall q :: 0 <= q < j ==> decoded[q] == done[q]
      {
        ghost var here := text[i..];
        var a := SextetOf(data[i]);
        i := i + 1;
        var b := SextetOf(data[i]);
        i := i + 1;
        var c := SextetOf(data[i]);
        i := i + 1;
        var d := SextetOf(data[i]);
        i := i + 1;
        assert here[4..] == text[i..];
        var triple := FromSextets(a, b, c, d);
        TriplesStep(table, here, done, a, b, c, d);
        var x: Byte, y: Byte, z: Byte := triple / 0x1_0000 % 256, triple / 0x100 % 256, triple % 256;
        BytesAre(triple, x, y, z);
        done, g := done + [x, y, z], g + 1;
        if j < decoded.Length { decoded[j] := x; j := j + 1; }
        if j < decoded.Length { decoded[j] := y; j := j + 1; }
        if j < decoded.Length { decoded[j] := z; j := j + 1; }
      }
      TriplesNone(table);
      QuadsTimes(g);
    }
  }

  function MinOf(a: int, b: int): int {
    if a < b then a else b
  }

  lemma BytesAre(triple: int, x: Byte, y: Byte, z: Byte)
    requires x == triple / 0x1_0000 % 256 && y == triple / 0x100 % 256 && z == triple % 256
    ensures Bytes(triple) == [x, y, z]
  {
  }

  lemma PadsOf(t: seq<Byte>)
    requires |t| >= 2
    ensures Pads(t) == (if t[|t| - 1] == PAD then 1 else 0) + (if t[|t| - 2] == PAD then 1 else 0)
  {
  }

  /** The next group contributes three bytes. */
  lemma TriplesStep(table: seq<Entry>, here: seq<Byte>, done: seq<Byte>, a: int, b: int, c: int, d: int)
    requires |table| == 256 && |here| >= 4
    requires a == Sextet(table, here[0]) && b == Sextet(table, here[1]) && c == Sextet(table, here[2]) && d == Sextet(table, here[3])
    ensures done + Triples(table, here) == done + Bytes(FromSextets(a, b, c, d)) + Triples(table, here[4..])
  {
    hide Sextet, FromSextets, Bytes;
    assert Triples(table, here) == Triple(table, here) + Triples(table, here[4..]);
  }

  lemma TriplesNone(table: seq<Entry>)
    requires |table| == 256
    ensures Triples(table, []) == []
  {
  }

  lemma QuadChars(a: Byte, b: Byte, c: Byte)
    ensures var triple := FromBytes(a, b, c);
            Quad(a, b, c) == [Char(triple / 0x4_0000 % 64), Char(triple / 0x1000 % 64), Char(triple / 64 % 64), Char(triple % 64)]
  {
    hide FromBytes, Char;
    HighSextet(FromBytes(a, b, c));
  }

  lemma HighSextet(triple: int)
    requires 0 <= triple < 0x100_0000
    ensures triple / 0x4_0000 % 64 == triple / 0x4_0000
  {
    var high := triple / 0x4_0000;
    assert 0 <= high < 64;
  }

  lemma FilledStep(rest: seq<Byte>, done: seq<Byte>, after: seq<Byte>)
    requires rest != [] && after == done + Quad(rest[0], At(rest, 1), At(rest, 2))
    ensures after + Filled(Rest(rest)) == done + Filled(rest)
    ensures Groups(|Rest(rest)|) == Groups(|rest|) - 1
  {
    hide Quad, Filled, Groups, Rest, At;
    FewerGroups(rest);
    FilledFirst(rest);
    var q, more := Quad(rest[0], At(rest, 1), At(rest, 2)), Filled(Rest(rest));
    assert done + q + more == done + (q + more);
  }

  lemma FilledFirst(d: seq<Byte>)
    requires d != []
    ensures Filled(d) == Quad(d[0], At(d, 1), At(d, 2)) + Filled(Rest(d))
  {
    hide Quad, At, Groups, Rest;
  }

  lemma FewerGroups(rest: seq<Byte>)
    requires rest != []
    ensures Groups(|Rest(rest)|) == Groups(|rest|) - 1
  {
  }

  lemma CharsDiffer(i: int)
    requires 0 <= i < 64
    ensures forall k :: 0 <= k < i ==> Char(k) != Char(i)
  {
  }
}
