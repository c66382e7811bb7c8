/** The INI editor: a list of lines, an index of the keys they define, and edits that keep the two in step. */
module Ini {
  import opened Values

  // ----- the two line patterns -----

  predicate IsSpace(c: char) {
    c == ' ' || ('\t' <= c <= '\r')
  }

  predicate IsKeyChar(c: char) {
    'a' <= c <= 'z' || 'A' <= c <= 'Z' || '0' <= c <= '9' || c in "_.[]-"
  }

  /** The first place from i on that holds c; the end if there is none. */
  function FindChar(s: string, c: char, i: nat): (r: nat)
    requires i <= |s|
    ensures i <= r <= |s|
    ensures r < |s| ==> s[r] == c
    ensures forall k :: i <= k < r ==> s[k] != c
    decreases |s| - i
  {
    if i == |s| || s[i] == c then i else FindChar(s, c, i + 1)
  }

  /** The first place from i on that is not a space. */
  function SkipSpaces(s: string, i: nat): (r: nat)
    requires i <= |s|
    ensures i <= r <= |s|
    ensures r < |s| ==> !IsSpace(s[r])
    ensures forall k :: i <= k < r ==> IsSpace(s[k])
    decreases |s| - i
  {
    if i == |s| || !IsSpace(s[i]) then i else SkipSpaces(s, i + 1)
  }

  /** The first place from i on that is not part of a key. */
  function SkipKey(s: string, i: nat): (r: nat)
    requires i <= |s|
    ensures i <= r <= |s|
    ensures r < |s| ==> !IsKeyChar(s[r])
    ensures forall k :: i <= k < r ==> IsKeyChar(s[k])
    decreases |s| - i
  {
    if i == |s| || !IsKeyChar(s[i]) then i else SkipKey(s, i + 1)
  }

  /** The first match of a bracketed, non-empty name without a closing bracket, from place i on. */
  function HeaderName(s: string, i: nat): Option<string>
    requires i <= |s|
    decreases |s| - i
  {
    var open := FindChar(s, '[', i);
    if open == |s| then None else
    var close := FindChar(s, ']', open + 1);
    if close == |s| then None
    else if close > open + 1 then Some(s[open + 1..close])
    else HeaderName(s, open + 1)
  }

  datatype Line = Header(name: string) | Pair(key: string, value: string) | Other

  /** A line is tried as a section header first. */
  function Classify(s: string): Line {
    var h := HeaderName(s, 0);
    if h.Some? then Header(h.value) else PairOf(s)
  }

  /** Key characters at the start of the line, an equals sign, and the rest of the line as the value;
      spaces around the sign do not count. */
  function PairOf(s: string): Line {
    var k := SkipKey(s, 0);
    var e := SkipSpaces(s, k);
    if k == 0 || e == |s| || s[e] != '=' then Other else
    var v := s[SkipSpaces(s, e + 1)..];
    var nl := FindChar(v, '\n', 0);
    if nl == |v| then Pair(s[..k], v)
    else if nl == |v| - 1 then Pair(s[..k], v[..nl])
    else Other
  }

  predicate Blank(s: string) {
    SkipSpaces(s, 0) == |s|
  }

  // ----- keys -----

  /** The part of a full key behind its first dot; all of it if there is none. */
  function GetKey(key: string): string {
    var dot := FindChar(key, '.', 0);
    if dot == |key| then key else key[dot + 1..]
  }

  function GetSection(key: string): string {
    var dot := FindChar(key, '.', 0);
    if dot == |key| then "global" else key[..dot]
  }

  function FullKey(section: string, key: string): string {
    section + "." + key
  }

  /** A fully qualified key is put together again by the parser. */
  lemma Qualified(key: string)
    ensures '.' in key <==> FullKey(GetSection(key), GetKey(key)) == key
  {
    var dot := FindChar(key, '.', 0);
    if dot < |key| {
      assert key == key[..dot] + "." + key[dot + 1..];
    } else {
      assert |FullKey(GetSection(key), GetKey(key))| > |key|;
    }
  }

  // ----- what a list of lines means -----

  const GLOBAL := "global"

  /** The section that line i belongs to; a header belongs to its own section. */
  function SectionAt(lines: seq<string>, i: int): string
    requires i < |lines|
    decreases i
  {
    if i < 0 then GLOBAL else
    var c := Classify(lines[i]);
    if c.Header? then c.name else SectionAt(lines, i - 1)
  }

  /** Line i gives a value to the full key k. */
  predicate Defines(lines: seq<string>, i: int, k: string) {
    0 <= i < |lines| && Classify(lines[i]).Pair? && FullKey(SectionAt(lines, i), Classify(lines[i]).key) == k
  }

  ghost predicate Unique(lines: seq<string>) {
    forall i, j, k :: Defines(lines, i, k) && Defines(lines, j, k) ==> i == j
  }

  // ----- the parser -----

  datatype Entry = Entry(value: string, offset: nat)

  /** What the parser has found after some lines. */
  datatype Index = Index(section: string, keys: map<string, Entry>, endings: map<string, int>)

  /** One line, counted from 1.  (A key that is defined twice keeps its first entry here; the hash table
      behind it makes no such promise.) */
  function Scan(x: Index, line: string, lineno: nat): Index {
    var c := Classify(line);
    var section := if c.Header? then c.name else x.section;
    var k := if c.Pair? then FullKey(section, c.key) else "";
    Index(section,
          if c.Pair? && k !in x.keys then x.keys[k := Entry(c.value, lineno)] else x.keys,
          if Blank(line) then x.endings else x.endings[section := lineno])
  }

  function Parsed(lines: seq<string>, n: nat): Index
    requires n <= |lines|
  {
    if n == 0 then Index(GLOBAL, map[], map[]) else Scan(Parsed(lines, n - 1), lines[n - 1], n)
  }

  lemma {:induction false} SectionAgrees(lines: seq<string>, n: nat)
    requires n <= |lines|
    ensures Parsed(lines, n).section == SectionAt(lines, n - 1)
  {
    hide Classify, Blank;
    if n > 0 { SectionAgrees(lines, n - 1); }
  }

  /** The entry of key k, if it has one, is that of a line which defines it, among the first n. */
  ghost predicate Indexed(lines: seq<string>, x: Index, n: nat, k: string)
    requires n <= |lines|
  {
    k in x.keys ==>
      var e := x.keys[k];
      1 <= e.offset <= n && Defines(lines, e.offset - 1, k) && Classify(lines[e.offset - 1]).value == e.value
  }

  lemma {:induction false} KeyAgrees(lines: seq<string>, n: nat, k: string)
    requires n <= |lines|
    ensures Indexed(lines, Parsed(lines, n), n, k)
    ensures forall i :: i < n && Defines(lines, i, k) ==> k in Parsed(lines, n).keys
  {
    hide Classify, Blank, FullKey, SectionAt;
    if n > 0 {
      KeyAgrees(lines, n - 1, k);
      SectionAgrees(lines, n - 1);
      SectionStep(lines, n - 1);
    }
  }

  lemma SectionStep(lines: seq<string>, i: nat)
    requires i < |lines|
    ensures SectionAt(lines, i)
         == if Classify(lines[i]).Header? then Classify(lines[i]).name else SectionAt(lines, i - 1)
  {
    hide Classify;
  }

  /** Line i is the last of the first n lines that is not blank and belongs to section s. */
  predicate Ends(lines: seq<string>, i: int, s: string, n: nat)
    requires n <= |lines|
  {
    0 <= i < n && !Blank(lines[i]) && SectionAt(lines, i) == s
    && forall j :: i < j < n && !Blank(lines[j]) ==> SectionAt(lines, j) != s
  }

  lemma {:induction false} EndingAgrees(lines: seq<string>, n: nat, s: string)
    requires n <= |lines|
    ensures s in Parsed(lines, n).endings ==> Ends(lines, Parsed(lines, n).endings[s] - 1, s, n)
    ensures s !in Parsed(lines, n).endings ==> forall j :: 0 <= j < n && !Blank(lines[j]) ==> SectionAt(lines, j) != s
  {
    hide Classify, Blank, FullKey, SectionAt;
    if n > 0 {
      EndingAgrees(lines, n - 1, s);
      SectionAgrees(lines, n - 1);
      SectionStep(lines, n - 1);
    }
  }

  /** In every state the index and the lines agree: each indexed offset is that of a line which defines
      its key with the indexed value, each line that defines a key is indexed, and the ending of a
      section is its last line that is not blank. */
  lemma IndexAgrees(lines: seq<string>, k: string, s: string)
    ensures var x := Parsed(lines, |lines|);
            && Indexed(lines, x, |lines|, k)
            && (forall i :: Defines(lines, i, k) ==> k in x.keys)
            && (s in x.endings ==> Ends(lines, x.endings[s] - 1, s, |lines|))
            && (s !in x.endings ==> forall j :: 0 <= j < |lines| && !Blank(lines[j]) ==> SectionAt(lines, j) != s)
  {
    hide Parsed, Classify, Blank, SectionAt, Ends;
    KeyAgrees(lines, |lines|, k);
    EndingAgrees(lines, |lines|, s);
  }

  /** What the index says about a key. */
  function ValueOf(lines: seq<string>, k: string): Option<string> {
    var keys := Parsed(lines, |lines|).keys;
    if k in keys then Some(keys[k].value) else None
  }

  /** The value of a key is that of a line which defines it. */
  lemma LookupDefines(lines: seq<string>, k: string)
    ensures ValueOf(lines, k).Some? <==> exists i :: Defines(lines, i, k)
    ensures ValueOf(lines, k).Some? ==> exists i :: Defines(lines, i, k) && Classify(lines[i]).value == ValueOf(lines, k).value
  {
    hide Parsed, Classify, SectionAt;
    KeyAgrees(lines, |lines|, k);
    var keys := Parsed(lines, |lines|).keys;
    if k in keys {
      var i := keys[k].offset - 1;
      assert Defines(lines, i, k);
    }
  }

  // ----- edits -----

  /** The line that stores a key. */
  function LineOf(key: string, val: string): string {
    GetKey(key) + " = " + val
  }

  const HEADER_MAX := 1022

  /** A section header, cut off where the buffer ends. */
  function HeaderOf(section: string): string {
    var line := "[" + section + "]";
    if |line| > HEADER_MAX then line[..HEADER_MAX] else line
  }

  function Inserted(lines: seq<string>, p: nat, line: string): (r: seq<string>)
    requires p <= |lines|
    ensures |r| == |lines| + 1
  {
    lines[..p] + [line] + lines[p..]
  }

  function Removed(lines: seq<string>, i: nat): (r: seq<string>)
    requires i < |lines|
    ensures |r| == |lines| - 1
  {
    lines[..i] + lines[i + 1..]
  }

  /** The lines after a key has been set: in place if it is there, otherwise behind the last line of its
      section, otherwise in a new section at the end. */
  function Added(lines: seq<string>, key: string, val: string): seq<string> {
    hide Parsed, Classify;
    var x, line := Parsed(lines, |lines|), LineOf(key, val);
    IndexAgrees(lines, key, GetSection(key));
    if key in x.keys then lines[x.keys[key].offset - 1 := line]
    else if GetSection(key) in x.endings then Inserted(lines, x.endings[GetSection(key)], line)
    else lines + ["", HeaderOf(GetSection(key)), line]
  }

  function RemovedKey(lines: seq<string>, key: string): seq<string> {
    hide Parsed, Classify;
    var x := Parsed(lines, |lines|);
    KeyAgrees(lines, |lines|, key);
    if key in x.keys then Removed(lines, x.keys[key].offset - 1) else lines
  }

  // ----- how edits move definitions -----

  /** A line that is no header moves the sections of the lines behind it, and changes none. */
  lemma {:induction false} InsertedSection(lines: seq<string>, p: nat, line: string, j: int)
    requires p <= |lines| && j <= |lines| && !Classify(line).Header?
    ensures SectionAt(Inserted(lines, p, line), j) == SectionAt(lines, if j < p then j else j - 1)
    decreases j
  {
    hide Classify;
    if j >= 0 { InsertedSection(lines, p, line, j - 1); }
  }

  /** The full key that a line defines in a section. */
  predicate Gives(section: string, line: string, k: string) {
    Classify(line).Pair? && FullKey(section, Classify(line).key) == k
  }

  lemma InsertedDefines(lines: seq<string>, p: nat, line: string, j: int, k: string)
    requires p <= |lines| && !Classify(line).Header?
    ensures Defines(Inserted(lines, p, line), j, k)
       <==> if j < p then Defines(lines, j, k) else if j == p then Gives(SectionAt(lines, p - 1), line, k) else Defines(lines, j - 1, k)
  {
    hide Classify, SectionAt;
    if 0 <= j <= |lines| { InsertedSection(lines, p, line, j); }
  }

  lemma LookupIs(lines: seq<string>, i: int, k: string)
    requires Unique(lines) && Defines(lines, i, k)
    ensures ValueOf(lines, k) == Some(Classify(lines[i]).value)
  {
    hide Parsed, ValueOf, Classify, SectionAt;
    LookupDefines(lines, k);
    var j :| Defines(lines, j, k) && Classify(lines[j]).value == ValueOf(lines, k).value;
  }

  lemma LookupNone(lines: seq<string>, k: string)
    requires forall i :: !Defines(lines, i, k)
    ensures ValueOf(lines, k) == None
  {
    hide Parsed, ValueOf, Defines;
    LookupDefines(lines, k);
  }

  /** A definition in front of or behind the new line is one of the old lines. */
  lemma OldDefinition(lines: seq<string>, p: nat, line: string, j: int, k: string)
    requires p <= |lines| && !Classify(line).Header? && Defines(Inserted(lines, p, line), j, k) && j != p
    ensures var i := if j < p then j else j - 1;
            Defines(lines, i, k) && Inserted(lines, p, line)[j] == lines[i]
  {
    hide Classify, SectionAt;
    InsertedDefines(lines, p, line, j, k);
  }

  lemma KeptDefinition(lines: seq<string>, p: nat, line: string, i: int, k: string)
    requires p <= |lines| && !Classify(line).Header? && Defines(lines, i, k)
    ensures Defines(Inserted(lines, p, line), if i < p then i else i + 1, k)
  {
    hide Classify, SectionAt;
    InsertedDefines(lines, p, line, if i < p then i else i + 1, k);
  }

  /** A new line that is no header adds the key it defines, and changes no other. */
  lemma InsertedLookup(lines: seq<string>, p: nat, line: string, k: string)
    requires p <= |lines| && Unique(lines) && !Classify(line).Header?
    requires Gives(SectionAt(lines, p - 1), line, k) ==> forall i :: !Defines(lines, i, k)
    ensures ValueOf(Inserted(lines, p, line), k)
         == if Gives(SectionAt(lines, p - 1), line, k) then Some(Classify(line).value) else ValueOf(lines, k)
  {
    hide Parsed, ValueOf, Classify, SectionAt, Gives;
    var r := Inserted(lines, p, line);
    InsertedDefines(lines, p, line, p, k);
    LookupDefines(r, k);
    LookupDefines(lines, k);
    if ValueOf(r, k).Some? {
      var j :| Defines(r, j, k) && Classify(r[j]).value == ValueOf(r, k).value;
      if j != p {
        OldDefinition(lines, p, line, j, k);
        LookupIs(lines, if j < p then j else j - 1, k);
      }
    } else if ValueOf(lines, k).Some? {
      var i :| Defines(lines, i, k);
      KeptDefinition(lines, p, line, i, k);
    }
  }

  lemma SameLine(lines: seq<string>, i: int, j: int, k: string)
    requires Unique(lines) && Defines(lines, i, k) && Defines(lines, j, k)
    ensures i == j
  {
  }

  lemma InsertedUnique(lines: seq<string>, p: nat, line: string)
    requires p <= |lines| && Unique(lines) && !Classify(line).Header?
    requires forall i, k :: Defines(lines, i, k) ==> !Gives(SectionAt(lines, p - 1), line, k)
    ensures Unique(Inserted(lines, p, line))
  {
    hide Classify, SectionAt, Defines, Gives;
    var r := Inserted(lines, p, line);
    forall i, j, k | Defines(r, i, k) && Defines(r, j, k) ensures i == j {
      InsertedDefines(lines, p, line, i, k);
      InsertedDefines(lines, p, line, j, k);
    }
  }

  /** Taking out a line that defines a key takes out that key, and changes no other. */
  lemma RemovedLookup(lines: seq<string>, i: nat, key: string, k: string)
    requires Unique(lines) && Defines(lines, i, key)
    ensures Unique(Removed(lines, i)) && (forall j :: !Defines(Removed(lines, i), j, key))
    ensures ValueOf(Removed(lines, i), k) == if k == key then None else ValueOf(lines, k)
  {
    hide Parsed, ValueOf, Classify, SectionAt;
    var r := Removed(lines, i);
    assert Inserted(r, i, lines[i]) == lines;
    forall a, b, q | Defines(r, a, q) && Defines(r, b, q) ensures a == b {
      KeptDefinition(r, i, lines[i], a, q);
      KeptDefinition(r, i, lines[i], b, q);
      SameLine(lines, if a < i then a else a + 1, if b < i then b else b + 1, q);
    }
    forall j ensures !Defines(r, j, key) {
      if Defines(r, j, key) {
        KeptDefinition(r, i, lines[i], j, key);
        SameLine(lines, i, if j < i then j else j + 1, key);
      }
    }
    InsertedDefines(r, i, lines[i], i, key);
    hide Defines;
    if k == key { LookupNone(r, k); } else { InsertedLookup(r, i, lines[i], k); }
  }

  // ----- generated lines -----

  lemma {:induction false} SkipKeyIs(s: string, i: nat, r: nat)
    requires i <= r <= |s| && (forall k :: i <= k < r ==> IsKeyChar(s[k])) && (r < |s| ==> !IsKeyChar(s[r]))
    ensures SkipKey(s, i) == r
    decreases r - i
  {
    hide IsKeyChar;
    if i < r { SkipKeyIs(s, i + 1, r); }
  }

  lemma {:induction false} SkipSpacesIs(s: string, i: nat, r: nat)
    requires i <= r <= |s| && (forall k :: i <= k < r ==> IsSpace(s[k])) && (r < |s| ==> !IsSpace(s[r]))
    ensures SkipSpaces(s, i) == r
    decreases r - i
  {
    hide IsSpace;
    if i < r { SkipSpacesIs(s, i + 1, r); }
  }

  predicate KeyText(g: string) {
    g != "" && forall i :: 0 <= i < |g| ==> IsKeyChar(g[i])
  }

  predicate ValueText(v: string) {
    '\n' !in v && (v != "" ==> !IsSpace(v[0]))
  }

  /** A generated line reads as the pair it was made of exactly if the key has only key characters and the
      value neither starts with a space nor breaks the line. */
  lemma GeneratedPair(g: string, v: string)
    ensures PairOf(g + " = " + v) == Pair(g, v) <==> KeyText(g) && ValueText(v)
  {
    hide SkipKey, SkipSpaces, FindChar;
    var s := g + " = " + v;
    assert s[|g|] == ' ' && s[|g| + 1] == '=' && s[|g| + 2] == ' ' && s[|g| + 3..] == v && s[..|g|] == g;
    if KeyText(g) && ValueText(v) {
      SkipKeyIs(s, 0, |g|);
      SkipSpacesIs(s, |g|, |g| + 1);
      SkipSpacesIs(s, |g| + 2, |g| + 3);
    } else if PairOf(s) == Pair(g, v) {
      GeneratedOnly(g, v);
    }
  }

  lemma GeneratedOnly(g: string, v: string)
    requires PairOf(g + " = " + v) == Pair(g, v)
    ensures KeyText(g) && ValueText(v)
  {
    hide SkipKey, SkipSpaces, FindChar;
    var s := g + " = " + v;
    var k := SkipKey(s, 0);
    var e := SkipSpaces(s, k);
    var start := SkipSpaces(s, e + 1);
    var w := s[start..];
    assert s[..k] == g;
    assert forall i :: 0 <= i < |g| ==> s[i] == g[i];
    if v != "" { assert w[0] == v[0] == s[start]; }
  }

  /** A line generated for a key stores exactly that key, with its value, only in the section of the key,
      and only if it reads as the pair it was made of. */
  lemma GeneratedGives(section: string, key: string, val: string)
    requires !Classify(LineOf(key, val)).Header?
    ensures Gives(section, LineOf(key, val), key) && Classify(LineOf(key, val)).value == val
       <==> '.' in key && section == GetSection(key) && Classify(LineOf(key, val)) == Pair(GetKey(key), val)
  {
    hide FindChar, HeaderName, PairOf;
    var g, line := GetKey(key), LineOf(key, val);
    Qualified(key);
    if Gives(section, line, key) && Classify(line).value == val {
      var k := Classify(line).key;
      PairShape(g, val, k);
      // If spaces were lost, the full key would end with a space, but the line's key does not.
      KeyEnds(key);
      assert FullKey(section, k)[|key| - 1] == k[|k| - 1];
      SectionOnly(section, key);
    }
  }

  /** If a generated line reads as a pair with the right value, its key can only have lost spaces at its end. */
  lemma PairShape(g: string, v: string, k: string)
    requires PairOf(g + " = " + v) == Pair(k, v)
    ensures KeyText(k) && k <= g && (k != g ==> IsSpace(g[|g| - 1]))
  {
    hide SkipKey, SkipSpaces, FindChar, IsSpace, IsKeyChar;
    var s := g + " = " + v;
    assert s[|g|] == ' ' && s[|g| + 1] == '=' && s[..|g|] == g;
    assert IsSpace(' ') && !IsKeyChar(' ') && !IsSpace('=') by { Spaces(); }
    var n := SkipKey(s, 0);
    var e := SkipSpaces(s, n);
    var start := SkipSpaces(s, e + 1);
    assert n <= |g|;
    assert k == s[..n];
    assert forall i :: 0 <= i < n ==> s[i] == g[i];
    assert k == g[..n];
    assert start >= |g| + 2;
    assert e < |g| ==> start <= |g| + 1;
    assert e == |g| + 1;
    if n < |g| { assert IsSpace(s[|g| - 1]); }
  }

  lemma Spaces()
    ensures IsSpace(' ') && !IsKeyChar(' ') && !IsSpace('=')
  {
  }

  lemma KeyEnds(key: string)
    requires GetKey(key) != ""
    ensures key != "" && key[|key| - 1] == GetKey(key)[|GetKey(key)| - 1]
  {
  }

  lemma SectionOnly(section: string, key: string)
    requires FullKey(section, GetKey(key)) == key
    ensures '.' in key && section == GetSection(key)
  {
    var dot := FindChar(key, '.', 0);
    assert |GetKey(key)| < |key|;
    assert key == key[..dot] + "." + key[dot + 1..];
    assert |section| == dot;
    assert section == FullKey(section, GetKey(key))[..dot];
  }

  // ----- what adding and removing do -----

  lemma {:induction false} AppendedSection(lines: seq<string>, line: string, j: int)
    requires j < |lines|
    ensures SectionAt(lines + [line], j) == SectionAt(lines, j)
    decreases j
  {
    hide Classify;
    if j >= 0 { AppendedSection(lines, line, j - 1); }
  }

  /** A header at the end, or another line that is no pair, changes no key. */
  lemma AppendedHeader(lines: seq<string>, line: string, k: string)
    requires !Classify(line).Pair?
    ensures Unique(lines) ==> Unique(lines + [line]) && ValueOf(lines + [line], k) == ValueOf(lines, k)
  {
    hide Classify, Parsed, ValueOf, SectionAt;
    var r := lines + [line];
    SectionStep(r, |lines|);
    forall j, q ensures Defines(r, j, q) <==> Defines(lines, j, q) {
      if 0 <= j < |lines| { AppendedSection(lines, line, j); }
    }
    LookupDefines(r, k);
    if Unique(lines) {
      assert Unique(r) by { SameDefinitions(lines, r); }
      if i :| Defines(lines, i, k) {
        LookupIs(lines, i, k);
        LookupIs(r, i, k);
      } else {
        LookupNone(lines, k);
        LookupNone(r, k);
      }
    }
  }

  lemma SameDefinitions(lines: seq<string>, r: seq<string>)
    requires Unique(lines) && forall j, q :: Defines(r, j, q) <==> Defines(lines, j, q)
    ensures Unique(r)
  {
    hide Defines;
  }

  /** The offset and the ending that the index holds. */
  function OffsetOf(lines: seq<string>, key: string): (i: nat)
    requires ValueOf(lines, key).Some?
    ensures i < |lines| && Defines(lines, i, key)
  {
    hide Classify;
    KeyAgrees(lines, |lines|, key);
    Parsed(lines, |lines|).keys[key].offset - 1
  }

  function EndingOf(lines: seq<string>, section: string): (p: Option<int>)
    ensures p.Some? ==> 1 <= p.value <= |lines| && SectionAt(lines, p.value - 1) == section
  {
    hide Classify, Blank, Parsed, SectionAt;
    EndingWithin(lines, section);
    var endings := Parsed(lines, |lines|).endings;
    if section in endings then Some(endings[section]) else None
  }

  lemma EndingWithin(lines: seq<string>, section: string)
    ensures var endings := Parsed(lines, |lines|).endings;
            section in endings ==> 1 <= endings[section] <= |lines| && SectionAt(lines, endings[section] - 1) == section
  {
    hide Classify, Blank, Parsed;
    EndingAgrees(lines, |lines|, section);
  }

  lemma AddedIs(lines: seq<string>, key: string, val: string)
    ensures Added(lines, key, val) ==
            var line, section := LineOf(key, val), GetSection(key);
            if ValueOf(lines, key).Some? then lines[OffsetOf(lines, key) := line]
            else if EndingOf(lines, section).Some? then Inserted(lines, EndingOf(lines, section).value, line)
            else lines + ["", HeaderOf(section), line]
  {
    hide Classify, GetSection, Parsed, LineOf, HeaderOf;
  }

  lemma LookupEmpty(lines: seq<string>, k: string)
    requires ValueOf(lines, k).None?
    ensures forall i :: !Defines(lines, i, k)
  {
    LookupDefines(lines, k);
  }

  lemma EmptyLine()
    ensures Classify("") == Other && forall section, k :: !Gives(section, "", k)
  {
  }

  /** Where the line of a key is in the lines after the key has been set. */
  function PlaceOf(lines: seq<string>, key: string): nat {
    if ValueOf(lines, key).Some? then OffsetOf(lines, key)
    else if EndingOf(lines, GetSection(key)).Some? then EndingOf(lines, GetSection(key)).value
    else |lines| + 2
  }

  /** The other lines: what was there, without an old line of the key, and with a new header if need be. */
  function Rest(lines: seq<string>, key: string): (r: seq<string>)
    ensures PlaceOf(lines, key) <= |r|
  {
    if ValueOf(lines, key).Some? then Removed(lines, OffsetOf(lines, key))
    else if EndingOf(lines, GetSection(key)).Some? then lines
    else lines + ["", HeaderOf(GetSection(key))]
  }

  /** Adding puts one line in its place, and every other line survives in order. */
  lemma AddedInserts(lines: seq<string>, key: string, val: string)
    ensures Added(lines, key, val) == Inserted(Rest(lines, key), PlaceOf(lines, key), LineOf(key, val))
  {
    hide Classify, ValueOf, SectionAt, GetSection, GetKey, LineOf, Added, OffsetOf, EndingOf, HeaderOf;
    AddedIs(lines, key, val);
  }

  /** The section in which the line of a key is put: where the key was, its own section if that is there,
      otherwise what the new header starts. */
  function Landing(lines: seq<string>, key: string): string {
    SectionAt(Rest(lines, key), PlaceOf(lines, key) - 1)
  }

  /** The key will be found again where its line is put: it is fully qualified, the line lands in its section,
      and reads as the pair it was made of. */
  predicate Stored(lines: seq<string>, key: string, val: string) {
    '.' in key && Landing(lines, key) == GetSection(key) && Classify(LineOf(key, val)) == Pair(GetKey(key), val)
  }

  /** A section has to be started, but its header has no closing bracket where it should, and reads as a
      pair. */
  predicate StartsPair(lines: seq<string>, key: string) {
    ValueOf(lines, key).None? && EndingOf(lines, GetSection(key)).None? && Classify(HeaderOf(GetSection(key))).Pair?
  }

  /** The rest defines the same keys but the one that is set. */
  lemma RestDefines(lines: seq<string>, key: string, k: string)
    requires Unique(lines) && !StartsPair(lines, key)
    ensures Unique(Rest(lines, key)) && forall i :: !Defines(Rest(lines, key), i, key)
    ensures ValueOf(Rest(lines, key), k) == if k == key then None else ValueOf(lines, k)
  {
    hide Classify, ValueOf, SectionAt, Defines, GetSection, OffsetOf, EndingOf, HeaderOf;
    if ValueOf(lines, key).Some? {
      var i := OffsetOf(lines, key);
      RemovedLookup(lines, i, key, k);
      assert Inserted(Removed(lines, i), i, lines[i]) == lines;
    } else {
      LookupEmpty(lines, key);
      if EndingOf(lines, GetSection(key)).None? { AppendedRest(lines, HeaderOf(GetSection(key)), key, k); }
    }
  }

  lemma LandsWhereItWas(lines: seq<string>, key: string)
    requires ValueOf(lines, key).Some?
    ensures Landing(lines, key) == SectionAt(lines, OffsetOf(lines, key))
  {
    hide Classify, ValueOf, SectionAt, Defines, GetSection, OffsetOf, EndingOf, HeaderOf;
    var i := OffsetOf(lines, key);
    assert Inserted(Removed(lines, i), i, lines[i]) == lines;
    DefinesPair(lines, i, key);
    InsertedSection(Removed(lines, i), i, lines[i], i);
  }

  /** Where a section comes from: from nowhere, or from a header. */
  lemma {:induction false} SectionFrom(lines: seq<string>, j: int)
    requires j < |lines|
    ensures SectionAt(lines, j) == GLOBAL || exists i :: 0 <= i <= j && !Blank(lines[i]) && SectionAt(lines, i) == SectionAt(lines, j)
    decreases j
  {
    hide Blank, Classify;
    if j >= 0 {
      if Classify(lines[j]).Header? { HeaderNotBlank(lines[j]); } else { SectionFrom(lines, j - 1); }
    }
  }

  lemma HeaderNotBlank(s: string)
    requires Classify(s).Header?
    ensures !Blank(s)
  {
    assert exists i :: 0 <= i < |s| && s[i] == '[';
    hide SkipSpaces, FindChar, HeaderName;
  }

  lemma GlobalHeader()
    ensures Classify(HeaderOf(GLOBAL)) == Header(GLOBAL)
  {
    var s := "[global]";
    assert HeaderOf(GLOBAL) == s;
    assert FindChar(s, '[', 0) == 0;
    assert FindChar(s, ']', 7) == 7;
    assert FindChar(s, ']', 4) == 7 by { assert FindChar(s, ']', 6) == 7; }
    assert FindChar(s, ']', 1) == 7 by { assert FindChar(s, ']', 3) == 7; }
    assert s[1..7] == GLOBAL;
  }

  /** A header that reads as a pair puts the line into a section that is not that of the key. */
  lemma PairLandsElsewhere(lines: seq<string>, key: string)
    requires StartsPair(lines, key)
    ensures Landing(lines, key) != GetSection(key)
  {
    EmptyLine();
    GlobalHeader();
    hide Classify, ValueOf, Defines, GetSection, HeaderOf, Parsed, Blank, SectionAt;
    var header, r := HeaderOf(GetSection(key)), Rest(lines, key);
    var q := lines + [""];
    assert q + [header] == r;
    SectionStep(r, |lines| + 1);
    AppendedSection(q, header, |lines|);
    SectionStep(q, |lines|);
    AppendedSection(lines, "", |lines| - 1);
    SectionFrom(lines, |lines| - 1);
    EndingAgrees(lines, |lines|, GetSection(key));
  }

  lemma DefinesPair(lines: seq<string>, i: int, key: string)
    requires Defines(lines, i, key)
    ensures 0 <= i < |lines| && Classify(lines[i]).Pair?
  {
  }

  lemma AppendedRest(lines: seq<string>, header: string, key: string, k: string)
    requires Unique(lines) && !Classify(header).Pair? && forall i :: !Defines(lines, i, key)
    ensures Unique(lines + ["", header]) && forall i :: !Defines(lines + ["", header], i, key)
    ensures ValueOf(lines + ["", header], k) == ValueOf(lines, k)
  {
    EmptyLine();
    hide Classify, ValueOf, SectionAt, Gives, Defines;
    var r := Inserted(lines, |lines|, "");
    assert r == lines + [""] && r + [header] == lines + ["", header];
    InsertedUnique(lines, |lines|, "");
    LookupNone(lines, key);
    InsertedLookup(lines, |lines|, "", key);
    InsertedLookup(lines, |lines|, "", k);
    AppendedHeader(r, header, key);
    AppendedHeader(r, header, k);
    LookupEmpty(r + [header], key);
  }

  /** What every key looks up to after a key has been set, given that the new line is no header and does
      not define some third key. */
  lemma AddedLookup(lines: seq<string>, key: string, val: string, k: string)
    requires Unique(lines) && !Classify(LineOf(key, val)).Header? && !StartsPair(lines, key)
    requires Gives(Landing(lines, key), LineOf(key, val), k) ==> k == key || ValueOf(lines, k).None?
    ensures ValueOf(Added(lines, key, val), k)
         == if Gives(Landing(lines, key), LineOf(key, val), k) then Some(Classify(LineOf(key, val)).value)
            else if k == key then None
            else ValueOf(lines, k)
  {
    hide Classify, ValueOf, SectionAt, Defines, Gives, LineOf, Added, Rest, PlaceOf, StartsPair;
    var r := Rest(lines, key);
    AddedInserts(lines, key, val);
    RestDefines(lines, key, k);
    if ValueOf(r, k).None? { LookupEmpty(r, k); }
    InsertedLookup(r, PlaceOf(lines, key), LineOf(key, val), k);
  }

  /** For all keys and values: after adding, the key has the value, and has it from the line that was
      added, if and only if the key is fully qualified, the line lands in the key's section, and it reads as
      the pair it was made of. */
  lemma AddFinds(lines: seq<string>, key: string, val: string)
    requires Unique(lines)
    ensures ValueOf(Added(lines, key, val), key) == Some(val) && OffsetOf(Added(lines, key, val), key) == PlaceOf(lines, key)
       <==> Stored(lines, key, val)
  {
    hide Classify, ValueOf, SectionAt, GetSection, GetKey, LineOf, Added, OffsetOf, Landing, StartsPair, PlaceOf, Rest;
    var after := Added(lines, key, val);
    if Stored(lines, key, val) {
      if StartsPair(lines, key) { PairLandsElsewhere(lines, key); }
      AddedLookup(lines, key, val, key);
      GeneratedGives(Landing(lines, key), key, val);
      StoredAt(lines, key, val);
    } else if ValueOf(after, key) == Some(val) && OffsetOf(after, key) == PlaceOf(lines, key) {
      FoundAt(lines, key, val);
      GeneratedGives(Landing(lines, key), key, val);
    }
  }

  /** The line that was added is the one that defines the key. */
  lemma StoredAt(lines: seq<string>, key: string, val: string)
    requires Unique(lines) && Stored(lines, key, val)
    ensures Unique(Added(lines, key, val)) && Defines(Added(lines, key, val), PlaceOf(lines, key), key)
    ensures ValueOf(Added(lines, key, val), key).Some? ==> OffsetOf(Added(lines, key, val), key) == PlaceOf(lines, key)
  {
    hide Classify, ValueOf, SectionAt, Defines, GetSection, GetKey, LineOf, Added, Rest, PlaceOf, Landing, StartsPair, OffsetOf;
    var r, p, line := Rest(lines, key), PlaceOf(lines, key), LineOf(key, val);
    if StartsPair(lines, key) { PairLandsElsewhere(lines, key); }
    Qualified(key);
    AddedInserts(lines, key, val);
    RestDefines(lines, key, key);
    LandingIs(lines, key);
    InsertedUnique(r, p, line);
    InsertedDefines(r, p, line, p, key);
    if ValueOf(Added(lines, key, val), key).Some? { SameLine(Added(lines, key, val), OffsetOf(Added(lines, key, val), key), p, key); }
  }

  lemma LandingIs(lines: seq<string>, key: string)
    ensures Landing(lines, key) == SectionAt(Rest(lines, key), PlaceOf(lines, key) - 1)
  {
  }

  lemma FoundAt(lines: seq<string>, key: string, val: string)
    requires var r := Added(lines, key, val); ValueOf(r, key) == Some(val) && OffsetOf(r, key) == PlaceOf(lines, key)
    ensures !Classify(LineOf(key, val)).Header?
    ensures Gives(Landing(lines, key), LineOf(key, val), key) && Classify(LineOf(key, val)).value == val
  {
    hide Classify, SectionAt, GetSection, GetKey, LineOf, Added, PlaceOf, Rest;
    var r, p := Added(lines, key, val), PlaceOf(lines, key);
    AddedInserts(lines, key, val);
    KeyAgrees(r, |r|, key);
    assert r[p] == LineOf(key, val);
    InsertedDefines(Rest(lines, key), p, LineOf(key, val), p, key);
  }

  /** A bracketed name from place i on. */
  predicate Bracketed(s: string, i: int, j: int) {
    0 <= i && i + 1 < j < |s| && s[i] == '[' && s[j] == ']' && ']' !in s[i + 1..j]
  }

  /** A text reads as a header exactly if it has a bracketed name somewhere. */
  lemma {:induction false} HeaderText(s: string, n: nat)
    requires n <= |s|
    ensures HeaderName(s, n).Some? <==> exists i, j :: n <= i && Bracketed(s, i, j)
    decreases |s| - n
  {
    var open := FindChar(s, '[', n);
    if open < |s| {
      var close := FindChar(s, ']', open + 1);
      if close < |s| {
        if close > open + 1 { assert Bracketed(s, open, close); } else { HeaderText(s, open + 1); }
      }
    }
  }

  /** The name is that of the first one: the text between its bracket and the next closing one. */
  lemma {:induction false} HeaderFirst(s: string, n: nat, i: nat, j: nat)
    requires n <= i && Bracketed(s, i, j) && forall a, b :: n <= a < i ==> !Bracketed(s, a, b)
    ensures HeaderName(s, n) == Some(s[i + 1..j])
    decreases i - n
  {
    var open := FindChar(s, '[', n);
    var close := FindChar(s, ']', open + 1);
    assert open <= i;
    assert forall k :: i < k < j ==> s[k] == s[i + 1..j][k - i - 1];
    if open == i {
      assert close == j;
    } else {
      assert close > open + 1 && close < |s| ==> Bracketed(s, open, close);
      HeaderFirst(s, open + 1, i, j);
    }
  }

  /** In terms of the text alone: what the key's own part and the value must look like. */
  lemma AddsPlainText(key: string, val: string)
    ensures Classify(LineOf(key, val)) == Pair(GetKey(key), val)
       <==> KeyText(GetKey(key)) && ValueText(val) && !exists i, j :: 0 <= i && Bracketed(LineOf(key, val), i, j)
  {
    hide HeaderName, PairOf, GetKey, KeyText, ValueText, Bracketed;
    GeneratedPair(GetKey(key), val);
    HeaderText(LineOf(key, val), 0);
  }

  // ----- lines and keys as texts -----

  /** The characters of keys, and the white space of the C library. */
  lemma CharClasses(c: char)
    ensures IsKeyChar(c) <==> c in {
              'a', 'b', 'c', 'd', 'e', 'f', 'g', 'h', 'i', 'j', 'k', 'l', 'm',
              'n', 'o', 'p', 'q', 'r', 's', 't', 'u', 'v', 'w', 'x', 'y', 'z',
              'A', 'B', 'C', 'D', 'E', 'F', 'G', 'H', 'I', 'J', 'K', 'L', 'M',
              'N', 'O', 'P', 'Q', 'R', 'S', 'T', 'U', 'V', 'W', 'X', 'Y', 'Z',
              '0', '1', '2', '3', '4', '5', '6', '7', '8', '9', '_', '.', '[', ']', '-'}
    ensures IsSpace(c) <==> c in {' ', '\t', '\n', '\U{b}', '\U{c}', '\r'}
  {
  }

  lemma {:induction false} FindCharIs(s: string, c: char, i: nat, r: nat)
    requires i <= r <= |s| && (forall k :: i <= k < r ==> s[k] != c) && (r < |s| ==> s[r] == c)
    ensures FindChar(s, c, i) == r
    decreases r - i
  {
    if i < r { FindCharIs(s, c, i + 1, r); }
  }

  predicate SpacesOnly(s: string) {
    forall i :: 0 <= i < |s| ==> IsSpace(s[i])
  }

  lemma BlankText(s: string)
    ensures Blank(s) <==> SpacesOnly(s)
  {
  }

  /** A line made of a key, spaces, an equals sign, spaces, a value and possibly a line break. */
  function Spelled(k: string, before: string, after: string, v: string, end: string): string {
    k + (before + ("=" + (after + (v + end))))
  }

  predicate Spells(k: string, before: string, after: string, v: string, end: string) {
    KeyText(k) && SpacesOnly(before) && SpacesOnly(after) && ValueText(v) && (end == "" || (end == "\n" && v != ""))
  }

  /** Every line that is spelled like that reads as its key and value. */
  lemma PairReads(k: string, before: string, after: string, v: string, end: string)
    requires Spells(k, before, after, v, end)
    ensures PairOf(Spelled(k, before, after, v, end)) == Pair(k, v)
  {
    hide SkipKey, SkipSpaces, FindChar, IsSpace, IsKeyChar, Spelled;
    KeyOrSpace();
    var s := Spelled(k, before, after, v, end);
    var n, e := |k|, |k| + |before|;
    var m := e + 1 + |after|;
    SpelledParts(k, before, after, v, end);
    assert n < |s| ==> !IsKeyChar(s[n]);
    SkipKeyIs(s, 0, n);
    SkipSpacesIs(s, n, e);
    SkipSpacesIs(s, e + 1, m);
    ValueEnds(v, end);
  }

  lemma SpelledParts(k: string, before: string, after: string, v: string, end: string)
    ensures var (s, n, e) := (Spelled(k, before, after, v, end), |k|, |k| + |before|);
            var m := e + 1 + |after|;
            && |s| == m + |v| + |end| && s[..n] == k && s[m..] == v + end && s[e] == '='
            && (forall i :: 0 <= i < n ==> s[i] == k[i]) && (forall i :: n <= i < e ==> s[i] == before[i - n])
            && (forall i :: e < i < m ==> s[i] == after[i - e - 1]) && (v != "" ==> s[m] == v[0])
  {
    var s, n, e := Spelled(k, before, after, v, end), |k|, |k| + |before|;
    var m := e + 1 + |after|;
    assert s[..n] == k && s[n..] == before + ("=" + (after + (v + end)));
    assert s[e..] == "=" + (after + (v + end));
    assert s[e + 1..] == after + (v + end);
    assert s[m..] == v + end;
  }

  lemma ValueEnds(v: string, end: string)
    requires ValueText(v) && (end == "" || end == "\n")
    ensures FindChar(v + end, '\n', 0) == |v| && (v + end)[..|v|] == v
  {
    hide FindChar;
    FindCharIs(v + end, '\n', 0, |v|);
  }

  lemma KeyOrSpace()
    ensures forall c :: IsSpace(c) ==> !IsKeyChar(c)
    ensures !IsKeyChar('=') && !IsSpace('=')
  {
  }

  /** And every line that reads as a pair is spelled like that. */
  lemma PairOnly(s: string) returns (before: string, after: string, end: string)
    requires PairOf(s).Pair?
    ensures var p := PairOf(s); Spells(p.key, before, after, p.value, end) && s == Spelled(p.key, before, after, p.value, end)
  {
    hide SkipKey, SkipSpaces, FindChar, IsSpace, IsKeyChar, Spelled;
    var k := SkipKey(s, 0);
    var e := SkipSpaces(s, k);
    var m := SkipSpaces(s, e + 1);
    var nl := m + FindChar(s[m..], '\n', 0);
    before, after, end := s[k..e], s[e + 1..m], s[nl..];
    SplitsUp(s, k, e, m, nl);
    ValuePart(s, m);
  }

  lemma SplitsUp(s: string, k: nat, e: nat, m: nat, nl: nat)
    requires k <= e < m <= nl <= |s| && s[e] == '='
    ensures s == Spelled(s[..k], s[k..e], s[e + 1..m], s[m..nl], s[nl..])
  {
    assert s[m..] == s[m..nl] + s[nl..];
    assert s[e + 1..] == s[e + 1..m] + s[m..];
    assert s[e..] == "=" + s[e + 1..];
    assert s[k..] == s[k..e] + s[e..];
    assert s == s[..k] + s[k..];
  }

  lemma ValuePart(s: string, m: nat)
    requires m <= |s| && (m < |s| ==> !IsSpace(s[m]))
    ensures var nl := FindChar(s[m..], '\n', 0);
            m + nl <= |s| && s[m..][..nl] == s[m..m + nl] && ValueText(s[m..m + nl])
            && (nl == |s[m..]| - 1 ==> s[m + nl..] == "\n" && s[m..m + nl] != "")
            && (nl == |s[m..]| ==> s[m + nl..] == "" && s[m..] == s[m..m + nl])
  {
    hide FindChar;
    var v := s[m..];
    var nl := FindChar(v, '\n', 0);
    var w := v[..nl];
    assert s[m..m + nl] == w && s[m + nl..] == v[nl..];
    assert '\n' !in w by { assert forall i :: 0 <= i < |w| ==> w[i] == v[i] != '\n'; }
    assert v != "" ==> v[0] == s[m];
    assert w != "" ==> w[0] == s[m];
    assert nl == |v| - 1 ==> v[nl..] == "\n" && nl > 0;
    assert nl == |v| ==> w == v;
  }

  /** The first dot of a key ends its section; without one it is in the global section. */
  lemma KeyParts(section: string, k: string)
    requires '.' !in section
    ensures GetSection(section + "." + k) == section && GetKey(section + "." + k) == k
    ensures GetSection(section) == "global" && GetKey(section) == section
  {
    hide FindChar;
    var key := section + "." + k;
    assert forall i :: 0 <= i < |section| ==> key[i] == section[i];
    FindCharIs(key, '.', 0, |section|);
    FindCharIs(section, '.', 0, |section|);
  }

  // ----- when a key that is set is found, from the text alone -----

  /** A section that can be started: its header has room for the whole name, and the name is one. */
  predicate Startable(section: string) {
    section != "" && ']' !in section && |section| <= 1020
  }

  /** The header of a section reads as that section exactly if it can be started. */
  lemma HeaderReads(section: string)
    ensures Classify(HeaderOf(section)) == Header(section) <==> Startable(section)
    ensures ']' !in section && !Startable(section) ==> !Classify(HeaderOf(section)).Header?
  {
    hide HeaderName, HeaderOf, PairOf;
    PairIsNoHeader(HeaderOf(section));
    if ']' in section {
      NameClosed(HeaderOf(section), 0);
    } else {
      HeaderNamed(section);
    }
  }

  lemma PairIsNoHeader(s: string)
    ensures !PairOf(s).Header?
  {
    hide FindChar, SkipKey, SkipSpaces;
  }

  lemma HeaderNamed(section: string)
    requires ']' !in section
    ensures HeaderName(HeaderOf(section), 0) == if Startable(section) then Some(section) else None
  {
    hide FindChar;
    var s := HeaderOf(section);
    FindCharIs(s, '[', 0, 0);
    if section == "" {
      assert s == "[]";
      FindCharIs(s, ']', 1, 1);
      FindCharIs(s, '[', 1, 2);
      assert HeaderName(s, 1).None?;
    } else {
      assert forall k :: 1 <= k < |s| && k <= |section| ==> s[k] == section[k - 1];
      FindCharIs(s, ']', 1, if |section| <= 1020 then |section| + 1 else |s|);
      assert |section| <= 1020 ==> s[1..|section| + 1] == section;
    }
  }

  /** The name of a header has no closing bracket. */
  lemma {:induction false} NameClosed(s: string, i: nat)
    requires i <= |s|
    ensures HeaderName(s, i).Some? ==> ']' !in HeaderName(s, i).value
    decreases |s| - i
  {
    hide FindChar;
    var open := FindChar(s, '[', i);
    if open < |s| {
      var close := FindChar(s, ']', open + 1);
      assert forall k :: open + 1 <= k < close ==> s[k] != ']';
      assert ']' !in s[open + 1..close];
      NameClosed(s, open + 1);
    }
  }

  /** The line of a key that is not there lands in its section exactly if the section is there or can be
      started. */
  lemma NewLands(lines: seq<string>, key: string)
    requires ValueOf(lines, key).None?
    ensures Landing(lines, key) == GetSection(key) <==> EndingOf(lines, GetSection(key)).Some? || Startable(GetSection(key))
  {
    EmptyLine();
    GlobalHeader();
    hide Classify, ValueOf, Defines, GetSection, HeaderOf, Parsed, Blank, SectionAt, Startable;
    var section := GetSection(key);
    if EndingOf(lines, section).None? {
      HeaderReads(section);
      var q, header := lines + [""], HeaderOf(section);
      assert q + [header] == Rest(lines, key);
      SectionStep(q + [header], |lines| + 1);
      if !Classify(header).Header? {
        AppendedSection(q, header, |lines|);
        SectionStep(q, |lines|);
        AppendedSection(lines, "", |lines| - 1);
        SectionFrom(lines, |lines| - 1);
        EndingAgrees(lines, |lines|, section);
      }
    }
  }

  /** Where the key is now, or where its section is, or that it can be started. */
  predicate Reachable(lines: seq<string>, key: string) {
    if ValueOf(lines, key).Some? then '.' !in SectionAt(lines, OffsetOf(lines, key))
    else EndingOf(lines, GetSection(key)).Some? || Startable(GetSection(key))
  }

  /** The key's own part and the value are plain text, and the line has no bracketed name. */
  ghost predicate Plain(key: string, val: string) {
    KeyText(GetKey(key)) && ValueText(val) && !exists i, j :: 0 <= i && Bracketed(LineOf(key, val), i, j)
  }

  /** For all keys and values, in terms of the text: after adding, the key has the value from the line that was
      added if and only if the key has a dot, its section can be reached and both parts are plain text. */
  lemma SetFinds(lines: seq<string>, key: string, val: string)
    requires Unique(lines)
    ensures ValueOf(Added(lines, key, val), key) == Some(val) && OffsetOf(Added(lines, key, val), key) == PlaceOf(lines, key)
       <==> '.' in key && Reachable(lines, key) && Plain(key, val)
  {
    hide Classify, ValueOf, SectionAt, GetSection, GetKey, LineOf, Added, OffsetOf, Landing, PlaceOf, KeyText, ValueText, Bracketed, Startable, EndingOf;
    AddFinds(lines, key, val);
    AddsPlainText(key, val);
    if ValueOf(lines, key).None? {
      NewLands(lines, key);
    } else {
      LandsWhereItWas(lines, key);
      SectionOfKey(lines, OffsetOf(lines, key), key);
    }
  }

  /** A line that defines a key is in the section that the key's first dot cuts off unless that has a dot. */
  lemma SectionOfKey(lines: seq<string>, i: int, key: string)
    requires Defines(lines, i, key)
    ensures '.' in key ==> (SectionAt(lines, i) == GetSection(key) <==> '.' !in SectionAt(lines, i))
  {
    hide Classify, FindChar;
    var section := SectionAt(lines, i);
    assert key[|section|] == '.' && section == key[..|section|];
    assert forall k :: 0 <= k < |section| ==> key[k] == section[k];
    if '.' !in section { FindCharIs(key, '.', 0, |section|); }
  }

  /** Adding a key to a new section that can be started makes it findable. */
  lemma NewSectionFinds(lines: seq<string>, key: string, val: string)
    requires Unique(lines) && ValueOf(lines, key).None? && EndingOf(lines, GetSection(key)).None?
    requires '.' in key && Plain(key, val) && Startable(GetSection(key))
    ensures ValueOf(Added(lines, key, val), key) == Some(val)
  {
    hide ValueOf, Added, OffsetOf, PlaceOf, Plain, EndingOf, GetSection, Startable;
    SetFinds(lines, key, val);
  }

  /** Unless the line that is added replaces one and reads as a header, or starts a section with a header that
      reads as a pair, there is no other way to find the value. */
  lemma AddFindsOnly(lines: seq<string>, key: string, val: string)
    requires Unique(lines) && !Classify(LineOf(key, val)).Header? && !StartsPair(lines, key)
    ensures ValueOf(Added(lines, key, val), key) == Some(val) <==> Stored(lines, key, val)
  {
    hide Classify, ValueOf, SectionAt, GetSection, GetKey, LineOf, Added, Landing, StartsPair, Gives;
    AddedLookup(lines, key, val, key);
    GeneratedGives(Landing(lines, key), key, val);
  }

  /** An addition that can be found again leaves every other key as it was. */
  lemma AddKeeps(lines: seq<string>, key: string, val: string, k: string)
    requires Unique(lines) && Stored(lines, key, val) && k != key
    ensures ValueOf(Added(lines, key, val), k) == ValueOf(lines, k)
  {
    hide Classify, ValueOf, SectionAt, GetSection, GetKey, LineOf, Landing, Added, StartsPair;
    if StartsPair(lines, key) { PairLandsElsewhere(lines, key); }
    Qualified(key);
    AddedLookup(lines, key, val, k);
  }

  /** A key whose section is spelled with a dot is changed into another one when it is set again: the
      new line stays in a section that is not the one the key's first dot cuts off. */
  lemma DottedSectionLost(lines: seq<string>, key: string, val: string)
    requires Unique(lines) && !Classify(LineOf(key, val)).Header?
    requires ValueOf(lines, key).Some? && SectionAt(lines, OffsetOf(lines, key)) != GetSection(key)
    ensures ValueOf(Added(lines, key, val), key) != Some(val)
  {
    hide Classify, SectionAt, GetSection, GetKey, LineOf, Added, OffsetOf, Landing;
    LandsWhereItWas(lines, key);
    AddFindsOnly(lines, key, val);
  }

  /** Removing makes exactly that key absent. */
  lemma RemoveExactly(lines: seq<string>, key: string, k: string)
    requires Unique(lines)
    ensures Unique(RemovedKey(lines, key))
    ensures ValueOf(RemovedKey(lines, key), k) == if k == key then None else ValueOf(lines, k)
    ensures ValueOf(lines, key).Some? ==> RemovedKey(lines, key) == Removed(lines, OffsetOf(lines, key))
    ensures ValueOf(lines, key).None? ==> RemovedKey(lines, key) == lines
  {
    RemovedIs(lines, key);
    hide Classify, Parsed, ValueOf, SectionAt, Defines, RemovedKey, OffsetOf;
    if ValueOf(lines, key).Some? { RemovedLookup(lines, OffsetOf(lines, key), key, k); }
  }

  lemma RemovedIs(lines: seq<string>, key: string)
    ensures RemovedKey(lines, key) == if ValueOf(lines, key).Some? then Removed(lines, OffsetOf(lines, key)) else lines
  {
    hide Classify;
  }

  /** An addition that can be found again keeps the keys unique, at the place where the line went. */
  lemma AddUnique(lines: seq<string>, key: string, val: string)
    requires Unique(lines) && Stored(lines, key, val)
    ensures Unique(Added(lines, key, val)) && Defines(Added(lines, key, val), PlaceOf(lines, key), key)
  {
    hide Classify, ValueOf, SectionAt, Defines, Added, PlaceOf, Stored;
    StoredAt(lines, key, val);
  }

  /** Removing a key that was added undoes the addition, but for a section that had to be started. */
  lemma AddThenRemove(lines: seq<string>, key: string, val: string)
    requires Unique(lines) && Stored(lines, key, val)
    ensures RemovedKey(Added(lines, key, val), key) == Rest(lines, key)
  {
    hide Classify, ValueOf, SectionAt, Defines, GetSection, GetKey, LineOf, Added, Rest, PlaceOf, Stored, OffsetOf, RemovedKey;
    var r, p, line, after := Rest(lines, key), PlaceOf(lines, key), LineOf(key, val), Added(lines, key, val);
    AddedInserts(lines, key, val);
    AddFinds(lines, key, val);
    RemovedIs(after, key);
    assert Removed(Inserted(r, p, line), p) == r;
  }

  // ----- lines that turn out to be headers -----

  /** Line j still belongs to the section that line i starts or belongs to. */
  predicate Behind(lines: seq<string>, i: int, j: int) {
    0 <= i < j < |lines| && forall m :: i < m <= j ==> !Classify(lines[m]).Header?
  }

  lemma {:induction false} HeaderSection(lines: seq<string>, i: nat, line: string, j: int)
    requires i < |lines| && j < |lines| && Classify(line).Header?
    ensures SectionAt(lines[i := line], j) == if j == i || Behind(lines, i, j) then Classify(line).name
                                             else SectionAt(lines, j)
    decreases j
  {
    hide Classify;
    if j >= 0 {
      HeaderSection(lines, i, line, j - 1);
      SectionStep(lines[i := line], j);
      SectionStep(lines, j);
    }
  }

  /** Which keys the lines define after one of them has become a header: those behind it, up to the next
      header, go over into its section. */
  lemma HeaderMoves(lines: seq<string>, i: nat, line: string, j: int, k: string)
    requires i < |lines| && Classify(line).Header?
    ensures Defines(lines[i := line], j, k) <==>
              if j == i then false
              else if Behind(lines, i, j) then Gives(Classify(line).name, lines[j], k)
              else Defines(lines, j, k)
  {
    hide Classify, SectionAt;
    if 0 <= j < |lines| { HeaderSection(lines, i, line, j); }
  }

  /** Setting a key that is there to a value that makes the line a header loses the key, unless a line behind
      it happens to give it in the section that the header names; and it takes the keys of those lines
      with it. */
  lemma HeaderReplaces(lines: seq<string>, key: string, val: string, j: int, k: string)
    requires Unique(lines) && ValueOf(lines, key).Some? && Classify(LineOf(key, val)).Header?
    ensures var i, name := OffsetOf(lines, key), Classify(LineOf(key, val)).name;
            && (Defines(Added(lines, key, val), j, k) <==>
                  if j == i then false else if Behind(lines, i, j) then Gives(name, lines[j], k) else Defines(lines, j, k))
            && (ValueOf(Added(lines, key, val), key).Some? <==> exists m :: Behind(lines, i, m) && Gives(name, lines[m], key))
  {
    hide Classify, SectionAt, ValueOf, OffsetOf, Added, LineOf, Gives;
    var i, line := OffsetOf(lines, key), LineOf(key, val);
    AddedIs(lines, key, val);
    HeaderMoves(lines, i, line, j, k);
    LookupDefines(Added(lines, key, val), key);
    forall m ensures Defines(Added(lines, key, val), m, key) <==> Behind(lines, i, m) && Gives(Classify(line).name, lines[m], key) {
      HeaderMoves(lines, i, line, m, key);
      if Defines(lines, m, key) { SameLine(lines, i, m, key); }
      BehindIsNot(lines, i);
    }
  }

  lemma BehindIsNot(lines: seq<string>, i: int)
    ensures !Behind(lines, i, i)
  {
  }

  /** Adding a key that is not there with a value that makes the line a header changes no key, and the key
      is not there afterwards. */
  lemma HeaderAdds(lines: seq<string>, key: string, val: string, k: string)
    requires Unique(lines) && ValueOf(lines, key).None? && Classify(LineOf(key, val)).Header? && !StartsPair(lines, key)
    ensures ValueOf(Added(lines, key, val), k) == ValueOf(lines, k)
  {
    EmptyLine();
    hide Classify, SectionAt, ValueOf, OffsetOf, EndingOf, Added, LineOf, HeaderOf, GetSection, Gives, Defines;
    var line, section := LineOf(key, val), GetSection(key);
    AddedIs(lines, key, val);
    if EndingOf(lines, section).Some? {
      InsertedHeader(lines, section, line, k);
    } else {
      var q, h := lines + [""], HeaderOf(section);
      AppendedHeader(lines, "", k);
      AppendedHeader(q, h, k);
      AppendedHeader(q + [h], line, k);
      assert q + [h] + [line] == lines + ["", h, line];
    }
  }

  /** Behind the last line of a section only blank lines belong to it. */
  lemma InsertedHeader(lines: seq<string>, section: string, line: string, k: string)
    requires Unique(lines) && EndingOf(lines, section).Some? && Classify(line).Header?
    ensures ValueOf(Inserted(lines, EndingOf(lines, section).value, line), k) == ValueOf(lines, k)
  {
    hide Classify, SectionAt, ValueOf, Parsed;
    var p := EndingOf(lines, section).value;
    var r := Inserted(lines, p, line);
    forall j: int, q {:trigger Defines(r, j, q)} ensures Defines(r, j, q) <==> if j < p then Defines(lines, j, q) else j > p && Defines(lines, j - 1, q) {
      if 0 <= j < |r| { BlankBehind(lines, section, line, j, q); }
    }
    ShiftedLookup(lines, p, line, k);
  }

  /** If a new line shifts the definitions behind it and changes none, all keys keep their values. */
  lemma ShiftedLookup(lines: seq<string>, p: nat, line: string, k: string)
    requires p <= |lines| && Unique(lines)
    requires forall j: int, q {:trigger Defines(Inserted(lines, p, line), j, q)} :: Defines(Inserted(lines, p, line), j, q) <==>
               if j < p then Defines(lines, j, q) else j > p && Defines(lines, j - 1, q)
    ensures ValueOf(Inserted(lines, p, line), k) == ValueOf(lines, k)
  {
    hide Classify, SectionAt, ValueOf, Parsed;
    var r := Inserted(lines, p, line);
    LookupDefines(lines, k);
    if i :| Defines(lines, i, k) { assert Defines(r, if i < p then i else i + 1, k); }
    LookupDefines(r, k);
    if ValueOf(r, k).Some? {
      var j :| Defines(r, j, k) && Classify(r[j]).value == ValueOf(r, k).value;
      LookupIs(lines, if j < p then j else j - 1, k);
    }
  }

  lemma BlankBehind(lines: seq<string>, section: string, line: string, j: nat, k: string)
    requires EndingOf(lines, section).Some? && Classify(line).Header? && j <= |lines|
    ensures var p := EndingOf(lines, section).value;
            Defines(Inserted(lines, p, line), j, k) <==> if j < p then Defines(lines, j, k) else j > p && Defines(lines, j - 1, k)
  {
    hide Classify, SectionAt, Blank, Parsed;
    var p := EndingOf(lines, section).value;
    var r := Inserted(lines, p, line);
    if j <= p {
      SectionBefore(lines, p, line, j);
    } else if Blank(lines[j - 1]) {
      BlankIsOther(lines[j - 1]);
    } else {
      EndingAgrees(lines, |lines|, section);
      SectionBehind(lines, p, line, section, j);
    }
  }

  lemma BlankIsOther(s: string)
    requires Blank(s)
    ensures Classify(s) == Other
  {
    if Classify(s).Header? { HeaderNotBlank(s); }
    assert s != "" ==> IsSpace(s[0]);
  }

  lemma {:induction false} SectionBefore(lines: seq<string>, p: nat, line: string, j: int)
    requires p <= |lines| && j <= p && j <= |lines| && Classify(line).Header?
    ensures j < p ==> SectionAt(Inserted(lines, p, line), j) == SectionAt(lines, j)
    ensures j == p ==> SectionAt(Inserted(lines, p, line), j) == Classify(line).name
    decreases j
  {
    hide Classify;
    if j >= 0 {
      SectionStep(Inserted(lines, p, line), j);
      if j < |lines| { SectionStep(lines, j); }
      SectionBefore(lines, p, line, j - 1);
    }
  }

  /** A line behind the new header that belonged to some other section still does. */
  lemma {:induction false} SectionBehind(lines: seq<string>, p: nat, line: string, section: string, j: int)
    requires 1 <= p <= |lines| && p < j <= |lines| && Classify(line).Header?
    requires SectionAt(lines, p - 1) == section && SectionAt(lines, j - 1) != section
    ensures SectionAt(Inserted(lines, p, line), j) == SectionAt(lines, j - 1)
    decreases j
  {
    hide Classify;
    var r := Inserted(lines, p, line);
    assert r[j] == lines[j - 1];
    SectionStep(r, j);
    SectionStep(lines, j - 1);
    if !Classify(lines[j - 1]).Header? { SectionBehind(lines, p, line, section, j - 1); }
  }

  // ----- witnesses -----

  /** A value in brackets makes the line a header. */
  lemma BracketsLoseKey()
    ensures ValueOf(["u = 1"], "global.u") == Some("1")
    ensures Classify(LineOf("global.u", "[x]")) == Header("x")
    ensures ValueOf(Added(["u = 1"], "global.u", "[x]"), "global.u") == None
  {
    hide Classify, FindChar, GetKey, GetSection, Added, Blank, FullKey;
    var lines, r := ["u = 1"], ["u = [x]"];
    PlainLine();
    BracketLine();
    GlobalKey();
    ParsedOne("u = 1");
    ParsedOne("u = [x]");
    AddedIs(lines, "global.u", "[x]");
    assert lines[0 := "u = [x]"] == r;
  }

  /** The index of a single line. */
  lemma ParsedOne(line: string)
    ensures Parsed([line], 1).keys == if Classify(line).Pair? then map[FullKey(GLOBAL, Classify(line).key) := Entry(Classify(line).value, 1)] else map[]
  {
    hide Classify, Blank, FullKey;
    assert Parsed([line], 1) == Scan(Parsed([line], 0), line, 1);
  }

  lemma GlobalKey()
    ensures LineOf("global.u", "[x]") == "u = [x]" && FullKey(GLOBAL, "u") == "global.u"
  {
    assert FindChar("global.u", '.', 6) == 6;
    assert FindChar("global.u", '.', 3) == 6;
    assert FindChar("global.u", '.', 0) == 6;
  }

  lemma PlainLine()
    ensures Classify("u = 1") == Pair("u", "1")
  {
    var s := "u = 1";
    assert FindChar(s, '[', 3) == 5;
    assert HeaderName(s, 0) == None;
    assert SkipKey(s, 0) == 1 && SkipSpaces(s, 1) == 2 && SkipSpaces(s, 3) == 4;
    assert s[4..] == "1" && s[..1] == "u";
    assert FindChar("1", '\n', 0) == 1;
  }

  lemma BracketLine()
    ensures Classify("u = [x]") == Header("x")
  {
    var s := "u = [x]";
    assert FindChar(s, '[', 2) == 4;
    assert FindChar(s, '[', 0) == 4;
    assert FindChar(s, ']', 5) == 6;
    assert s[5..6] == "x";
  }

  /** Setting the key of a section with a dot in its name loses it. */
  lemma DottedSection()
    ensures ValueOf(["[a.b]", "c = 1"], "a.b.c") == Some("1")
    ensures ValueOf(Added(["[a.b]", "c = 1"], "a.b.c", "2"), "a.b.c") == None
  {
    hide Classify, FindChar, GetKey, GetSection, Added, Blank, FullKey;
    var lines, r := ["[a.b]", "c = 1"], ["[a.b]", "b.c = 2"];
    DottedHeader();
    DottedPair("c", "1");
    DottedPair("b.c", "2");
    DottedKeys();
    ParsedTwo("[a.b]", "c = 1");
    ParsedTwo("[a.b]", "b.c = 2");
    AddedIs(lines, "a.b.c", "2");
    assert lines[1 := "b.c = 2"] == r;
  }

  lemma ParsedTwo(header: string, line: string)
    requires Classify(header).Header? && Classify(line).Pair?
    ensures Parsed([header, line], 2).keys == map[FullKey(Classify(header).name, Classify(line).key) := Entry(Classify(line).value, 2)]
  {
    hide Classify, Blank, FullKey;
    var s := [header, line];
    assert Parsed(s, 1) == Scan(Parsed(s, 0), header, 1) && Parsed(s, 2) == Scan(Parsed(s, 1), line, 2);
  }

  lemma DottedHeader()
    ensures Classify("[a.b]") == Header("a.b")
  {
    var s := "[a.b]";
    assert FindChar(s, '[', 0) == 0 && FindChar(s, ']', 3) == 4;
    assert FindChar(s, ']', 1) == 4 && s[1..4] == "a.b";
  }

  lemma DottedPair(g: string, v: string)
    requires (g == "c" && v == "1") || (g == "b.c" && v == "2")
    ensures Classify(g + " = " + v) == Pair(g, v)
  {
    hide HeaderName, PairOf;
    GeneratedPair(g, v);
    NoHeader(g + " = " + v);
  }

  lemma NoHeader(s: string)
    requires '[' !in s
    ensures HeaderName(s, 0) == None
  {
  }

  lemma DottedKeys()
    ensures LineOf("a.b.c", "2") == "b.c" + " = " + "2" == "b.c = 2" && "c" + " = " + "1" == "c = 1"
    ensures FullKey("a.b", "c") == "a.b.c" && FullKey("a.b", "b.c") == "a.b.b.c"
  {
    assert FindChar("a.b.c", '.', 0) == 1;
  }

  // ----- the editor -----

  class Editor {
    var lines: seq<string>
    var keys: map<string, Entry>
    var endings: map<string, int>

    /** The tables are those of the lines. */
    ghost predicate Valid()
      reads this
    {
      keys == Parsed(lines, |lines|).keys && endings == Parsed(lines, |lines|).endings
    }

    constructor (lines: seq<string>)
      ensures Valid() && this.lines == lines
    {
      this.lines, keys, endings := lines, map[], map[];
      new;
      Parse();
    }

    /** Go through all lines and build the tables anew. */
    method Parse()
      modifies this`keys, this`endings
      ensures Valid()
    {
      hide Classify, FullKey;
      keys, endings := map[], map[];
      var section, lineno := GLOBAL, 1;
      while lineno <= |lines|
        invariant 1 <= lineno <= |lines| + 1
        invariant Index(section, keys, endings) == Parsed(lines, lineno - 1)
      {
        var line := lines[lineno - 1];
        var c := Classify(line);
        if c.Header? {
          section := c.name;
        } else if c.Pair? {
          var k := FullKey(section, c.key);
          if k !in keys { keys := keys[k := Entry(c.value, lineno)]; }
        }
        var blank := IsBlank(line);
        if !blank { endings := endings[section := lineno]; }
        lineno := lineno + 1;
      }
    }

    /** The loop over the characters of a line. */
    static method IsBlank(line: string) returns (blank: bool)
      ensures blank == Blank(line)
    {
      hide IsSpace;
      blank := true;
      var i := 0;
      while i != |line|
        invariant 0 <= i <= |line| && SkipSpaces(line, i) == SkipSpaces(line, 0)
      {
        if !IsSpace(line[i]) { return false; }
        i := i + 1;
      }
    }

    /** The value of a key, None if there is none. */
    function Find(key: string): (v: Option<string>)
      requires Valid()
      reads this
      ensures v == ValueOf(lines, key)
    {
      if key in keys then Some(keys[key].value) else None
    }

    /** Add or replace a key. */
    method Add(key: string, val: string)
      requires Valid()
      modifies this
      ensures Valid() && lines == Added(old(lines), key, val)
    {
      hide Classify, Parsed, LineOf;
      IndexAgrees(lines, key, GetSection(key));
      var line := LineOf(key, val);
      if key in keys {
        lines := lines[keys[key].offset - 1 := line];
      } else {
        var section, offset := GetSection(key), 0;
        if section in endings {
          offset := endings[section];
        } else {
          lines := lines + [""];
          lines := lines + [HeaderOf(section)];
          offset := |lines|;
        }
        lines := Inserted(lines, offset, line);
      }
      Parse();
    }

    /** Remove a key; false if there is no such key. */
    method Remove(key: string) returns (removed: bool)
      requires Valid()
      modifies this
      ensures Valid() && lines == RemovedKey(old(lines), key)
      ensures removed <==> ValueOf(old(lines), key).Some?
    {
      hide Classify, Parsed;
      KeyAgrees(lines, |lines|, key);
      if key !in keys { return false; }
      lines := Removed(lines, keys[key].offset - 1);
      Parse();
      removed := true;
    }
  }
}
