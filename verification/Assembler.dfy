/** The assembler: from lines with labels to bytes with offsets.  Constants and identifiers go into
    tables, label operands are patched once every label has its offset. */
module Assembler {
  import opened Values
  import opened Assembly
  import opened Machine

  // ----- offsets -----

  function Opcode<T>(i: Instr<T>): (op: nat)
    ensures 0 < op < 256
  {
    match i
    case PopTop => 0x01
    case DupTop => 0x04
    case Throw => 0x10
    case PopBlock => 0x72
    case Return => 0x73
    case BreakLoop => 0x74
    case BreakElseLoop => 0x75
    case EndFinally => 0x7A
    case IterReset => 0x7B
    case StoreId(_) => 0x80
    case LoadConst(_) => 0x81
    case LoadId(_) => 0x82
    case JumpForward(_) => 0x83
    case JumpIfTrue(_) => 0x84
    case JumpIfFalse(_) => 0x85
    case JumpAbsolute(_) => 0x86
    case SetupLoop(_) => 0x90
    case ContinueLoop(_) => 0x92
    case Compare(_) => 0x95
    case CompareEx => 0x95
    case JumpIfFirstFalse(_) => 0xA0
    case Operate(_) => 0xAA
    case PackTuple(_) => 0xAB
    case UnpackTuple(_) => 0xAC
    case IterFetch(_) => 0xB1
    case SetupElseLoop(_, _) => 0xC1
    case SetupExcept(_, _, _) => 0xE0
  }

  /** Label lines take no room. */
  function Size(l: Line): nat {
    if l.Lab? then 0 else 1 + 2 * Operands(Opcode(l.i))
  }

  /** The code offset of line k. */
  function Off(p: seq<Line>, k: nat): nat {
    if k == 0 then 0 else Off(p, k - 1) + (if k <= |p| then Size(p[k - 1]) else 0)
  }

  function Addr(p: seq<Line>, l: Label): nat {
    Off(p, IndexOf(p, l))
  }

  lemma {:induction false} OffMonotone(p: seq<Line>, j: nat, k: nat)
    requires j <= k
    ensures Off(p, j) <= Off(p, k)
  {
    if j < k { OffMonotone(p, j, k - 1); }
  }

  // ----- tables -----

  function AddOnce<T(==)>(s: seq<T>, x: T): seq<T> {
    if x in s then s else s + [x]
  }

  function ConstantTable(p: seq<Line>, table: seq<Value>): seq<Value> {
    if p == [] then table
    else ConstantTable(p[1..], if p[0].Code? && p[0].i.LoadConst? then AddOnce(table, p[0].i.v) else table)
  }

  function IdentifierTable(p: seq<Line>, table: seq<Id>): seq<Id> {
    if p == [] then table
    else IdentifierTable(p[1..],
                         if p[0].Code? && (p[0].i.LoadId? || p[0].i.StoreId?) then AddOnce(table, p[0].i.id) else table)
  }

  function Find<T(==)>(s: seq<T>, x: T): (i: nat)
    ensures i <= |s|
    ensures x in s ==> i < |s| && s[i] == x
  {
    if s == [] || s[0] == x then 0 else 1 + Find(s[1..], x)
  }

  datatype Tables = Tables(constants: seq<Value>, identifiers: seq<Id>)

  /** Every frame but the main one has `self` as its first identifier. */
  function TablesOf(p: seq<Line>, main: bool): Tables {
    Tables(ConstantTable(p, []), IdentifierTable(p, if main then [] else ["self"]))
  }

  // ----- encoding -----

  function BinOpNumber(op: BinOp): nat {
    match op
    case Add => 0 case Sub => 1 case Mul => 2 case Div => 3 case Mod => 4
    case BitAnd => 5 case BitOr => 6 case BitXor => 7 case Shl => 8 case Shr => 9
  }

  function CmpOpNumber(op: CmpOp): nat {
    match op
    case Eq => 0 case Ne => 1 case Lt => 2 case Gt => 3 case Le => 4 case Ge => 5 case Re => 9 case Nre => 10
  }

  /** Operands are numbers, table indices, absolute offsets, or offsets from the end of the instruction. */
  function OperandsOf(p: seq<Line>, t: Tables, next: int, i: Instr<Label>): seq<int> {
    match i
    case LoadConst(v) => [Find(t.constants, v)]
    case LoadId(id) => [Find(t.identifiers, id)]
    case StoreId(id) => [Find(t.identifiers, id)]
    case Operate(op) => [BinOpNumber(op)]
    case Compare(cmp) => [CmpOpNumber(cmp)]
    case CompareEx => [8]
    case JumpForward(l) => [Addr(p, l) - next]
    case JumpIfTrue(l) => [Addr(p, l) - next]
    case JumpIfFalse(l) => [Addr(p, l) - next]
    case JumpIfFirstFalse(l) => [Addr(p, l) - next]
    case JumpAbsolute(l) => [Addr(p, l)]
    case SetupLoop(l) => [Addr(p, l) - next]
    case SetupElseLoop(l, m) => [Addr(p, l) - next, Addr(p, m) - next]
    case ContinueLoop(l) => [Addr(p, l)]
    case SetupExcept(l, m, q) => [Addr(p, l) - next, Addr(p, m) - next, Addr(p, q) - next]
    case PackTuple(n) => [n]
    case UnpackTuple(n) => [n]
    case IterFetch(n) => [n]
    case _ => []
  }

  /** The low sixteen bits, low byte first. */
  function Bytes16(n: int): seq<Byte> {
    [n % 256, n / 256 % 256]
  }

  function OperandBytes(ops: seq<int>): (r: seq<Byte>)
    ensures |r| == 2 * |ops|
  {
    if ops == [] then [] else Bytes16(ops[0]) + OperandBytes(ops[1..])
  }

  function LineBytes(p: seq<Line>, t: Tables, k: nat): (r: seq<Byte>)
    requires k < |p|
    ensures |r| == Size(p[k])
  {
    if p[k].Lab? then [] else [Opcode(p[k].i)] + OperandBytes(OperandsOf(p, t, Off(p, k + 1), p[k].i))
  }

  /** The bytes of the lines from k on. */
  function CodeBytes(p: seq<Line>, t: Tables, k: nat): seq<Byte>
    requires k <= |p|
    decreases |p| - k
  {
    if k == |p| then [] else LineBytes(p, t, k) + CodeBytes(p, t, k + 1)
  }

  function Assemble(p: seq<Line>, main: bool, stackSize: nat): Bytecode {
    var t := TablesOf(p, main);
    Bytecode(CodeBytes(p, t, 0), t.constants, t.identifiers, stackSize)
  }

  // ----- when the bytes mean what the lines say -----

  /** The instruction refers to label l by a relative, unsigned operand. */
  predicate Relative(i: Instr<Label>, l: Label) {
    match i
    case JumpForward(m) => l == m
    case JumpIfTrue(m) => l == m
    case JumpIfFalse(m) => l == m
    case JumpIfFirstFalse(m) => l == m
    case SetupLoop(m) => l == m
    case SetupElseLoop(m, q) => l == m || l == q
    case SetupExcept(m, q, r) => l == m || l == q || l == r
    case _ => false
  }

  /** The instruction refers to label l by an absolute operand. */
  predicate Absolute(i: Instr<Label>, l: Label) {
    match i
    case JumpAbsolute(m) => l == m
    case ContinueLoop(m) => l == m
    case _ => false
  }

  /** No label is defined twice, every absolute target is defined, and every relative target is
      defined further on. */
  ghost predicate Linkable(p: seq<Line>) {
    && (forall l :: Count(p, l) <= 1)
    && (forall k, l :: 0 <= k < |p| && p[k].Code? && Absolute(p[k].i, l) ==> Count(p, l) == 1)
    && (forall k, l :: 0 <= k < |p| && p[k].Code? && Relative(p[k].i, l) ==> k < IndexOf(p, l) < |p|)
  }

  /** Everything that goes into a 16-bit operand is small enough. */
  predicate Fits(p: seq<Line>, main: bool) {
    && Off(p, |p|) < 0x1_0000
    && |TablesOf(p, main).constants| <= 0x1_0000
    && |TablesOf(p, main).identifiers| <= 0x1_0000
    && forall k :: 0 <= k < |p| && p[k].Code? ==>
         && (p[k].i.PackTuple? || p[k].i.UnpackTuple? || p[k].i.IterFetch? ==> p[k].i.n < 0x1_0000)
  }

  /** An instruction with its labels replaced by the offsets they stand for. */
  function Resolve(p: seq<Line>, i: Instr<Label>): Instr<nat> {
    match i
    case LoadConst(v) => LoadConst(v)
    case LoadId(id) => LoadId(id)
    case StoreId(id) => StoreId(id)
    case Operate(op) => Operate(op)
    case Compare(cmp) => Compare(cmp)
    case CompareEx => CompareEx
    case PopTop => PopTop
    case DupTop => DupTop
    case JumpForward(l) => JumpForward(Addr(p, l))
    case JumpIfTrue(l) => JumpIfTrue(Addr(p, l))
    case JumpIfFalse(l) => JumpIfFalse(Addr(p, l))
    case JumpIfFirstFalse(l) => JumpIfFirstFalse(Addr(p, l))
    case JumpAbsolute(l) => JumpAbsolute(Addr(p, l))
    case SetupLoop(l) => SetupLoop(Addr(p, l))
    case SetupElseLoop(l, m) => SetupElseLoop(Addr(p, l), Addr(p, m))
    case PopBlock => PopBlock
    case ContinueLoop(l) => ContinueLoop(Addr(p, l))
    case BreakLoop => BreakLoop
    case BreakElseLoop => BreakElseLoop
    case SetupExcept(l, m, q) => SetupExcept(Addr(p, l), Addr(p, m), Addr(p, q))
    case EndFinally => EndFinally
    case Throw => Throw
    case Return => Return
    case PackTuple(n) => PackTuple(n)
    case UnpackTuple(n) => UnpackTuple(n)
    case IterReset => IterReset
    case IterFetch(n) => IterFetch(n)
  }

  // ----- proofs -----

  lemma InPrefix<T>(s: seq<T>, whole: seq<T>, x: T)
    requires s <= whole && x in s
    ensures x in whole
  {
    var i :| 0 <= i < |s| && s[i] == x;
    assert whole[i] == x;
  }

  lemma {:induction false} ConstantTableHolds(p: seq<Line>, table: seq<Value>, k: nat)
    ensures table <= ConstantTable(p, table)
    ensures k < |p| && p[k].Code? && p[k].i.LoadConst? ==> p[k].i.v in ConstantTable(p, table)
  {
    if p != [] {
      var next := if p[0].Code? && p[0].i.LoadConst? then AddOnce(table, p[0].i.v) else table;
      ConstantTableHolds(p[1..], next, if k > 0 then k - 1 else 0);
      if 0 < k < |p| {
        assert p[1..][k - 1] == p[k];
      } else if p[0].Code? && p[0].i.LoadConst? {
        InPrefix(next, ConstantTable(p, table), p[0].i.v);
      }
    }
  }

  lemma {:induction false} IdentifierTableHolds(p: seq<Line>, table: seq<Id>, k: nat)
    ensures table <= IdentifierTable(p, table)
    ensures k < |p| && p[k].Code? && (p[k].i.LoadId? || p[k].i.StoreId?) ==> p[k].i.id in IdentifierTable(p, table)
  {
    if p != [] {
      var next := if p[0].Code? && (p[0].i.LoadId? || p[0].i.StoreId?) then AddOnce(table, p[0].i.id) else table;
      IdentifierTableHolds(p[1..], next, if k > 0 then k - 1 else 0);
      if 0 < k < |p| {
        assert p[1..][k - 1] == p[k];
      } else if p[0].Code? && (p[0].i.LoadId? || p[0].i.StoreId?) {
        InPrefix(next, IdentifierTable(p, table), p[0].i.id);
      }
    }
  }

  ghost predicate Distinct<T>(s: seq<T>) {
    forall i, j :: 0 <= i < j < |s| ==> s[i] != s[j]
  }

  /** Each constant of the code has one place in the table, and nothing else has. */
  lemma {:induction false} ConstantTableExact(p: seq<Line>, table: seq<Value>, v: Value)
    requires Distinct(table)
    ensures Distinct(ConstantTable(p, table))
    ensures v in ConstantTable(p, table) <==> v in table || Code(LoadConst(v)) in p
  {
    if p != [] {
      ConstantTableExact(p[1..], if p[0].Code? && p[0].i.LoadConst? then AddOnce(table, p[0].i.v) else table, v);
      assert p == [p[0]] + p[1..];
    }
  }

  lemma {:induction false} IdentifierTableExact(p: seq<Line>, table: seq<Id>, id: Id)
    requires Distinct(table)
    ensures Distinct(IdentifierTable(p, table)) && table <= IdentifierTable(p, table)
    ensures id in IdentifierTable(p, table) <==> id in table || Code(LoadId(id)) in p || Code(StoreId(id)) in p
  {
    if p != [] {
      IdentifierTableExact(p[1..],
                           if p[0].Code? && (p[0].i.LoadId? || p[0].i.StoreId?) then AddOnce(table, p[0].i.id) else table, id);
      assert p == [p[0]] + p[1..];
    }
  }

  /** The tables of a frame: every constant and identifier of its code once, and nothing else, but that `self`
      is the first identifier of every frame other than the main one. */
  lemma TablesExact(p: seq<Line>, main: bool, v: Value, id: Id)
    ensures var t := TablesOf(p, main);
            && Distinct(t.constants) && (v in t.constants <==> Code(LoadConst(v)) in p)
            && Distinct(t.identifiers) && (!main ==> t.identifiers != [] && t.identifiers[0] == "self")
            && (id in t.identifiers <==> (!main && id == "self") || Code(LoadId(id)) in p || Code(StoreId(id)) in p)
  {
    hide ConstantTable, IdentifierTable;
    ConstantTableExact(p, [], v);
    IdentifierTableExact(p, if main then [] else ["self"], id);
  }

  /** The bytes of line k stand at its offset. */
  lemma {:induction false} BytesAt(p: seq<Line>, t: Tables, j: nat, k: nat)
    requires j <= k <= |p|
    ensures Off(p, j) <= Off(p, k) <= Off(p, j) + |CodeBytes(p, t, j)|
    ensures CodeBytes(p, t, j)[Off(p, k) - Off(p, j)..] == CodeBytes(p, t, k)
    decreases k - j
  {
    hide LineBytes, Size;
    if j < k {
      BytesAt(p, t, j + 1, k);
      var rest := CodeBytes(p, t, j + 1);
      assert CodeBytes(p, t, j) == LineBytes(p, t, j) + rest;
      assert Off(p, j + 1) == Off(p, j) + |LineBytes(p, t, j)|;
      assert CodeBytes(p, t, j)[Off(p, k) - Off(p, j)..] == rest[Off(p, k) - Off(p, j + 1)..];
    }
  }

  lemma {:induction false} CodeLength(p: seq<Line>, t: Tables, k: nat)
    requires k <= |p|
    ensures Off(p, k) + |CodeBytes(p, t, k)| == Off(p, |p|)
    decreases |p| - k
  {
    if k < |p| { CodeLength(p, t, k + 1); }
  }

  lemma Operand16(code: seq<Byte>, at: nat, n: nat)
    requires n < 0x1_0000 && at + 2 <= |code| && code[at..at + 2] == Bytes16(n)
    ensures Operand(code, at) == n
  {
    assert code[at] == code[at..at + 2][0] && code[at + 1] == code[at..at + 2][1];
  }

  /** The operands of a line are 16-bit numbers, and as many as its opcode says. */
  lemma OperandsFit(p: seq<Line>, main: bool, k: nat)
    requires Linkable(p) && Fits(p, main) && k < |p| && p[k].Code?
    ensures var ops := OperandsOf(p, TablesOf(p, main), Off(p, k + 1), p[k].i);
            |ops| == Operands(Opcode(p[k].i)) && forall j :: 0 <= j < |ops| ==> 0 <= ops[j] < 0x1_0000
  {
    ConstantTableHolds(p, [], k);
    IdentifierTableHolds(p, if main then [] else ["self"], k);
    forall l ensures Addr(p, l) < 0x1_0000 { OffMonotone(p, IndexOf(p, l), |p|); }
    forall l | Relative(p[k].i, l) ensures Addr(p, l) >= Off(p, k + 1) { OffMonotone(p, k + 1, IndexOf(p, l)); }
  }

  /** Decoding the operands of an assembled line gives the instruction with its labels resolved. */
  lemma DecodeLine(p: seq<Line>, t: Tables, b: Bytecode, next: nat, i: Instr<Label>, o1: nat, o2: nat, o3: nat)
    requires b.constants == t.constants && b.identifiers == t.identifiers
    requires i.LoadConst? ==> i.v in t.constants
    requires i.LoadId? || i.StoreId? ==> i.id in t.identifiers
    requires var ops := OperandsOf(p, t, next, i);
             && (|ops| > 0 ==> o1 == ops[0]) && (|ops| > 1 ==> o2 == ops[1]) && (|ops| > 2 ==> o3 == ops[2])
    ensures Decode(b, next, Opcode(i), o1, o2, o3) == Some(Resolve(p, i))
  {
    var op := Opcode(i);
    if op < 0x80 {
      assert DecodePlain(op) == Some(Resolve(p, i));
    } else if op in {0x83, 0x84, 0x85, 0x86, 0x90, 0x92, 0xA0} {
      assert DecodeJump(next, op, o1) == Some(Resolve(p, i));
    } else if op < 0xC0 {
      assert DecodeData(b, op, o1) == Some(Resolve(p, i));
    }
  }

  lemma LineInCode(p: seq<Line>, t: Tables, k: nat)
    requires k < |p|
    ensures var code, ip := CodeBytes(p, t, 0), Off(p, k);
            ip + Size(p[k]) <= |code| && code[ip..ip + Size(p[k])] == LineBytes(p, t, k)
  {
    hide LineBytes, Size;
    BytesAt(p, t, 0, k);
    var code, ip := CodeBytes(p, t, 0), Off(p, k);
    assert code[ip..] == LineBytes(p, t, k) + CodeBytes(p, t, k + 1);
    assert code[ip..ip + Size(p[k])] == code[ip..][..Size(p[k])];
  }

  lemma SliceOfSlice<T>(s: seq<T>, a: nat, b: nat, i: nat, j: nat)
    requires a <= b <= |s| && i <= j <= b - a
    ensures s[a..b][i..j] == s[a + i..a + j]
  {
    forall q | 0 <= q < j - i ensures s[a..b][i..j][q] == s[a + i..a + j][q] {
      assert s[a..b][i + q] == s[a + i + q];
    }
  }

  /** The opcode and the operands of a line stand at its offset. */
  lemma OperandAt(p: seq<Line>, t: Tables, k: nat, j: nat, at: nat)
    requires k < |p| && p[k].Code? && at == Off(p, k) + 1 + 2 * j
    requires var ops := OperandsOf(p, t, Off(p, k + 1), p[k].i);
             |ops| == Operands(Opcode(p[k].i)) && (j < |ops| ==> 0 <= ops[j] < 0x1_0000)
    ensures var code := CodeBytes(p, t, 0);
            var ops := OperandsOf(p, t, Off(p, k + 1), p[k].i);
            && Off(p, k) < |code| && code[Off(p, k)] == Opcode(p[k].i)
            && (j < |ops| ==> Operand(code, at) == ops[j])
  {
    hide Off, CodeBytes, OperandBytes, OperandsOf, Opcode, Bytes16;
    var ip, code := Off(p, k), CodeBytes(p, t, 0);
    var ops := OperandsOf(p, t, Off(p, k + 1), p[k].i);
    var line := LineBytes(p, t, k);
    LineInCode(p, t, k);
    assert line == [Opcode(p[k].i)] + OperandBytes(ops);
    assert code[ip] == code[ip..ip + |line|][0];
    if j < |ops| {
      OperandBytesAt(ops, j);
      assert |line| == 1 + 2 * |ops| && at == ip + 1 + 2 * j;
      assert line[1 + 2 * j..3 + 2 * j] == OperandBytes(ops)[2 * j..2 * j + 2];
      SliceOfSlice(code, ip, ip + |line|, 1 + 2 * j, 3 + 2 * j);
      Operand16(code, at, ops[j]);
    }
  }

  /** At the offset of an instruction line stands that instruction, its labels resolved. */
  lemma FetchLine(p: seq<Line>, main: bool, size: nat, k: nat)
    requires Linkable(p) && Fits(p, main) && k < |p| && p[k].Code?
    ensures var b := Assemble(p, main, size);
            && Off(p, k) < |b.code| && b.code[Off(p, k)] != 0
            && After(b, Off(p, k)) == Off(p, k + 1)
            && Fetch(b, Off(p, k)) == Some(Resolve(p, p[k].i))
  {
    var t, i, ip := TablesOf(p, main), p[k].i, Off(p, k);
    var b := Assemble(p, main, size);
    var ops := OperandsOf(p, t, Off(p, k + 1), i);
    OperandsFit(p, main, k);
    OperandAt(p, t, k, 0, ip + 1);
    assert |ops| > 1 ==> Operand(b.code, ip + 3) == ops[1] by { OperandAt(p, t, k, 1, ip + 3); }
    assert |ops| > 2 ==> Operand(b.code, ip + 5) == ops[2] by { OperandAt(p, t, k, 2, ip + 5); }
    assert Decode(b, Off(p, k + 1), Opcode(i), Operand(b.code, ip + 1), Operand(b.code, ip + 3), Operand(b.code, ip + 5))
        == Some(Resolve(p, i)) by {
      ConstantTableHolds(p, [], k);
      IdentifierTableHolds(p, if main then [] else ["self"], k);
      DecodeLine(p, t, b, Off(p, k + 1), i, Operand(b.code, ip + 1), Operand(b.code, ip + 3), Operand(b.code, ip + 5));
    }
  }

  lemma {:induction false} OperandBytesAt(ops: seq<int>, j: nat)
    requires j < |ops|
    ensures OperandBytes(ops)[2 * j..2 * j + 2] == Bytes16(ops[j])
  {
    if j > 0 {
      OperandBytesAt(ops[1..], j - 1);
      assert OperandBytes(ops)[2 * j..2 * j + 2] == OperandBytes(ops[1..])[2 * (j - 1)..2 * (j - 1) + 2];
    }
  }
}
