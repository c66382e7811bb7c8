/** The virtual machine: one frame, its operand stack, its block stack, and the loop over opcodes.
    `Vm` is a snapshot of `t_vm_stackframe` together with the locals of the loop (`reason`, `ret`)
    and the thread's exception. */
module Machine {
  import opened Values
  import opened Assembly

  // Why control leaves the straight line.
  const REASON_NONE := 0
  const REASON_RETURN := 1
  const REASON_CONTINUE := 2
  const REASON_BREAK := 3
  const REASON_BREAKELSE := 4
  const REASON_EXCEPTION := 5
  const REASON_RERAISE := 6
  const REASON_FINALLY := 7

  const BLOCK_MAX_DEPTH := 20

  /** The operand stack grows downwards in memory; `depth` is the number of values below the block. */
  datatype Block =
    | LoopBlock(end: nat, orElse: nat, depth: nat, visited: bool)
    | ExceptBlock(onCatch: nat, onFinally: nat, endFinally: nat, depth: nat, visited: bool)

  /** `Fatal` is a call of fatal_error; `Corrupt` is an access outside the operand or block stack. */
  datatype Status = Running | Left | Fatal | Corrupt

  datatype Vm = Vm(
    ip: nat,
    stack: seq<Value>,
    blocks: seq<Block>,
    vars: Vars,
    cursors: map<nat, nat>,
    reason: int,
    ret: Option<Value>,
    exc: Option<Value>,
    status: Status)

  type Byte = b: int | 0 <= b < 256

  /** An assembled frame. */
  datatype Bytecode = Bytecode(
    code: seq<Byte>,
    constants: seq<Value>,
    identifiers: seq<Id>,
    stackSize: nat)

  // ----- the operand stack -----

  function Top(c: Vm): Value
    requires c.stack != []
  {
    c.stack[|c.stack| - 1]
  }

  function Push(c: Vm, v: Value, size: nat): Vm {
    if |c.stack| < size then c.(stack := c.stack + [v]) else c.(status := Corrupt)
  }

  function Drop(c: Vm, n: nat): Vm
    requires n <= |c.stack|
  {
    c.(stack := c.stack[..|c.stack| - n])
  }

  function Trim(s: seq<Value>, depth: nat): seq<Value> {
    if |s| > depth then s[..depth] else s
  }

  function Raised(c: Vm, x: Value): Vm {
    c.(reason := REASON_EXCEPTION, exc := Some(x))
  }

  function PushResult(c: Vm, r: Result, size: nat): Vm {
    match r
    case Ok(v) => Push(c, v, size)
    case Raise(x) => Raised(c, x)
    case Fatal => c.(status := Status.Fatal)
  }

  function PushAll(c: Vm, vs: seq<Value>, size: nat): Vm
    decreases |vs|
  {
    if vs == [] || !c.status.Running? then c else PushAll(Push(c, vs[0], size), vs[1..], size)
  }

  function EnterBlock(c: Vm, b: Block): Vm {
    if |c.blocks| < BLOCK_MAX_DEPTH then c.(blocks := c.blocks + [b]) else c.(status := Status.Fatal)
  }

  // ----- instructions -----

  /** How many operands an instruction takes from the stack before it does anything else. */
  function Needs<T>(i: Instr<T>): nat {
    match i
    case StoreId(_) => 1
    case Operate(_) => 2
    case Compare(_) => 2
    case CompareEx => 2
    case PopTop => 1
    case DupTop => 1
    case JumpIfTrue(_) => 1
    case JumpIfFalse(_) => 1
    case JumpIfFirstFalse(_) => 1
    case EndFinally => 1
    case Throw => 1
    case Return => 1
    case PackTuple(n) => n
    case UnpackTuple(_) => 1
    case IterReset => 1
    case IterFetch(_) => 1
    case _ => 0
  }

  /** One instruction whose targets are code offsets; c.ip is already past it.  A missing operand is a
      fatal error of pop, and an access out of bounds of fetch_top. */
  function ExecInstr(w: World, size: nat, i: Instr<nat>, c: Vm): Vm {
    var n := |c.stack|;
    if n < Needs(i) then
      c.(status := if i.DupTop? || i.JumpIfTrue? || i.JumpIfFalse? || i.JumpIfFirstFalse? then Corrupt
                   else Status.Fatal)
    else
    match i
    case LoadConst(v) => Push(c, v, size)
    case LoadId(id) => PushResult(c, Lookup(w, c.vars, id), size)
    case StoreId(id) => Drop(c, 1).(vars := c.vars[id := Top(c)])
    case Operate(op) => PushResult(Drop(c, 2), w.operate(op, c.stack[n - 2], c.stack[n - 1]), size)
    case Compare(cmp) => PushResult(Drop(c, 2), w.compare(cmp, c.stack[n - 1], c.stack[n - 2]), size)
    case CompareEx => Push(Drop(c, 2), Bool(w.isInstance(c.stack[n - 2], c.stack[n - 1])), size)
    case PopTop => Drop(c, 1)
    case DupTop => Push(c, Top(c), size)
    case JumpForward(to) => c.(ip := to)
    case JumpIfTrue(to) => if Truth(w, Top(c)) then c.(ip := to) else c
    case JumpIfFalse(to) => if Truth(w, Top(c)) then c else c.(ip := to)
    case JumpIfFirstFalse(to) =>
      if c.blocks == [] then c.(status := Corrupt) else
      var b := c.blocks[|c.blocks| - 1];
      var c1 := c.(blocks := c.blocks[|c.blocks| - 1 := b.(visited := true)]);
      if !Truth(w, Top(c)) && !b.visited then c1.(ip := to) else c1
    case JumpAbsolute(to) => c.(ip := to)
    case SetupLoop(end) => EnterBlock(c, LoopBlock(end, 0, n, false))
    case SetupElseLoop(end, orElse) => EnterBlock(c, LoopBlock(end, orElse, n, false))
    case PopBlock => if c.blocks == [] then c.(status := Status.Fatal) else LeaveBlock(c)
    case ContinueLoop(to) => c.(reason := REASON_CONTINUE, ret := Some(Num(to)))
    case BreakLoop => c.(reason := REASON_BREAK)
    case BreakElseLoop => c.(reason := REASON_BREAKELSE)
    case SetupExcept(onCatch, onFinally, endFinally) =>
      var c1 := EnterBlock(c, ExceptBlock(onCatch, onFinally, endFinally, n, false));
      if c1.status.Running? then Push(c1, Num(REASON_FINALLY), size) else c1
    case EndFinally => EndFinallyStep(w, c)
    case Throw =>
      var v := Top(c);
      Raised(Drop(c, 1), if v.Num? || !w.throwable(v) then w.notThrowable else v)
    case Return => Drop(c, 1).(ret := Some(Top(c)), reason := REASON_RETURN)
    case PackTuple(k) => Push(Drop(c, k), Tuple(c.stack[n - k..]), size)
    case UnpackTuple(k) =>
      if Top(c).Tuple? then PushAll(Drop(c, 1), Padded(Top(c).items, k), size)
      else Raised(Drop(c, 1), w.notTuple)
    case IterReset => IterResetStep(w, c)
    case IterFetch(k) => IterFetchStep(w, size, k, c)
  }

  function LeaveBlock(c: Vm): Vm
    requires c.blocks != []
  {
    c.(blocks := c.blocks[..|c.blocks| - 1])
  }

  /** END_FINALLY: a number on the stack is a pending reason, an exception object is one that no catch
      took, anything else is an internal error. */
  function EndFinallyStep(w: World, c: Vm): Vm
    requires c.stack != []
  {
    var v := Top(c);
    var c1 := Drop(c, 1).(ret := Some(v));
    if v.Num? then
      if v.n == REASON_RETURN || v.n == REASON_CONTINUE then
        if c1.stack == [] then c1.(status := Status.Fatal)
        else Drop(c1, 1).(ret := Some(Top(c1)), reason := v.n)
      else c1.(reason := v.n)
    else if v.Exc? then c1.(reason := REASON_RERAISE, ret := None)
    else Raised(c1, w.strayFinally)
  }

  /** ITER_RESET: lists are their own iterators; rewinding sets the cursor to the first element. */
  function IterResetStep(w: World, c: Vm): Vm
    requires c.stack != []
  {
    var v := Top(c);
    if v.List? then c.(cursors := c.cursors[v.ref := 0]) else Raised(Drop(c, 1), w.notIterator)
  }

  /** ITER_FETCH k: replace the iterator by null (if k is 3), the value, the key (if k is 2 or more)
      and hasNext, and advance the cursor if there was a next element. */
  function IterFetchStep(w: World, size: nat, k: nat, c: Vm): Vm
    requires c.stack != []
  {
    var v := Top(c);
    if !v.List? then c.(status := Status.Fatal) else
    var items := if v.ref in w.lists then w.lists[v.ref] else [];
    var at := if v.ref in c.cursors then c.cursors[v.ref] else 0;
    var c1 := PushAll(Drop(c, 1), Fetched(k, ItemOrNull(items, at), at, at < |items|), size);
    if at < |items| then c1.(cursors := c1.cursors[v.ref := at + 1]) else c1
  }

  function Fetched(k: nat, value: Value, key: nat, hasNext: bool): seq<Value> {
    (if k == 3 then [Null] else []) + [value] + (if k >= 2 then [Num(key)] else []) + [Bool(hasNext)]
  }

  /** A fetch by the machine is one turn of the list's own iterator methods. */
  lemma FetchIsTurn(w: World, size: nat, k: nat, c: Vm)
    requires c.stack != [] && Top(c).List?
    ensures var ref := Top(c).ref;
            var t := TurnAt(if ref in w.lists then w.lists[ref] else [], if ref in c.cursors then c.cursors[ref] else 0);
            var d := PushAll(Drop(c, 1), Fetched(k, if t.more then t.value.value else Null, t.key, t.more), size);
            IterFetchStep(w, size, k, c) == if t.more then d.(cursors := d.cursors[ref := t.next]) else d
  {
    hide PushAll;
  }

  // ----- instructions one by one -----

  /** A conditional jump is decided by the top of the stack, and leaves it there. */
  lemma JumpsDecide(w: World, size: nat, to: nat, c: Vm)
    requires c.stack != []
    ensures ExecInstr(w, size, JumpIfTrue(to), c) == if Holds(w, Top(c)) then c.(ip := to) else c
    ensures ExecInstr(w, size, JumpIfFalse(to), c) == if Holds(w, Top(c)) then c else c.(ip := to)
    ensures c.blocks != [] ==>
              var b := c.blocks[|c.blocks| - 1];
              ExecInstr(w, size, JumpIfFirstFalse(to), c)
              == c.(blocks := c.blocks[..|c.blocks| - 1] + [b.(visited := true)],
                    ip := if Holds(w, Top(c)) || b.visited then c.ip else to)
  {
  }

  /** An identifier is looked for among the locals, then in the frame, then among the builtins. */
  lemma LoadIdFinds(w: World, size: nat, id: Id, c: Vm)
    requires |c.stack| < size
    ensures ExecInstr(w, size, LoadId(id), c)
         == if id !in c.vars && id !in w.frameIds && id !in w.builtins then Raised(c, w.missing(id))
            else c.(stack := c.stack + [if id in c.vars then c.vars[id] else if id in w.frameIds then w.frameIds[id] else w.builtins[id]])
  {
  }

  /** Twenty blocks can be open, no more. */
  lemma TwentyBlocks(w: World, size: nat, c: Vm, end: nat, orElse: nat, onFinally: nat)
    requires |c.stack| < size && c.status.Running?
    ensures var (a, b, d) := (ExecInstr(w, size, SetupLoop(end), c), ExecInstr(w, size, SetupElseLoop(end, orElse), c),
                              ExecInstr(w, size, SetupExcept(orElse, onFinally, end), c));
            if |c.blocks| < 20 then
              && a == c.(blocks := c.blocks + [LoopBlock(end, 0, |c.stack|, false)])
              && b == c.(blocks := c.blocks + [LoopBlock(end, orElse, |c.stack|, false)])
              && d == c.(blocks := c.blocks + [ExceptBlock(orElse, onFinally, end, |c.stack|, false)], stack := c.stack + [Num(REASON_FINALLY)])
            else a.status.Fatal? && b.status.Fatal? && d.status.Fatal?
  {
  }

  /** Unpacking k values puts the elements on the stack in their order, and nulls where there are none. */
  lemma UnpackedItems(w: World, size: nat, k: nat, c: Vm, q: nat)
    requires c.stack != [] && Top(c).Tuple? && |c.stack| - 1 + k <= size && q < k && c.status.Running?
    ensures var d := ExecInstr(w, size, UnpackTuple(k), c);
            && |d.stack| == |c.stack| - 1 + k && d.stack[..|c.stack| - 1] == c.stack[..|c.stack| - 1]
            && d.stack[|c.stack| - 1 + q] == if q < |Top(c).items| then Top(c).items[q] else Null
  {
    hide PushAll;
    PushAllFits(Drop(c, 1), Padded(Top(c).items, k), size);
  }

  lemma {:induction false} PushAllFits(c: Vm, vs: seq<Value>, size: nat)
    requires |c.stack| + |vs| <= size && c.status.Running?
    ensures PushAll(c, vs, size) == c.(stack := c.stack + vs)
    decreases |vs|
  {
    if vs != [] {
      PushAllFits(Push(c, vs[0], size), vs[1..], size);
      assert c.stack + [vs[0]] + vs[1..] == c.stack + vs;
    } else {
      assert c.stack + vs == c.stack;
    }
  }

  // ----- unwinding -----

  /** Whether one pass over the innermost block gets anywhere: it resumes execution, pops a block or
      leaves the frame. */
  predicate Progresses(c: Vm) {
    c.blocks == [] ||
    var b := c.blocks[|c.blocks| - 1];
    if b.LoopBlock? then
      c.reason in {REASON_CONTINUE, REASON_BREAK, REASON_BREAKELSE, REASON_EXCEPTION}
    else
      c.reason in {REASON_RETURN, REASON_EXCEPTION, REASON_FINALLY}
  }

  /** One turn of the loop of unwind_blocks.  A frame that is out of blocks, or told to finish, is left. */
  function UnwindPass(c: Vm, size: nat): Vm {
    if c.blocks == [] then c.(status := Left) else
    var b := c.blocks[|c.blocks| - 1];
    if c.reason == REASON_CONTINUE && b.LoopBlock? then
      if c.ret.Some? && c.ret.value.Num? && c.ret.value.n >= 0
      then c.(ip := c.ret.value.n, reason := REASON_NONE)
      else c.(status := Corrupt)
    else if c.reason == REASON_RETURN && b.ExceptBlock? then
      if c.ret.None? then c.(status := Corrupt) else
      var c1 := PushAll(c, [c.ret.value, Num(REASON_RETURN)], size);
      if !c1.status.Running? then c1
      else if c.ip <= b.onFinally then c1.(ip := b.onFinally, reason := REASON_NONE)
      else c1.(ip := if c.ip <= b.endFinally then b.endFinally else c.ip, reason := REASON_FINALLY, status := Left)
    else if c.reason == REASON_EXCEPTION && b.ExceptBlock? then
      if c.exc.None? then c.(status := Corrupt) else
      Push(c.(stack := Trim(c.stack, b.depth + 1), reason := REASON_NONE, ip := b.onCatch), c.exc.value, size)
    else
      var c1 := c.(stack := Trim(c.stack, b.depth));
      if c.reason == REASON_EXCEPTION then LeaveBlock(c1)
      else if c.reason == REASON_FINALLY && b.ExceptBlock? then LeaveBlock(c1).(reason := REASON_NONE)
      else if c.reason == REASON_BREAKELSE && b.LoopBlock? then c1.(ip := b.orElse, reason := REASON_NONE)
      else if c.reason == REASON_BREAK && b.LoopBlock? then c1.(ip := b.end, reason := REASON_NONE)
      else c1
  }

  /** The machine is inside unwind_blocks. */
  predicate Busy(c: Vm) {
    c.status.Running? && c.reason != REASON_NONE
  }

  /** The machine will never do anything but unwind in place. */
  predicate Stuck(d: Vm, size: nat) {
    Busy(d) && UnwindPass(d, size) == d
  }

  // ----- nesting -----

  /** How much of the operand stack belongs to the innermost block's surroundings. */
  function Floor(c: Vm): nat {
    if c.blocks == [] then 0 else c.blocks[|c.blocks| - 1].depth
  }

  /** The blocks have saved their stack depths in order, and the operand stack is no lower than the
      innermost block found it. */
  predicate Nested(c: Vm) {
    Floor(c) <= |c.stack| && forall i, j :: 0 <= i <= j < |c.blocks| ==> c.blocks[i].depth <= c.blocks[j].depth
  }

  /** How many values an instruction takes from the stack for good. */
  function Pops<T>(i: Instr<T>, c: Vm): nat {
    if i.DupTop? || i.JumpIfTrue? || i.JumpIfFalse? || i.JumpIfFirstFalse? then 0
    else if i.EndFinally? && c.stack != [] && Top(c).Num? && Top(c).n in {REASON_RETURN, REASON_CONTINUE} then 2
    else Needs(i)
  }

  lemma {:induction false} PushAllGrows(c: Vm, vs: seq<Value>, size: nat)
    ensures PushAll(c, vs, size).blocks == c.blocks && |PushAll(c, vs, size).stack| >= |c.stack|
    decreases |vs|
  {
    if vs != [] && c.status.Running? { PushAllGrows(Push(c, vs[0], size), vs[1..], size); }
  }

  predicate OnBlocks<T>(i: Instr<T>) {
    i.JumpIfFirstFalse? || i.SetupLoop? || i.SetupElseLoop? || i.SetupExcept? || i.PopBlock?
  }

  lemma ExecPops(w: World, size: nat, i: Instr<nat>, c: Vm)
    requires !OnBlocks(i) && Pops(i, c) <= |c.stack|
    ensures var d := ExecInstr(w, size, i, c); d.blocks == c.blocks && |d.stack| >= |c.stack| - Pops(i, c)
  {
    if i.UnpackTuple? || i.IterFetch? {
      PushingPops(w, size, i, c);
    }
  }

  lemma PushingPops(w: World, size: nat, i: Instr<nat>, c: Vm)
    requires (i.UnpackTuple? || i.IterFetch?) && c.stack != []
    ensures var d := ExecInstr(w, size, i, c); d.blocks == c.blocks && |d.stack| >= |c.stack| - 1
  {
    hide PushAll;
    if i.UnpackTuple? && Top(c).Tuple? {
      PushAllGrows(Drop(c, 1), Padded(Top(c).items, i.n), size);
    } else if i.IterFetch? && Top(c).List? {
      var v := Top(c);
      var items := if v.ref in w.lists then w.lists[v.ref] else [];
      var at := if v.ref in c.cursors then c.cursors[v.ref] else 0;
      PushAllGrows(Drop(c, 1), Fetched(i.n, ItemOrNull(items, at), at, at < |items|), size);
    }
  }

  /** Instructions that leave the surroundings of the innermost block alone keep the blocks nested. */
  lemma ExecNested(w: World, size: nat, i: Instr<nat>, c: Vm)
    requires Nested(c) && Floor(c) + Pops(i, c) <= |c.stack|
    ensures Nested(ExecInstr(w, size, i, c))
  {
    if OnBlocks(i) {
      BlocksNested(w, size, i, c);
    } else {
      hide ExecInstr, Pops;
      ExecPops(w, size, i, c);
    }
  }

  lemma BlocksNested(w: World, size: nat, i: Instr<nat>, c: Vm)
    requires Nested(c) && OnBlocks(i) && Pops(i, c) <= |c.stack|
    ensures Nested(ExecInstr(w, size, i, c))
  {
    hide Nested, PushAll, Pops, IterResetStep, IterFetchStep, EndFinallyStep, PushResult;
    var d := ExecInstr(w, size, i, c);
    if i.JumpIfFirstFalse? {
      assert d.stack == c.stack && |d.blocks| == |c.blocks|;
      SameDepths(c, d);
    } else {
      FewerOrDeeper(c, d);
    }
  }

  lemma FewerOrDeeper(c: Vm, d: Vm)
    requires Nested(c) && c.stack <= d.stack
    requires d.blocks <= c.blocks || (d.blocks != [] && d.blocks[..|d.blocks| - 1] == c.blocks && Floor(d) == |c.stack|)
    ensures Nested(d)
  {
    if !(d.blocks <= c.blocks) {
      assert forall j :: 0 <= j < |c.blocks| ==> d.blocks[j] == d.blocks[..|d.blocks| - 1][j];
    }
  }

  lemma SameDepths(c: Vm, d: Vm)
    requires Nested(c) && d.stack == c.stack
    requires |d.blocks| == |c.blocks| && forall j :: 0 <= j < |c.blocks| ==> d.blocks[j].depth == c.blocks[j].depth
    ensures Nested(d)
  {
  }

  /** Unwinding always does. */
  lemma UnwindNested(c: Vm, size: nat)
    requires Nested(c)
    ensures Nested(UnwindPass(c, size))
  {
    hide PushAll;
    if c.ret.Some? { PushAllGrows(c, [c.ret.value, Num(REASON_RETURN)], size); }
  }

  // ----- fetching and decoding -----

  /** The 16-bit operand at an offset, low byte first.  (Assembled code never ends inside one.) */
  function Operand(code: seq<Byte>, at: nat): nat {
    if at + 1 < |code| then code[at] as int + 256 * code[at + 1] as int else 0
  }

  /** The number of operands is in the high bits of the opcode. */
  function Operands(op: nat): nat {
    if op >= 0xE0 then 3 else if op >= 0xC0 then 2 else if op >= 0x80 then 1 else 0
  }

  function BinOpOf(n: nat): Option<BinOp> {
    var all := [Add, Sub, Mul, Div, Mod, BitAnd, BitOr, BitXor, Shl, Shr];
    if n < 10 then Some(all[n]) else None
  }

  /** Number 8 is the `instanceof` test of catch clauses. */
  function CmpOpOf(n: nat): Option<CmpOp> {
    match n
    case 0 => Some(Eq) case 1 => Some(Ne) case 2 => Some(Lt) case 3 => Some(Gt) case 4 => Some(Le)
    case 5 => Some(Ge) case 9 => Some(Re) case 10 => Some(Nre) case _ => None
  }

  /** Opcodes without operand.  None, here and below, is a fatal error: an opcode outside this model
      or an operand outside its table. */
  function DecodePlain(op: nat): Option<Instr<nat>> {
    match op
    case 0x01 => Some(PopTop)
    case 0x04 => Some(DupTop)
    case 0x10 => Some(Throw)
    case 0x72 => Some(PopBlock)
    case 0x73 => Some(Return)
    case 0x74 => Some(BreakLoop)
    case 0x75 => Some(BreakElseLoop)
    case 0x7A => Some(EndFinally)
    case 0x7B => Some(IterReset)
    case _ => None
  }

  /** Opcodes with one operand a that is a code offset or an offset from next. */
  function DecodeJump(next: nat, op: nat, a: nat): Option<Instr<nat>> {
    match op
    case 0x83 => Some(JumpForward(next + a))
    case 0x84 => Some(JumpIfTrue(next + a))
    case 0x85 => Some(JumpIfFalse(next + a))
    case 0x86 => Some(JumpAbsolute(a))
    case 0x90 => Some(SetupLoop(next + a))
    case 0x92 => Some(ContinueLoop(a))
    case 0xA0 => Some(JumpIfFirstFalse(next + a))
    case _ => None
  }

  /** Opcodes with one operand a that is a number or a table index. */
  function DecodeData(code: Bytecode, op: nat, a: nat): Option<Instr<nat>> {
    match op
    case 0x80 => if a < |code.identifiers| then Some(StoreId(code.identifiers[a])) else None
    case 0x81 => if a < |code.constants| then Some(LoadConst(code.constants[a])) else None
    case 0x82 => if a < |code.identifiers| then Some(LoadId(code.identifiers[a])) else None
    case 0x95 =>
      if a == 8 then Some(CompareEx)
      else if CmpOpOf(a).Some? then Some(Compare(CmpOpOf(a).value)) else None
    case 0xAA => if BinOpOf(a).Some? then Some(Operate(BinOpOf(a).value)) else None
    case 0xAB => Some(PackTuple(a))
    case 0xAC => Some(UnpackTuple(a))
    case 0xB1 => Some(IterFetch(a))
    case _ => None
  }

  /** The instruction with opcode op and operands a, b, c, before code offset next. */
  function Decode(code: Bytecode, next: nat, op: nat, a: nat, b: nat, c: nat): Option<Instr<nat>> {
    if op < 0x80 then DecodePlain(op)
    else if op in {0x83, 0x84, 0x85, 0x86, 0x90, 0x92, 0xA0} then DecodeJump(next, op, a)
    else if op < 0xC0 then DecodeData(code, op, a)
    else if op == 0xC1 then Some(SetupElseLoop(next + a, next + b))
    else if op == 0xE0 then Some(SetupExcept(next + a, next + b, next + c))
    else None
  }

  /** The opcode at a code offset and the instruction it starts. */
  function Fetch(b: Bytecode, ip: nat): Option<Instr<nat>>
    requires ip < |b.code|
  {
    Decode(b, After(b, ip), b.code[ip], Operand(b.code, ip + 1), Operand(b.code, ip + 3), Operand(b.code, ip + 5))
  }

  /** The code offset behind the instruction at ip. */
  function After(b: Bytecode, ip: nat): nat
    requires ip < |b.code|
  {
    ip + 1 + 2 * Operands(b.code[ip])
  }

  /** Fetch, decode and execute one instruction.  Running past the code stops the frame. */
  function Dispatch(w: World, b: Bytecode, c: Vm): Vm {
    if c.ip >= |b.code| || b.code[c.ip] == 0 then c.(status := Left) else
    var i := Fetch(b, c.ip);
    var next := c.(ip := After(b, c.ip));
    if i.None? then next.(status := Status.Fatal) else ExecInstr(w, b.stackSize, i.value, next)
  }

  /** One step: an unwinding pass while there is a reason to unwind, otherwise an instruction. */
  function Step(w: World, b: Bytecode, c: Vm): Vm {
    if !c.status.Running? then c
    else if c.reason != REASON_NONE then UnwindPass(c, b.stackSize)
    else Dispatch(w, b, c)
  }

  function Run(w: World, b: Bytecode, n: nat, c: Vm): Vm {
    if n == 0 then c else Run(w, b, n - 1, Step(w, b, c))
  }

  lemma {:induction false} RunAdd(w: World, b: Bytecode, m: nat, n: nat, c: Vm)
    ensures Run(w, b, m + n, c) == Run(w, b, n, Run(w, b, m, c))
  {
    if m > 0 { RunAdd(w, b, m - 1, n, Step(w, b, c)); }
  }

  /** A frame that has stopped stays as it is. */
  lemma {:induction false} RunStopped(w: World, b: Bytecode, n: nat, c: Vm)
    requires !c.status.Running?
    ensures Run(w, b, n, c) == c
  {
    if n > 0 { RunStopped(w, b, n - 1, c); }
  }
}
