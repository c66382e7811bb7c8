/** The stack frame as the machine updates it in place: an operand stack that grows downwards, a fixed
    array of blocks, the identifier table, and the loops that pop, unwind, pack and unpack. */
module StackFrames {
  import opened Values
  import opened Assembly
  import opened Machine
  import opened Unwinding

  function Reversed<T>(s: seq<T>): (r: seq<T>)
    ensures |r| == |s| && forall i :: 0 <= i < |s| ==> r[i] == s[|s| - 1 - i]
  {
    seq(|s|, i requires 0 <= i < |s| => s[|s| - 1 - i])
  }

  class StackFrame {
    const size: nat
    const stack: array<Value>
    const blocks: array<Block>
    var sp: nat
    var blockCount: nat
    var ip: nat
    var locals: Vars
    var cursors: map<nat, nat>
    var reason: int
    var ret: Option<Value>
    var exc: Option<Value>
    var status: Status

    predicate Valid()
      reads this`sp, this`blockCount
    {
      stack.Length == size && blocks.Length == BLOCK_MAX_DEPTH && sp <= size && blockCount <= BLOCK_MAX_DEPTH
    }

    /** The operand stack from its bottom, which is at the end of the array. */
    function Operands(): (s: seq<Value>)
      requires Valid()
      reads this`sp, this`blockCount, stack
      ensures |s| == size - sp
    {
      Reversed(stack[sp..])
    }

    /** The state as the machine sees it. */
    function State(): Vm
      requires Valid()
      reads this, stack, blocks
    {
      Vm(ip, Operands(), blocks[..blockCount], locals, cursors, reason, ret, exc, status)
    }

    constructor (size: nat, locals: Vars)
      ensures Valid() && this.size == size && fresh(stack) && fresh(blocks)
      ensures State() == Vm(0, [], [], locals, map[], REASON_NONE, None, None, Running)
    {
      this.size := size;
      stack := new Value[size](i => Null);
      blocks := new Block[BLOCK_MAX_DEPTH](i => LoopBlock(0, 0, 0, false));
      sp, blockCount, ip := size, 0, 0;
      this.locals, cursors := locals, map[];
      reason, ret, exc, status := REASON_NONE, None, None, Running;
    }

    // ----- the operand stack -----

    /** Writing past the full stack is not caught. */
    method Push(v: Value)
      requires Valid()
      modifies this`sp, this`status, stack
      ensures Valid() && State() == Machine.Push(old(State()), v, size)
    {
      if sp == 0 {
        status := Corrupt;
        return;
      }
      ghost var before := Operands();
      sp := sp - 1;
      stack[sp] := v;
      assert Operands() == before + [v];
    }

    /** Taking a value from the empty stack is a fatal error. */
    method Pop() returns (v: Value)
      requires Valid()
      modifies this`sp, this`status, stack
      ensures Valid()
      ensures old(sp) < size ==> v == Top(old(State())) && State() == Drop(old(State()), 1)
      ensures old(sp) == size ==> State() == old(State()).(status := Status.Fatal)
    {
      if sp >= size {
        status := Status.Fatal;
        return Null;
      }
      ghost var before := Operands();
      v := stack[sp];
      stack[sp] := Null;
      sp := sp + 1;
      assert Operands() == before[..|before| - 1];
    }

    method FetchTop() returns (v: Value)
      requires Valid() && sp < size
      ensures v == Top(State())
    {
      v := stack[sp];
    }

    /** Pop until no more than depth values are left. */
    method PopTo(depth: nat)
      requires Valid()
      modifies this`sp, this`status, stack
      ensures Valid() && State() == old(State()).(stack := Trim(old(State()).stack, depth))
    {
      ghost var c := State();
      while size - sp > depth
        invariant Valid() && |Operands()| <= |c.stack| && State() == c.(stack := c.stack[..|Operands()|])
        invariant |Operands()| >= depth || |Operands()| == |c.stack|
      {
        var v := Pop();
      }
    }

    // ----- blocks -----

    /** A new innermost block; too many of them are a fatal error. */
    method PushBlock(b: Block)
      requires Valid()
      modifies this`blockCount, this`status, blocks
      ensures Valid() && State() == EnterBlock(old(State()), b)
    {
      if blockCount >= BLOCK_MAX_DEPTH {
        status := Status.Fatal;
        return;
      }
      blocks[blockCount] := b;
      blockCount := blockCount + 1;
    }

    /** So is leaving a block when none is open. */
    method PopBlock() returns (b: Block)
      requires Valid()
      modifies this`blockCount, this`status
      ensures Valid()
      ensures old(blockCount) > 0 ==> b == old(State()).blocks[old(blockCount) - 1] && State() == LeaveBlock(old(State()))
      ensures old(blockCount) == 0 ==> State() == old(State()).(status := Status.Fatal)
    {
      if blockCount == 0 {
        status := Status.Fatal;
        return LoopBlock(0, 0, 0, false);
      }
      blockCount := blockCount - 1;
      b := blocks[blockCount];
    }

    method PeekBlock() returns (b: Block)
      requires Valid() && blockCount > 0
      ensures b == State().blocks[blockCount - 1]
    {
      b := blocks[blockCount - 1];
    }

    // ----- identifiers -----

    method SetIdentifier(id: Id, v: Value)
      requires Valid()
      modifies this`locals
      ensures Valid() && State() == old(State()).(vars := old(locals)[id := v])
    {
      locals := locals[id := v];
    }

    /** The locals come first, then the identifiers of the frame, then the builtins. */
    method FindIdentifier(w: World, id: Id) returns (v: Option<Value>)
      requires Valid()
      ensures v == if Lookup(w, locals, id).Ok? then Some(Lookup(w, locals, id).v) else None
    {
      if id in locals { return Some(locals[id]); }
      if id in w.frameIds { return Some(w.frameIds[id]); }
      if id in w.builtins { return Some(w.builtins[id]); }
      v := None;
    }

    // ----- unwinding -----

    /** One turn of the unwinding loop, case by case. */
    method UnwindOnce()
      requires Valid() && status.Running? && reason != REASON_NONE
      modifies this, stack
      ensures Valid() && State() == UnwindPass(old(State()), size)
    {
      if blockCount == 0 {
        status := Left;
        return;
      }
      var block := PeekBlock();
      if reason == REASON_CONTINUE && block.LoopBlock? {
        Continue();
      } else if reason == REASON_RETURN && block.ExceptBlock? {
        DelayReturn(block);
      } else if reason == REASON_EXCEPTION && block.ExceptBlock? {
        Catch(block);
      } else {
        PopTo(block.depth);
        if reason == REASON_EXCEPTION {
          var popped := PopBlock();
        } else if reason == REASON_FINALLY && block.ExceptBlock? {
          var popped := PopBlock();
          reason := REASON_NONE;
        } else if reason == REASON_BREAKELSE && block.LoopBlock? {
          ip, reason := block.orElse, REASON_NONE;
        } else if reason == REASON_BREAK && block.LoopBlock? {
          ip, reason := block.end, REASON_NONE;
        }
      }
    }

    /** The target of a continue is held as a number. */
    method Continue()
      requires Valid()
      modifies this`ip, this`reason, this`status
      ensures Valid()
      ensures var c := old(State());
              State() == if c.ret.Some? && c.ret.value.Num? && c.ret.value.n >= 0
                         then c.(ip := c.ret.value.n, reason := REASON_NONE) else c.(status := Corrupt)
    {
      if ret.Some? && ret.value.Num? && ret.value.n >= 0 {
        ip, reason := ret.value.n, REASON_NONE;
      } else {
        status := Corrupt;
      }
    }

    /** A return inside a try waits on the operand stack for the end of the finally part. */
    method DelayReturn(block: Block)
      requires Valid() && status.Running? && reason == REASON_RETURN
      requires blockCount > 0 && block == State().blocks[blockCount - 1] && block.ExceptBlock?
      modifies this, stack
      ensures Valid() && State() == UnwindPass(old(State()), size)
    {
      if ret.None? {
        status := Corrupt;
        return;
      }
      ghost var c := State();
      PushTwo(c, ret.value, Num(REASON_RETURN), size);
      Push(ret.value);
      if !status.Running? { return; }
      Push(Num(REASON_RETURN));
      if !status.Running? { return; }
      reason := REASON_NONE;
      if ip <= block.onFinally {
        ip := block.onFinally;
      } else {
        if ip <= block.endFinally { ip := block.endFinally; }
        reason, status := REASON_FINALLY, Left;
      }
    }

    /** An exception inside a try goes to the catches. */
    method Catch(block: Block)
      requires Valid() && status.Running? && reason == REASON_EXCEPTION
      requires blockCount > 0 && block == State().blocks[blockCount - 1] && block.ExceptBlock?
      modifies this, stack
      ensures Valid() && State() == UnwindPass(old(State()), size)
    {
      if exc.None? {
        status := Corrupt;
        return;
      }
      PopTo(block.depth + 1);
      reason, ip := REASON_NONE, block.onCatch;
      Push(exc.value);
    }

    /** The whole loop.  It ends because the innermost block has a case for the reason; without one the
        source never comes back. */
    method UnwindBlocks()
      requires Valid() && (Busy(State()) ==> Progresses(State()))
      modifies this, stack
      ensures Valid() && State() == Unwound(old(State()), size)
    {
      ghost var goal := Unwound(State(), size);
      while status.Running? && reason != REASON_NONE
        invariant Valid() && (Busy(State()) ==> Progresses(State())) && Unwound(State(), size) == goal
        decreases if Busy(State()) then blockCount + 1 else 0
      {
        ghost var c := State();
        UnwindOnce();
        UnwoundStep(c, size);
      }
    }

    // ----- instructions -----

    /** The result of an object's method. */
    method Deliver(r: Result)
      requires Valid()
      modifies this`sp, this`status, this`reason, this`exc, stack
      ensures Valid() && State() == PushResult(old(State()), r, size)
    {
      match r
      case Ok(v) => Push(v);
      case Raise(x) => reason, exc := REASON_EXCEPTION, Some(x);
      case Fatal => status := Status.Fatal;
    }

    /** Loads, stores and plain stack operations; a missing operand has been ruled out. */
    method PerformData(w: World, i: Instr<nat>)
      requires Valid() && |State().stack| >= Needs(i)
      requires i.LoadConst? || i.LoadId? || i.StoreId? || i.PopTop? || i.DupTop?
      modifies this, stack
      ensures Valid() && State() == ExecInstr(w, size, i, old(State()))
    {
      match i
      case LoadConst(v) => Push(v);
      case LoadId(id) =>
        var v := FindIdentifier(w, id);
        if v.Some? { Push(v.value); } else { Deliver(Raise(w.missing(id))); }
      case StoreId(id) =>
        var v := Pop();
        SetIdentifier(id, v);
      case PopTop => var v := Pop();
      case DupTop =>
        var v := FetchTop();
        Push(v);
    }

    /** Operators take their right operand from the top, comparisons their left one. */
    method PerformBinary(w: World, i: Instr<nat>)
      requires Valid() && |State().stack| >= Needs(i) && (i.Operate? || i.Compare? || i.CompareEx?)
      modifies this, stack
      ensures Valid() && State() == ExecInstr(w, size, i, old(State()))
    {
      ghost var c := State();
      var top := Pop();
      var below := Pop();
      assert State() == Drop(c, 2);
      match i
      case Operate(op) => Deliver(w.operate(op, below, top));
      case Compare(cmp) => Deliver(w.compare(cmp, top, below));
      case CompareEx => Push(Bool(w.isInstance(below, top)));
    }

    method PerformJump(w: World, i: Instr<nat>)
      requires Valid() && |State().stack| >= Needs(i)
      requires i.JumpForward? || i.JumpIfTrue? || i.JumpIfFalse? || i.JumpIfFirstFalse? || i.JumpAbsolute?
      modifies this, blocks
      ensures Valid() && State() == ExecInstr(w, size, i, old(State()))
    {
      match i
      case JumpForward(to) => ip := to;
      case JumpAbsolute(to) => ip := to;
      case JumpIfTrue(to) =>
        var v := FetchTop();
        if Truth(w, v) { ip := to; }
      case JumpIfFalse(to) =>
        var v := FetchTop();
        if !Truth(w, v) { ip := to; }
      case JumpIfFirstFalse(to) => JumpFirst(w, to);
    }

    /** Only the first visit to the innermost block can jump. */
    method JumpFirst(w: World, to: nat)
      requires Valid() && sp < size
      modifies this`ip, this`status, blocks
      ensures Valid() && State() == ExecInstr(w, size, JumpIfFirstFalse(to), old(State()))
    {
      var v := FetchTop();
      if blockCount == 0 {
        status := Corrupt;
        return;
      }
      var block := PeekBlock();
      if !Truth(w, v) && !block.visited { ip := to; }
      ghost var before := blocks[..blockCount];
      blocks[blockCount - 1] := block.(visited := true);
      assert blocks[..blockCount] == before[blockCount - 1 := block.(visited := true)];
    }

    method PerformLoop(w: World, i: Instr<nat>)
      requires Valid() && (i.SetupLoop? || i.SetupElseLoop? || i.ContinueLoop? || i.BreakLoop? || i.BreakElseLoop?)
      modifies this, blocks
      ensures Valid() && State() == ExecInstr(w, size, i, old(State()))
    {
      match i
      case SetupLoop(end) => PushBlock(LoopBlock(end, 0, size - sp, false));
      case SetupElseLoop(end, orElse) => PushBlock(LoopBlock(end, orElse, size - sp, false));
      case ContinueLoop(to) => reason, ret := REASON_CONTINUE, Some(Num(to));
      case BreakLoop => reason := REASON_BREAK;
      case BreakElseLoop => reason := REASON_BREAKELSE;
    }

    method PerformBlock(w: World, i: Instr<nat>)
      requires Valid() && status.Running? && (i.SetupExcept? || i.PopBlock?)
      modifies this, stack, blocks
      ensures Valid() && State() == ExecInstr(w, size, i, old(State()))
    {
      match i
      case SetupExcept(onCatch, onFinally, endFinally) =>
        PushBlock(ExceptBlock(onCatch, onFinally, endFinally, size - sp, false));
        if status.Running? { Push(Num(REASON_FINALLY)); }
      case PopBlock =>
        var b := PopBlock();
    }

    /** Only exceptions can be thrown; throwing anything else raises another exception. */
    method PerformThrow(w: World)
      requires Valid() && sp < size
      modifies this, stack
      ensures Valid() && State() == ExecInstr(w, size, Instr.Throw, old(State()))
    {
      var v := Pop();
      reason := REASON_EXCEPTION;
      exc := Some(if v.Num? || !w.throwable(v) then w.notThrowable else v);
    }

    method PerformReturn(w: World)
      requires Valid() && sp < size
      modifies this, stack
      ensures Valid() && State() == ExecInstr(w, size, Instr.Return, old(State()))
    {
      var v := Pop();
      reason, ret := REASON_RETURN, Some(v);
    }

    method EndOfFinally(w: World)
      requires Valid() && sp < size
      modifies this, stack
      ensures Valid() && State() == EndFinallyStep(w, old(State()))
    {
      ghost var c := State();
      var v := Pop();
      ret := Some(v);
      assert State() == Drop(c, 1).(ret := Some(v));
      if v.Num? {
        if v.n == REASON_RETURN || v.n == REASON_CONTINUE {
          if sp >= size {
            status := Status.Fatal;
            return;
          }
          var value := Pop();
          ret := Some(value);
        }
        reason := v.n;
      } else if v.Exc? {
        reason, ret := REASON_RERAISE, None;
      } else {
        reason, exc := REASON_EXCEPTION, Some(w.strayFinally);
      }
    }

    /** Pop k values into a tuple, from the last to the first, and push the tuple. */
    method PackTuple(w: World, k: nat)
      requires Valid() && k <= size - sp
      modifies this, stack
      ensures Valid() && State() == ExecInstr(w, size, Instr.PackTuple(k), old(State()))
    {
      hide ExecInstr;
      ghost var c := State();
      PackIs(w, size, k, c);
      var items: seq<Value> := [];
      var i := 0;
      while i != k
        invariant 0 <= i <= k && Valid() && i <= |c.stack| && State() == c.(stack := c.stack[..|c.stack| - i])
        invariant items == c.stack[|c.stack| - i..]
      {
        var v := Pop();
        items := [v] + items;
        i := i + 1;
      }
      Push(Tuple(items));
    }

    /** Push the first k elements of a tuple, and null for those it does not have. */
    method UnpackTuple(w: World, k: nat)
      requires Valid() && sp < size && status.Running?
      modifies this, stack
      ensures Valid() && State() == ExecInstr(w, size, Instr.UnpackTuple(k), old(State()))
    {
      hide ExecInstr, PushAll;
      ghost var c := State();
      UnpackIs(w, size, k, c);
      var v := Pop();
      if !v.Tuple? {
        reason, exc := REASON_EXCEPTION, Some(w.notTuple);
        return;
      }
      ghost var all := Padded(v.items, k);
      ghost var goal := PushAll(State(), all, size);
      var i := 0;
      assert all[0..] == all;
      while i < k
        invariant 0 <= i <= k && Valid() && PushAll(State(), all[i..], size) == goal
      {
        PushAllStep(State(), all, i, size);
        if !status.Running? { return; }
        Push(if i < |v.items| then v.items[i] else Null);
        i := i + 1;
      }
      assert all[i..] == [];
      PushAllNone(State(), size);
    }

    /** Lists are their own iterators; rewinding one goes back to its first element. */
    method PerformIterReset(w: World)
      requires Valid() && sp < size && status.Running?
      modifies this, stack
      ensures Valid() && State() == IterResetStep(w, old(State()))
    {
      ghost var c := State();
      var v := Pop();
      if !v.List? {
        reason, exc := REASON_EXCEPTION, Some(w.notIterator);
        return;
      }
      Push(v);
      assert Operands() == c.stack;
      cursors := cursors[v.ref := 0];
    }

    /** Metadata, value, key and hasNext; the cursor moves on if there is a next element. */
    method PerformIterFetch(w: World, k: nat)
      requires Valid() && sp < size && status.Running?
      modifies this, stack
      ensures Valid() && State() == IterFetchStep(w, size, k, old(State()))
    {
      hide PushAll, IterFetchStep;
      ghost var c := State();
      var v := FetchTop();
      FetchIs(w, size, k, c);
      if !v.List? {
        status := Status.Fatal;
        return;
      }
      v := Pop();
      var items := if v.ref in w.lists then w.lists[v.ref] else [];
      var at := if v.ref in cursors then cursors[v.ref] else 0;
      var hasNext := at < |items|;
      PushFetched(k, ItemOrNull(items, at), at, hasNext);
      if hasNext { cursors := cursors[v.ref := at + 1]; }
    }

    /** What a fetch leaves on the stack; the metadata is always null. */
    method PushFetched(k: nat, value: Value, key: nat, hasNext: bool)
      requires Valid() && status.Running?
      modifies this`sp, this`status, stack
      ensures Valid() && State() == PushAll(old(State()), Fetched(k, value, key, hasNext), size)
    {
      hide PushAll;
      PushFour(State(), if k == 3 then [Null] else [], value, if k >= 2 then [Num(key)] else [], Bool(hasNext), size);
      if k == 3 { Push(Null); }
      if status.Running? { Push(value); }
      if status.Running? && k >= 2 { Push(Num(key)); }
      if status.Running? { Push(Bool(hasNext)); }
    }

    /** One instruction; without its operands it is a fatal error or an access outside the stack. */
    method Perform(w: World, i: Instr<nat>)
      requires Valid() && status.Running?
      modifies this, stack, blocks
      ensures Valid() && State() == ExecInstr(w, size, i, old(State()))
    {
      if size - sp < Needs(i) {
        status := if i.DupTop? || i.JumpIfTrue? || i.JumpIfFalse? || i.JumpIfFirstFalse? then Corrupt else Status.Fatal;
        return;
      }
      hide ExecInstr;
      StepsAre(w, size, i, State());
      if i.LoadConst? || i.LoadId? || i.StoreId? || i.PopTop? || i.DupTop? {
        PerformData(w, i);
      } else if i.Operate? || i.Compare? || i.CompareEx? {
        PerformBinary(w, i);
      } else if i.JumpForward? || i.JumpIfTrue? || i.JumpIfFalse? || i.JumpIfFirstFalse? || i.JumpAbsolute? {
        PerformJump(w, i);
      } else if i.SetupLoop? || i.SetupElseLoop? || i.ContinueLoop? || i.BreakLoop? || i.BreakElseLoop? {
        PerformLoop(w, i);
      } else if i.SetupExcept? || i.PopBlock? {
        PerformBlock(w, i);
      } else {
        match i
        case EndFinally => EndOfFinally(w);
        case Throw => PerformThrow(w);
        case Return => PerformReturn(w);
        case PackTuple(k) => PackTuple(w, k);
        case UnpackTuple(k) => UnpackTuple(w, k);
        case IterReset => PerformIterReset(w);
        case IterFetch(k) => PerformIterFetch(w, k);
      }
    }

    /** Fetch, decode and execute; running past the code stops the frame. */
    method Dispatch(w: World, b: Bytecode)
      requires Valid() && status.Running? && b.stackSize == size
      modifies this, stack, blocks
      ensures Valid() && State() == Machine.Dispatch(w, b, old(State()))
    {
      hide ExecInstr;
      if ip >= |b.code| || b.code[ip] == 0 {
        status := Left;
        return;
      }
      var i := Fetch(b, ip);
      ip := After(b, ip);
      if i.None? {
        status := Status.Fatal;
      } else {
        Perform(w, i.value);
      }
    }

    /** The dispatch loop, for the given number of instructions and unwinding passes. */
    method Execute(w: World, b: Bytecode, steps: nat)
      requires Valid() && b.stackSize == size
      modifies this, stack, blocks
      ensures Valid() && State() == Run(w, b, steps, old(State()))
    {
      hide Run, Machine.Dispatch, UnwindPass;
      ghost var c := State();
      RunNone(w, b, c);
      for n := 0 to steps
        invariant Valid() && Run(w, b, n, c) == State()
      {
        RunAdd(w, b, n, 1, c);
        RunMore(w, b, 1, State());
        RunNone(w, b, Step(w, b, State()));
        if status.Running? {
          if reason != REASON_NONE { UnwindOnce(); } else { Dispatch(w, b); }
        }
      }
    }
  }

  /** The instructions that are defined by steps of their own. */
  lemma StepsAre(w: World, size: nat, i: Instr<nat>, c: Vm)
    requires |c.stack| >= Needs(i)
    ensures i.EndFinally? ==> ExecInstr(w, size, i, c) == EndFinallyStep(w, c)
    ensures i.IterReset? ==> ExecInstr(w, size, i, c) == IterResetStep(w, c)
    ensures i.IterFetch? ==> ExecInstr(w, size, i, c) == IterFetchStep(w, size, i.n, c)
  {
  }

  /** Pushing four groups of values one after the other. */
  lemma PushFour(c: Vm, a: seq<Value>, v: Value, k: seq<Value>, u: Value, size: nat)
    requires |a| <= 1 && |k| <= 1 && c.status.Running?
    ensures var c1 := if a == [] then c else Machine.Push(c, a[0], size);
            var c2 := if c1.status.Running? then Machine.Push(c1, v, size) else c1;
            var c3 := if c2.status.Running? && k != [] then Machine.Push(c2, k[0], size) else c2;
            var c4 := if c3.status.Running? then Machine.Push(c3, u, size) else c3;
            PushAll(c, a + [v] + k + [u], size) == c4
  {
    var all := a + [v] + k + [u];
    var c1 := if a == [] then c else Machine.Push(c, a[0], size);
    assert all[0..] == all;
    if a != [] { PushAllStep(c, all, 0, size); }
    PushAllStep(c1, all, |a|, size);
    var c2 := if c1.status.Running? then Machine.Push(c1, v, size) else c1;
    if c1.status.Running? {
      if k != [] { PushAllStep(c2, all, |a| + 1, size); }
      var c3 := if c2.status.Running? && k != [] then Machine.Push(c2, k[0], size) else c2;
      PushAllStep(c3, all, |a| + 1 + |k|, size);
      assert all[|all|..] == [];
    }
  }

  lemma UnpackIs(w: World, size: nat, k: nat, c: Vm)
    requires c.stack != []
    ensures ExecInstr(w, size, Instr.UnpackTuple(k), c)
         == if Top(c).Tuple? then PushAll(Drop(c, 1), Padded(Top(c).items, k), size) else Raised(Drop(c, 1), w.notTuple)
  {
    hide PushAll;
    if Top(c).Tuple? {
    }
  }

  lemma PackIs(w: World, size: nat, k: nat, c: Vm)
    requires k <= |c.stack|
    ensures ExecInstr(w, size, Instr.PackTuple(k), c) == Machine.Push(Drop(c, k), Tuple(c.stack[|c.stack| - k..]), size)
  {
  }

  lemma FetchIs(w: World, size: nat, k: nat, c: Vm)
    requires c.stack != []
    ensures var v := Top(c);
            IterFetchStep(w, size, k, c) ==
            if !v.List? then c.(status := Status.Fatal) else
            var items := if v.ref in w.lists then w.lists[v.ref] else [];
            var at := if v.ref in c.cursors then c.cursors[v.ref] else 0;
            var c1 := PushAll(Drop(c, 1), Fetched(k, ItemOrNull(items, at), at, at < |items|), size);
            if at < |items| then c1.(cursors := c1.cursors[v.ref := at + 1]) else c1
  {
    hide PushAll;
  }

  lemma PushAllStep(c: Vm, vs: seq<Value>, i: nat, size: nat)
    requires i < |vs|
    ensures PushAll(c, vs[i..], size) == if c.status.Running? then PushAll(Machine.Push(c, vs[i], size), vs[i + 1..], size) else c
  {
    assert vs[i..][1..] == vs[i + 1..];
  }

  lemma PushAllNone(c: Vm, size: nat)
    ensures PushAll(c, [], size) == c
  {
  }

  lemma PushTwo(c: Vm, v: Value, u: Value, size: nat)
    ensures c.status.Running? ==>
            PushAll(c, [v, u], size) == if Machine.Push(c, v, size).status.Running? then Machine.Push(Machine.Push(c, v, size), u, size)
                                        else Machine.Push(c, v, size)
  {
    assert [v, u][1..] == [u] && [u][1..] == [];
    var d := Machine.Push(c, v, size);
    assert PushAll(c, [v, u], size) == if c.status.Running? then PushAll(d, [u], size) else c;
    assert PushAll(d, [u], size) == if d.status.Running? then PushAll(Machine.Push(d, u, size), [], size) else d;
  }
}
